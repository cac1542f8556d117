/** Register access: audio_read's read-back masks, audio_write's power gate
    and per-register decode (with "zombie mode" envelope writes), and the
    register sequence audio_init writes. Offsets are `addr - 0xFF10`. */
module ApuRegisters {
  import opened Bits
  import opened ApuState
  import opened ApuChannel

  /** audio_read: the stored byte with the register's always-one bits set. */
  function Read(a: Apu, addr: int): (r: byte)
    requires AddrBase <= addr < AddrBase + MemSize
    ensures forall k: nat :: Bit(r, k) <==> Bit(a.mem[addr - AddrBase], k) || Bit(OrTab[addr - AddrBase], k)
  {
    var off := addr - AddrBase;
    Pow2Values();
    BitOrBound(a.mem[off], OrTab[off], 8);
    BitOrAllBits(a.mem[off], OrTab[off]);
    BitOr(a.mem[off], OrTab[off])
  }

  /** NRx2 while the channel is powered and enabled: the envelope's
      "zombie mode" volume change, as a uint8 masked to four bits. */
  function ZombieVolume(v: byte, env: VolEnv, val: byte): (nv: byte)
    ensures nv <= MaxChanVolume
    ensures env.step == 0 && env.inc != 0 ==>
              nv == (if Bit(val, 3) then (v + 1) % 16 else (v + 2) % 16)
    ensures !(env.step == 0 && env.inc != 0) ==> nv == (16 - v) % 16
  {
    Pow2Values();
    Wrap8Low4(v + 1);
    Wrap8Low4(v + 2);
    Wrap8Low4(16 - v);
    var w :=
      if env.step == 0 && env.inc != 0 then
        if (val / 8) % 2 == 1 then Wrap8(v + 1) else Wrap8(v + 2)
      else Wrap8(16 - v);
    w % 16
  }

  /** The "16 - v" branch of zombie mode undoes itself on 4-bit volumes. */
  lemma ZombieFlipInvolution(v: byte, env: VolEnv, val: byte)
    requires v <= MaxChanVolume && !(env.step == 0 && env.inc != 0)
    ensures ZombieVolume(ZombieVolume(v, env, val), env, val) == v
  {
  }

  /** NR12 / NR22 / NR42. The volume and the envelope step change only when
      the written byte powers the channel and it is running. */
  function EnvelopeWrite(c: Chan, val: byte): (r: Chan)
    ensures r.volumeInit == val / 16 && r.volumeInit <= MaxChanVolume
    ensures r.powered <==> val >= 8
    ensures r.powered && c.enabled ==>
              r.volume == ZombieVolume(c.volume, c.env, val) && r.env == c.env.(step := val % 8)
    ensures !(r.powered && c.enabled) ==> r.volume == c.volume && r.env == c.env
    ensures r == c.(volumeInit := r.volumeInit, powered := r.powered, volume := r.volume, env := r.env)
  {
    var c1 := c.(volumeInit := val / 16, powered := val / 8 != 0);
    if c1.powered && c1.enabled then
      c1.(volume := ZombieVolume(c1.volume, c1.env, val), env := c1.env.(step := val % 8))
    else c1
  }

  /** Channel i's part of an NR51 write: bit 4+i routes it left, bit i right. */
  function Pan(c: Chan, val: byte, i: nat): (r: Chan)
    ensures r.onLeft <==> Bit(val, 4 + i)
    ensures r.onRight <==> Bit(val, i)
    ensures r == c.(onLeft := r.onLeft, onRight := r.onRight)
  {
    c.(onLeft := (val / Pow2(4 + i)) % 2 == 1, onRight := (val / Pow2(i)) % 2 == 1)
  }

  /** Facts every decode step keeps: registers other than NR52 as stored,
      the power bit, and loads below the period. */
  predicate DecodeFrame(a: Apu, r: Apu) {
    && (forall k | 0 <= k < MemSize && k != NR52 :: r.mem[k] == a.mem[k])
    && (PoweredOn(r) <==> PoweredOn(a))
    && LoadsOk(r.chans)
  }

  /** NR30: bit 7 powers the wave channel and also enables or stops it. */
  function WaveDacWrite(a: Apu, val: byte): (r: Apu)
    requires LoadsOk(a.chans)
    ensures r.chans[2].powered <==> val >= 0x80
    ensures r.chans[2].enabled <==> val >= 0x80
    ensures r.chans == a.chans[2 := a.chans[2].(powered := val >= 0x80, enabled := val >= 0x80)]
    ensures DecodeFrame(a, r)
  {
    var a1 := a.(chans := a.chans[2 := a.chans[2].(powered := val >= 0x80)]);
    ChanEnable(a1, 2, val >= 0x80)
  }

  /** The NRx4 bits a write stores into channel i before any trigger. */
  function ControlBits(c: Chan, i: nat, val: byte): (r: Chan)
    ensures i < 3 ==> r.freq == c.freq % 256 + (val % 8) * 256
    ensures i >= 3 ==> r.freq == c.freq
    ensures r.len.enabled <==> Bit(val, 6)
    ensures r == c.(freq := r.freq, len := c.len.(enabled := r.len.enabled))
  {
    Pow2Values();
    var c1 := if i >= 3 then c else c.(freq := c.freq % 256 + (val % 8) * 256);
    c1.(len := c1.len.(enabled := (val / 64) % 2 == 1))
  }

  /** NRx4 (and NR44 for the noise channel, which has no frequency bits):
      the top three frequency bits, the length enable in bit 6 and a trigger
      when bit 7 is set. */
  function ControlWrite(a: Apu, i: nat, val: byte): (r: Apu)
    requires i < 4 && LoadsOk(a.chans)
    ensures i < 3 ==> r.chans[i].freq == a.chans[i].freq % 256 + (val % 8) * 256
    ensures i == 3 ==> r.chans[i].freq == a.chans[i].freq
    ensures r.chans[i].len.enabled <==> Bit(val, 6)
    ensures val >= 0x80 ==> r.chans[i].enabled && r.chans[i].len.counter == 0
                            && r.chans[i].volume == a.chans[i].volumeInit
    ensures val < 0x80 ==> r.chans[i] == ControlBits(a.chans[i], i, val) && r.mem == a.mem
    ensures forall j | 0 <= j < 4 && j != i :: r.chans[j] == a.chans[j]
    ensures r.volL == a.volL && r.volR == a.volR
    ensures DecodeFrame(a, r)
  {
    var a1 := a.(chans := a.chans[i := ControlBits(a.chans[i], i, val)]);
    if val >= 0x80 then Trigger(a1, i) else a1
  }

  /** The channel whose five registers hold offset `off`: the truncated
      quotient off / 5, found by comparisons. */
  function RegChannel(off: nat): (i: nat)
    requires off < 0x14
    ensures i < 4 && 5 * i <= off < 5 * i + 5
  {
    if off < 5 then 0 else if off < 10 then 1 else if off < 15 then 2 else 3
  }

  /** RegChannel is the quotient by five. */
  lemma RegChannelDiv(off: nat)
    requires off < 0x14
    ensures RegChannel(off) == off / 5
  {
    DivUnique(off, 5, RegChannel(off), off - 5 * RegChannel(off));
  }

  /** The per-register side effects of a write at offset `off` once the byte
      has been stored; channel RegChannel(off) is the one `(addr - 0xFF10) * 0.2f`
      selects. Offsets without a case only keep the stored byte. */
  function Decode(a: Apu, off: nat, val: byte): (r: Apu)
    requires off < MemSize && off != NR52
    requires LoadsOk(a.chans)
    ensures DecodeFrame(a, r)
  {
    if off == 0x14 then
      a.(volL := (val / 16) % 8, volR := val % 8)
    else if off == 0x15 then
      a.(chans := [Pan(a.chans[0], val, 0), Pan(a.chans[1], val, 1),
                   Pan(a.chans[2], val, 2), Pan(a.chans[3], val, 3)])
    else if off > 0x15 then
      a
    else
      DecodeChannel(a, off, val)
  }

  /** The decode of a write to one of the channels' own registers, NR10 to
      NR44. */
  function DecodeChannel(a: Apu, off: nat, val: byte): (r: Apu)
    requires off < 0x14
    requires LoadsOk(a.chans)
    ensures DecodeFrame(a, r)
  {
    var i := RegChannel(off);
    var c := a.chans[i];
    if off == 0x02 || off == 0x07 || off == 0x11 then
      SetChan(a, i, EnvelopeWrite(c, val))
    else if off == 0x0C then
      SetChan(a, i, c.(volume := (val / 32) % 4, volumeInit := (val / 32) % 4))
    else if off == 0x01 || off == 0x06 || off == 0x10 then
      SetChan(a, i, c.(len := c.len.(load := val % 64), duty := DutyLookup[val / 64]))
    else if off == 0x0B then
      SetChan(a, i, c.(len := c.len.(load := val)))
    else if off == 0x03 || off == 0x08 || off == 0x0D then
      SetChan(a, i, c.(freq := (c.freq / 256) * 256 + val))
    else if off == 0x0A then
      WaveDacWrite(a, val)
    else if off == 0x04 || off == 0x09 || off == 0x0E || off == 0x13 then
      ControlWrite(a, i, val)
    else if off == 0x12 then
      SetChan(a, 3, c.(freq := val / 16, lfsrWide := (val / 8) % 2 == 0, lfsrDiv := val % 8))
    else a
  }

  /** The store of a decoded write into channel i; only the channel
      changes, so the decode frame holds when its length load stays below
      the period. */
  function SetChan(a: Apu, i: nat, c: Chan): (r: Apu)
    requires i < 4 && LoadsOk(a.chans) && c.len.load < LenMax(i)
    ensures r == a.(chans := a.chans[i := c])
    ensures DecodeFrame(a, r)
  {
    a.(chans := a.chans[i := c])
  }

  /** A channel with its enabled flag cleared and nothing else touched. */
  function Stopped(c: Chan): (r: Chan)
    ensures !r.enabled
    ensures r.len == c.len
    ensures r.(enabled := c.enabled) == c
  {
    c.(enabled := false)
  }

  /** An NR52 write: only bit 7 is kept; with it clear, 0xFF10..0xFF25 are
      zeroed and every channel stops, while wave RAM is left alone. */
  function PowerWrite(a: Apu, val: byte): (r: Apu)
    ensures r.mem[NR52] == if val >= 0x80 then 0x80 else 0
    ensures forall k | NR52 < k < MemSize :: r.mem[k] == a.mem[k]
    ensures r.volL == a.volL && r.volR == a.volR
    ensures val < 0x80 ==>
              && (forall k | 0 <= k < NR52 :: r.mem[k] == 0)
              && (forall j | 0 <= j < 4 :: r.chans[j] == Stopped(a.chans[j]))
    ensures val >= 0x80 ==> r == a.(mem := a.mem[NR52 := 0x80])
    ensures LoadsOk(a.chans) ==> LoadsOk(r.chans)
  {
    if val < 0x80 then PowerOff(a.(mem := a.mem[NR52 := 0]))
    else a.(mem := a.mem[NR52 := 0x80])
  }

  /** n zero bytes, as memset leaves them. */
  function Zeros(n: nat): (r: seq<byte>)
    ensures |r| == n
    ensures forall k | 0 <= k < n :: r[k] == 0
  {
    seq(n, _ => 0)
  }

  /** The power-off half of an NR52 write, once the byte is stored: the
      memset of the registers below NR52 and every channel stopped. */
  function PowerOff(a: Apu): (r: Apu)
    ensures r.mem[NR52] == a.mem[NR52]
    ensures forall k | NR52 < k < MemSize :: r.mem[k] == a.mem[k]
    ensures forall k | 0 <= k < NR52 :: r.mem[k] == 0
    ensures r.volL == a.volL && r.volR == a.volR
    ensures forall j | 0 <= j < 4 :: r.chans[j] == Stopped(a.chans[j])
    ensures LoadsOk(a.chans) ==> LoadsOk(r.chans)
  {
    var low := Zeros(NR52);
    var z: seq<byte> := low + a.mem[NR52..];
    assert |z| == MemSize;
    assert forall k | NR52 <= k < MemSize :: z[k] == a.mem[k];
    assert forall k | 0 <= k < NR52 :: z[k] == low[k] == 0;
    var s0, s1, s2, s3 := Stopped(a.chans[0]), Stopped(a.chans[1]), Stopped(a.chans[2]), Stopped(a.chans[3]);
    var cs := [s0, s1, s2, s3];
    assert cs[0] == s0 && cs[1] == s1 && cs[2] == s2 && cs[3] == s3;
    Apu(z, cs, a.volL, a.volR)
  }

  /** audio_write. An NR52 write is PowerWrite; any other write is ignored
      while the NR52 byte is 0, and otherwise stores the byte and decodes it. */
  function Write(a: Apu, addr: int, val: byte): (r: Apu)
    requires AddrBase <= addr < AddrBase + MemSize
    requires LoadsOk(a.chans)
    ensures LoadsOk(r.chans)
    ensures addr - AddrBase == NR52 ==> r == PowerWrite(a, val)
    ensures addr - AddrBase != NR52 && a.mem[NR52] == 0 ==> r == a
    ensures addr - AddrBase != NR52 && a.mem[NR52] != 0 ==>
              && r.mem[addr - AddrBase] == val
              && (forall k | 0 <= k < MemSize && k != NR52 && k != addr - AddrBase :: r.mem[k] == a.mem[k])
              && (PoweredOn(r) <==> PoweredOn(a))
    ensures addr - AddrBase > NR52 && a.mem[NR52] != 0 ==>
              r == a.(mem := a.mem[addr - AddrBase := val])
  {
    var off := addr - AddrBase;
    if off == NR52 then
      PowerWrite(a, val)
    else if a.mem[NR52] == 0 then
      a
    else
      Decode(a.(mem := a.mem[off := val]), off, val)
  }

  /** Stopping a channel keeps it in range. */
  lemma StoppedKeepsRanges(i: nat, c: Chan)
    requires ChanInv(i, c)
    ensures ChanInv(i, Stopped(c))
  {
    var r := Stopped(c);
    assert r.(enabled := c.enabled) == c;
  }

  /** Every decode case leaves the channels and master volumes in range. */
  lemma DecodeKeepsRanges(a: Apu, off: nat, val: byte)
    requires off < MemSize && off != NR52 && RangeInv(a)
    ensures RangeInv(Decode(a, off, val))
  {
    if off == 0x15 {
      PanKeepsRanges(a, val);
    } else if off == 0x02 || off == 0x07 || off == 0x11 {
      EnvelopeKeepsRanges(a, off, val);
    } else if off == 0x04 || off == 0x09 || off == 0x0E || off == 0x13 {
      ControlKeepsRanges(a, off, val);
    } else if off == 0x0A {
      WaveDacKeepsRanges(a, val);
    } else if off < 0x14 {
      FieldWriteKeepsRanges(a, off, val);
    }
  }

  lemma EnvelopeKeepsRanges(a: Apu, off: nat, val: byte)
    requires (off == 0x02 || off == 0x07 || off == 0x11) && RangeInv(a)
    ensures RangeInv(Decode(a, off, val))
  {
    var i := RegChannel(off);
    var e := EnvelopeWrite(a.chans[i], val);
    assert ChanInv(i, e);
    OneChannelChanged(a.chans, i, e);
  }

  lemma WaveDacKeepsRanges(a: Apu, val: byte)
    requires RangeInv(a)
    ensures RangeInv(Decode(a, 0x0A, val))
  {
    var a1 := a.(chans := a.chans[2 := a.chans[2].(powered := val >= 0x80)]);
    OneChannelChanged(a.chans, 2, a1.chans[2]);
    ChanEnableKeepsRanges(a1, 2, val >= 0x80);
  }

  lemma ControlKeepsRanges(a: Apu, off: nat, val: byte)
    requires (off == 0x04 || off == 0x09 || off == 0x0E || off == 0x13) && RangeInv(a)
    ensures RangeInv(Decode(a, off, val))
  {
    DecodeControl(a, off, val);
    ControlWriteKeepsRanges(a, RegChannel(off), val);
  }

  /** Writes to NRx4 go to the control write of channel RegChannel(off). */
  lemma DecodeControl(a: Apu, off: nat, val: byte)
    requires (off == 0x04 || off == 0x09 || off == 0x0E || off == 0x13) && LoadsOk(a.chans)
    ensures Decode(a, off, val) == ControlWrite(a, RegChannel(off), val)
  {
    if off == 0x04 {
      assert Decode(a, 0x04, val) == ControlWrite(a, 0, val);
    } else if off == 0x09 {
      assert Decode(a, 0x09, val) == ControlWrite(a, 1, val);
    } else if off == 0x0E {
      assert Decode(a, 0x0E, val) == ControlWrite(a, 2, val);
    } else {
      assert Decode(a, 0x13, val) == ControlWrite(a, 3, val);
    }
  }

  lemma ControlWriteKeepsRanges(a: Apu, i: nat, val: byte)
    requires i < 4 && RangeInv(a)
    ensures RangeInv(ControlWrite(a, i, val))
  {
    var c := a.chans[i];
    var cb := ControlBits(c, i, val);
    var a1 := a.(chans := a.chans[i := cb]);
    assert ChanInv(i, cb) by {
      assert cb == c.(freq := cb.freq, len := c.len.(enabled := cb.len.enabled));
    }
    OneChannelChanged(a.chans, i, cb);
    if val >= 0x80 {
      TriggerKeepsRanges(a1, i);
    }
  }

  /** The plain field writes: NRx1, NR31, NR32, NRx3 and NR43. */
  lemma FieldWriteKeepsRanges(a: Apu, off: nat, val: byte)
    requires off < 0x14 && off != 0x02 && off != 0x07 && off != 0x11 && off != 0x0A
    requires off != 0x04 && off != 0x09 && off != 0x0E && off != 0x13
    requires RangeInv(a)
    ensures RangeInv(Decode(a, off, val))
  {
    if off == 0x03 || off == 0x08 || off == 0x0D {
      FreqLowKeepsRanges(a, off, val);
    } else if off == 0x01 || off == 0x06 || off == 0x10 || off == 0x0B || off == 0x0C {
      LengthKeepsRanges(a, off, val);
    } else {
      OtherFieldKeepsRanges(a, off, val);
    }
  }

  lemma OtherFieldKeepsRanges(a: Apu, off: nat, val: byte)
    requires (off == 0x00 || off == 0x05 || off == 0x0F || off == 0x12) && RangeInv(a)
    ensures RangeInv(Decode(a, off, val))
  {
    if off == 0x12 {
      NoiseFieldKeepsRanges(a, val);
    } else {
      assert Decode(a, off, val) == a;
    }
  }

  lemma NoiseFieldKeepsRanges(a: Apu, val: byte)
    requires RangeInv(a)
    ensures RangeInv(Decode(a, 0x12, val))
  {
    var c := a.chans[3];
    var n := c.(freq := val / 16, lfsrWide := (val / 8) % 2 == 0, lfsrDiv := val % 8);
    assert ChanInv(3, n);
    OneChannelChanged(a.chans, 3, n);
    assert Decode(a, 0x12, val) == a.(chans := a.chans[3 := n]);
  }

  lemma FreqLowKeepsRanges(a: Apu, off: nat, val: byte)
    requires (off == 0x03 || off == 0x08 || off == 0x0D) && RangeInv(a)
    ensures RangeInv(Decode(a, off, val))
  {
    var i := RegChannel(off);
    var c := a.chans[i];
    LowByteWrite(c.freq, val);
    var n := c.(freq := (c.freq / 256) * 256 + val);
    assert ChanInv(i, n);
    OneChannelChanged(a.chans, i, n);
    DecodeFreqLow(a, off, val);
  }

  /** Writes to NRx3 replace the low frequency byte of channel RegChannel(off). */
  lemma DecodeFreqLow(a: Apu, off: nat, val: byte)
    requires (off == 0x03 || off == 0x08 || off == 0x0D) && LoadsOk(a.chans)
    ensures var c := a.chans[RegChannel(off)];
            Decode(a, off, val) == a.(chans := a.chans[RegChannel(off) := c.(freq := (c.freq / 256) * 256 + val)])
  {
    LowByteWrite(a.chans[RegChannel(off)].freq, val);
    if off == 0x03 {
      assert Decode(a, 0x03, val) == a.(chans := a.chans[0 := a.chans[0].(freq := (a.chans[0].freq / 256) * 256 + val)]);
    } else if off == 0x08 {
      assert Decode(a, 0x08, val) == a.(chans := a.chans[1 := a.chans[1].(freq := (a.chans[1].freq / 256) * 256 + val)]);
    } else {
      assert Decode(a, 0x0D, val) == a.(chans := a.chans[2 := a.chans[2].(freq := (a.chans[2].freq / 256) * 256 + val)]);
    }
  }

  lemma LengthKeepsRanges(a: Apu, off: nat, val: byte)
    requires (off == 0x01 || off == 0x06 || off == 0x10 || off == 0x0B || off == 0x0C) && RangeInv(a)
    ensures RangeInv(Decode(a, off, val))
  {
    var i := RegChannel(off);
    var c := a.chans[i];
    var n := if off == 0x0C then c.(volume := (val / 32) % 4, volumeInit := (val / 32) % 4)
             else if off == 0x0B then c.(len := c.len.(load := val))
             else c.(len := c.len.(load := val % 64), duty := DutyLookup[val / 64]);
    assert ChanInv(i, n);
    OneChannelChanged(a.chans, i, n);
    assert Decode(a, off, val) == a.(chans := a.chans[i := n]);
  }

  /** Replacing the low byte of a frequency keeps its high bits, so one of
      at most 2047 stays at most 2047. */
  lemma LowByteWrite(f: u16, val: byte)
    ensures (f / 256) * 256 + val < 0x1_0000
    ensures f <= 2047 ==> (f / 256) * 256 + val <= 2047
  {
    DivBelow(f, 256, 256);
    MulLe(f / 256, 255, 256);
    if f <= 2047 {
      DivBelow(f, 256, 8);
      MulLe(f / 256, 7, 256);
    }
  }

  /** Replacing one in-range channel keeps the channel invariant. */
  lemma OneChannelChanged(cs: Chans, i: nat, c: Chan)
    requires i < 4 && ChansInv(cs) && ChanInv(i, c)
    ensures ChansInv(cs[i := c])
  {
    var ds := cs[i := c];
    assert ChanInv(0, ds[0]) && ChanInv(1, ds[1]) && ChanInv(2, ds[2]) && ChanInv(3, ds[3]);
  }

  lemma PanKeepsRanges(a: Apu, val: byte)
    requires RangeInv(a)
    ensures RangeInv(Decode(a, 0x15, val))
  {
    var r := Decode(a, 0x15, val);
    forall j | 0 <= j < 4
      ensures ChanInv(j, r.chans[j])
    {
      var p := Pan(a.chans[j], val, j);
      assert p == a.chans[j].(onLeft := p.onLeft, onRight := p.onRight);
    }
    assert ChanInv(0, r.chans[0]) && ChanInv(1, r.chans[1]) && ChanInv(2, r.chans[2]) && ChanInv(3, r.chans[3]);
  }

  /** audio_write keeps channels and master volumes in range, whatever the
      power state. */
  lemma WriteKeepsRanges(a: Apu, addr: int, val: byte)
    requires AddrBase <= addr < AddrBase + MemSize && RangeInv(a)
    ensures RangeInv(Write(a, addr, val))
  {
    var off := addr - AddrBase;
    if off == NR52 {
      StoppedKeepsRanges(0, a.chans[0]);
      StoppedKeepsRanges(1, a.chans[1]);
      StoppedKeepsRanges(2, a.chans[2]);
      StoppedKeepsRanges(3, a.chans[3]);
    } else if a.mem[NR52] != 0 {
      DecodeKeepsRanges(a.(mem := a.mem[off := val]), off, val);
    }
  }

  /** audio_write keeps the power invariant: only an NR52 write clears bit 7,
      and then it also zeroes the byte and stops every channel. */
  lemma WriteKeepsPower(a: Apu, addr: int, val: byte)
    requires AddrBase <= addr < AddrBase + MemSize && LoadsOk(a.chans) && PowerInv(a)
    ensures PowerInv(Write(a, addr, val))
  {
  }

  lemma WriteKeepsInv(a: Apu, addr: int, val: byte)
    requires AddrBase <= addr < AddrBase + MemSize && Inv(a)
    ensures Inv(Write(a, addr, val))
  {
    WriteKeepsRanges(a, addr, val);
    WriteKeepsPower(a, addr, val);
  }

  /** A register write as (address, byte). */
  type RegWrite = (int, byte)

  predicate InWindow(ws: seq<RegWrite>) {
    forall k | 0 <= k < |ws| :: AddrBase <= ws[k].0 < AddrBase + MemSize
  }

  /** A sequence of audio_write calls, applied first to last. */
  function Writes(a: Apu, ws: seq<RegWrite>): (r: Apu)
    requires InWindow(ws) && LoadsOk(a.chans)
    ensures LoadsOk(r.chans)
    decreases |ws|
  {
    if |ws| == 0 then a
    else
      var p := Writes(a, ws[..|ws| - 1]);
      Write(p, ws[|ws| - 1].0, ws[|ws| - 1].1)
  }

  lemma {:induction false} WritesKeepInv(a: Apu, ws: seq<RegWrite>)
    requires InWindow(ws) && Inv(a)
    ensures Inv(Writes(a, ws))
    decreases |ws|
  {
    if |ws| > 0 {
      WritesKeepInv(a, ws[..|ws| - 1]);
      WriteKeepsInv(Writes(a, ws[..|ws| - 1]), ws[|ws| - 1].0, ws[|ws| - 1].1);
    }
  }

  lemma {:induction false} WritesKeepRanges(a: Apu, ws: seq<RegWrite>)
    requires InWindow(ws) && RangeInv(a)
    ensures RangeInv(Writes(a, ws))
    decreases |ws|
  {
    if |ws| > 0 {
      WritesKeepRanges(a, ws[..|ws| - 1]);
      WriteKeepsRanges(Writes(a, ws[..|ws| - 1]), ws[|ws| - 1].0, ws[|ws| - 1].1);
    }
  }

  /** While the NR52 byte is 0, no sequence of writes to other registers
      changes anything, wave RAM included. */
  lemma {:induction false} IgnoredWhileOff(a: Apu, ws: seq<RegWrite>)
    requires InWindow(ws) && LoadsOk(a.chans) && a.mem[NR52] == 0
    requires forall k | 0 <= k < |ws| :: ws[k].0 != AddrBase + NR52
    ensures Writes(a, ws) == a
    decreases |ws|
  {
    if |ws| > 0 {
      IgnoredWhileOff(a, ws[..|ws| - 1]);
    }
  }

  /** The state an NR52 write with bit 7 clear leaves: 0xFF10..0xFF26 all 0
      and no channel running. */
  predicate PoweredOff(a: Apu) {
    && (forall k | 0 <= k <= NR52 :: a.mem[k] == 0)
    && !a.chans[0].enabled && !a.chans[1].enabled && !a.chans[2].enabled && !a.chans[3].enabled
  }

  lemma PowerWriteOff(a: Apu, val: byte)
    requires val < 0x80
    ensures PoweredOff(PowerWrite(a, val))
  {
  }

  /** After powering off, 0xFF10..0xFF26 read back as exactly their
      always-one bits, and stay so across any writes to other registers. */
  lemma PowerOffReads(p: Apu, ws: seq<RegWrite>, addr: int)
    requires PoweredOff(p) && LoadsOk(p.chans)
    requires InWindow(ws) && forall k | 0 <= k < |ws| :: ws[k].0 != AddrBase + NR52
    requires AddrBase <= addr <= AddrBase + NR52
    ensures Read(Writes(p, ws), addr) == OrTab[addr - AddrBase]
  {
    IgnoredWhileOff(p, ws);
    ReadZero(p, addr);
  }

  /** A register holding 0 reads back as its always-one bits. */
  lemma ReadZero(a: Apu, addr: int)
    requires AddrBase <= addr < AddrBase + MemSize && a.mem[addr - AddrBase] == 0
    ensures Read(a, addr) == OrTab[addr - AddrBase]
  {
    BitOrZero(OrTab[addr - AddrBase]);
  }

  /** With the power on, a wave RAM byte reads back as written. */
  lemma WaveRamRoundTrip(a: Apu, addr: int, val: byte)
    requires LoadsOk(a.chans) && PoweredOn(a)
    requires AddrBase + WaveRam <= addr < AddrBase + MemSize
    ensures Read(Write(a, addr, val), addr) == val
  {
  }

  /** The channel `(addr - 0xFF10) * 0.2f` selects for a register address. */
  function ChannelOf(addr: int): (i: int)
    requires AddrBase <= addr < AddrBase + 0x14
    ensures 0 <= i < 4
    ensures 5 * i <= addr - AddrBase < 5 * i + 5
  {
    RegChannel(addr - AddrBase)
  }

  /** NR11 / NR21 / NR41: the length load is the low six bits and the duty
      pattern is one of the four table entries, chosen by the top two bits. */
  lemma LengthDutyWrite(a: Apu, addr: int, val: byte)
    requires addr == 0xFF11 || addr == 0xFF16 || addr == 0xFF20
    requires LoadsOk(a.chans) && a.mem[NR52] != 0
    ensures var r := Write(a, addr, val); var i := ChannelOf(addr);
            && r.chans[i].len.load == val % 64 <= 63
            && r.chans[i].duty == DutyLookup[val / 64]
            && r.chans[i].duty in {0x10, 0x30, 0x3C, 0xCF}
  {
  }

  /** NR13 / NR23 / NR33 replace only the low byte of the frequency. */
  lemma FreqLowWrite(a: Apu, addr: int, val: byte)
    requires addr == 0xFF13 || addr == 0xFF18 || addr == 0xFF1D
    requires LoadsOk(a.chans) && a.mem[NR52] != 0
    ensures var r := Write(a, addr, val); var i := ChannelOf(addr);
            && r.chans[i].freq % 256 == val
            && r.chans[i].freq / 256 == a.chans[i].freq / 256
  {
    var i := ChannelOf(addr);
    var f := a.chans[i].freq;
    var off := addr - AddrBase;
    var b := a.(mem := a.mem[off := val]);
    assert Write(a, addr, val) == Decode(b, off, val);
    DecodeFreqLow(b, off, val);
    DivUnique((f / 256) * 256 + val, 256, f / 256, val);
  }

  /** NR14 / NR24 / NR34 keep the low frequency byte and always leave the
      frequency at most 2047; bit 6 is the length enable, bit 7 a trigger. */
  lemma FreqHighWrite(a: Apu, addr: int, val: byte)
    requires addr == 0xFF14 || addr == 0xFF19 || addr == 0xFF1E
    requires LoadsOk(a.chans) && a.mem[NR52] != 0
    ensures var r := Write(a, addr, val); var i := ChannelOf(addr);
            && r.chans[i].freq % 256 == a.chans[i].freq % 256
            && r.chans[i].freq / 256 == val % 8
            && r.chans[i].freq <= 2047
            && (r.chans[i].len.enabled <==> Bit(val, 6))
            && (val >= 0x80 ==> r.chans[i].enabled)
  {
    var i := ChannelOf(addr);
    var f := a.chans[i].freq;
    var off := addr - AddrBase;
    var b := a.(mem := a.mem[off := val]);
    assert Write(a, addr, val) == Decode(b, off, val);
    DecodeControl(b, off, val);
    DivUnique(f % 256 + (val % 8) * 256, 256, val % 8, f % 256);
  }

  /** NR32: the wave volume code is bits 5-6, so at most 3. */
  lemma WaveVolumeWrite(a: Apu, val: byte)
    requires LoadsOk(a.chans) && a.mem[NR52] != 0
    ensures var r := Write(a, 0xFF1C, val);
            r.chans[2].volume == r.chans[2].volumeInit == (val / 32) % 4 <= 3
  {
  }

  /** NR43: the clock shift is the top nibble (so at most 15), the divisor
      code the low three bits (at most 7) and bit 3 selects the 7-bit LFSR. */
  lemma NoiseControlWrite(a: Apu, val: byte)
    requires LoadsOk(a.chans) && a.mem[NR52] != 0
    ensures var r := Write(a, 0xFF22, val);
            && r.chans[3].freq == val / 16 <= 15
            && r.chans[3].lfsrDiv == val % 8 <= 7
            && (r.chans[3].lfsrWide <==> !Bit(val, 3))
  {
    Pow2Values();
  }

  /** NR50: both master volumes are three-bit fields. */
  lemma MasterVolumeWrite(a: Apu, val: byte)
    requires LoadsOk(a.chans) && a.mem[NR52] != 0
    ensures var r := Write(a, 0xFF24, val);
            r.volL == (val / 16) % 8 <= 7 && r.volR == val % 8 <= 7
  {
  }

  /** NR51: bit 4+j routes channel j to the left, bit j to the right. */
  lemma PanningWrite(a: Apu, val: byte)
    requires LoadsOk(a.chans) && a.mem[NR52] != 0
    ensures var r := Write(a, 0xFF25, val);
            forall j | 0 <= j < 4 :: (r.chans[j].onLeft <==> Bit(val, 4 + j)) && (r.chans[j].onRight <==> Bit(val, j))
  {
  }

  /** NR12 / NR22 / NR42: zombie mode. With the channel powered and enabled
      the volume becomes a 4-bit value and the step is adopted; otherwise
      neither the volume nor the envelope changes. */
  lemma EnvelopeRegisterWrite(a: Apu, addr: int, val: byte)
    requires addr == 0xFF12 || addr == 0xFF17 || addr == 0xFF21
    requires LoadsOk(a.chans) && a.mem[NR52] != 0
    ensures var r := Write(a, addr, val); var i := ChannelOf(addr); var c := a.chans[i];
            && r.chans[i].volumeInit == val / 16
            && (val >= 8 && c.enabled ==> r.chans[i].volume <= 15 && r.chans[i].env.step == val % 8)
            && (val >= 8 && c.enabled && c.env.step == 0 && c.env.inc != 0 ==>
                  r.chans[i].volume == (if Bit(val, 3) then (c.volume + 1) % 16 else (c.volume + 2) % 16))
            && (val >= 8 && c.enabled && !(c.env.step == 0 && c.env.inc != 0) ==>
                  r.chans[i].volume == (16 - c.volume) % 16)
            && (!(val >= 8 && c.enabled) ==> r.chans[i].volume == c.volume && r.chans[i].env == c.env)
  {
  }
}
