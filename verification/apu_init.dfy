/** audio_init: the register values written at start-up, the initial wave
    RAM pattern, and the table of noise-channel frequencies. */
module ApuInit {
  import opened Bits
  import opened ApuState
  import opened ApuRegisters

  /** regs_init, written to 0xFF10..0xFF26 in order. */
  const RegsInit: seq<byte> := [
    0x80, 0xBF, 0xF3, 0xFF, 0x3F,
    0xFF, 0x3F, 0x00, 0xFF, 0x3F,
    0x7F, 0xFF, 0x9F, 0xFF, 0x3F,
    0xFF, 0xFF, 0x00, 0x00, 0x3F,
    0x77, 0xF3, 0xF1]

  /** wave_init, written to 0xFF30..0xFF3F. */
  const WaveInit: seq<byte> := [
    0xac, 0xdd, 0xda, 0x48,
    0x36, 0x02, 0xcf, 0x16,
    0x2c, 0x04, 0xe5, 0x2c,
    0xac, 0xdd, 0xda, 0x48]

  /** Consecutive writes of `vals` starting at address `base`. */
  function Program(base: int, vals: seq<byte>): (ws: seq<RegWrite>)
    ensures |ws| == |vals|
    ensures forall k | 0 <= k < |vals| :: ws[k] == (base + k, vals[k])
  {
    seq(|vals|, k requires 0 <= k < |vals| => (base + k, vals[k]))
  }

  /** Channels after the memset, with both square channels' level at -1. */
  const InitChans: Chans := [ZeroChan.(val := -1), ZeroChan.(val := -1), ZeroChan, ZeroChan]

  /** The state audio_init leaves, given the caller's register buffer and
      the master volumes vol_l / vol_r as they stand. Those are file-scope
      statics that audio_init does not reset: they start at 0, only an NR50
      write changes them (always to 0..7), and they keep their value into a
      later audio_init. The register writes go through audio_write, so they
      are gated by whatever NR52 byte the buffer held, and a closed gate
      also drops the NR50 write of regs_init; the final NR52 write turns the
      power on. */
  function Init(mem0: Regs, volL0: int, volR0: int): (r: Apu)
    requires 0 <= volL0 <= 7 && 0 <= volR0 <= 7
    ensures Inv(r)
    ensures r.mem[NR52] == 0x80
    ensures r.mem[WaveRam..] == WaveInit
    ensures mem0[NR52] == 0 ==>
              && r.chans == InitChans
              && r.volL == volL0 && r.volR == volR0
  {
    var a0 := Apu(mem0, InitChans, volL0, volR0);
    var ws := Program(AddrBase, RegsInit);
    assert InWindow(ws);
    var a1 := Writes(a0, ws);
    InitRegisters(mem0, volL0, volR0);
    var r := Writes(a1, Program(AddrBase + WaveRam, WaveInit));
    WaveWrites(a1, WaveInit);
    WritesKeepInv(a1, Program(AddrBase + WaveRam, WaveInit));
    r
  }

  /** After the regs_init writes the power is on with NR52 exactly 0x80 and
      the invariant holds; with the gate closed nothing else changed. */
  lemma InitRegisters(mem0: Regs, volL0: int, volR0: int)
    requires 0 <= volL0 <= 7 && 0 <= volR0 <= 7
    ensures var a1 := Writes(Apu(mem0, InitChans, volL0, volR0), Program(AddrBase, RegsInit));
            && Inv(a1) && a1.mem[NR52] == 0x80
            && (mem0[NR52] == 0 ==> a1.chans == InitChans && a1.volL == volL0 && a1.volR == volR0)
  {
    var a0 := Apu(mem0, InitChans, volL0, volR0);
    var ws := Program(AddrBase, RegsInit);
    var pre := ws[..|ws| - 1];
    assert RangeInv(a0);
    WritesKeepRanges(a0, ws);
    var p := Writes(a0, pre);
    assert Writes(a0, ws) == Write(p, AddrBase + NR52, 0xF1);
    if mem0[NR52] == 0 {
      IgnoredWhileOff(a0, pre);
    }
  }

  /** With the power on, writing a pattern to wave RAM stores it and
      touches nothing else: not NR52, not the channels. */
  lemma {:induction false} WaveWrites(p: Apu, vals: seq<byte>)
    requires LoadsOk(p.chans) && PoweredOn(p) && |vals| <= 0x10
    ensures Writes(p, Program(AddrBase + WaveRam, vals))
            == p.(mem := p.mem[..WaveRam] + vals + p.mem[WaveRam + |vals|..])
    decreases |vals|
  {
    var ws := Program(AddrBase + WaveRam, vals);
    if |vals| == 0 {
      assert p.mem[..WaveRam] + vals + p.mem[WaveRam..] == p.mem;
    } else {
      var n := |vals| - 1;
      assert ws[..n] == Program(AddrBase + WaveRam, vals[..n]);
      WaveWrites(p, vals[..n]);
      var m0 := p.mem[..WaveRam] + vals[..n] + p.mem[WaveRam + n..];
      SpliceStep(p.mem, vals);
      assert m0[WaveRam + n := vals[n]] == p.mem[..WaveRam] + vals + p.mem[WaveRam + |vals|..];
    }
  }

  lemma SpliceStep(m: Regs, vals: seq<byte>)
    requires 0 < |vals| <= 0x10
    ensures var n := |vals| - 1;
            (m[..WaveRam] + vals[..n] + m[WaveRam + n..])[WaveRam + n := vals[n]]
            == m[..WaveRam] + vals + m[WaveRam + |vals|..]
  {
    var n := |vals| - 1;
    var x := (m[..WaveRam] + vals[..n] + m[WaveRam + n..])[WaveRam + n := vals[n]];
    var y := m[..WaveRam] + vals + m[WaveRam + |vals|..];
    assert |x| == |y|;
    forall k | 0 <= k < |x|
      ensures x[k] == y[k]
    {
      if k < WaveRam {
      } else if k < WaveRam + n {
      } else if k == WaveRam + n {
      } else {
      }
    }
  }

  /** The noise clock divisor for a divisor code: 8 for code 0, else 16 per step. */
  function NoiseDivisor(div: nat): (d: nat)
    requires div < 8
    ensures 8 <= d <= 112 && d % 8 == 0
  {
    if div == 0 then 8 else div * 16
  }

  lemma Pow2Mono(j: nat, k: nat)
    requires j <= k
    ensures Pow2(j) <= Pow2(k)
    decreases k
  {
    if j < k {
      Pow2Mono(j, k - 1);
    }
  }

  /** precomputed_noise_freqs[div][shift]: the DMG clock over the shifted
      divisor. The shifted divisor is at most 112 << 15, so the uint32 shift
      never wraps and never yields 0. */
  function NoiseFreq(div: nat, shift: nat): (f: nat)
    requires div < 8 && shift < 16
    ensures 1 <= f <= 0x8_0000
  {
    Pow2Values();
    Pow2Mono(shift, 15);
    assert Pow2(15) == 0x8000;
    var term := NoiseDivisor(div) * Pow2(shift);
    assert 8 <= term <= 112 * 0x8000;
    DmgClockFreq / term
  }

  /** x / (2a) == (x / a) / 2. */
  lemma DivTwice(x: nat, a: nat)
    requires a > 0
    ensures x / (2 * a) == (x / a) / 2
  {
    var q := (x / a) / 2;
    var r1 := x % a;
    var r2 := (x / a) % 2;
    assert x == a * (x / a) + r1;
    assert x / a == 2 * q + r2;
    assert x == (2 * a) * q + (a * r2 + r1);
    DivUnique(x, 2 * a, q, a * r2 + r1);
  }

  /** Each further clock shift halves the noise frequency (rounding down). */
  lemma NoiseFreqHalves(div: nat, shift: nat)
    requires div < 8 && shift < 15
    ensures NoiseFreq(div, shift + 1) == NoiseFreq(div, shift) / 2
  {
    var a := NoiseDivisor(div) * Pow2(shift);
    assert NoiseDivisor(div) * Pow2(shift + 1) == 2 * a;
    DivTwice(DmgClockFreq, a);
  }

  /** The table audio_init fills: row per divisor code, column per shift. */
  method NoiseTable() returns (t: seq<seq<u32>>)
    ensures |t| == 8
    ensures forall d | 0 <= d < 8 :: |t[d]| == 16
    ensures forall d, s | 0 <= d < 8 && 0 <= s < 16 :: t[d][s] == NoiseFreq(d, s)
  {
    t := [];
    var d := 0;
    while d < 8
      invariant 0 <= d <= 8 && |t| == d
      invariant forall e | 0 <= e < d :: |t[e]| == 16
      invariant forall e, s | 0 <= e < d && 0 <= s < 16 :: t[e][s] == NoiseFreq(e, s)
    {
      var row: seq<u32> := [];
      var s := 0;
      while s < 16
        invariant 0 <= s <= 16 && |row| == s
        invariant forall j | 0 <= j < s :: row[j] == NoiseFreq(d, j)
      {
        Pow2Mono(s, 15);
        Pow2Values();
        assert Pow2(15) == 0x8000;
        var term := NoiseDivisor(d) * Pow2(s);
        row := row + [DmgClockFreq / term];
        s := s + 1;
      }
      t := t + [row];
      d := d + 1;
    }
  }
}
