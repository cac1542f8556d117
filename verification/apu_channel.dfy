/** Channel status and restart: chan_enable keeps the NR52 status mirror and
    chan_trigger restarts a channel from its registers. */
module ApuChannel {
  import opened Bits
  import opened ApuState

  function Flag(b: bool): nat {
    if b then 1 else 0
  }

  /** NR52 as chan_enable rebuilds it: bit 7 of the old byte, and the four
      enabled flags in bits 0..3 (the bits are disjoint, so `|` is `+`). */
  function StatusByte(prev: byte, cs: Chans): (s: byte)
    ensures s >= 0x80 <==> prev >= 0x80
    ensures s % 0x80 < 0x10
    ensures Bit(s, 0) <==> cs[0].enabled
    ensures Bit(s, 1) <==> cs[1].enabled
    ensures Bit(s, 2) <==> cs[2].enabled
    ensures Bit(s, 3) <==> cs[3].enabled
    ensures prev < 0x80 && !cs[0].enabled && !cs[1].enabled && !cs[2].enabled && !cs[3].enabled ==> s == 0
  {
    var h := prev / 0x80;
    var f3, f2, f1, f0 := Flag(cs[3].enabled), Flag(cs[2].enabled), Flag(cs[1].enabled), Flag(cs[0].enabled);
    StatusBits(h, f3, f2, f1, f0);
    h * 0x80 + 8 * f3 + 4 * f2 + 2 * f1 + f0
  }

  /** The four flags sit in bits 0..3 below the power bit. */
  lemma StatusBits(h: nat, f3: nat, f2: nat, f1: nat, f0: nat)
    requires h <= 1 && f3 <= 1 && f2 <= 1 && f1 <= 1 && f0 <= 1
    ensures var s := h * 0x80 + 8 * f3 + 4 * f2 + 2 * f1 + f0;
            && s < 0x100 && (s >= 0x80 <==> h == 1) && s % 0x80 < 0x10
            && (Bit(s, 0) <==> f0 == 1) && (Bit(s, 1) <==> f1 == 1)
            && (Bit(s, 2) <==> f2 == 1) && (Bit(s, 3) <==> f3 == 1)
  {
    var s := h * 0x80 + 8 * f3 + 4 * f2 + 2 * f1 + f0;
    Pow2Values();
    assert s / 2 == h * 0x40 + 4 * f3 + 2 * f2 + f1;
    assert s / 4 == h * 0x20 + 2 * f3 + f2;
    assert s / 8 == h * 0x10 + f3;
    assert s % 0x80 == 8 * f3 + 4 * f2 + 2 * f1 + f0;
  }

  /** chan_enable: set channel i's flag and refresh the NR52 mirror. */
  function ChanEnable(a: Apu, i: nat, enable: bool): (r: Apu)
    requires i < 4
    ensures r.chans == a.chans[i := a.chans[i].(enabled := enable)]
    ensures r.volL == a.volL && r.volR == a.volR
    ensures forall k | 0 <= k < MemSize && k != NR52 :: r.mem[k] == a.mem[k]
    ensures PoweredOn(r) <==> PoweredOn(a)
    ensures r.mem[NR52] % 0x80 < 0x10
    ensures Bit(r.mem[NR52], 0) <==> r.chans[0].enabled
    ensures Bit(r.mem[NR52], 1) <==> r.chans[1].enabled
    ensures Bit(r.mem[NR52], 2) <==> r.chans[2].enabled
    ensures Bit(r.mem[NR52], 3) <==> r.chans[3].enabled
  {
    var cs := a.chans[i := a.chans[i].(enabled := enable)];
    Apu(a.mem[NR52 := StatusByte(a.mem[NR52], cs)], cs, a.volL, a.volR)
  }

  /** (c * x) / (c * y) == x / y: the FREQ_INC_REF / AUDIO_SAMPLE_RATE factors cancel. */
  lemma CancelFactor(x: nat, y: nat, c: nat)
    requires y > 0 && c > 0
    ensures (c * x) / (c * y) == x / y
  {
    var q := x / y;
    var rem := x % y;
    assert c * x == (c * y) * q + c * rem by {
      assert x == y * q + rem;
    }
    assert c * rem < c * y;
    DivUnique(c * x, c * y, q, c * rem);
  }

  /** The FREQ_INC_REF / AUDIO_SAMPLE_RATE factor of a trigger-time
      increment cancels, in every order the source writes the product. */
  lemma ScaledQuotient(n: nat, m: nat)
    requires m > 0
    ensures m * AudioSampleRate > 0 && AudioSampleRate * m > 0
    ensures (FreqIncRef * n) / (m * AudioSampleRate) == n / m
    ensures (n * FreqIncRef) / (m * AudioSampleRate) == n / m
    ensures (n * FreqIncRef) / (AudioSampleRate * m) == n / m
  {
    assert FreqIncRef == AudioSampleRate == 22050;
    CancelFactor(n, m, 22050);
    assert m * AudioSampleRate == 22050 * m;
    assert n * FreqIncRef == 22050 * n;
  }

  /** Envelope increment of chan_trigger, as written with FREQ_INC_REF and
      AUDIO_SAMPLE_RATE; it reduces to 64 / step, or 8 when step is 0. */
  function EnvInc(step: nat): (inc: nat)
    ensures step == 0 ==> inc == 8
    ensures step != 0 ==> inc == 64 / step
    ensures inc <= 64
  {
    if step != 0 then
      ScaledQuotient(64, step);
      DivLe(64, step);
      (FreqIncRef * 64) / (step * AudioSampleRate)
    else
      assert FreqIncRef == AudioSampleRate == 22050;
      (8 * FreqIncRef) / AudioSampleRate
  }

  /** Sweep increment of chan_trigger; 128 / rate, and 0 (inert) for rate 0. */
  function SweepInc(rate: nat): (inc: nat)
    ensures rate == 0 ==> inc == 0
    ensures rate != 0 ==> inc == 128 / rate
    ensures inc <= 128
  {
    if rate != 0 then
      ScaledQuotient(128, rate);
      DivLe(128, rate);
      (128 * FreqIncRef) / (rate * AudioSampleRate)
    else
      0
  }

  /** Length increment of chan_trigger; 256 / (len_max - load). */
  function LenInc(i: nat, load: nat): (inc: nat)
    requires load < LenMax(i)
    ensures inc == 256 / (LenMax(i) - load)
    ensures inc <= 256
  {
    ScaledQuotient(256, LenMax(i) - load);
    DivLe(256, LenMax(i) - load);
    (256 * FreqIncRef) / (AudioSampleRate * (LenMax(i) - load))
  }

  /** Offset of channel i's envelope register NRx2 (0xFF12 + 5i). */
  function EnvRegister(i: nat): nat {
    0x02 + i * 5
  }

  /** chan_trigger: restart channel i. */
  function Trigger(a: Apu, i: nat): (r: Apu)
    requires i < 4
    requires a.chans[i].len.load < LenMax(i)
    ensures r.chans[i].enabled
    ensures r.chans[i].volume == a.chans[i].volumeInit
    ensures r.chans[i].env.counter == 0 && r.chans[i].len.counter == 0
    ensures r.chans[i].env.step == a.mem[EnvRegister(i)] % 8
    ensures r.chans[i].env.up <==> Bit(a.mem[EnvRegister(i)], 3)
    ensures r.chans[i].env.inc == if r.chans[i].env.step == 0 then 8 else 64 / r.chans[i].env.step
    ensures r.chans[i].len.inc == 256 / (LenMax(i) - a.chans[i].len.load)
    ensures LenMax(i) - a.chans[i].len.load >= 1
    ensures i == 0 ==> r.chans[0].sweep.freq == a.chans[0].freq && r.chans[0].sweep.counter == FreqIncRef
    ensures i == 0 ==> r.chans[0].sweep.rate == (a.mem[NR10] / 16) % 8 && r.chans[0].sweep.shift == a.mem[NR10] % 8
    ensures i == 0 ==> r.chans[0].sweep.inc == if r.chans[0].sweep.rate == 0 then 0 else 128 / r.chans[0].sweep.rate
    ensures i == 0 ==> (r.chans[0].sweep.up <==> !Bit(a.mem[NR10], 3))
    ensures i != 0 ==> r.chans[i].sweep == a.chans[i].sweep
    ensures i == 2 ==> r.chans[i].val == 0
    ensures i == 3 ==> r.chans[i].lfsrReg == 0xFFFF && r.chans[i].val == LevelLow
    ensures i < 2 ==> r.chans[i].val == a.chans[i].val
    ensures i != 3 ==> r.chans[i].lfsrReg == a.chans[i].lfsrReg
    ensures r.chans[i] == a.chans[i].(enabled := true, volume := a.chans[i].volumeInit,
                                      env := r.chans[i].env, sweep := r.chans[i].sweep,
                                      val := r.chans[i].val, lfsrReg := r.chans[i].lfsrReg,
                                      len := a.chans[i].len.(counter := 0, inc := r.chans[i].len.inc))
    ensures forall j | 0 <= j < 4 && j != i :: r.chans[j] == a.chans[j]
    ensures r.mem == ChanEnable(a, i, true).mem
    ensures r.volL == a.volL && r.volR == a.volR
  {
    var a1 := ChanEnable(a, i, true);
    assert a1.mem[EnvRegister(i)] == a.mem[EnvRegister(i)] && a1.mem[NR10] == a.mem[NR10];
    var c := Restart(a1.chans[i], i, a1.mem[EnvRegister(i)], a1.mem[NR10]);
    a1.(chans := a1.chans[i := c])
  }

  /** The channel part of chan_trigger, given the channel's NRx2 envelope
      register and NR10: reload the volume, the envelope, the sweep (channel
      0), the wave position or the LFSR (channels 2 and 3) and the length
      counter; nothing else changes. */
  function Restart(c: Chan, i: nat, nrx2: byte, nr10: byte): (r: Chan)
    requires i < 4 && c.len.load < LenMax(i)
    ensures r.volume == c.volumeInit
    ensures r.env.counter == 0 && r.env.step == nrx2 % 8 && (r.env.up <==> Bit(nrx2, 3))
    ensures r.env.inc == if r.env.step == 0 then 8 else 64 / r.env.step
    ensures r.len.counter == 0 && r.len.inc == 256 / (LenMax(i) - c.len.load)
    ensures i == 0 ==> r.sweep.freq == c.freq && r.sweep.counter == FreqIncRef
    ensures i == 0 ==> r.sweep.rate == (nr10 / 16) % 8 && r.sweep.shift == nr10 % 8
    ensures i == 0 ==> (r.sweep.up <==> !Bit(nr10, 3))
    ensures i != 0 ==> r.sweep == c.sweep
    ensures i == 2 ==> r.val == 0
    ensures i == 3 ==> r.lfsrReg == 0xFFFF && r.val == LevelLow
    ensures i < 2 ==> r.val == c.val
    ensures i != 3 ==> r.lfsrReg == c.lfsrReg
    ensures r == c.(volume := r.volume, env := r.env, sweep := r.sweep, val := r.val, lfsrReg := r.lfsrReg,
                    len := c.len.(counter := r.len.counter, inc := r.len.inc))
  {
    var c1 := c.(volume := c.volumeInit, env := EnvReload(nrx2));
    var c2 := if i == 0 then c1.(sweep := SweepReload(c1.freq, nr10)) else c1;
    var c3 :=
      if i == 2 then c2.(val := 0)
      else if i == 3 then c2.(lfsrReg := 0xFFFF, val := LevelLow)
      else c2;
    c3.(len := c3.len.(inc := LenInc(i, c3.len.load), counter := 0))
  }

  /** The envelope a trigger loads from NRx2: period in bits 0-2, direction
      in bit 3, counter cleared. */
  function EnvReload(nrx2: byte): (e: VolEnv)
    ensures e.counter == 0 && e.step == nrx2 % 8
    ensures e.up <==> Bit(nrx2, 3)
    ensures e.inc == if e.step == 0 then 8 else 64 / e.step
  {
    var step := nrx2 % 8;
    assert (nrx2 / 8) % 2 == 1 <==> Bit(nrx2, 3) by {
      Pow2Values();
    }
    VolEnv(step, (nrx2 / 8) % 2 == 1, 0, EnvInc(step))
  }

  /** The sweep a trigger of channel 0 loads from NR10: the shadow frequency,
      the period in bits 4-6 and the shift in bits 0-2, the counter full. */
  function SweepReload(freq: u16, nr10: byte): (s: FreqSweep)
    ensures s.freq == freq && s.counter == FreqIncRef
    ensures s.rate == (nr10 / 16) % 8 && s.shift == nr10 % 8
    ensures s.inc == if s.rate == 0 then 0 else 128 / s.rate
    ensures s.up <==> !Bit(nr10, 3)
  {
    var rate := (nr10 / 16) % 8;
    assert (nr10 / 8) % 2 == 1 <==> Bit(nr10, 3) by {
      Pow2Values();
    }
    FreqSweep(freq, rate, nr10 % 8, (nr10 / 8) % 2 == 0, FreqIncRef, SweepInc(rate))
  }

  /** Disabling a channel keeps every range and the power invariant: with the
      power off the rebuilt status byte stays 0. */
  lemma ChanDisableKeepsInv(a: Apu, i: nat)
    requires i < 4 && Inv(a)
    ensures Inv(ChanEnable(a, i, false))
  {
    var r := ChanEnable(a, i, false);
    assert r.mem[NR52] == StatusByte(a.mem[NR52], r.chans);
    assert ChanInv(i, r.chans[i]);
  }

  /** Storing a channel that satisfies its ranges and was not started keeps
      the invariant. */
  lemma SetChanKeepsInv(a: Apu, i: nat, c: Chan)
    requires i < 4 && Inv(a) && ChanInv(i, c)
    requires c.enabled ==> a.chans[i].enabled
    ensures Inv(a.(chans := a.chans[i := c]))
  {
    var r := a.(chans := a.chans[i := c]);
    assert ChanInv(0, r.chans[0]) && ChanInv(1, r.chans[1]);
    assert ChanInv(2, r.chans[2]) && ChanInv(3, r.chans[3]);
  }

  /** Enabling a channel keeps the ranges provided a square channel's
      frequency is in range. */
  lemma ChanEnableKeepsRanges(a: Apu, i: nat, enable: bool)
    requires i < 4 && RangeInv(a)
    requires enable && i < 2 ==> a.chans[i].freq <= 2047
    ensures RangeInv(ChanEnable(a, i, enable))
  {
  }

  /** A trigger leaves every channel in range: the restart values are the
      register fields, and the increments are bounded by 64, 128 and 256. */
  lemma TriggerKeepsRanges(a: Apu, i: nat)
    requires i < 4 && RangeInv(a)
    requires i < 2 ==> a.chans[i].freq <= 2047
    ensures RangeInv(Trigger(a, i))
  {
    var r := Trigger(a, i);
    TriggerChanInv(a, i);
    assert ChanInv(0, r.chans[0]) && ChanInv(1, r.chans[1]);
    assert ChanInv(2, r.chans[2]) && ChanInv(3, r.chans[3]);
  }

  /** A trigger keeps channel i within its ranges: the new increments are
      at most 64, 128 and 256 and the counters restart from 0 or
      FREQ_INC_REF. */
  lemma TriggerChanInv(a: Apu, i: nat)
    requires i < 4 && ChanInv(i, a.chans[i])
    requires i < 2 ==> a.chans[i].freq <= 2047
    ensures ChanInv(i, Trigger(a, i).chans[i])
  {
    var a1 := ChanEnable(a, i, true);
    var c := a1.chans[i];
    assert c == a.chans[i].(enabled := true);
    assert ChanInv(i, c);
    RestartChanInv(c, i, a1.mem[EnvRegister(i)], a1.mem[NR10]);
    assert Trigger(a, i).chans[i] == Restart(c, i, a1.mem[EnvRegister(i)], a1.mem[NR10]);
  }

  lemma RestartChanInv(c: Chan, i: nat, nrx2: byte, nr10: byte)
    requires i < 4 && ChanInv(i, c)
    ensures ChanInv(i, Restart(c, i, nrx2, nr10))
  {
  }

  /** A trigger while the power is on keeps the power on. */
  lemma TriggerKeepsPower(a: Apu, i: nat)
    requires i < 4 && a.chans[i].len.load < LenMax(i) && PoweredOn(a)
    ensures PoweredOn(Trigger(a, i))
  {
  }
}
