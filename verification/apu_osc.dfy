/** The oscillators: wave_sample, and what one edge of the frequency timer
    does to the square duty step, the wave position and the noise LFSR
    inside update_square / update_wave / update_noise. */
module ApuOsc {
  import opened Bits
  import opened ApuState
  import opened ApuChannel
  import opened ApuTimers

  /** The 4-bit wave RAM entry at position pos: the high nibble of byte pos / 2
      for an even position, the low nibble for an odd one. */
  function Nibble(mem: Regs, pos: nat): (n: nat)
    requires pos < 32
    ensures n < 16
  {
    var b := mem[WaveRam + pos / 2];
    if pos % 2 == 0 then b / 16 else b % 16
  }

  /** The 32 positions read the 16 wave RAM bytes high nibble first. */
  lemma NibblesRebuildByte(mem: Regs, k: nat)
    requires k < 16
    ensures Nibble(mem, 2 * k) * 16 + Nibble(mem, 2 * k + 1) == mem[WaveRam + k]
  {
  }

  /** wave_sample: the nibble at pos shifted right by volume - 1, or 0 when
      the volume code is 0. */
  function WaveSample(mem: Regs, pos: nat, volume: nat): (s: byte)
    requires pos < 32
    ensures s <= 15
    ensures volume == 0 ==> s == 0
    ensures volume == 1 ==> s == Nibble(mem, pos)
    ensures volume > 0 ==> s * Pow2(volume - 1) <= Nibble(mem, pos) < (s + 1) * Pow2(volume - 1)
  {
    if volume == 0 then 0
    else
      var n := Nibble(mem, pos);
      var p := Pow2(volume - 1);
      DivBracket(n, p);
      DivLe(n, p);
      n / p
  }

  /** The level a square channel holds at duty step k. */
  function DutyLevel(duty: byte, k: nat): int {
    if Bit(duty, k) then LevelHigh else LevelLow
  }

  /** One LFSR clock: shift left in 16 bits, feeding in whether the current
      level is high. */
  function LfsrStep(lfsr: u16, val: int): u16 {
    Wrap16(lfsr * 2 + Flag(val >= LevelHigh))
  }

  /** The tap pair of the noise LFSR: bits 14 and 13, or 6 and 5 in 7-bit mode. */
  function Tap(wide: bool): nat {
    if wide then 14 else 6
  }

  /** The noise level: high exactly when the two taps agree. */
  function NoiseLevel(lfsr: u16, wide: bool): int {
    if Bit(lfsr, Tap(wide)) == Bit(lfsr, Tap(wide) - 1) then LevelHigh else LevelLow
  }

  /** Bits below 2^m survive `% 2^m`. */
  lemma {:induction false} ModPow2Bit(x: nat, m: nat, k: nat)
    requires k < m
    ensures Bit(x % Pow2(m), k) <==> Bit(x, k)
    decreases k
  {
    var p := Pow2(m - 1);
    assert Pow2(m) == 2 * p;
    var q := x / (2 * p);
    var rem := x % (2 * p);
    assert x == (2 * p) * q + rem;
    if k == 0 {
      assert x == 2 * (p * q + rem / 2) + rem % 2;
      ModUnique(x, 2, p * q + rem / 2, rem % 2);
    } else {
      assert x == 2 * (p * q + rem / 2) + rem % 2;
      DivUnique(x, 2, p * q + rem / 2, rem % 2);
      ModUnique(x / 2, p, q, rem / 2);
      ModPow2Bit(x / 2, m - 1, k - 1);
      ShiftedBit(rem / 2, rem % 2, k);
      ShiftedBit(x / 2, x % 2, k);
    }
  }

  /** An LFSR clock drops bit 15, moves every other bit up by one and puts
      the feedback in bit 0. */
  lemma LfsrShifts(lfsr: u16, val: int)
    ensures LfsrStep(lfsr, val) == 2 * (lfsr % 0x8000) + Flag(val >= LevelHigh)
    ensures Bit(LfsrStep(lfsr, val), 0) <==> val >= LevelHigh
    ensures forall k | 0 <= k < 15 :: Bit(LfsrStep(lfsr, val), k + 1) <==> Bit(lfsr, k)
  {
    var b := Flag(val >= LevelHigh);
    var low := lfsr % 0x8000;
    assert lfsr * 2 + b == 0x1_0000 * (lfsr / 0x8000) + (2 * low + b);
    ModUnique(lfsr * 2 + b, 0x1_0000, lfsr / 0x8000, 2 * low + b);
    assert Pow2(0) == 1;
    forall k | 0 <= k < 15
      ensures Bit(LfsrStep(lfsr, val), k + 1) <==> Bit(lfsr, k)
    {
      ShiftedBit(low, b, k + 1);
      Pow2Values();
      assert Pow2(15) == 0x8000 by {
        assert Pow2(8) == 256;
      }
      ModPow2Bit(lfsr, 15, k);
    }
  }

  /** The waveform state an edge changes: the square duty step, the level
      (the sample position, for the wave channel), the buffered wave sample
      and the noise LFSR. */
  datatype Osc = Osc(dutyCounter: byte, val: int, waveSample: byte, lfsr: u16)

  function OscOf(c: Chan): Osc {
    Osc(c.dutyCounter, c.val, c.waveSample, c.lfsrReg)
  }

  function WithOsc(c: Chan, o: Osc): Chan {
    c.(dutyCounter := o.dutyCounter, val := o.val, waveSample := o.waveSample, lfsrReg := o.lfsr)
  }

  /** The body of the `while (update_freq(c, &pos))` loop of channel i (less
      the vanishing integration term): what one edge does. The duty pattern,
      the volume code and the LFSR width come from the channel c. */
  function Advance(o: Osc, i: nat, c: Chan, mem: Regs): Osc {
    if i < 2 then
      var k := (o.dutyCounter + 1) % 8;
      o.(dutyCounter := k, val := DutyLevel(c.duty, k))
    else if i == 2 then
      var p := (o.val + 1) % 32;
      o.(val := p, waveSample := WaveSample(mem, p, c.volume))
    else
      var l := LfsrStep(o.lfsr, o.val);
      o.(lfsr := l, val := NoiseLevel(l, c.lfsrWide))
  }

  /** n edges in a row. */
  function Repeat(o: Osc, i: nat, c: Chan, mem: Regs, n: nat): Osc
    decreases n
  {
    if n == 0 then o else Repeat(Advance(o, i, c, mem), i, c, mem, n - 1)
  }

  /** The square duty step counts edges modulo 8, and after an edge the level
      is the duty pattern's bit at that step. */
  lemma {:induction false} RepeatSquare(o: Osc, i: nat, c: Chan, mem: Regs, n: nat)
    requires i < 2 && o.dutyCounter < 8
    ensures var r := Repeat(o, i, c, mem, n);
            && r.dutyCounter == (o.dutyCounter + n) % 8
            && (n > 0 ==> r.val == DutyLevel(c.duty, r.dutyCounter))
            && r.waveSample == o.waveSample && r.lfsr == o.lfsr
    decreases n
  {
    if n > 0 {
      var o1 := Advance(o, i, c, mem);
      RepeatSquare(o1, i, c, mem, n - 1);
      var q := (o.dutyCounter + 1) / 8;
      var m := o1.dutyCounter + (n - 1);
      assert m == 8 * (m / 8) + m % 8;
      assert o.dutyCounter + n == 8 * (q + m / 8) + m % 8;
      ModUnique(o.dutyCounter + n, 8, q + m / 8, m % 8);
    }
  }

  /** The wave position counts edges modulo 32, and after an edge the
      buffered sample is the one at the position. */
  lemma {:induction false} RepeatWave(o: Osc, c: Chan, mem: Regs, n: nat)
    requires 0 <= o.val < 32
    ensures var r := Repeat(o, 2, c, mem, n);
            && r.val == (o.val + n) % 32
            && (n > 0 ==> r.waveSample == WaveSample(mem, r.val, c.volume))
            && r.dutyCounter == o.dutyCounter && r.lfsr == o.lfsr
    decreases n
  {
    if n > 0 {
      var o1 := Advance(o, 2, c, mem);
      RepeatWave(o1, c, mem, n - 1);
      var q := (o.val + 1) / 32;
      var m := o1.val + (n - 1);
      assert m == 32 * (m / 32) + m % 32;
      assert o.val + n == 32 * (q + m / 32) + m % 32;
      ModUnique(o.val + n, 32, q + m / 32, m % 32);
    }
  }

  /** The noise channel's edges touch only the LFSR and the level, and after
      an edge the level is the tap comparison of the register. */
  lemma {:induction false} RepeatNoise(o: Osc, i: nat, c: Chan, mem: Regs, n: nat)
    requires i >= 3
    ensures var r := Repeat(o, i, c, mem, n);
            && (n > 0 ==> r.val == NoiseLevel(r.lfsr, c.lfsrWide))
            && r.dutyCounter == o.dutyCounter && r.waveSample == o.waveSample
    decreases n
  {
    if n > 0 {
      RepeatNoise(Advance(o, i, c, mem), i, c, mem, n - 1);
    }
  }

  /** Once the level follows the register, each clock shifts the register
      and feeds in the XNOR of the two taps. */
  lemma NoiseFeedback(o: Osc, c: Chan, mem: Regs)
    requires o.val == NoiseLevel(o.lfsr, c.lfsrWide)
    ensures var r := Advance(o, 3, c, mem);
            && (Bit(r.lfsr, 0) <==> (Bit(o.lfsr, Tap(c.lfsrWide)) <==> Bit(o.lfsr, Tap(c.lfsrWide) - 1)))
            && (forall k | 0 <= k < 15 :: Bit(r.lfsr, k + 1) <==> Bit(o.lfsr, k))
            && r.val == NoiseLevel(r.lfsr, c.lfsrWide)
  {
    LfsrShifts(o.lfsr, o.val);
  }

  /** The `while (update_freq(c, &pos))` loop of channel i over the
      frequency counter and the waveform state. `acc` is the sample
      accumulator: each edge adds `(pos - prev_pos) / freq_inc` times the
      level, a quotient that is always 0 since `prev_pos <= pos < freq_inc`
      on an edge. */
  function Edges(counter: u32, inc: u32, o: Osc, i: nat, c: Chan, mem: Regs,
                 pos: u32, prev: u32, acc: int): (r: (u32, Osc, int))
    requires 0 < inc <= MaxFreqInc && counter <= FreqIncRef && prev <= pos <= inc
    ensures r.0 <= FreqIncRef
    ensures r.2 == acc
    decreases inc - pos, counter
  {
    var t := UpdateFreq(counter, inc, pos);
    if t.2 then
      var o1 := Advance(o, i, c, mem);
      var level := if i < 2 then o.val else if i == 2 then (o.waveSample - 8) * WaveUnit else o1.val;
      DivUnique(t.1 - prev, inc, 0, t.1 - prev);
      Edges(t.0, inc, o1, i, c, mem, t.1, t.1, acc + ((t.1 - prev) / inc) * level)
    else (t.0, o, acc)
  }

  /** The edge loop is the timer run and the edge action composed: it ends
      with the counter the timer ends on and the waveform state n edges
      produce, n being the number of overflows of the timer. */
  lemma {:induction false} EdgesAsRepeat(counter: u32, inc: u32, o: Osc, i: nat, c: Chan, mem: Regs,
                                         pos: u32, prev: u32, acc: int)
    requires 0 < inc <= MaxFreqInc && counter <= FreqIncRef && prev <= pos <= inc
    ensures var n := FreqRun(counter, inc, pos);
            Edges(counter, inc, o, i, c, mem, pos, prev, acc) == (n.0, Repeat(o, i, c, mem, n.1), acc)
    decreases inc - pos, counter
  {
    var t := UpdateFreq(counter, inc, pos);
    if t.2 {
      var o1 := Advance(o, i, c, mem);
      var level := if i < 2 then o.val else if i == 2 then (o.waveSample - 8) * WaveUnit else o1.val;
      var acc1 := acc + ((t.1 - prev) / inc) * level;
      EdgesAsRepeat(t.0, inc, o1, i, c, mem, t.1, t.1, acc1);
      var m := FreqRun(t.0, inc, t.1);
      assert FreqRun(counter, inc, pos) == (m.0, m.1 + 1);
      assert Repeat(o, i, c, mem, m.1 + 1) == Repeat(o1, i, c, mem, m.1);
      assert Edges(counter, inc, o, i, c, mem, pos, prev, acc) == Edges(t.0, inc, o1, i, c, mem, t.1, t.1, acc1);
    }
  }
}
