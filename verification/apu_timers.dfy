/** The fixed-point timers of a channel: the volume envelope, the frequency
    sweep, the length counter and the frequency counter. Each timer adds its
    increment to a counter and acts once per FREQ_INC_REF it overflows. */
module ApuTimers {
  import opened Bits
  import opened ApuState
  import opened ApuChannel

  /** One envelope step: the uint8 volume moves by one, the increment is
      zeroed when it lands exactly on 0 or 15, and the result is clamped to
      0..15 (a step down from 0 wraps to 255 and so clamps to 15). */
  function EnvStep(c: Chan): (r: Chan)
    ensures r.volume <= MaxChanVolume || (c.env.step == 0 && r.volume == c.volume)
    ensures c.env.step == 0 ==> r == c
    ensures c.env.step != 0 && c.volume <= MaxChanVolume ==>
              && r.volume == (if c.env.up then (if c.volume == 15 then 15 else c.volume + 1)
                              else (if c.volume == 0 then 15 else c.volume - 1))
              && (r.env.inc == 0 <==> c.env.inc == 0 || (c.env.up && c.volume == 14) || (!c.env.up && c.volume == 1))
    ensures r.env.inc == c.env.inc || r.env.inc == 0
    ensures r == c.(volume := r.volume, env := c.env.(inc := r.env.inc))
  {
    if c.env.step != 0 then
      var o := StepVolume(c.volume, c.env.up, c.env.inc);
      c.(volume := o.0, env := c.env.(inc := o.1))
    else c
  }

  /** The volume and increment after one envelope step, on plain numbers. */
  function StepVolume(volume: byte, up: bool, inc: u32): (o: (byte, u32))
    ensures o.0 <= MaxChanVolume
    ensures volume <= MaxChanVolume ==>
              && o.0 == (if up then (if volume == 15 then 15 else volume + 1)
                         else (if volume == 0 then 15 else volume - 1))
              && (o.1 == 0 <==> inc == 0 || (up && volume == 14) || (!up && volume == 1))
    ensures o.1 == inc || o.1 == 0
  {
    var v := Wrap8(if up then volume + 1 else volume - 1);
    assert v == if up then (if volume == 255 then 0 else volume + 1)
                else (if volume == 0 then 255 else volume - 1);
    var inc' := if v == 0 || v == MaxChanVolume then 0 else inc;
    (if v > MaxChanVolume then MaxChanVolume else v, inc')
  }

  /** The `while (counter > FREQ_INC_REF)` loop of update_env. */
  function EnvLoop(c: Chan): (r: Chan)
    ensures r.env.counter <= FreqIncRef
    ensures c.env.step == 0 ==> r.volume == c.volume && r.env.inc == c.env.inc
    ensures c.volume <= MaxChanVolume ==> r.volume <= MaxChanVolume
    ensures r.env.inc == c.env.inc || r.env.inc == 0
    ensures r == c.(volume := r.volume, env := c.env.(counter := r.env.counter, inc := r.env.inc))
    decreases c.env.counter
  {
    if c.env.counter > FreqIncRef then
      var s := EnvStep(c);
      EnvLoop(s.(env := s.env.(counter := s.env.counter - FreqIncRef)))
    else c
  }

  /** update_env. */
  function UpdateEnv(c: Chan): (r: Chan)
    ensures r.env.counter <= FreqIncRef
    ensures c.env.step == 0 ==> r.volume == c.volume
    ensures c.volume <= MaxChanVolume ==> r.volume <= MaxChanVolume
    ensures r.env.inc == c.env.inc || r.env.inc == 0
    ensures r == c.(volume := r.volume, env := c.env.(counter := r.env.counter, inc := r.env.inc))
  {
    EnvLoop(c.(env := c.env.(counter := Wrap32(c.env.counter + c.env.inc))))
  }

  /** In every reachable state the envelope acts at most once per sample:
      the counter was at most FREQ_INC_REF and the increment at most 64. */
  lemma {:induction false} UpdateEnvAtMostOnce(c: Chan)
    requires c.env.counter <= FreqIncRef && c.env.inc <= 64
    ensures var n := c.env.counter + c.env.inc; var r := UpdateEnv(c);
            && r.env.counter == (if n > FreqIncRef then n - FreqIncRef else n)
            && r.volume == (if n > FreqIncRef then EnvStep(c).volume else c.volume)
            && r.env.inc == (if n > FreqIncRef then EnvStep(c).env.inc else c.env.inc)
  {
    var n := c.env.counter + c.env.inc;
    var c1 := c.(env := c.env.(counter := n));
    assert Wrap32(c.env.counter + c.env.inc) == n;
    assert UpdateEnv(c) == EnvLoop(c1);
    if n > FreqIncRef {
      var s := EnvStep(c1);
      EnvStepIgnoresCounter(c, n);
      var s1 := s.(env := s.env.(counter := s.env.counter - FreqIncRef));
      assert s1.env.counter == n - FreqIncRef;
      assert EnvLoop(c1) == EnvLoop(s1);
      assert EnvLoop(s1) == s1;
    } else {
      assert EnvLoop(c1) == c1;
    }
  }

  lemma EnvStepIgnoresCounter(c: Chan, n: u32)
    ensures EnvStep(c.(env := c.env.(counter := n))).volume == EnvStep(c).volume
    ensures EnvStep(c.(env := c.env.(counter := n))).env.inc == EnvStep(c).env.inc
  {
  }

  /** set_note_freq for the square channels: the note frequency of an 11-bit
      period, times 8 (FREQ_INC_REF / AUDIO_SAMPLE_RATE is 1). */
  function SquareFreqInc(f: nat): (inc: nat)
    requires f <= 2047
    ensures 8 * 64 <= inc <= 0x10_0000
  {
    SquarePeriodBounds(f);
    (DmgClockFreq / ((2048 - f) * 32)) * 8
  }

  /** The square period (2048 - f) * 32 lies in [32, 65536], so the clock
      divided by it lies in [64, 131072]. */
  lemma SquarePeriodBounds(f: nat)
    requires f <= 2047
    ensures 64 <= DmgClockFreq / ((2048 - f) * 32) <= 0x2_0000
  {
    var d := (2048 - f) * 32;
    assert 32 <= d <= 0x1_0000;
    DivAtLeast(DmgClockFreq, d, 64);
    DivBelow(DmgClockFreq, d, 0x2_0001);
  }

  /** The signed sweep delta as a uint16: the trigger-time shadow frequency
      shifted right, negated modulo 2^16 when sweeping down. */
  function SweepDelta(s: FreqSweep): (d: u16)
    requires s.shift > 0
    ensures s.up ==> d == s.freq / Pow2(s.shift)
    ensures !s.up ==> (d + s.freq / Pow2(s.shift)) % 0x1_0000 == 0
  {
    var d := s.freq / Pow2(s.shift);
    assert 0 <= d <= s.freq by {
      DivLe(s.freq, Pow2(s.shift));
    }
    if s.up then d else Wrap16(-d)
  }

  /** One sweep step. With a shift the frequency moves by the delta (uint16
      arithmetic); past 2047 the channel stops, otherwise its increment is
      recomputed. Without a shift a non-zero rate stops the channel. Only
      `enabled` changes, never the NR52 mirror. */
  function SweepStep(c: Chan): (r: Chan)
    ensures c.sweep.shift == 0 && c.sweep.rate == 0 ==> r == c
    ensures c.sweep.shift == 0 && c.sweep.rate != 0 ==> r == c.(enabled := false)
    ensures c.sweep.shift != 0 ==> r.freq == Wrap16(c.freq + SweepDelta(c.sweep))
    ensures c.sweep.shift != 0 && r.freq > 2047 ==> r == c.(freq := r.freq, enabled := false)
    ensures c.sweep.shift != 0 && r.freq <= 2047 ==>
              r == c.(freq := r.freq, freqInc := SquareFreqInc(r.freq))
    ensures r.enabled ==> c.enabled && (r.freq == c.freq || r.freq <= 2047)
    ensures r.freqInc == c.freqInc || 8 * 64 <= r.freqInc <= MaxFreqInc
    ensures r == c.(freq := r.freq, freqInc := r.freqInc, enabled := r.enabled)
  {
    if c.sweep.shift != 0 then
      var f := Wrap16(c.freq + SweepDelta(c.sweep));
      if f > 2047 then c.(freq := f, enabled := false)
      else c.(freq := f, freqInc := SquareFreqInc(f))
    else if c.sweep.rate != 0 then c.(enabled := false)
    else c
  }

  /** The `while (counter > FREQ_INC_REF)` loop of update_sweep. */
  function SweepLoop(c: Chan): (r: Chan)
    ensures r.sweep.counter <= FreqIncRef
    ensures c.sweep.counter <= FreqIncRef ==> r == c
    ensures r.enabled ==> c.enabled
    ensures c.freqInc <= MaxFreqInc ==> r.freqInc <= MaxFreqInc
    ensures r.freqInc == c.freqInc || r.freqInc >= 8 * 64
    ensures c.enabled && r.enabled ==> r.freq == c.freq || r.freq <= 2047
    ensures r == c.(freq := r.freq, freqInc := r.freqInc, enabled := r.enabled,
                    sweep := c.sweep.(counter := r.sweep.counter))
    decreases c.sweep.counter
  {
    if c.sweep.counter > FreqIncRef then
      var s := SweepStep(c);
      var s1 := s.(sweep := s.sweep.(counter := s.sweep.counter - FreqIncRef));
      assert s1 == c.(freq := s1.freq, freqInc := s1.freqInc, enabled := s1.enabled,
                      sweep := c.sweep.(counter := s1.sweep.counter));
      SweepLoop(s1)
    else c
  }

  /** update_sweep. */
  function UpdateSweep(c: Chan): (r: Chan)
    ensures r.sweep.counter <= FreqIncRef
    ensures r.enabled ==> c.enabled
    ensures c.freqInc <= MaxFreqInc ==> r.freqInc <= MaxFreqInc
    ensures r.freqInc == c.freqInc || r.freqInc >= 8 * 64
    ensures c.enabled && r.enabled && c.freq <= 2047 ==> r.freq <= 2047
    ensures r == c.(freq := r.freq, freqInc := r.freqInc, enabled := r.enabled,
                    sweep := c.sweep.(counter := r.sweep.counter))
  {
    SweepLoop(c.(sweep := c.sweep.(counter := Wrap32(c.sweep.counter + c.sweep.inc))))
  }

  /** A sweep whose increment is 0 (rate 0 at trigger) never touches the
      frequency or the enabled flag. */
  lemma SweepInert(c: Chan)
    requires c.sweep.inc == 0 && c.sweep.counter <= FreqIncRef
    ensures UpdateSweep(c) == c
  {
    assert c.(sweep := c.sweep.(counter := c.sweep.counter)) == c;
  }

  /** With shift 0 and a non-zero rate the channel stops at the first sweep
      after a trigger, because the trigger sets the counter to FREQ_INC_REF. */
  lemma SweepStopsAfterTrigger(a: Apu)
    requires a.chans[0].len.load < LenMax(0)
    requires a.mem[NR10] % 8 == 0 && (a.mem[NR10] / 16) % 8 != 0
    ensures !UpdateSweep(Trigger(a, 0).chans[0]).enabled
  {
    var c := Trigger(a, 0).chans[0];
    assert c.sweep.rate != 0 && c.sweep.shift == 0;
    assert 0 < c.sweep.inc <= 128 by {
      DivAtLeast(128, c.sweep.rate, 1);
    }
    SweepStopsOnce(c);
  }

  /** A channel whose sweep sits at FREQ_INC_REF with shift 0 and a running
      rate is stopped by the next update_sweep. */
  lemma SweepStopsOnce(c: Chan)
    requires c.sweep.counter == FreqIncRef && c.sweep.shift == 0 && c.sweep.rate != 0
    requires 0 < c.sweep.inc <= 128
    ensures !UpdateSweep(c).enabled
  {
    var c1 := c.(sweep := c.sweep.(counter := Wrap32(c.sweep.counter + c.sweep.inc)));
    assert c1.sweep.counter > FreqIncRef;
    assert !SweepStep(c1).enabled;
  }

  /** The length counter's part of update_len for an enabled channel with a
      running counter: `tr`, the remaining time, is computed in unsigned
      arithmetic and converted to int. When it exceeds the chunk the counter
      resets and the channel must stop (the flag is returned); otherwise the
      counter is charged for the whole chunk and `tr` is returned. */
  function LenTick(l: LenCtr, len: int): (r: (LenCtr, int, bool))
    requires l.inc != 0
    ensures r.0 == l.(counter := r.0.counter)
    ensures r.2 ==> r.1 == len && r.0.counter == 0
    ensures !r.2 ==> r.1 <= len
  {
    var w := Wrap32(FreqIncRef - l.counter);
    var q := w / l.inc;
    assert 0 <= q <= w by {
      DivLe(w, l.inc);
    }
    var tr := ToInt32(q);
    if tr > len then (l.(counter := 0), len, true)
    else (l.(counter := Wrap32(l.counter - len * l.inc)), tr, false)
  }

  /** update_len. A stopped channel yields 0 and a channel without a running
      length counter the whole chunk; otherwise LenTick decides, and a
      channel whose time is up is stopped through chan_enable. */
  function UpdateLen(a: Apu, i: nat, len: int): (r: (Apu, int))
    requires i < 4
    ensures len >= 0 ==> r.1 <= len
    ensures !a.chans[i].enabled ==> r == (a, 0)
    ensures a.chans[i].enabled && (!a.chans[i].len.enabled || a.chans[i].len.inc == 0) ==> r == (a, len)
    ensures forall j | 0 <= j < 4 && j != i :: r.0.chans[j] == a.chans[j]
    ensures r.0.volL == a.volL && r.0.volR == a.volR
  {
    var c := a.chans[i];
    if !c.enabled then (a, 0)
    else if !c.len.enabled || c.len.inc == 0 then (a, len)
    else
      var t := LenTick(c.len, len);
      var a1 := a.(chans := a.chans[i := c.(len := t.0)]);
      if t.2 then (ChanEnable(a1, i, false), t.1) else (a1, t.1)
  }

  /** In a reachable state the remaining time is never negative, so the
      sample loops that use it run between 0 and `len` times, and the
      counter keeps resting at 0 or just below 2^32. */
  lemma LenTickSane(l: LenCtr, len: int)
    requires 0 < l.inc <= 256 && 0 <= len <= MaxChunk
    requires l.counter == 0 || l.counter >= 0x1_0000_0000 - LenSlack
    ensures 0 <= LenTick(l, len).1 <= len
    ensures var c := LenTick(l, len).0.counter; c == 0 || c >= 0x1_0000_0000 - LenSlack
  {
    var d := if l.counter == 0 then 0 else 0x1_0000_0000 - l.counter;
    var w := Wrap32(FreqIncRef - l.counter);
    assert w == FreqIncRef + d;
    var q := w / l.inc;
    assert q <= w by {
      DivLe(w, l.inc);
    }
    assert ToInt32(q) == q;
    var t := LenTick(l, len);
    assert t.1 == (if q > len then len else q);
    if q <= len {
      ChargeBound(d, q, len, l.inc);
      var p := len * l.inc;
      assert t.0.counter == Wrap32(l.counter - p);
      assert 0 < d + p <= LenSlack;
      if l.counter == 0 {
        assert Wrap32(l.counter - p) == 0x1_0000_0000 - p;
      } else {
        assert l.counter - p == 0x1_0000_0000 - (d + p);
      }
    }
  }

  /** The arithmetic behind LenTickSane: if the remaining time fits in the
      chunk, charging the chunk moves the counter less than LenSlack below
      2^32. */
  lemma ChargeBound(d: nat, q: nat, len: nat, inc: nat)
    requires 0 < inc <= 256 && len <= MaxChunk && q <= len
    requires q == (FreqIncRef + d) / inc
    ensures 0 < d + len * inc <= LenSlack
  {
    var w := FreqIncRef + d;
    assert w == inc * q + w % inc;
    assert w < (q + 1) * inc;
    MulLe(q + 1, len + 1, inc);
    assert d < (len + 1) * inc - FreqIncRef;
    assert d + len * inc < (2 * len + 1) * inc - FreqIncRef;
    MulLe(2 * len + 1, 2 * MaxChunk + 1, inc);
    MulLe(inc, 256, 2 * MaxChunk + 1);
    assert len * inc > 0 by {
      assert len >= 1;
      MulLe(1, len, inc);
    }
  }

  lemma UpdateLenSane(a: Apu, i: nat, len: int)
    requires i < 4 && ChanInv(i, a.chans[i]) && 0 <= len <= MaxChunk
    ensures 0 <= UpdateLen(a, i, len).1 <= len
    ensures LenCounterSane(UpdateLen(a, i, len).0.chans[i])
  {
    var c := a.chans[i];
    if c.enabled && c.len.enabled && c.len.inc != 0 {
      LenTickSane(c.len, len);
    }
  }

  /** update_len keeps the invariant: it only charges or resets the length
      counter of channel i, and may stop the channel through chan_enable. */
  lemma UpdateLenKeepsInv(a: Apu, i: nat, len: int)
    requires i < 4 && Inv(a) && 0 <= len <= MaxChunk
    ensures Inv(UpdateLen(a, i, len).0)
  {
    var c := a.chans[i];
    if c.enabled && c.len.enabled && c.len.inc != 0 {
      LenChargeKeepsInv(a, i, len);
    }
  }

  /** The charging branch of update_len: the new counter keeps its range,
      and a channel it stops still satisfies the invariant. */
  lemma LenChargeKeepsInv(a: Apu, i: nat, len: int)
    requires i < 4 && Inv(a) && 0 <= len <= MaxChunk
    requires a.chans[i].enabled && a.chans[i].len.enabled && a.chans[i].len.inc != 0
    ensures Inv(UpdateLen(a, i, len).0)
  {
    var c := a.chans[i];
    var t := LenTick(c.len, len);
    LenTickSane(c.len, len);
    var c1 := c.(len := t.0);
    var a1 := a.(chans := a.chans[i := c1]);
    assert ChanInv(i, c1) by {
      assert c1.len.load == c.len.load && c1.len.inc == c.len.inc;
    }
    SetChanKeepsInv(a, i, c1);
    if t.2 {
      ChanDisableKeepsInv(a1, i);
      assert UpdateLen(a, i, len).0 == ChanEnable(a1, i, false);
    } else {
      assert UpdateLen(a, i, len).0 == a1;
    }
  }

  /** What update_len touches: channel i's length counter and enabled flag,
      and through chan_enable the NR52 status bits, never the power bit. A
      stopped channel stays stopped. */
  lemma UpdateLenFrame(a: Apu, i: nat, len: int)
    requires i < 4
    ensures var r := UpdateLen(a, i, len).0;
            && r.chans[i] == a.chans[i].(len := r.chans[i].len, enabled := r.chans[i].enabled)
            && (r.chans[i].enabled ==> a.chans[i].enabled)
            && (forall k | 0 <= k < MemSize && k != NR52 :: r.mem[k] == a.mem[k])
            && (PoweredOn(r) <==> PoweredOn(a))
  {
  }

  /** As written, `tr > len` is the branch that stops the channel: a freshly
      triggered channel whose remaining time exceeds the chunk is stopped at
      the end of that chunk, however long its length load asks it to play. */
  lemma LengthStopsLongNotes(a: Apu, i: nat, len: int)
    requires i < 4 && 0 <= len <= MaxChunk
    requires a.chans[i].enabled && a.chans[i].len.enabled && a.chans[i].len.counter == 0
    requires 0 < a.chans[i].len.inc <= 64
    ensures UpdateLen(a, i, len).1 == len
    ensures !UpdateLen(a, i, len).0.chans[i].enabled
  {
    LenTickStops(a.chans[i].len, len);
  }

  /** From a reset counter and an increment of at most 64 the remaining time
      is at least FREQ_INC_REF / 64 = 344 samples, more than a chunk. */
  lemma LenTickStops(l: LenCtr, len: int)
    requires 0 < l.inc <= 64 && l.counter == 0 && 0 <= len <= MaxChunk
    ensures LenTick(l, len).2 && LenTick(l, len).1 == len
  {
    assert FreqIncRef == 22050 && MaxChunk == 256;
    MulLe(l.inc, 64, 344);
    DivAtLeast(FreqIncRef, l.inc, 344);
    DivLe(FreqIncRef, l.inc);
    assert Wrap32(FreqIncRef - l.counter) == FreqIncRef;
    assert ToInt32(FreqIncRef / l.inc) == FreqIncRef / l.inc;
  }

  /** update_freq, on the channel's frequency counter and increment: the
      counter gains `freq_inc - pos`; on an overflow past FREQ_INC_REF it
      resets and `pos` becomes the point inside the sample where the overflow
      happened (an edge, reported as true). */
  function UpdateFreq(counter: u32, inc: u32, pos: u32): (r: (u32, u32, bool))
    ensures pos <= inc && counter <= FreqIncRef && inc <= MaxFreqInc ==>
              && r.0 <= FreqIncRef
              && pos <= r.1 <= inc
              && (r.2 ==> r.1 < inc && r.0 == 0)
              && (r.2 ==> r.1 > pos || counter == FreqIncRef)
              && (!r.2 ==> r.1 == inc && r.0 == counter + inc - pos)
  {
    var fc := Wrap32(counter + Wrap32(inc - pos));
    if fc > FreqIncRef then
      (0, Wrap32(inc - (fc - FreqIncRef)), true)
    else
      (fc, inc, false)
  }

  /** The `while (update_freq(c, &pos))` loop reduced to its timer: the
      counter it ends with and the number of overflows (edges) it reports.
      Each edge either moves `pos` forward or, once, drops a counter that sat
      exactly at FREQ_INC_REF to 0, so the loop ends. */
  function FreqRun(counter: u32, inc: u32, pos: u32): (r: (u32, nat))
    requires 0 < inc <= MaxFreqInc && counter <= FreqIncRef && pos <= inc
    ensures r.0 <= FreqIncRef
    decreases inc - pos, counter
  {
    var t := UpdateFreq(counter, inc, pos);
    if t.2 then
      var n := FreqRun(t.0, inc, t.1);
      (n.0, n.1 + 1)
    else (t.0, 0)
  }

  /** The frequency timer is a phase accumulator: over one output sample the
      counter gains `freq_inc - pos`, and every edge takes FREQ_INC_REF off
      it; what is left stays in (0, FREQ_INC_REF]. */
  lemma {:induction false} FreqRunPhase(counter: u32, inc: u32, pos: u32)
    requires 0 < inc <= MaxFreqInc && counter <= FreqIncRef && pos <= inc
    ensures var r := FreqRun(counter, inc, pos);
            counter + inc - pos == r.1 * FreqIncRef + r.0
            && (counter + inc - pos > 0 ==> r.0 > 0)
    decreases inc - pos, counter
  {
    var t := UpdateFreq(counter, inc, pos);
    if t.2 {
      FreqRunPhase(t.0, inc, t.1);
      var n := FreqRun(t.0, inc, t.1);
      assert t.1 == pos + FreqIncRef - counter;
      assert FreqRun(counter, inc, pos) == (n.0, n.1 + 1);
    }
  }

  /** At the start of a sample (pos 0) the number of edges is the number of
      whole periods the counter passes: ceil((counter + inc) / REF) - 1. */
  lemma EdgesPerSample(counter: u32, inc: u32)
    requires 0 < inc <= MaxFreqInc && counter <= FreqIncRef
    ensures FreqRun(counter, inc, 0).1 == (counter + inc - 1) / FreqIncRef
  {
    var r := FreqRun(counter, inc, 0);
    FreqRunPhase(counter, inc, 0);
    DivUnique(counter + inc - 1, FreqIncRef, r.1, r.0 - 1);
  }
}
