/** The mix-down of update_square / update_wave / update_noise: one output
    slot per AUDIO_SAMPLE_REPLICATION samples, the slot loop over a chunk
    and the three channel updaters. The output buffers are sequences of
    int16 samples; a chunk starts at `base`. */
module ApuSynth {
  import opened Bits
  import opened ApuState
  import opened ApuChannel
  import opened ApuTimers
  import opened ApuInit
  import opened ApuOsc

  /** What a slot needs of channel i: a running, bounded frequency increment,
      a frequency counter at most FREQ_INC_REF and, for the wave channel, a
      position inside the 32-sample table. */
  predicate SlotReady(i: nat, c: Chan) {
    0 < c.freqInc <= MaxFreqInc && c.freqCounter <= FreqIncRef && (i == 2 ==> 0 <= c.val < 32)
  }

  /** One output slot of channel i: the envelope tick (square and noise),
      the sweep tick (channel 0) or the wave sample refresh (wave), the
      edges inside the sample, and the sample scaled down. Because the
      integration term vanishes, the sample is the level the channel holds
      at the end of the slot times its volume, over 4 (C division). */
  function Slot(c: Chan, i: nat, mem: Regs): (r: (Chan, int))
    requires i < 4 && SlotReady(i, c)
    ensures i != 2 ==> r.1 == TruncDiv(r.0.val * r.0.volume, 4)
    ensures i == 2 ==> r.1 == TruncDiv((r.0.waveSample - 8) * WaveUnit, 4)
  {
    var c2 := SlotPrelude(c, i, mem);
    var e := Edges(c2.freqCounter, c2.freqInc, OscOf(c2), i, c2, mem, 0, 0, 0);
    var c3 := WithOsc(c2.(freqCounter := e.0), e.1);
    var s := if i == 2 then e.2 + (c3.waveSample - 8) * WaveUnit else (e.2 + c3.val) * c3.volume;
    (c3, TruncDiv(s, 4))
  }

  /** The start of a slot, before its edges: the envelope tick (square and
      noise), the sweep tick (channel 0) or the wave sample refresh. It keeps
      the channel in range, never starts it, keeps its frequency counter and
      routing, and for the wave channel its position and volume code. */
  function SlotPrelude(c: Chan, i: nat, mem: Regs): (r: Chan)
    requires i < 4 && (i == 2 ==> 0 <= c.val < 32)
    ensures i == 2 ==> r == c.(waveSample := WaveSample(mem, c.val, c.volume))
    ensures i != 2 ==> r.waveSample == c.waveSample && r.val == c.val
    ensures r.freqCounter == c.freqCounter && r.dutyCounter == c.dutyCounter && r.lfsrReg == c.lfsrReg
    ensures r.enabled ==> c.enabled
    ensures r.onLeft == c.onLeft && r.onRight == c.onRight
    ensures i != 0 ==> r.freqInc == c.freqInc
    ensures SlotReady(i, c) ==> SlotReady(i, r)
  {
    var c1 := if i == 2 then c.(waveSample := WaveSample(mem, c.val, c.volume)) else UpdateEnv(c);
    if i == 0 then UpdateSweep(c1) else c1
  }

  /** The prelude keeps channel i in range. */
  lemma PreludeKeepsInv(c: Chan, i: nat, mem: Regs)
    requires i < 4 && ChanInv(i, c)
    ensures ChanInv(i, SlotPrelude(c, i, mem))
  {
  }

  /** A slot keeps channel i in range, never starts it, and leaves its
      routing (and, for the wave channel, its volume code) alone. */
  lemma SlotStaysReady(c: Chan, i: nat, mem: Regs)
    requires i < 4 && SlotReady(i, c)
    ensures SlotReady(i, Slot(c, i, mem).0)
  {
    var c2 := SlotPrelude(c, i, mem);
    if i == 2 {
      var o := OscOf(c2);
      EdgesAsRepeat(c2.freqCounter, c2.freqInc, o, i, c2, mem, 0, 0, 0);
      RepeatWave(o, c2, mem, FreqRun(c2.freqCounter, c2.freqInc, 0).1);
    }
  }

  /** A slot leaves the routing of channel i, and the wave channel's volume
      code, as they were. */
  lemma SlotKeepsRouting(c: Chan, i: nat, mem: Regs)
    requires i < 4 && SlotReady(i, c)
    ensures var r := Slot(c, i, mem).0;
            r.onLeft == c.onLeft && r.onRight == c.onRight && (i == 2 ==> r.volume == c.volume)
  {
  }

  lemma SlotKeepsInvIf(c: Chan, i: nat, mem: Regs)
    requires i < 4 && SlotReady(i, c)
    ensures ChanInv(i, c) ==> ChanInv(i, Slot(c, i, mem).0) && (Slot(c, i, mem).0.enabled ==> c.enabled)
  {
    if ChanInv(i, c) {
      SlotKeepsInv(c, i, mem);
    }
  }

  lemma SlotKeepsInv(c: Chan, i: nat, mem: Regs)
    requires i < 4 && ChanInv(i, c) && c.freqInc > 0
    ensures var r := Slot(c, i, mem).0;
            && ChanInv(i, r) && r.freqInc > 0
            && (r.enabled ==> c.enabled)
            && r.onLeft == c.onLeft && r.onRight == c.onRight
            && (i == 2 ==> r.volume == c.volume)
  {
    var c2 := SlotPrelude(c, i, mem);
    var n := FreqRun(c2.freqCounter, c2.freqInc, 0);
    SlotAsRepeat(c, i, mem);
    SlotEndKeepsInv(c, i, mem, n.0, n.1, Slot(c, i, mem).0);
  }

  /** A slot's channel is the prelude's channel with the counter the timer
      ends on and the waveform state its edges produce. */
  lemma SlotAsRepeat(c: Chan, i: nat, mem: Regs)
    requires i < 4 && SlotReady(i, c)
    ensures var c2 := SlotPrelude(c, i, mem);
            var n := FreqRun(c2.freqCounter, c2.freqInc, 0);
            Slot(c, i, mem).0 == WithOsc(c2.(freqCounter := n.0), Repeat(OscOf(c2), i, c2, mem, n.1))
  {
    var c2 := SlotPrelude(c, i, mem);
    EdgesAsRepeat(c2.freqCounter, c2.freqInc, OscOf(c2), i, c2, mem, 0, 0, 0);
  }

  /** The channel a slot ends with, the prelude's channel with a counter in
      range and the waveform state of some number of edges, keeps the
      slot's guarantees. */
  lemma SlotEndKeepsInv(c: Chan, i: nat, mem: Regs, counter: u32, edges: nat, r: Chan)
    requires i < 4 && ChanInv(i, c) && c.freqInc > 0 && counter <= FreqIncRef
    requires var c2 := SlotPrelude(c, i, mem);
             r == WithOsc(c2.(freqCounter := counter), Repeat(OscOf(c2), i, c2, mem, edges))
    ensures && ChanInv(i, r) && r.freqInc > 0
            && (r.enabled ==> c.enabled)
            && r.onLeft == c.onLeft && r.onRight == c.onRight
            && (i == 2 ==> r.volume == c.volume)
  {
    var c2 := SlotPrelude(c, i, mem);
    PreludeKeepsInv(c, i, mem);
    RepeatFits(OscOf(c2), i, c2, mem, edges);
    WithOscKeepsInv(i, c2, counter, Repeat(OscOf(c2), i, c2, mem, edges));
  }

  /** The waveform fields ChanInv bounds: the duty step, and for the wave
      channel the table position and the buffered sample. */
  predicate OscFits(i: nat, o: Osc) {
    o.dutyCounter <= 7 && (i == 2 ==> 0 <= o.val < 32 && o.waveSample <= 15)
  }

  /** Edges keep the waveform fields in range. */
  lemma RepeatFits(o: Osc, i: nat, c: Chan, mem: Regs, n: nat)
    requires i < 4 && OscFits(i, o)
    ensures OscFits(i, Repeat(o, i, c, mem, n))
  {
    if i < 2 {
      RepeatSquare(o, i, c, mem, n);
    } else if i == 2 {
      RepeatWave(o, c, mem, n);
    } else {
      RepeatNoise(o, i, c, mem, n);
    }
  }

  /** Writing back a frequency counter and waveform fields in range keeps
      the channel in range and leaves everything else alone. */
  lemma WithOscKeepsInv(i: nat, c: Chan, counter: u32, o: Osc)
    requires i < 4 && ChanInv(i, c) && counter <= FreqIncRef && OscFits(i, o)
    ensures var r := WithOsc(c.(freqCounter := counter), o);
            && ChanInv(i, r) && r.freqInc == c.freqInc && r.enabled == c.enabled
            && r.onLeft == c.onLeft && r.onRight == c.onRight && r.volume == c.volume
  {
  }

  /** How a slot lands in an output buffer: square and noise add to what is
      there (`+=`), the wave channel overwrites it (`=`), both truncated to
      int16. */
  function Mix(i: nat, prior: i16, sample: int, on: bool, vol: int): (r: i16)
    ensures i != 2 && (!on || vol == 0) ==> r == prior
  {
    if i == 2 then ToInt16(sample * Flag(on) * vol)
    else
      assert !on || vol == 0 ==> sample * Flag(on) * vol == 0;
      ToInt16(prior + sample * Flag(on) * vol)
  }

  /** The wave channel overwrites: its slot does not depend on what the
      buffer held, and routed to a side it is sample times volume. */
  lemma MixOverwrites(p: i16, q: i16, sample: int, on: bool, vol: int)
    ensures Mix(2, p, sample, on, vol) == Mix(2, q, sample, on, vol)
    ensures on ==> Mix(2, p, sample, on, vol) == ToInt16(sample * vol)
    ensures !on ==> Mix(2, p, sample, on, vol) == 0
  {
  }

  /** Square and noise add: routed to a side, the slot is what the buffer
      held plus sample times volume, wrapped to int16; not routed, it is
      what the buffer held. */
  lemma MixAdds(i: nat, prior: i16, sample: int, on: bool, vol: int)
    requires i != 2
    ensures on ==> Mix(i, prior, sample, on, vol) == ToInt16(prior + sample * vol)
    ensures !on ==> Mix(i, prior, sample, on, vol) == prior
  {
  }

  /** What buffer value `prior` becomes when a slot of channel i lands on a
      side: a wave channel with volume code 0 writes nothing. */
  function Land(i: nat, volume: int, prior: i16, sample: int, on: bool, vol: int): i16 {
    if i == 2 && volume == 0 then prior else Mix(i, prior, sample, on, vol)
  }

  /** A square or noise slot that is not routed to a side, or whose master
      volume is 0, leaves that side's sample as it was. */
  lemma MixSilent(i: nat, prior: i16, sample: int, on: bool, vol: int)
    requires i != 2 && (!on || vol == 0)
    ensures Mix(i, prior, sample, on, vol) == prior
  {
    assert sample * Flag(on) * vol == 0;
  }

  /** Buffer index j is one of the slots k, k + R, ... below n of the chunk at base. */
  predicate InSlots(j: int, base: nat, k: nat, n: int) {
    base + k <= j < base + n && (j - base) % Replication == 0
  }

  /** The MixSilent case split, for use inside expressions. */
  lemma MixSilentIf(i: nat, prior: i16, sample: int, on: bool, vol: int)
    ensures i != 2 && (!on || vol == 0) ==> Mix(i, prior, sample, on, vol) == prior
  {
    if i != 2 && (!on || vol == 0) {
      MixSilent(i, prior, sample, on, vol);
    }
  }

  /** The `for (i = 0; i < len; i += AUDIO_SAMPLE_REPLICATION)` loop of the
      channel updaters, from slot k on. The wave channel skips the write
      while its volume code is 0. */
  function Slots(c: Chan, i: nat, mem: Regs, volL: int, volR: int,
                 left: seq<i16>, right: seq<i16>, base: nat, k: nat, n: int): (r: (Chan, seq<i16>, seq<i16>))
    requires i < 4 && SlotReady(i, c)
    requires base + n <= |left| == |right| && k % Replication == 0
    ensures |r.1| == |left| && |r.2| == |right|
    ensures SlotReady(i, r.0)
    ensures ChanInv(i, c) ==> ChanInv(i, r.0) && (r.0.enabled ==> c.enabled)
    ensures forall j | 0 <= j < |left| && !InSlots(j, base, k, n) :: r.1[j] == left[j]
    ensures forall j | 0 <= j < |right| && !InSlots(j, base, k, n) :: r.2[j] == right[j]
    decreases n - k
  {
    if k < n then
      SlotStaysReady(c, i, mem);
      SlotKeepsInvIf(c, i, mem);
      SlotsAdvance(base, k, n);
      var s := Slot(c, i, mem);
      var w := WriteSlot(i, s.0, s.1, volL, volR, left, right, base + k);
      Slots(s.0, i, mem, volL, volR, w.0, w.1, base, k + Replication, n)
    else (c, left, right)
  }

  /** Slot k of the chunk is the first of the slots from k on; the slots
      after it are those from k + R on. */
  lemma SlotsAdvance(base: nat, k: nat, n: int)
    requires k < n && k % Replication == 0
    ensures (k + Replication) % Replication == 0
    ensures InSlots(base + k, base, k, n)
    ensures forall j | !InSlots(j, base, k, n) :: !InSlots(j, base, k + Replication, n)
  {
  }

  /** One slot written into both buffers at index `at`, unless the wave
      channel is muted (volume code 0). */
  function WriteSlot(i: nat, c: Chan, sample: int, volL: int, volR: int,
                     left: seq<i16>, right: seq<i16>, at: nat): (w: (seq<i16>, seq<i16>))
    requires at < |left| == |right|
    ensures |w.0| == |left| && |w.1| == |right|
    ensures forall j | 0 <= j < |left| && j != at :: w.0[j] == left[j]
    ensures forall j | 0 <= j < |right| && j != at :: w.1[j] == right[j]
    ensures i == 2 && c.volume == 0 ==> w == (left, right)
    ensures i != 2 && (!c.onLeft || volL == 0) ==> w.0 == left
    ensures i != 2 && (!c.onRight || volR == 0) ==> w.1 == right
    ensures w.0[at] == Land(i, c.volume, left[at], sample, c.onLeft, volL)
    ensures w.1[at] == Land(i, c.volume, right[at], sample, c.onRight, volR)
  {
    if i == 2 && c.volume == 0 then (left, right)
    else
      MixSilentIf(i, left[at], sample, c.onLeft, volL);
      MixSilentIf(i, right[at], sample, c.onRight, volR);
      (left[at := Mix(i, left[at], sample, c.onLeft, volL)],
       right[at := Mix(i, right[at], sample, c.onRight, volR)])
  }

  /** Channel c after the first m slots of a loop. A slot reads the
      registers only through the wave RAM (SlotMem), so the loop is walked
      on the wave RAM alone. */
  function After(c: Chan, i: nat, mem: Regs, m: nat): (r: Chan)
    requires i < 4 && SlotReady(i, c)
    ensures SlotReady(i, r)
    ensures r.onLeft == c.onLeft && r.onRight == c.onRight && (i == 2 ==> r.volume == c.volume)
  {
    Walk(c, i, WaveOnly(mem), m)
  }

  /** The registers with everything below the wave RAM cleared. */
  function WaveOnly(mem: Regs): (r: Regs)
    ensures SameWaveRam(mem, r)
    ensures forall k | 0 <= k < WaveRam :: r[k] == 0
  {
    seq(WaveRam, _ => 0) + mem[WaveRam..]
  }

  /** Channel c after m slots, each run on the registers mem. */
  function Walk(c: Chan, i: nat, mem: Regs, m: nat): (r: Chan)
    requires i < 4 && SlotReady(i, c)
    ensures SlotReady(i, r)
    ensures r.onLeft == c.onLeft && r.onRight == c.onRight && (i == 2 ==> r.volume == c.volume)
    decreases m
  {
    if m == 0 then c
    else
      SlotStaysReady(c, i, mem);
      SlotKeepsRouting(c, i, mem);
      Walk(Slot(c, i, mem).0, i, mem, m - 1)
  }

  /** The sample of slot m of a loop that starts with channel c. */
  function SampleAt(c: Chan, i: nat, mem: Regs, m: nat): int
    requires i < 4 && SlotReady(i, c)
  {
    Slot(After(c, i, mem, m), i, mem).1
  }

  /** outL and outR are left and right after the slot loop of channel c
      over the slots k, k + R, ... below n of the chunk at base: slot
      k + m R holds the m-th sample landed on what was there, and no other
      entry changed. */
  ghost predicate Holds(c: Chan, i: nat, mem: Regs, volL: int, volR: int, left: seq<i16>, right: seq<i16>,
                        outL: seq<i16>, outR: seq<i16>, base: nat, k: nat, n: int)
    requires i < 4
  {
    && SlotReady(i, c)
    && base + n <= |left| && |left| == |right| == |outL| == |outR|
    && (forall j | 0 <= j < |left| && !InSlots(j, base, k, n) :: outL[j] == left[j] && outR[j] == right[j])
    && (forall m: nat | k + m * Replication < n ::
          Landed(c, i, mem, volL, volR, left[base + k + m * Replication], right[base + k + m * Replication],
                 outL[base + k + m * Replication], outR[base + k + m * Replication], m))
  }

  /** An entry that held priorL / priorR holds gotL / gotR after the m-th
      slot of the loop that starts with channel c landed on it. */
  ghost predicate Landed(c: Chan, i: nat, mem: Regs, volL: int, volR: int,
                         priorL: i16, priorR: i16, gotL: i16, gotR: i16, m: nat)
    requires i < 4 && SlotReady(i, c)
  {
    && gotL == Land(i, c.volume, priorL, SampleAt(c, i, mem, m), c.onLeft, volL)
    && gotR == Land(i, c.volume, priorR, SampleAt(c, i, mem, m), c.onRight, volR)
  }

  /** The slot loop from slot k writes the m-th sample of the channel into
      slot k + m R, through its routing and the master volumes, and leaves
      every other entry alone. */
  lemma {:induction false} SlotsHold(c: Chan, i: nat, mem: Regs, volL: int, volR: int,
                                     left: seq<i16>, right: seq<i16>, base: nat, k: nat, n: int)
    requires i < 4 && SlotReady(i, c)
    requires base + n <= |left| == |right| && k % Replication == 0
    ensures var r := Slots(c, i, mem, volL, volR, left, right, base, k, n);
            Holds(c, i, mem, volL, volR, left, right, r.1, r.2, base, k, n)
    decreases n - k
  {
    if k < n {
      SlotStaysReady(c, i, mem);
      var s := Slot(c, i, mem);
      var w := WriteSlot(i, s.0, s.1, volL, volR, left, right, base + k);
      SlotsAdvance(base, k, n);
      SlotsHold(s.0, i, mem, volL, volR, w.0, w.1, base, k + Replication, n);
      var r := Slots(s.0, i, mem, volL, volR, w.0, w.1, base, k + Replication, n);
      HoldsStep(c, i, mem, volL, volR, left, right, w.0, w.1, r.1, r.2, base, k, n);
    }
  }

  /** One step of SlotsHold: slot k written into (wl, wr), then the slots
      from k + R on holding, make the slots from k on hold. */
  lemma HoldsStep(c: Chan, i: nat, mem: Regs, volL: int, volR: int, left: seq<i16>, right: seq<i16>,
                  wl: seq<i16>, wr: seq<i16>, outL: seq<i16>, outR: seq<i16>, base: nat, k: nat, n: int)
    requires i < 4 && SlotReady(i, c) && k < n && k % Replication == 0
    requires base + n <= |left| == |right|
    requires SlotReady(i, Slot(c, i, mem).0)
    requires (wl, wr) == WriteSlot(i, Slot(c, i, mem).0, Slot(c, i, mem).1, volL, volR, left, right, base + k)
    requires Holds(Slot(c, i, mem).0, i, mem, volL, volR, wl, wr, outL, outR, base, k + Replication, n)
    ensures Holds(c, i, mem, volL, volR, left, right, outL, outR, base, k, n)
  {
    SlotsAdvance(base, k, n);
    forall m: nat | k + m * Replication < n
      ensures Landed(c, i, mem, volL, volR, left[base + k + m * Replication], right[base + k + m * Replication],
                     outL[base + k + m * Replication], outR[base + k + m * Replication], m)
    {
      HoldsAt(c, i, mem, volL, volR, left, right, wl, wr, outL, outR, base, k, n, m);
    }
  }

  /** HoldsStep at slot k + m R. */
  lemma HoldsAt(c: Chan, i: nat, mem: Regs, volL: int, volR: int, left: seq<i16>, right: seq<i16>,
                wl: seq<i16>, wr: seq<i16>, outL: seq<i16>, outR: seq<i16>, base: nat, k: nat, n: int, m: nat)
    requires i < 4 && SlotReady(i, c) && k + m * Replication < n && k % Replication == 0
    requires base + n <= |left| == |right|
    requires SlotReady(i, Slot(c, i, mem).0)
    requires (wl, wr) == WriteSlot(i, Slot(c, i, mem).0, Slot(c, i, mem).1, volL, volR, left, right, base + k)
    requires Holds(Slot(c, i, mem).0, i, mem, volL, volR, wl, wr, outL, outR, base, k + Replication, n)
    ensures Landed(c, i, mem, volL, volR, left[base + k + m * Replication], right[base + k + m * Replication],
                   outL[base + k + m * Replication], outR[base + k + m * Replication], m)
  {
    SlotKeepsRouting(c, i, mem);
    SampleShift(c, i, mem, m);
    if m > 0 {
      HoldsLater(c, Slot(c, i, mem).0, i, mem, volL, volR, left, right, wl, wr, outL, outR, base, k, n, m);
    } else {
      HoldsFirst(c, Slot(c, i, mem).0, Slot(c, i, mem).1, i, mem, volL, volR, left, right, wl, wr, outL, outR, base, k, n);
    }
  }

  /** HoldsAt for a later slot: the write at slot k left it alone. */
  lemma HoldsLater(c: Chan, c1: Chan, i: nat, mem: Regs, volL: int, volR: int, left: seq<i16>, right: seq<i16>,
                   wl: seq<i16>, wr: seq<i16>, outL: seq<i16>, outR: seq<i16>, base: nat, k: nat, n: int, m: nat)
    requires i < 4 && SlotReady(i, c) && SlotReady(i, c1) && 0 < m && k + m * Replication < n
    requires base + n <= |left| == |right| == |wl| == |wr|
    requires c1.onLeft == c.onLeft && c1.onRight == c.onRight && (i == 2 ==> c1.volume == c.volume)
    requires SampleAt(c, i, mem, m) == SampleAt(c1, i, mem, m - 1)
    requires forall j | 0 <= j < |left| && j != base + k :: wl[j] == left[j] && wr[j] == right[j]
    requires Holds(c1, i, mem, volL, volR, wl, wr, outL, outR, base, k + Replication, n)
    ensures Landed(c, i, mem, volL, volR, left[base + k + m * Replication], right[base + k + m * Replication],
                   outL[base + k + m * Replication], outR[base + k + m * Replication], m)
  {
    var at := base + k + m * Replication;
    HoldsGetShift(c1, i, mem, volL, volR, wl, wr, outL, outR, base, k, n, m);
    assert wl[at] == left[at] && wr[at] == right[at];
    LandedShift(c, c1, i, mem, volL, volR, wl[at], wr[at], outL[at], outR[at], m);
  }

  /** Slot m of the loop from k, read off the loop from k + R. */
  lemma HoldsGetShift(c: Chan, i: nat, mem: Regs, volL: int, volR: int, left: seq<i16>, right: seq<i16>,
                      outL: seq<i16>, outR: seq<i16>, base: nat, k: nat, n: int, m: nat)
    requires i < 4 && 0 < m && k + m * Replication < n
    requires Holds(c, i, mem, volL, volR, left, right, outL, outR, base, k + Replication, n)
    ensures Landed(c, i, mem, volL, volR, left[base + k + m * Replication], right[base + k + m * Replication],
                   outL[base + k + m * Replication], outR[base + k + m * Replication], m - 1)
  {
    var at := base + k + m * Replication;
    SlotShift(base, k, m);
    HoldsGetAt(c, i, mem, volL, volR, left, right, outL, outR, base, k + Replication, n, m - 1, at);
  }

  /** HoldsGet with the slot's index named. */
  lemma HoldsGetAt(c: Chan, i: nat, mem: Regs, volL: int, volR: int, left: seq<i16>, right: seq<i16>,
                   outL: seq<i16>, outR: seq<i16>, base: nat, k: nat, n: int, m: nat, at: nat)
    requires i < 4 && k + m * Replication < n && at == base + k + m * Replication
    requires Holds(c, i, mem, volL, volR, left, right, outL, outR, base, k, n)
    ensures Landed(c, i, mem, volL, volR, left[at], right[at], outL[at], outR[at], m)
  {
    HoldsGet(c, i, mem, volL, volR, left, right, outL, outR, base, k, n, m);
  }

  /** Slot m of the loop from k is slot m - 1 of the loop from k + R. */
  lemma SlotShift(base: nat, k: nat, m: nat)
    requires m > 0
    ensures base + (k + Replication) + (m - 1) * Replication == base + k + m * Replication
  {
  }

  /** Slot m - 1 of the loop that starts after channel c's first slot is
      slot m of the loop that starts with c. */
  lemma LandedShift(c: Chan, c1: Chan, i: nat, mem: Regs, volL: int, volR: int,
                    priorL: i16, priorR: i16, gotL: i16, gotR: i16, m: nat)
    requires i < 4 && SlotReady(i, c) && SlotReady(i, c1) && 0 < m
    requires c1.onLeft == c.onLeft && c1.onRight == c.onRight && (i == 2 ==> c1.volume == c.volume)
    requires SampleAt(c, i, mem, m) == SampleAt(c1, i, mem, m - 1)
    requires Landed(c1, i, mem, volL, volR, priorL, priorR, gotL, gotR, m - 1)
    ensures Landed(c, i, mem, volL, volR, priorL, priorR, gotL, gotR, m)
  {
  }

  /** What Holds says of the m-th slot. */
  lemma HoldsGet(c: Chan, i: nat, mem: Regs, volL: int, volR: int, left: seq<i16>, right: seq<i16>,
                 outL: seq<i16>, outR: seq<i16>, base: nat, k: nat, n: int, m: nat)
    requires i < 4 && k + m * Replication < n
    requires Holds(c, i, mem, volL, volR, left, right, outL, outR, base, k, n)
    ensures Landed(c, i, mem, volL, volR, left[base + k + m * Replication], right[base + k + m * Replication],
                   outL[base + k + m * Replication], outR[base + k + m * Replication], m)
  {
  }

  /** HoldsAt for slot k itself: the write put it there and the later
      slots left it alone. */
  lemma HoldsFirst(c: Chan, c1: Chan, sample: int, i: nat, mem: Regs, volL: int, volR: int,
                   left: seq<i16>, right: seq<i16>, wl: seq<i16>, wr: seq<i16>, outL: seq<i16>, outR: seq<i16>,
                   base: nat, k: nat, n: int)
    requires i < 4 && SlotReady(i, c) && SlotReady(i, c1) && k < n && k % Replication == 0
    requires base + n <= |left| == |right|
    requires c1.onLeft == c.onLeft && c1.onRight == c.onRight && (i == 2 ==> c1.volume == c.volume)
    requires SampleAt(c, i, mem, 0) == sample
    requires (wl, wr) == WriteSlot(i, c1, sample, volL, volR, left, right, base + k)
    requires Holds(c1, i, mem, volL, volR, wl, wr, outL, outR, base, k + Replication, n)
    ensures Landed(c, i, mem, volL, volR, left[base + k], right[base + k], outL[base + k], outR[base + k], 0)
  {
    assert !InSlots(base + k, base, k + Replication, n);
  }

  /** The first sample of a loop is its first slot's; the later ones are
      those of the loop that starts after it. */
  lemma SampleShift(c: Chan, i: nat, mem: Regs, m: nat)
    requires i < 4 && SlotReady(i, c) && SlotReady(i, Slot(c, i, mem).0)
    ensures m == 0 ==> SampleAt(c, i, mem, m) == Slot(c, i, mem).1
    ensures m > 0 ==> SampleAt(c, i, mem, m) == SampleAt(Slot(c, i, mem).0, i, mem, m - 1)
  {
    if m > 0 {
      AfterStep(c, i, mem, m);
    } else {
      assert After(c, i, mem, m) == c;
    }
  }

  /** Routing: a square or noise channel not routed to a side, or a side
      whose master volume is 0, leaves that side's buffer untouched, and a
      muted wave channel (volume code 0) leaves both untouched. */
  lemma {:induction false} SlotsSilent(c: Chan, i: nat, mem: Regs, volL: int, volR: int,
                                       left: seq<i16>, right: seq<i16>, base: nat, k: nat, n: int)
    requires i < 4 && SlotReady(i, c)
    requires base + n <= |left| == |right| && k % Replication == 0
    ensures var r := Slots(c, i, mem, volL, volR, left, right, base, k, n);
            && (i != 2 && (!c.onLeft || volL == 0) ==> r.1 == left)
            && (i != 2 && (!c.onRight || volR == 0) ==> r.2 == right)
            && (i == 2 && c.volume == 0 ==> r.1 == left && r.2 == right)
    decreases n - k
  {
    if k < n {
      SlotStaysReady(c, i, mem);
      SlotKeepsRouting(c, i, mem);
      SlotsAdvance(base, k, n);
      var s := Slot(c, i, mem);
      var w := WriteSlot(i, s.0, s.1, volL, volR, left, right, base + k);
      SlotsSilent(s.0, i, mem, volL, volR, w.0, w.1, base, k + Replication, n);
    }
  }

  /** What every channel updater keeps: the invariant, the other channels,
      the master volumes, every register but the NR52 mirror, the power bit,
      a stopped channel stopped, and every buffer slot outside the
      synthesised slots of the chunk. */
  predicate Keeps(a: Apu, r: (Apu, seq<i16>, seq<i16>), i: nat,
                  left: seq<i16>, right: seq<i16>, base: nat, len: int)
    requires i < 4
  {
    && Inv(r.0)
    && (forall j | 0 <= j < 4 && j != i :: r.0.chans[j] == a.chans[j])
    && r.0.volL == a.volL && r.0.volR == a.volR
    && (forall k | 0 <= k < MemSize && k != NR52 :: r.0.mem[k] == a.mem[k])
    && (PoweredOn(r.0) <==> PoweredOn(a))
    && (r.0.chans[i].enabled ==> a.chans[i].enabled)
    && |r.1| == |left| && |r.2| == |right|
    && (forall j | 0 <= j < |left| && !InSlots(j, base, 0, len) :: r.1[j] == left[j])
    && (forall j | 0 <= j < |right| && !InSlots(j, base, 0, len) :: r.2[j] == right[j])
  }

  /** The common tail of the updaters: update_len, then the slot loop over
      the samples it allows, the channel written back. The noise updater
      (i == 3) returns instead when update_len has stopped the channel; the
      others play the chunk they were given. A square or noise channel not
      routed to a side, or a side whose master volume is 0, leaves that
      side's buffer as it was; a wave channel with volume code 0 leaves
      both. */
  method Play(a: Apu, i: nat, left: seq<i16>, right: seq<i16>, base: nat, len: int)
    returns (r: Apu, outL: seq<i16>, outR: seq<i16>)
    requires i < 4 && Inv(a) && a.chans[i].freqInc > 0
    requires 0 <= len <= MaxChunk && base + len <= |left| == |right|
    ensures Keeps(a, (r, outL, outR), i, left, right, base, len)
    ensures !a.chans[i].enabled ==> r == a && outL == left && outR == right
    ensures i != 2 && (!a.chans[i].onLeft || a.volL == 0) ==> outL == left
    ensures i != 2 && (!a.chans[i].onRight || a.volR == 0) ==> outR == right
    ensures i == 2 && a.chans[i].volume == 0 ==> outL == left && outR == right
    ensures Played(a, i, len, left, right, outL, outR, base)
  {
    var u, n := LenStep(a, i, len);
    if i == 3 && !u.chans[i].enabled {
      PlayKeeps(a, u, i, (u.chans[i], left, right), left, right, base, len, 0);
      assert u.(chans := u.chans[i := u.chans[i]]) == u;
      return u, left, right;
    }
    var c := u.chans[i];
    var s := SlotLoop(c, i, u.mem, u.volL, u.volR, left, right, base, n);
    PlayKeeps(a, u, i, s, left, right, base, len, n);
    assert !a.chans[i].enabled ==> s == (c, left, right) && u.(chans := u.chans[i := c]) == a;
    r, outL, outR := u.(chans := u.chans[i := s.0]), s.1, s.2;
  }

  /** The buffers after update_len and the slot loop of channel i of a
      over a chunk of len samples at base: the slots update_len allows hold
      the channel's samples and nothing else changed. A noise channel that
      update_len stops changes nothing. */
  ghost predicate Played(a: Apu, i: nat, len: int, left: seq<i16>, right: seq<i16>,
                         outL: seq<i16>, outR: seq<i16>, base: nat)
    requires i < 4
  {
    var u := UpdateLen(a, i, len);
    if i == 3 && !u.0.chans[3].enabled then outL == left && outR == right
    else Holds(u.0.chans[i], i, u.0.mem, a.volL, a.volR, left, right, outL, outR, base, 0, u.1)
  }

  /** update_len inside an updater, with what the updater needs of it. */
  method LenStep(a: Apu, i: nat, len: int) returns (u: Apu, n: int)
    requires i < 4 && Inv(a) && 0 <= len <= MaxChunk
    ensures LenKept(a, u, i) && 0 <= n <= len && (!a.chans[i].enabled ==> n == 0)
    ensures u.chans[i].freqInc == a.chans[i].freqInc
    ensures (u, n) == UpdateLen(a, i, len)
  {
    UpdateLenKeepsInv(a, i, len);
    UpdateLenFrame(a, i, len);
    UpdateLenSane(a, i, len);
    InvChan(UpdateLen(a, i, len).0, i);
    u, n := UpdateLen(a, i, len).0, UpdateLen(a, i, len).1;
  }

  /** The slot loop of an updater over n samples from the chunk's start,
      with what the updater needs of it. */
  method SlotLoop(c: Chan, i: nat, mem: Regs, volL: int, volR: int,
                  left: seq<i16>, right: seq<i16>, base: nat, n: int)
    returns (s: (Chan, seq<i16>, seq<i16>))
    requires i < 4 && ChanInv(i, c) && c.freqInc > 0
    requires base + n <= |left| == |right|
    ensures ChanInv(i, s.0) && (s.0.enabled ==> c.enabled)
    ensures |s.1| == |left| && |s.2| == |right|
    ensures forall j | 0 <= j < |left| && !InSlots(j, base, 0, n) :: s.1[j] == left[j]
    ensures forall j | 0 <= j < |right| && !InSlots(j, base, 0, n) :: s.2[j] == right[j]
    ensures i != 2 && (!c.onLeft || volL == 0) ==> s.1 == left
    ensures i != 2 && (!c.onRight || volR == 0) ==> s.2 == right
    ensures i == 2 && c.volume == 0 ==> s.1 == left && s.2 == right
    ensures n <= 0 ==> s == (c, left, right)
    ensures Holds(c, i, mem, volL, volR, left, right, s.1, s.2, base, 0, n)
  {
    SlotsSilent(c, i, mem, volL, volR, left, right, base, 0, n);
    SlotsHold(c, i, mem, volL, volR, left, right, base, 0, n);
    s := Slots(c, i, mem, volL, volR, left, right, base, 0, n);
  }

  /** What update_len keeps (state u after it, from a): the invariant with
      channel i in range, the other channels, the volumes, the registers
      but NR52, the power bit, channel i's routing and volume, a stopped
      channel stopped, and with channel i stopped, everything. */
  predicate LenKept(a: Apu, u: Apu, i: nat)
    requires i < 4
  {
    && Inv(u) && ChanInv(i, u.chans[i])
    && (forall j | 0 <= j < 4 && j != i :: u.chans[j] == a.chans[j])
    && u.volL == a.volL && u.volR == a.volR
    && (forall k | 0 <= k < MemSize && k != NR52 :: u.mem[k] == a.mem[k])
    && (PoweredOn(u) <==> PoweredOn(a))
    && (u.chans[i].enabled ==> a.chans[i].enabled)
    && u.chans[i].onLeft == a.chans[i].onLeft && u.chans[i].onRight == a.chans[i].onRight
    && u.chans[i].volume == a.chans[i].volume
    && (!a.chans[i].enabled ==> u == a)
  }

  /** Channel i of a state that keeps the invariant is in range. */
  lemma InvChan(a: Apu, i: nat)
    requires i < 4 && Inv(a)
    ensures ChanInv(i, a.chans[i])
  {
  }

  /** The bookkeeping of Play: after update_len (state u) and the slot loop
      over its n samples (result s), storing the channel keeps what every
      updater keeps. */
  lemma PlayKeeps(a: Apu, u: Apu, i: nat, s: (Chan, seq<i16>, seq<i16>),
                  left: seq<i16>, right: seq<i16>, base: nat, len: int, n: int)
    requires i < 4 && LenKept(a, u, i) && ChanInv(i, s.0) && (s.0.enabled ==> u.chans[i].enabled)
    requires 0 <= n <= len
    requires |s.1| == |left| && |s.2| == |right|
    requires forall j | 0 <= j < |left| && !InSlots(j, base, 0, n) :: s.1[j] == left[j]
    requires forall j | 0 <= j < |right| && !InSlots(j, base, 0, n) :: s.2[j] == right[j]
    ensures Keeps(a, (u.(chans := u.chans[i := s.0]), s.1, s.2), i, left, right, base, len)
  {
    SetChanKeepsInv(u, i, s.0);
  }

  /** The wave channel's frequency increment: the note frequency of an 11-bit
      period, times 32. */
  function WaveFreqInc(f: nat): (inc: nat)
    requires f <= 2047
    ensures 32 * 32 <= inc <= MaxFreqInc
  {
    DivLe(DmgClockFreq / 64, 2048 - f);
    DivAtLeast(DmgClockFreq / 64, 2048 - f, 32);
    ((DmgClockFreq / 64) / (2048 - f)) * 32
  }

  /** The noise frequency increment, read from the table audio_init fills. */
  function NoiseFreqInc(c: Chan): (inc: nat)
    requires ChanInv(3, c)
    ensures 1 <= inc <= MaxFreqInc
  {
    NoiseFreq(c.lfsrDiv, c.freq)
  }

  /** A shift code of 10 or more makes the noise increment drop below 1000:
      at most 2^22 / (8 * 2^10) = 512. */
  lemma NoiseHighShiftSlow(c: Chan)
    requires ChanInv(3, c) && c.freq >= 10
    ensures NoiseFreqInc(c) <= 512
  {
    Pow2Values();
    assert Pow2(10) == 1024 by {
      assert Pow2(9) == 2 * Pow2(8);
    }
    Pow2Mono(10, c.freq);
    var term := NoiseDivisor(c.lfsrDiv) * Pow2(c.freq);
    assert term >= 8 * 1024 by {
      MulLe(8, NoiseDivisor(c.lfsrDiv), 1024);
      MulLe(NoiseDivisor(c.lfsrDiv), NoiseDivisor(c.lfsrDiv), Pow2(c.freq));
    }
    DivBelow(DmgClockFreq, term, 513);
  }

  /** The frequency increment an updater gives channel i: from the period
      for the squares and the wave channel, from the divisor table for the
      noise channel. */
  function TunedInc(i: nat, c: Chan): (inc: nat)
    requires i < 4 && ChanInv(i, c) && (i < 2 ==> c.enabled)
    ensures 1 <= inc <= MaxFreqInc
  {
    if i < 2 then SquareFreqInc(c.freq) else if i == 2 then WaveFreqInc(c.freq) else NoiseFreqInc(c)
  }

  /** Whether the updater of channel i gets as far as update_len: the
      channel is powered and, for a square or the wave channel, running;
      the noise channel needs an increment of at least 1000 instead. */
  predicate Plays(a: Apu, i: nat)
    requires i < 4 && Inv(a)
  {
    InvChan(a, i);
    a.chans[i].powered && (if i == 3 then NoiseFreqInc(a.chans[i]) >= 1000 else a.chans[i].enabled)
  }

  /** The state the updater of channel i hands to update_len: the channel's
      frequency increment refreshed and, for the noise channel, the channel
      stopped by a shift code of 14 or 15. */
  function Tuned(a: Apu, i: nat): (r: Apu)
    requires i < 4 && Inv(a) && Plays(a, i)
  {
    InvChan(a, i);
    var c := a.chans[i];
    var c1 := c.(freqInc := TunedInc(i, c));
    a.(chans := a.chans[i := if i == 3 then c1.(enabled := c1.enabled && c.freq < 14) else c1])
  }

  /** Slot m of a chunk of len samples, on the left side when `leftSide`,
      as the updater of channel i of a leaves it: an entry that held `prior`
      holds the m-th sample of the channel landed on it when the updater
      plays and update_len allows the slot, and `prior` otherwise. */
  ghost function Voice(a: Apu, i: nat, len: int, m: nat, prior: i16, leftSide: bool): i16
    requires i < 4 && Inv(a)
  {
    if !Plays(a, i) then prior
    else
      var u := UpdateLen(Tuned(a, i), i, len);
      var d := u.0.chans[i];
      if (i == 3 && !d.enabled) || u.1 <= m * Replication then prior
      else
        InvChan(a, i);
        UpdateLenFrame(Tuned(a, i), i, len);
        Land(i, d.volume, prior, SampleAt(d, i, u.0.mem, m),
             if leftSide then d.onLeft else d.onRight, if leftSide then a.volL else a.volR)
  }

  /** Every slot of the chunk at base holds what the updater of channel i
      of a puts there. */
  ghost predicate Voiced(a: Apu, i: nat, len: int, left: seq<i16>, right: seq<i16>,
                         outL: seq<i16>, outR: seq<i16>, base: nat)
    requires i < 4 && Inv(a)
  {
    && base + len <= |left| && |left| == |right| == |outL| == |outR|
    && forall m: nat | m * Replication < len ::
         && outL[base + m * Replication] == Voice(a, i, len, m, left[base + m * Replication], true)
         && outR[base + m * Replication] == Voice(a, i, len, m, right[base + m * Replication], false)
  }

  /** An updater that stops before update_len leaves every slot as it was. */
  lemma SilentVoiced(a: Apu, i: nat, len: int, left: seq<i16>, right: seq<i16>, base: nat)
    requires i < 4 && Inv(a) && !Plays(a, i)
    requires base + len <= |left| == |right|
    ensures Voiced(a, i, len, left, right, left, right, base)
  {
  }

  /** An updater that plays leaves in each slot what Voice says. */
  lemma PlayedVoiced(a: Apu, i: nat, len: int, left: seq<i16>, right: seq<i16>,
                     outL: seq<i16>, outR: seq<i16>, base: nat)
    requires i < 4 && Inv(a) && Plays(a, i)
    requires base + len <= |left| && |left| == |right| == |outL| == |outR|
    requires Played(Tuned(a, i), i, len, left, right, outL, outR, base)
    ensures Voiced(a, i, len, left, right, outL, outR, base)
  {
    forall m: nat | m * Replication < len
      ensures outL[base + m * Replication] == Voice(a, i, len, m, left[base + m * Replication], true)
      ensures outR[base + m * Replication] == Voice(a, i, len, m, right[base + m * Replication], false)
    {
      PlayedVoicedAt(a, i, len, left, right, outL, outR, base, m);
    }
  }

  /** PlayedVoiced at slot m. */
  lemma PlayedVoicedAt(a: Apu, i: nat, len: int, left: seq<i16>, right: seq<i16>,
                       outL: seq<i16>, outR: seq<i16>, base: nat, m: nat)
    requires i < 4 && Inv(a) && Plays(a, i) && m * Replication < len
    requires base + len <= |left| && |left| == |right| == |outL| == |outR|
    requires Played(Tuned(a, i), i, len, left, right, outL, outR, base)
    ensures outL[base + m * Replication] == Voice(a, i, len, m, left[base + m * Replication], true)
    ensures outR[base + m * Replication] == Voice(a, i, len, m, right[base + m * Replication], false)
  {
    var t := Tuned(a, i);
    var u := UpdateLen(t, i, len);
    var d := u.0.chans[i];
    if !((i == 3 && !d.enabled) || u.1 <= m * Replication) {
      HoldsGet(d, i, u.0.mem, t.volL, t.volR, left, right, outL, outR, base, 0, u.1, m);
    } else if !(i == 3 && !d.enabled) {
      assert !InSlots(base + m * Replication, base, 0, u.1);
    }
  }

  /** The common part of the updaters once they play: the frequency
      increment refreshed (and a noise channel with shift code 14 or 15
      stopped), then update_len and the slot loop. */
  method PlayTuned(a: Apu, i: nat, left: seq<i16>, right: seq<i16>, base: nat, len: int)
    returns (r: Apu, outL: seq<i16>, outR: seq<i16>)
    requires i < 4 && Inv(a) && Plays(a, i)
    requires 0 <= len <= MaxChunk && base + len <= |left| == |right|
    ensures Keeps(a, (r, outL, outR), i, left, right, base, len)
    ensures !a.chans[i].enabled ==> outL == left && outR == right
    ensures i != 2 && (!a.chans[i].onLeft || a.volL == 0) ==> outL == left
    ensures i != 2 && (!a.chans[i].onRight || a.volR == 0) ==> outR == right
    ensures i == 2 && a.chans[i].volume == 0 ==> outL == left && outR == right
    ensures Voiced(a, i, len, left, right, outL, outR, base)
  {
    InvChan(a, i);
    var t := Tuned(a, i);
    SetChanKeepsInv(a, i, t.chans[i]);
    r, outL, outR := Play(t, i, left, right, base, len);
    PlayedVoiced(a, i, len, left, right, outL, outR, base);
  }

  /** Two register files with the same wave RAM. */
  predicate SameWaveRam(m1: Regs, m2: Regs) {
    forall k | WaveRam <= k < MemSize :: m1[k] == m2[k]
  }

  /** A wave sample reads only the wave RAM. */
  lemma WaveSampleMem(m1: Regs, m2: Regs, pos: nat, volume: nat)
    requires SameWaveRam(m1, m2) && pos < 32
    ensures WaveSample(m1, pos, volume) == WaveSample(m2, pos, volume)
  {
    assert m1[WaveRam + pos / 2] == m2[WaveRam + pos / 2];
  }

  /** Edges read only the wave RAM. */
  lemma {:induction false} RepeatMem(o: Osc, i: nat, c: Chan, m1: Regs, m2: Regs, n: nat)
    requires SameWaveRam(m1, m2)
    ensures Repeat(o, i, c, m1, n) == Repeat(o, i, c, m2, n)
    decreases n
  {
    if n > 0 {
      if i == 2 {
        WaveSampleMem(m1, m2, (o.val + 1) % 32, c.volume);
      }
      assert Advance(o, i, c, m1) == Advance(o, i, c, m2);
      RepeatMem(Advance(o, i, c, m1), i, c, m1, m2, n - 1);
    }
  }

  /** A slot reads only the wave RAM. */
  lemma SlotMem(c: Chan, i: nat, m1: Regs, m2: Regs)
    requires i < 4 && SlotReady(i, c) && SameWaveRam(m1, m2)
    ensures Slot(c, i, m1) == Slot(c, i, m2)
  {
    if i == 2 {
      WaveSampleMem(m1, m2, c.val, c.volume);
    }
    var c2 := SlotPrelude(c, i, m1);
    assert c2 == SlotPrelude(c, i, m2);
    SlotAsRepeat(c, i, m1);
    SlotAsRepeat(c, i, m2);
    RepeatMem(OscOf(c2), i, c2, m1, m2, FreqRun(c2.freqCounter, c2.freqInc, 0).1);
  }

  /** A slot loop reads only the wave RAM: under two memories that agree on
      it, the loop ends in the same channel. */
  lemma AfterMem(c: Chan, i: nat, m1: Regs, m2: Regs, m: nat)
    requires i < 4 && SlotReady(i, c) && SameWaveRam(m1, m2)
    ensures After(c, i, m1, m) == After(c, i, m2, m)
  {
    assert m1[WaveRam..] == m2[WaveRam..];
    assert WaveOnly(m1) == WaveOnly(m2);
  }

  /** Unrolling After by one slot. */
  lemma AfterStep(c: Chan, i: nat, mem: Regs, m: nat)
    requires i < 4 && SlotReady(i, c) && m > 0
    ensures SlotReady(i, Slot(c, i, mem).0)
    ensures After(c, i, mem, m) == After(Slot(c, i, mem).0, i, mem, m - 1)
  {
    SlotStaysReady(c, i, mem);
    SlotMem(c, i, mem, WaveOnly(mem));
  }

  /** The samples of a slot loop read only the wave RAM. */
  lemma SampleAtMem(c: Chan, i: nat, m1: Regs, m2: Regs, m: nat)
    requires i < 4 && SlotReady(i, c) && SameWaveRam(m1, m2)
    ensures SampleAt(c, i, m1, m) == SampleAt(c, i, m2, m)
  {
    AfterMem(c, i, m1, m2, m);
    SlotMem(After(c, i, m1, m), i, m1, m2);
  }

  /** The updater of channel i sees only that channel, the master volumes
      and the wave RAM: two states that agree on those get the same slots. */
  lemma VoiceLocal(x: Apu, y: Apu, i: nat, len: int, m: nat, prior: i16, leftSide: bool)
    requires i < 4 && Inv(x) && Inv(y)
    requires x.chans[i] == y.chans[i] && x.volL == y.volL && x.volR == y.volR
    requires forall k | 0 <= k < MemSize && k != NR52 :: x.mem[k] == y.mem[k]
    ensures Voice(x, i, len, m, prior, leftSide) == Voice(y, i, len, m, prior, leftSide)
  {
    if Plays(x, i) {
      TunedLenLocal(x, y, i, len);
      VoicePlayingLocal(x, y, i, len, m, prior, leftSide);
    }
  }

  /** VoiceLocal for a playing channel, from what update_len leaves: the
      same channel and slot count, and the same wave RAM. */
  lemma VoicePlayingLocal(x: Apu, y: Apu, i: nat, len: int, m: nat, prior: i16, leftSide: bool)
    requires i < 4 && Inv(x) && Inv(y) && Plays(x, i) && Plays(y, i)
    requires x.volL == y.volL && x.volR == y.volR
    requires var ux, uy := UpdateLen(Tuned(x, i), i, len), UpdateLen(Tuned(y, i), i, len);
             ux.0.chans[i] == uy.0.chans[i] && ux.1 == uy.1 && SameWaveRam(ux.0.mem, uy.0.mem)
    ensures Voice(x, i, len, m, prior, leftSide) == Voice(y, i, len, m, prior, leftSide)
  {
    TunedLenReady(x, i, len);
    TunedLenSample(x, y, i, len, m);
  }

  /** The m-th sample of a playing channel after update_len, under the same
      channel and wave RAM. */
  lemma TunedLenSample(x: Apu, y: Apu, i: nat, len: int, m: nat)
    requires i < 4 && Inv(x) && Inv(y) && Plays(x, i) && Plays(y, i)
    requires var ux, uy := UpdateLen(Tuned(x, i), i, len), UpdateLen(Tuned(y, i), i, len);
             ux.0.chans[i] == uy.0.chans[i] && SameWaveRam(ux.0.mem, uy.0.mem)
    requires SlotReady(i, UpdateLen(Tuned(x, i), i, len).0.chans[i])
    ensures var ux, uy := UpdateLen(Tuned(x, i), i, len), UpdateLen(Tuned(y, i), i, len);
            SampleAt(ux.0.chans[i], i, ux.0.mem, m) == SampleAt(uy.0.chans[i], i, uy.0.mem, m)
  {
    var ux, uy := UpdateLen(Tuned(x, i), i, len), UpdateLen(Tuned(y, i), i, len);
    SampleAtMem(ux.0.chans[i], i, ux.0.mem, uy.0.mem, m);
  }

  /** After the refresh and update_len, a playing channel is fit for a slot. */
  lemma TunedLenReady(a: Apu, i: nat, len: int)
    requires i < 4 && Inv(a) && Plays(a, i)
    ensures SlotReady(i, UpdateLen(Tuned(a, i), i, len).0.chans[i])
  {
    InvChan(a, i);
    UpdateLenFrame(Tuned(a, i), i, len);
  }

  /** The refresh and update_len of channel i see only that channel, and
      leave the wave RAM alone. */
  lemma TunedLenLocal(x: Apu, y: Apu, i: nat, len: int)
    requires i < 4 && Inv(x) && Inv(y) && Plays(x, i)
    requires x.chans[i] == y.chans[i]
    requires forall k | 0 <= k < MemSize && k != NR52 :: x.mem[k] == y.mem[k]
    ensures Plays(y, i)
    ensures var ux, uy := UpdateLen(Tuned(x, i), i, len), UpdateLen(Tuned(y, i), i, len);
            ux.0.chans[i] == uy.0.chans[i] && ux.1 == uy.1 && SameWaveRam(ux.0.mem, uy.0.mem)
  {
    var tx, ty := Tuned(x, i), Tuned(y, i);
    assert tx.chans[i] == ty.chans[i] && tx.mem == x.mem && ty.mem == y.mem;
    UpdateLenLocal(tx, ty, i, len);
    UpdateLenFrame(tx, i, len);
    UpdateLenFrame(ty, i, len);
  }

  /** update_len of channel i sees only that channel. */
  lemma UpdateLenLocal(x: Apu, y: Apu, i: nat, len: int)
    requires i < 4 && x.chans[i] == y.chans[i]
    ensures UpdateLen(x, i, len).0.chans[i] == UpdateLen(y, i, len).0.chans[i]
    ensures UpdateLen(x, i, len).1 == UpdateLen(y, i, len).1
  {
  }

  /** update_square for channel i (0 or 1): nothing unless the channel is
      powered and running; otherwise its frequency increment is refreshed
      from its period and the slots are played. The channel honours its
      NR51 routing bits and the NR50 master volumes. */
  method UpdateSquare(a: Apu, i: nat, left: seq<i16>, right: seq<i16>, base: nat, len: int)
    returns (r: Apu, outL: seq<i16>, outR: seq<i16>)
    requires i < 2 && Inv(a)
    requires 0 <= len <= MaxChunk && base + len <= |left| == |right|
    ensures Keeps(a, (r, outL, outR), i, left, right, base, len)
    ensures !a.chans[i].powered || !a.chans[i].enabled ==> r == a && outL == left && outR == right
    ensures !a.chans[i].onLeft || a.volL == 0 ==> outL == left
    ensures !a.chans[i].onRight || a.volR == 0 ==> outR == right
    ensures Voiced(a, i, len, left, right, outL, outR, base)
  {
    var c := a.chans[i];
    if !c.powered || !c.enabled {
      SilentVoiced(a, i, len, left, right, base);
      return a, left, right;
    }
    r, outL, outR := PlayTuned(a, i, left, right, base, len);
  }

  /** update_wave: nothing unless the wave channel is powered and running;
      otherwise its frequency increment is refreshed from its period and
      the slots are played, each overwriting its output slot. Volume code 0
      writes nothing. */
  method UpdateWave(a: Apu, left: seq<i16>, right: seq<i16>, base: nat, len: int)
    returns (r: Apu, outL: seq<i16>, outR: seq<i16>)
    requires Inv(a)
    requires 0 <= len <= MaxChunk && base + len <= |left| == |right|
    ensures Keeps(a, (r, outL, outR), 2, left, right, base, len)
    ensures !a.chans[2].powered || !a.chans[2].enabled ==> r == a && outL == left && outR == right
    ensures a.chans[2].volume == 0 ==> outL == left && outR == right
    ensures Voiced(a, 2, len, left, right, outL, outR, base)
  {
    var c := a.chans[2];
    if !c.powered || !c.enabled {
      SilentVoiced(a, 2, len, left, right, base);
      return a, left, right;
    }
    r, outL, outR := PlayTuned(a, 2, left, right, base, len);
  }

  /** update_noise: nothing unless the noise channel is powered. Its
      frequency increment is refreshed from the table; below 1000 the
      updater returns there. A shift code of 14 or 15 stops the channel
      (directly, without the NR52 mirror); then update_len runs and a
      stopped channel returns before the slot loop. Because of the first
      return a shift code of 10 or more never plays and never reaches the
      stop. */
  method UpdateNoise(a: Apu, left: seq<i16>, right: seq<i16>, base: nat, len: int)
    returns (r: Apu, outL: seq<i16>, outR: seq<i16>)
    requires Inv(a)
    requires 0 <= len <= MaxChunk && base + len <= |left| == |right|
    ensures Keeps(a, (r, outL, outR), 3, left, right, base, len)
    ensures !a.chans[3].powered ==> r == a && outL == left && outR == right
    ensures a.chans[3].powered && NoiseFreqInc(a.chans[3]) < 1000 ==>
              r == a.(chans := a.chans[3 := a.chans[3].(freqInc := NoiseFreqInc(a.chans[3]))])
              && outL == left && outR == right
    ensures !a.chans[3].enabled ==> outL == left && outR == right
    ensures a.chans[3].freq >= 10 ==> outL == left && outR == right && r.chans[3].enabled == a.chans[3].enabled
    ensures !a.chans[3].onLeft || a.volL == 0 ==> outL == left
    ensures !a.chans[3].onRight || a.volR == 0 ==> outR == right
    ensures Voiced(a, 3, len, left, right, outL, outR, base)
  {
    var c := a.chans[3];
    if !c.powered {
      SilentVoiced(a, 3, len, left, right, base);
      return a, left, right;
    }
    var c1 := c.(freqInc := NoiseFreqInc(c));
    var a1 := a.(chans := a.chans[3 := c1]);
    SetChanKeepsInv(a, 3, c1);
    if c.freq >= 10 {
      NoiseHighShiftSlow(c);
    }
    if c1.freqInc < 1000 {
      SilentVoiced(a, 3, len, left, right, base);
      return a1, left, right;
    }
    r, outL, outR := PlayTuned(a, 3, left, right, base, len);
  }
}
