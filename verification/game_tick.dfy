/** The per-frame bookkeeping of src/game_scene.c that is not drawing: the
    real-time clock's catch-up counter and the battery-save policy of
    save_check. The fractional-second accumulator is a float and is not
    modelled: the whole seconds it yields are a parameter. The save
    thresholds PGB_MAX_FRAMES_SAVE and PGB_MIN_FRAMES_SAVE are defined
    outside the files modelled here, so they are parameters too. */
module GameTick {
  import opened Bits

  /** MAX_CATCH_UP_INCREMENT: at most 255 seconds (4 min 15 s) a frame. */
  const MaxCatchUpIncrement: nat := 255
  /** MAX_RTC_TICKS_PER_FRAME. */
  const MaxRtcTicksPerFrame: nat := 1

  /** rtc_seconds_to_catch_up (uint16_t) and rtc_time (unsigned int). */
  datatype Rtc = Rtc(catchUp: u16, time: u32)

  /** The whole-second step: the whole seconds the accumulator holds,
      capped at 255 (0 when the accumulator is below one second), are added
      to both the catch-up counter and the clock, in their widths. Also
      returns the seconds taken. */
  function AddSeconds(r: Rtc, wholeSeconds: nat): (res: (Rtc, byte))
    ensures res.1 <= MaxCatchUpIncrement && res.1 <= wholeSeconds
    ensures res.1 == MaxCatchUpIncrement || res.1 == wholeSeconds
    ensures res.0.catchUp == (r.catchUp + res.1) % 0x1_0000
    ensures res.0.time == (r.time + res.1) % 0x1_0000_0000
  {
    var now: byte := if wholeSeconds > MaxCatchUpIncrement then MaxCatchUpIncrement else wholeSeconds;
    (Rtc(Wrap16(r.catchUp + now), Wrap32(r.time + now)), now)
  }

  /** The tick loop: while seconds are owed and fewer than
      MAX_RTC_TICKS_PER_FRAME ticks were made, tick the cartridge clock once
      and owe one second less. Returns the new counter and how many times
      gb_tick_rtc ran. */
  method TickLoop(catchUp: u16) returns (rest: u16, ticks: nat)
    ensures ticks <= MaxRtcTicksPerFrame
    ensures ticks == if catchUp > 0 then 1 else 0
    ensures rest + ticks == catchUp
  {
    rest := catchUp;
    ticks := 0;
    while rest > 0 && ticks < MaxRtcTicksPerFrame
      invariant ticks <= MaxRtcTicksPerFrame
      invariant rest + ticks == catchUp
      invariant ticks == 0 || catchUp > 0
      decreases rest
    {
      rest := rest - 1;
      ticks := ticks + 1;
    }
  }

  /** The catch-up counter after n frames in which no new whole second
      arrives: one tick a frame until nothing is owed. */
  function Drain(catchUp: nat, n: nat): (r: nat)
    ensures r <= catchUp
    ensures n >= catchUp ==> r == 0
    ensures r == 0 || r == catchUp - n
  {
    if n == 0 || catchUp == 0 then catchUp else Drain(catchUp - 1, n - 1)
  }

  /** Owed seconds are paid off one a frame: after n quiet frames
      max(0, c - n) remain, so c frames always suffice. */
  lemma {:induction false} DrainPaysOff(c: nat, n: nat)
    ensures Drain(c, n) == if n >= c then 0 else c - n
  {
    if n > 0 && c > 0 {
      DrainPaysOff(c - 1, n - 1);
    }
  }

  /** frames_since_last_save, frames_since_sram_update (both uint32_t
      statics) and the emulator's sram_dirty flag. */
  datatype SaveState = SaveState(sinceLastSave: u32, sinceSramUpdate: u32, dirty: bool)

  /** save_check as written, for a frame in which SRAM was (updated) or was
      not written; also says whether gb_save_to_disk ran, which clears
      sram_dirty. The battery flag is the cartridge's. */
  function SaveCheck(s: SaveState, battery: bool, updated: bool, maxFrames: nat, minFrames: nat)
    : (r: (SaveState, bool))
    ensures var last := Wrap32(s.sinceLastSave + 1);
            var dirty := s.dirty || updated;
            && (r.1 <==> battery && dirty && (last >= maxFrames || (!updated && s.sinceSramUpdate >= minFrames)))
            && r.0.sinceLastSave == (if r.1 then 0 else last)
            && r.0.dirty == (dirty && !r.1)
            && (battery && dirty && last >= maxFrames ==> r.1 && r.0.sinceSramUpdate == 0)
            && (!(battery && dirty) ==> r.0.sinceSramUpdate == Wrap32(s.sinceSramUpdate + 1))
            && (battery && dirty && last < maxFrames ==>
                  r.0.sinceSramUpdate == (if updated then s.sinceSramUpdate else 0))
  {
    var last := Wrap32(s.sinceLastSave + 1);
    var dirty := s.dirty || updated;
    if battery && dirty then
      if last >= maxFrames then (SaveState(0, 0, false), true)
      else if !updated then
        if s.sinceSramUpdate >= minFrames then (SaveState(0, 0, false), true)
        else (SaveState(last, 0, dirty), false)
      else (SaveState(last, s.sinceSramUpdate, dirty), false)
    else (SaveState(last, Wrap32(s.sinceSramUpdate + 1), dirty), false)
  }

  /** n frames without an SRAM write, through the given save check. */
  function QuietFrames(s: SaveState, n: nat, maxFrames: nat, minFrames: nat, intended: bool): SaveState
    decreases n
  {
    if n == 0 then s
    else
      var next := if intended then SaveCheckIntended(s, true, false, maxFrames, minFrames).0
                  else SaveCheck(s, true, false, maxFrames, minFrames).0;
      QuietFrames(next, n - 1, maxFrames, minFrames, intended)
  }

  /** As written, frames_since_sram_update only grows while SRAM is clean,
      and the first quiet frame with dirty SRAM resets it. Once that frame
      has passed without a save, SRAM stays dirty for any number of quiet
      frames until the periodic limit, however long the gap since the
      last write. */
  lemma {:induction false} QuietGapNeverSaves(s: SaveState, n: nat, maxFrames: nat, minFrames: nat)
    requires s.dirty && s.sinceSramUpdate < minFrames
    requires s.sinceLastSave + n < maxFrames && maxFrames < 0x1_0000_0000
    ensures QuietFrames(s, n, maxFrames, minFrames, false).dirty
    ensures QuietFrames(s, n, maxFrames, minFrames, false).sinceSramUpdate == (if n == 0 then s.sinceSramUpdate else 0)
    ensures QuietFrames(s, n, maxFrames, minFrames, false).sinceLastSave == s.sinceLastSave + n
    decreases n
  {
    if n > 0 {
      var next := SaveCheck(s, true, false, maxFrames, minFrames).0;
      assert next == SaveState(s.sinceLastSave + 1, 0, true);
      QuietGapNeverSaves(next, n - 1, maxFrames, minFrames);
    }
  }

  /** save_check as its log message ("gap since last ram edit") and counter
      name describe it: frames_since_sram_update counts the frames since
      the last SRAM write, and dirty SRAM is saved once that gap reaches
      PGB_MIN_FRAMES_SAVE, or periodically as before. A save does not reset
      the gap: SRAM is clean afterwards until a write, which resets it. */
  function SaveCheckIntended(s: SaveState, battery: bool, updated: bool, maxFrames: nat, minFrames: nat)
    : (r: (SaveState, bool))
    ensures var last := Wrap32(s.sinceLastSave + 1);
            var gap := if updated then 0 else Wrap32(s.sinceSramUpdate + 1);
            var dirty := s.dirty || updated;
            && (r.1 <==> battery && dirty && (last >= maxFrames || gap >= minFrames))
            && r.0.sinceLastSave == (if r.1 then 0 else last)
            && r.0.dirty == (dirty && !r.1)
            && r.0.sinceSramUpdate == gap
  {
    var last := Wrap32(s.sinceLastSave + 1);
    var gap := if updated then 0 else Wrap32(s.sinceSramUpdate + 1);
    var dirty := s.dirty || updated;
    if battery && dirty && (last >= maxFrames || gap >= minFrames) then (SaveState(0, gap, false), true)
    else (SaveState(last, gap, dirty), false)
  }

  /** With the intended counter, PGB_MIN_FRAMES_SAVE quiet frames always
      end with SRAM saved (or never dirtied). */
  lemma QuietGapSaves(s: SaveState, n: nat, maxFrames: nat, minFrames: nat)
    requires 1 <= minFrames <= n && s.sinceSramUpdate + n < 0x1_0000_0000
    ensures !QuietFrames(s, n, maxFrames, minFrames, true).dirty
  {
    QuietGapGrows(s, n, maxFrames, minFrames);
  }

  /** Over k quiet frames the intended gap counter grows by one a frame,
      and dirty SRAM never outlives a gap of PGB_MIN_FRAMES_SAVE. */
  lemma {:induction false} QuietGapGrows(s: SaveState, k: nat, maxFrames: nat, minFrames: nat)
    requires s.sinceSramUpdate + k < 0x1_0000_0000
    ensures var q := QuietFrames(s, k, maxFrames, minFrames, true);
            && q.sinceSramUpdate == s.sinceSramUpdate + k
            && (k > 0 && q.sinceSramUpdate >= minFrames ==> !q.dirty)
    decreases k
  {
    if k > 0 {
      var next := SaveCheckIntended(s, true, false, maxFrames, minFrames).0;
      QuietGapGrows(next, k - 1, maxFrames, minFrames);
      if k > 1 {
        assert QuietFrames(s, k, maxFrames, minFrames, true) == QuietFrames(next, k - 1, maxFrames, minFrames, true);
      } else {
        assert QuietFrames(s, k, maxFrames, minFrames, true) == next;
      }
    }
  }

  /** The two policies part on a quiet stretch: from dirty SRAM whose
      counter the first quiet frame has reset, PGB_MIN_FRAMES_SAVE or more
      quiet frames before the periodic limit leave it unsaved as written
      and saved as intended. */
  lemma QuietStretchParts(s: SaveState, n: nat, maxFrames: nat, minFrames: nat)
    requires s.dirty && s.sinceSramUpdate < minFrames && 1 <= minFrames <= n
    requires s.sinceLastSave + n < maxFrames && maxFrames < 0x1_0000_0000 && s.sinceSramUpdate + n < 0x1_0000_0000
    ensures QuietFrames(s, n, maxFrames, minFrames, false).dirty
    ensures !QuietFrames(s, n, maxFrames, minFrames, true).dirty
  {
    QuietGapNeverSaves(s, n, maxFrames, minFrames);
    QuietGapSaves(s, n, maxFrames, minFrames);
  }
}
