# A verified model of the Playdate Game Boy emulator's audio unit and front end

This project models the core of a Game Boy emulator for the Playdate handheld in Dafny.

The centre of the model is **minigb_apu**, the emulator's DMG audio processing unit (APU). It holds:
- the register window 0xFF10..0xFF3F, including the 16 bytes of wave RAM;
- four channels: two square channels (the first with a frequency sweep), a wave channel and a noise channel;
- the master volumes.

The model covers `audio_read`, `audio_write` (power gating, the "zombie mode" envelope glitch, triggers), the envelope, sweep, length and frequency timers, per-channel synthesis, the chunked audio callback with its sample replication, and `audio_init`.

Around the APU, the model also covers the parts of the front end with precise, checkable behaviour:
- the file-name helpers and the game-list sort (`src/utility.c`);
- which files become library entries, and how entries are named and listed (`src/library_scene.c`);
- the ROM poke and peek Lua bindings, the package-path rewrite and the choice of a game's script (`src/script.c`);
- the JSON decoder callbacks (`src/jparse.c`);
- the DTCM bump allocator (`src/dtcm.c`);
- from `src/game_scene.c`:
  - the changed-line bitmask;
  - the dithering of the 160x144 2-bit picture onto the 1-bit framebuffer, with rows 2, 2, 1 high;
  - the copy back of drawn lines;
  - the real-time-clock catch-up;
  - the battery-save policy.

All state is immutable data: `Apu`, `Chan`, `Dtcm`, `SaveState`, `Scene` and others. Every C operation is a pure function, or a method on sequences where it loops. Explicit helpers in module `Bits` write out the C integer widths, wrap-around, truncating division and conversions. Host services, file I/O, the clock and Lua are parameters, listed under "Left out".

The main invariant is `ApuState.Inv`:
- every channel field stays in its range (volumes 0..15, frequency at most 2047 while a square channel runs, wave position below 32, length counter either 0 or just below 2^32 after wrapping);
- master power off means NR52 is 0 and no channel runs.

`ApuInit.Init` establishes it. Every register write preserves it (`ApuRegisters.WriteKeepsInv`), and so does the whole audio callback (`ApuDriver.AudioCallback`).

Where the code departs from the Game Boy hardware, the model follows the code:
- **Power gate.** `audio_write` ignores a write when the whole NR52 byte is 0, not when bit 7 is 0. In every state reachable under `Inv` the two tests agree.
- **Length counter.** `update_len` stops a channel when the remaining distance `tr` *exceeds* the chunk length, and returns the full chunk. Otherwise it charges the counter and returns `tr`. A channel is therefore stopped when more than a chunk remains, which looks inverted; `ApuTimers.LengthStopsLongNotes` states it as written.
- **NR30.** Writing 0xFF1A sets `powered` and also enables or stops the wave channel through `chan_enable`.
- **0xFF1B.** This register is the wave channel's 8-bit length load: the channel index is (0xFF1B - 0xFF10) * 0.2 = 2.
- **Callback early returns.** `audio_callback` also returns 0 when there is no game scene. The squares and the noise add onto whatever the host buffer holds, while the wave channel overwrites its slots.

## Model

| member | source | states |
|---|---|---|
| ApuChannel.StatusByte | minigb_apu/minigb_apu.c:139-141 | the NR52 mirror keeps the power bit of the old byte and has bit k set exactly when channel k is enabled, nothing else; with power off and all channels stopped it is 0 |
| ApuChannel.ChanEnable | minigb_apu/minigb_apu.c:134-146 | only channel i's enabled flag and the NR52 byte change; NR52's low four bits mirror the four enabled flags and its power bit is kept |
| ApuChannel.EnvInc | minigb_apu/minigb_apu.c:431-434 | the envelope increment is 8 for step 0 and 64/step otherwise (the FREQ_INC_REF and sample-rate factors cancel), never above 64 |
| ApuChannel.SweepInc | minigb_apu/minigb_apu.c:447-450 | the sweep increment is 0 for rate 0 (inert) and 128/rate otherwise, never above 128 |
| ApuChannel.LenInc | minigb_apu/minigb_apu.c:467-468 | the length increment is 256 / (len_max - load), at most 256 |
| ApuChannel.Trigger | minigb_apu/minigb_apu.c:418-470 | a trigger enables channel i, reloads volume from volume_init, reloads the envelope from NRx2 and (channel 0) the sweep from NR10, with the sweep going up exactly when NR10 bit 3 is clear, resets the wave position or the LFSR and level, recomputes the length increment and zeroes the counters; every other channel, the volumes and all registers but NR52 are untouched |
| ApuChannel.Restart | minigb_apu/minigb_apu.c:423-469 | the reloaded channel has volume = volume_init; envelope counter 0, step NRx2 & 7, up iff NRx2 bit 3, increment 8 or 64/step; length counter 0 and increment 256 / (len_max - load); for channel 0 a sweep with shadow frequency = frequency, full counter, rate (NR10 >> 4) & 7, shift NR10 & 7 and up iff NR10 bit 3 is clear, other channels' sweeps untouched; wave position 0 for channel 2, LFSR 0xFFFF and a low level for channel 3; every other field as it was |
| ApuChannel.EnvReload | minigb_apu/minigb_apu.c:426-436 | the envelope a trigger loads: counter 0, step = NRx2 & 7, direction up iff bit 3, increment from the step |
| ApuChannel.SweepReload | minigb_apu/minigb_apu.c:439-452 | the sweep a trigger loads: shadow frequency = current frequency, counter FREQ_INC_REF, rate = (NR10 >> 4) & 7, shift = NR10 & 7, direction up exactly when NR10 bit 3 is clear, increment from the rate |
| ApuChannel.ChanDisableKeepsInv | minigb_apu/minigb_apu.c:134-146 | stopping a channel keeps the APU invariant |
| ApuChannel.TriggerKeepsRanges | minigb_apu/minigb_apu.c:418-470 | a trigger of a square channel with frequency at most 2047, or of the wave or noise channel, keeps every field range |
| ApuChannel.TriggerChanInv | minigb_apu/minigb_apu.c:418-470 | the triggered channel satisfies its range invariant afterwards |
| ApuChannel.RestartChanInv | minigb_apu/minigb_apu.c:423-469 | the reload of a trigger keeps the channel's ranges for any NRx2 and NR10 |
| ApuChannel.TriggerKeepsPower | minigb_apu/minigb_apu.c:418-422 | a trigger never clears the power bit |
| ApuChannel.ChanEnableKeepsRanges | minigb_apu/minigb_apu.c:134-146 | enabling a channel keeps every field range, provided a square channel's frequency is at most 2047 |
| ApuTimers.EnvStep | minigb_apu/minigb_apu.c:154-162 | one envelope tick with step 0 changes nothing; otherwise volume moves one toward its direction, held at 15 going up and wrapping from 0 to 15 going down (unsigned byte, then MIN 15), and the increment drops to 0 exactly when the stepped volume is 0 or 15 |
| ApuTimers.UpdateEnv | minigb_apu/minigb_apu.c:148-165 | update_env leaves the counter at most FREQ_INC_REF, never changes the volume of a step-0 envelope, keeps the volume in 0..15, and touches only volume, counter and increment |
| ApuTimers.UpdateEnvAtMostOnce | minigb_apu/minigb_apu.c:150-164 | from a counter at most FREQ_INC_REF the loop ticks at most once: the counter drops by FREQ_INC_REF exactly when counter + inc exceeds it, and only then does the volume step |
| ApuTimers.EnvLoop | minigb_apu/minigb_apu.c:152-164 | the envelope loop always ends with the counter at most FREQ_INC_REF, keeps a step-0 envelope's volume and increment, keeps the volume in 0..15, and only ever zeroes the increment |
| ApuTimers.EnvStepIgnoresCounter | minigb_apu/minigb_apu.c:154-162 | the envelope step does not depend on the counter |
| ApuTimers.SquareFreqInc | minigb_apu/minigb_apu.c:248-250 | the square channel's frequency increment, clock / ((2048 - f) << 5) times 8, lies between 512 and 2^20 for every 11-bit f |
| ApuTimers.SquarePeriodBounds | minigb_apu/minigb_apu.c:248-250 | the square period (2048 - f) * 32 puts the clock quotient between 64 and 2^17 for every 11-bit f |
| ApuTimers.SweepDelta | minigb_apu/minigb_apu.c:217-219 | the sweep delta is shadow >> shift upward, and its 16-bit negation downward |
| ApuTimers.SweepStep | minigb_apu/minigb_apu.c:215-235 | one sweep tick: shift 0 and rate 0 do nothing; shift 0 with a rate stops the channel; otherwise the frequency moves by the delta in 16 bits, and beyond 2047 the channel stops, else the increment is recomputed from the new frequency |
| ApuTimers.SweepLoop | minigb_apu/minigb_apu.c:213-237 | the sweep loop ends with the counter at most FREQ_INC_REF, changes nothing when no tick is due, never starts the channel, and a running channel's new frequency is at most 2047 |
| ApuTimers.UpdateSweep | minigb_apu/minigb_apu.c:209-238 | update_sweep never starts a channel, keeps a running channel's frequency at most 2047, keeps the increment bounded, and changes only frequency, increment, enabled and the sweep counter |
| ApuTimers.SweepInert | minigb_apu/minigb_apu.c:211-213 | a sweep with increment 0 never changes the channel |
| ApuTimers.SweepStopsAfterTrigger | minigb_apu/minigb_apu.c:232-235 | triggering square 1 with NR10 shift 0 and a nonzero period stops it on the first sweep tick |
| ApuTimers.SweepStopsOnce | minigb_apu/minigb_apu.c:211-235 | a sweep with shift 0, a rate and a full counter stops the channel on the next update |
| ApuTimers.LenTick | minigb_apu/minigb_apu.c:176-188 | the length step changes only the counter; when it stops the channel it returns the whole chunk and zeroes the counter, otherwise it returns at most the chunk |
| ApuTimers.LenTickSane | minigb_apu/minigb_apu.c:176-188 | from a counter at 0 or just below 2^32 the remaining time lies in 0..len and the counter stays at 0 or just below 2^32 |
| ApuTimers.LenTickStops | minigb_apu/minigb_apu.c:176-183 | a reset counter with an increment of at most 64 leaves more than a chunk to go, so the channel stops and the whole chunk is returned |
| ApuTimers.UpdateLen | minigb_apu/minigb_apu.c:168-189 | update_len returns 0 for a stopped channel and the whole chunk when length is off or its increment is 0, never more than the chunk, and changes no other channel and no volume |
| ApuTimers.UpdateLenSane | minigb_apu/minigb_apu.c:176-188 | under the invariant the returned index lies in 0..len and the counter stays 0 or just below 2^32 after `counter -= len * inc` wraps |
| ApuTimers.UpdateLenKeepsInv | minigb_apu/minigb_apu.c:168-189 | update_len keeps the APU invariant |
| ApuTimers.UpdateLenFrame | minigb_apu/minigb_apu.c:168-189 | update_len changes only channel i's length counter and enabled flag (never starting it), the NR52 mirror, and nothing of the power bit |
| ApuTimers.LengthStopsLongNotes | minigb_apu/minigb_apu.c:176-183 | as written, a running length counter at 0 with increment at most 64 makes tr exceed the chunk, so the channel stops at once and the whole chunk is played |
| ApuTimers.UpdateFreq | minigb_apu/minigb_apu.c:191-207 | an edge is reported exactly when the counter crosses FREQ_INC_REF, then the counter is 0 and pos is the crossing point inside the increment; without an edge pos reaches the increment and the counter grows by the rest |
| ApuTimers.FreqRunPhase | minigb_apu/minigb_apu.c:191-207 | the edge loop conserves phase: counter + inc - pos equals the number of edges times FREQ_INC_REF plus the final counter, which is positive when any phase was added |
| ApuTimers.EdgesPerSample | minigb_apu/minigb_apu.c:261-273 | one sample slot makes exactly (counter + inc - 1) / FREQ_INC_REF edges |
| ApuInit.Init | minigb_apu/minigb_apu.c:633-694 | audio_init leaves the invariant holding, power on (NR52 = 0x80), wave RAM holding wave_init, and, when the caller's buffer had NR52 = 0, zeroed channels while the master volumes `vol_l` and `vol_r` keep the values they had before the call (audio_init never resets them) |
| ApuInit.InitRegisters | minigb_apu/minigb_apu.c:642-654 | the regs_init writes end powered on with the invariant, and ignore everything before the final NR52 write when power started off, so the zeroed channels and the previous master volumes are kept |
| ApuInit.WaveWrites | minigb_apu/minigb_apu.c:657-668 | with power on, consecutive writes to wave RAM splice exactly those bytes into it and change nothing else |
| ApuInit.NoiseDivisor | minigb_apu/minigb_apu.c:673-674 | the LFSR divisor is 8 for selector 0 and 16 * selector otherwise: a multiple of 8 in 8..112 |
| ApuInit.NoiseFreq | minigb_apu/minigb_apu.c:675-691 | every noise frequency, clock / (divisor << shift), lies in 1..2^19, so the divisor-0 branch never runs |
| ApuInit.NoiseFreqHalves | minigb_apu/minigb_apu.c:678-690 | each step of the shift halves the noise frequency (rounding down) |
| ApuInit.NoiseTable | minigb_apu/minigb_apu.c:670-693 | the precomputed table has 8 rows of 16 entries, each the noise frequency of its divisor and shift |
| ApuOsc.NibblesRebuildByte | minigb_apu/minigb_apu.c:292-300 | the even position reads the high nibble and the odd the low nibble of wave byte pos / 2, and the two rebuild the byte |
| ApuOsc.Nibble | minigb_apu/minigb_apu.c:292-300 | a wave RAM position holds a 4-bit sample |
| ApuOsc.WaveSample | minigb_apu/minigb_apu.c:287-302 | the wave sample is 0 for volume code 0, the raw nibble for code 1, and the nibble shifted right by code - 1 otherwise (stated as a bracket on the nibble) |
| ApuOsc.LfsrShifts | minigb_apu/minigb_apu.c:384-385 | one LFSR clock shifts the 16-bit register left by one and feeds in whether the level is high |
| ApuOsc.RepeatSquare | minigb_apu/minigb_apu.c:265-273 | n square edges advance the duty step by n mod 8 and leave the level at the duty pattern's bit |
| ApuOsc.RepeatWave | minigb_apu/minigb_apu.c:326-333 | n wave edges advance the position by n mod 32 and leave the buffered sample at the new position's sample |
| ApuOsc.RepeatNoise | minigb_apu/minigb_apu.c:382-404 | after any noise edge the level is high exactly when the two taps of the LFSR agree |
| ApuOsc.NoiseFeedback | minigb_apu/minigb_apu.c:384-400 | one noise edge feeds back the XNOR of the taps (bits 14 and 13, or 6 and 5 in 7-bit mode) into bit 0 and shifts the other bits up |
| ApuOsc.EdgesAsRepeat | minigb_apu/minigb_apu.c:261-273 | the `while (update_freq)` loop is exactly FreqRun's edge count of edge steps, ending with FreqRun's counter |
| ApuOsc.Edges | minigb_apu/minigb_apu.c:265-273 | the edge loop ends with the frequency counter at most FREQ_INC_REF and leaves the sample accumulator as it was: the `(pos - prev_pos) / freq_inc` term is always 0 |
| ApuRegisters.Read | minigb_apu/minigb_apu.c:478-495 | audio_read has bit k set exactly when the stored byte or the always-one mask ortab has it |
| ApuRegisters.ZombieVolume | minigb_apu/minigb_apu.c:543-561 | the zombie-mode volume is v + 1 or v + 2 mod 16 for a frozen envelope with live increment, else 16 - v mod 16, always 0..15 |
| ApuRegisters.ZombieFlipInvolution | minigb_apu/minigb_apu.c:558-561 | the 16 - v flip undoes itself |
| ApuRegisters.EnvelopeWrite | minigb_apu/minigb_apu.c:534-565 | NRx2 sets volume_init = val >> 4 and powered iff val >> 3 != 0; only a powered running channel gets the zombie volume and the new step; nothing else changes |
| ApuRegisters.Pan | minigb_apu/minigb_apu.c:623-629 | one channel's share of NR51: left iff bit 4 + i, right iff bit i, nothing else changes |
| ApuRegisters.WaveDacWrite | minigb_apu/minigb_apu.c:592-595 | NR30 bit 7 both powers and enables (or stops) the wave channel |
| ApuRegisters.ControlWrite | minigb_apu/minigb_apu.c:597-608 | NRx4 merges bits 0..2 into frequency bits 8..10 (not for the noise channel), sets length-enable from bit 6, and triggers on bit 7; other channels and volumes are untouched |
| ApuRegisters.ControlBits | minigb_apu/minigb_apu.c:597-608 | the stored NRx4 bits: frequency bits 8..10 from val & 7 (not for the noise channel), length-enable from bit 6, nothing else |
| ApuRegisters.RegChannel | minigb_apu/minigb_apu.c:530 | the channel a register 0xFF10..0xFF23 belongs to: the i with 5i <= offset < 5i + 5 |
| ApuRegisters.RegChannelDiv | minigb_apu/minigb_apu.c:530 | that channel is offset / 5, the truncation of offset * 0.2 |
| ApuRegisters.ChannelOf | minigb_apu/minigb_apu.c:530 | `(addr - 0xFF10) * 0.2f` names the channel whose five registers hold addr |
| ApuRegisters.Decode | minigb_apu/minigb_apu.c:529-629 | every decode case keeps every register except NR52, keeps the power bit, and keeps each length load below its channel's period |
| ApuRegisters.DecodeKeepsRanges | minigb_apu/minigb_apu.c:529-629 | every decode case keeps the channels' field ranges and the master volumes in 0..7 |
| ApuRegisters.PowerWrite | minigb_apu/minigb_apu.c:508-523 | NR52 keeps only bit 7; clearing it zeroes 0xFF10..0xFF25 and stops every channel, keeping wave RAM; setting it changes nothing else |
| ApuRegisters.Stopped | minigb_apu/minigb_apu.c:516-519 | a channel stopped by power off differs from the old one only in its enabled flag |
| ApuRegisters.PowerOff | minigb_apu/minigb_apu.c:513-520 | power off zeroes every register below NR52, keeps NR52, wave RAM and the master volumes, and stops each channel |
| ApuRegisters.Write | minigb_apu/minigb_apu.c:503-631 | audio_write: NR52 goes to the power write; with NR52 = 0 other writes are ignored; otherwise the byte is stored, every other register but NR52 is kept, power is kept, and a write past NR52 (unused registers and wave RAM) stores only the byte |
| ApuRegisters.WriteKeepsRanges | minigb_apu/minigb_apu.c:503-631 | every write keeps every channel's field ranges and master volumes in 0..7 |
| ApuRegisters.WriteKeepsPower | minigb_apu/minigb_apu.c:508-527 | every write keeps "power off means NR52 = 0 and no channel runs" |
| ApuRegisters.WriteKeepsInv | minigb_apu/minigb_apu.c:503-631 | every write keeps the APU invariant |
| ApuRegisters.WritesKeepInv | minigb_apu/minigb_apu.c:503-631 | any sequence of writes keeps the invariant |
| ApuRegisters.WritesKeepRanges | minigb_apu/minigb_apu.c:503-631 | any sequence of writes keeps the field ranges |
| ApuRegisters.IgnoredWhileOff | minigb_apu/minigb_apu.c:525-527 | with NR52 = 0, any writes that avoid NR52 leave the APU unchanged |
| ApuRegisters.PowerWriteOff | minigb_apu/minigb_apu.c:513-520 | an NR52 write without bit 7 leaves 0xFF10..0xFF26 zero and every channel stopped |
| ApuRegisters.PowerOffReads | minigb_apu/minigb_apu.c:478-527 | after power off, across any writes that avoid NR52, every register 0xFF10..0xFF26 reads back as exactly its ortab mask |
| ApuRegisters.ReadZero | minigb_apu/minigb_apu.c:478-495 | a register holding 0 reads back as exactly its always-one mask |
| ApuRegisters.WaveRamRoundTrip | minigb_apu/minigb_apu.c:478-529 | with power on, reading wave RAM returns the byte just written |
| ApuRegisters.LengthDutyWrite | minigb_apu/minigb_apu.c:571-579 | NRx1 sets the length load to val & 0x3F and the duty to duty_lookup[val >> 6] |
| ApuRegisters.FreqLowWrite | minigb_apu/minigb_apu.c:585-590 | NRx3 replaces the frequency's low byte with val and keeps the high bits |
| ApuRegisters.FreqHighWrite | minigb_apu/minigb_apu.c:597-608 | NRx4 keeps the low byte, sets bits 8..10 from val & 7 (so frequency stays at most 2047), sets length-enable from bit 6 and starts the channel on bit 7 |
| ApuRegisters.WaveVolumeWrite | minigb_apu/minigb_apu.c:567-569 | NR32 sets volume and volume_init to (val >> 5) & 3 |
| ApuRegisters.NoiseControlWrite | minigb_apu/minigb_apu.c:610-614 | NR43 sets the noise shift code to val >> 4, the divisor to val & 7, and the wide mode iff bit 3 is clear |
| ApuRegisters.MasterVolumeWrite | minigb_apu/minigb_apu.c:616-621 | NR50 sets the left volume to bits 4..6 and the right to bits 0..2 |
| ApuRegisters.PanningWrite | minigb_apu/minigb_apu.c:623-629 | NR51 routes channel j left iff bit 4 + j and right iff bit j |
| ApuRegisters.EnvelopeRegisterWrite | minigb_apu/minigb_apu.c:534-565 | through audio_write, NRx2's zombie-mode cases as in EnvelopeWrite for the channel the address selects |
| ApuSynth.Slot | minigb_apu/minigb_apu.c:254-283 | a square or noise slot's sample is the final level times the volume over 4 (C division); a wave slot's is (sample - 8) * (INT16_MAX / 64) over 4 |
| ApuSynth.SlotPrelude | minigb_apu/minigb_apu.c:256-258 | before its edges a slot ticks the envelope (and channel 0's sweep), or for the wave channel refreshes the sample from wave RAM as at line 324; it never starts the channel and keeps its counters and routing |
| ApuSynth.SlotStaysReady | minigb_apu/minigb_apu.c:254-283 | a slot keeps the channel fit for the next slot |
| ApuSynth.SlotKeepsInv | minigb_apu/minigb_apu.c:254-283 | one slot keeps the channel's ranges, a nonzero increment and its routing, never starts it, and keeps the wave volume |
| ApuSynth.SlotAsRepeat | minigb_apu/minigb_apu.c:256-273 | the slot's channel is the prelude's channel advanced by FreqRun's edge count of edges |
| ApuSynth.Mix | minigb_apu/minigb_apu.c:282-283 | a square or noise slot that is unrouted on a side, or meets a master volume of 0, leaves that side's buffer value as it was |
| ApuSynth.MixAdds | minigb_apu/minigb_apu.c:278-283 | a square or noise slot adds sample times master volume to the buffer value when routed to that side, wrapped to int16, and leaves it alone when not |
| ApuSynth.MixOverwrites | minigb_apu/minigb_apu.c:343-346 | a wave slot does not depend on the buffer value it replaces: it is sample times master volume, wrapped to int16, when routed to that side, and 0 when not |
| ApuSynth.MixSilent | minigb_apu/minigb_apu.c:282-283 | a square or noise slot not routed to a side, or with that side's master volume 0, leaves that side's sample unchanged |
| ApuSynth.WriteSlot | minigb_apu/minigb_apu.c:337-346 | writing one slot changes only that index: each side gets the sample landed on the old value there (added for square and noise, written over by a wave channel, nothing at wave volume code 0); the silent cases leave the buffers unchanged |
| ApuSynth.Slots | minigb_apu/minigb_apu.c:254-284 | the slot loop writes only the chunk's slots, one every R samples from k on, keeps the channel's ranges and never starts it |
| ApuSynth.SlotsSilent | minigb_apu/minigb_apu.c:254-284 | a channel not routed to a side, or with master volume 0, or a wave channel of volume 0, leaves the buffer of that side exactly as the host gave it |
| ApuSynth.SlotLoop | minigb_apu/minigb_apu.c:254-284 | the sample loop writes only slots base, base + R, ... below n, and slot base + mR holds the m-th sample the channel produces, landed on the value that was there; it keeps the ranges, never starts the channel, and writes nothing in the silent cases or for n <= 0 |
| ApuSynth.SlotsHold | minigb_apu/minigb_apu.c:254-284 | the loop from slot k on puts into slot k + mR the m-th sample of the channel, through its routing and the master volumes, onto what that slot held, and changes no other entry |
| ApuSynth.After | minigb_apu/minigb_apu.c:254-273 | the slots of a loop keep the channel fit for the next slot, its NR51 routing and the wave channel's volume code |
| ApuSynth.Play | minigb_apu/minigb_apu.c:252-284 | update_len then the slot loop: the slots update_len allows hold the channel's samples landed on what was there; a stopped channel changes nothing; only this channel and its slots change; an unrouted or muted side, or a wave channel of volume 0, leaves the buffers alone |
| ApuSynth.LenStep | minigb_apu/minigb_apu.c:252 | the updater's update_len is UpdateLen: it returns an index in 0..len (0 for a stopped channel), keeps the increment and changes nothing else |
| ApuSynth.WaveFreqInc | minigb_apu/minigb_apu.c:311-313 | the wave channel's increment, (clock / 64) / (2048 - f) times 32, lies in 1024..MaxFreqInc |
| ApuSynth.NoiseFreqInc | minigb_apu/minigb_apu.c:357-358 | the noise channel's increment from the table lies in 1..MaxFreqInc |
| ApuSynth.NoiseHighShiftSlow | minigb_apu/minigb_apu.c:357-366 | a shift code of 10 or more gives an increment of at most 512, below the 1000 guard |
| ApuSynth.TunedInc | minigb_apu/minigb_apu.c:248-250 | the increment an updater sets lies in 1..MaxFreqInc for every channel |
| ApuSynth.PlayTuned | minigb_apu/minigb_apu.c:248-284 | with the increment refreshed, every slot of the chunk holds what Voice says, the invariant and the other channels are kept, and silent sides stay as they were |
| ApuSynth.SilentVoiced | minigb_apu/minigb_apu.c:245-246 | an updater that returns before update_len leaves every slot as the host gave it |
| ApuSynth.PlayedVoiced | minigb_apu/minigb_apu.c:252-284 | the loop's landed samples are exactly the per-slot reference Voice: the m-th sample for the slots update_len allows, the old value for the rest |
| ApuSynth.SampleAtMem | minigb_apu/minigb_apu.c:287-302 | the samples of a slot loop read nothing of the registers but the wave RAM |
| ApuSynth.VoiceLocal | minigb_apu/minigb_apu.c:240-416 | an updater's slots depend only on its own channel, the master volumes and the wave RAM, not on the other channels or the NR52 mirror |
| ApuSynth.UpdateSquare | minigb_apu/minigb_apu.c:240-285 | update_square does nothing to an unpowered or stopped channel; otherwise slot m of the chunk is the old value plus the m-th sample times routing and master volume, wrapped to int16, for the slots update_len allows, and the old value after them; it writes only its chunk's slots, keeps the invariant and every other channel, and leaves an unrouted or muted side unchanged |
| ApuSynth.UpdateWave | minigb_apu/minigb_apu.c:304-348 | update_wave does nothing to an unpowered or stopped channel and writes nothing at volume 0; otherwise slot m of the chunk is overwritten with the m-th sample times routing and master volume, whatever it held, for the slots update_len allows; it keeps the invariant and writes only its slots |
| ApuSynth.UpdateNoise | minigb_apu/minigb_apu.c:350-416 | update_noise does nothing unpowered, only stores the increment when it is below 1000, so a shift code of 10 or more produces nothing; otherwise, unless update_len stops it, its samples are added to the slots as for the squares |
| ApuDriver.Lead | minigb_apu/minigb_apu.c:743-751 | the lead of output slot k is the first slot of its replication group |
| ApuDriver.Replicate | minigb_apu/minigb_apu.c:743-751 | the replication loop copies each group's first sample over the group inside the chunk and changes nothing outside |
| ApuDriver.CopyGroup | minigb_apu/minigb_apu.c:745-750 | the inner loop copies sample i over the rest of its group inside the chunk, and nothing else changes |
| ApuDriver.LeadIdem | minigb_apu/minigb_apu.c:743-751 | a group's first slot leads its own group |
| ApuDriver.LeadAligned | minigb_apu/minigb_apu.c:731-751 | a chunk starting on a group boundary sees the same groups as the whole buffer |
| ApuDriver.Chunk | minigb_apu/minigb_apu.c:736-751 | one chunk (wave, square 1, square 2, noise) keeps the invariant and registers and writes only its own slots; each slot holds the noise sample added to the second square's, added to the first square's, added to the wave channel's overwrite (or the host's value where the wave channel is silent); with every channel stopped it writes nothing |
| ApuDriver.ChunkValues | minigb_apu/minigb_apu.c:736-741 | the four updaters, each run on the state its predecessor left, compose slot by slot into that sum |
| ApuDriver.ChunkSlot | minigb_apu/minigb_apu.c:736-741 | one slot of that composition: each updater still sees the chunk's starting channel, volumes and wave RAM |
| ApuDriver.ChunkAligned | minigb_apu/minigb_apu.c:731-736 | MAX_CHUNK is a multiple of the replication factor, so every chunk after the first starts on a group boundary |
| ApuDriver.AudioCallback | minigb_apu/minigb_apu.c:701-761 | disabled, sceneless or locked, the callback returns 0 and changes nothing; otherwise it returns 1, keeps the invariant, registers, volumes and power, never starts a channel, leaves the buffers beyond len alone, makes every sample equal its group's lead, and with all channels stopped replicates the host's own samples |
| Text.LastIndex | src/utility.c:62-65 | strrchr: the last position of the character, or None exactly when it does not occur |
| Text.FindFrom | src/utility.c:118-127 | strstr: the first position of the pattern, or None exactly when it occurs nowhere |
| Text.Strcmp | src/utility.c:67-70 | strcmp's sign is 0 exactly for equal strings |
| Text.StrcmpFirstDifference | src/utility.c:67-70 | the first differing byte, or the end of a proper prefix, decides the order |
| Text.StrcmpAntisymmetric | src/utility.c:67-70 | swapping the arguments negates the result |
| Text.StrcmpTransitive | src/utility.c:67-70 | the order is transitive |
| Utility.Sanitized | src/utility.c:142-159 | each of the fourteen listed bytes becomes '_', every other byte stays, and the length is kept |
| Utility.Sanitize | src/utility.c:142-159 | the in-place loop over a non-NULL string produces Sanitized, and a NULL string stays NULL |
| Utility.SanitizedIdempotent | src/utility.c:142-159 | sanitising twice is sanitising once |
| Utility.SanitizedFixpoint | src/utility.c:142-159 | sanitising leaves a string unchanged exactly when it holds none of the listed bytes |
| Utility.Basename | src/utility.c:77-85 | the text after the last '/', a suffix of the path without '/', the whole path when it has none |
| Utility.Stem | src/utility.c:89-101 | a prefix of the name; when shorter, it ends just before a '.' with no '.' after it, and is not empty; the whole name when no '.' lies past the first character, and shorter whenever one does |
| Utility.SaveFilenameInSaves | src/utility.c:72-116 | every save file name is "saves/" followed by a name with no '/', ending in ".sav" |
| Utility.BasenameUnder | src/utility.c:77-85 | the basename of dir/name is name |
| Utility.StemOfExtension | src/utility.c:89-101 | the stem of stem.ext is stem |
| Utility.SaveFilenameOfRom | src/utility.c:72-116 | a ROM dir/stem.ext saves to saves/stem.sav, or saves/stem (recovery).sav |
| Utility.SaveFilenameOfDotFile | src/utility.c:89-111 | a dot file such as ".gb" keeps its whole name in its save file |
| Utility.RecoveryNameDiffers | src/utility.c:103-111 | the recovery save and the normal save never share a name |
| Utility.ExtractFsErrorCode | src/utility.c:118-127 | the text after the first "uC-FS error: ", or None exactly when the marker does not occur |
| Utility.Insert | src/utility.c:161-167 | insertion into a sorted list keeps it sorted by strcmp of display names and adds exactly the one game |
| Utility.SortGames | src/utility.c:161-167 | NULL stays NULL, at most one game stays as it is, otherwise the result is sorted by display name and a permutation of the input |
| Utility.InsertAll | src/utility.c:161-167 | the qsort result: sorted by display name and a permutation of the input |
| Library.Extension | src/library_scene.c:62-72 | the text after the last '.', or "" when there is none or it is the first character |
| Library.IsRom | src/library_scene.c:62-78 | an added file has a '.' past its first character and ends in ".gb" or "gbc" |
| Library.IsRomOfExtension | src/library_scene.c:62-78 | a file stem.ext is added exactly when ext is "gb" or "gbc" |
| Library.NoDotNoRom | src/library_scene.c:62-78 | a name without a dot past its first character ("gb", ".gb") is never added |
| Library.DisplayName | src/library_scene.c:420-427 | the display name is the file name cut at its last '.', wherever it is |
| Library.NewGame | src/library_scene.c:410-431 | a new entry keeps the file name, has full path "games/" + name, the display name cut at the last dot, and a clean name of the same length that is the display name with each unsafe byte replaced by '_' and every other byte kept, so no unsafe byte is left |
| Library.DisplayNameIsStem | src/library_scene.c:420-427 | for stem.ext the display name and the save-file stem agree |
| Library.DisplayNameOfDotFile | src/library_scene.c:420-427 | the two rules part on a dot file: displayed as "", saved under the whole name |
| Library.ListFiles | src/library_scene.c:58-78 | the entries are exactly one new game per ROM file of the listing, in listing order and with repeats kept (`Games(NewGame, Filter(IsRom, files))`); every ROM file listed becomes an entry, and every entry is a listed ROM file's new game |
| Library.Filter | src/library_scene.c:62-77 | the files the callback keeps are listed files that pass its test, every listed file that passes is kept, and never more than the listing |
| Library.FilterAppend | src/library_scene.c:58-78 | the callback sees entries one by one, so a listing split in two yields the first part's ROM files ahead of the second's |
| Library.FilterCount | src/library_scene.c:62-77 | each file that passes the test is kept as many times as it is listed, and a file that fails it never |
| Library.Games | src/library_scene.c:72-75 | one new entry per name, in the names' order |
| Library.GamesCover | src/library_scene.c:62-77 | every listed file that passes the test has its entry among the results |
| Library.GamesFrom | src/library_scene.c:62-77 | every result is the entry of a listed file that passes the test, and carries that file's name |
| Library.Reload | src/library_scene.c:81-131 | the reload's games are the listed ROMs sorted by display name, one item per game titled with its display name in that order, and the list tab shows iff there is an item |
| Library.Titles | src/library_scene.c:110-117 | one item per game, titled with its display name, in order |
| Library.OpenSelected | src/library_scene.c:142-156 | the A button opens a game exactly when the selection is a valid item index, and opens that game's full path |
| Script.RewritePath | src/script.c:184-196 | the rewritten path is two characters shorter for every ".lua" the scan replaces |
| Script.RewriteLength | src/script.c:178-197 | each ".lua" replaced by ".l" shortens the path by two |
| Script.Replacements | src/script.c:184-196 | each replaced ".lua" takes four characters of the path |
| Script.BufferFits | src/script.c:181-197 | the 2 * strlen(path) buffer holds the rewritten path and its NUL exactly when the path is not empty |
| Script.RewriteCopies | src/script.c:184-196 | a stretch where no ".lua" starts is copied unchanged |
| Script.RewriteSkips | src/script.c:192-195 | a character that does not start ".lua" is copied and the scan moves on by one |
| Script.CopiesTail | src/script.c:184-196 | a stretch without ".lua" stays without it once its first character is copied |
| Script.RewriteReplaces | src/script.c:186-191 | a ".lua" at the scan position becomes ".l" |
| Script.RewriteWithoutLua | src/script.c:178-197 | a path without ".lua" is left alone |
| Script.ArgCountChecked | src/script.c:28-75 | the count check passes exactly for the expected count; a poke with other than two arguments and a peek with other than one raise their usage errors, whatever the arguments and the ROM, in the calls as written and in the corrected ones |
| Script.LuaToInt | src/script.c:56-57 | a Lua integer stored in a C int is the value congruent to it mod 2^32 in the int32 range, so int32 values pass unchanged |
| Script.RomPoke | src/script.c:47-68 | pgb.rom_poke as written raises a Lua error exactly when there are not two arguments or addr lies outside 0..0x4000 * (mask + 1) - 1; an address the check admits but the loaded buffer does not hold is an overrun; otherwise it stores the value's low 8 bits at addr and nothing else |
| Script.RomPeek | src/script.c:70-90 | pgb.rom_peek as written raises a Lua error exactly when there is not one argument or addr is outside the header's ROM size, overruns at an admitted address past the loaded buffer, and otherwise returns the ROM byte at addr |
| Script.ShortRomOverruns | src/script.c:58-66 | with a loaded ROM shorter than its header's size, the first address past the buffer passes the range check of both calls and is read or written past the buffer |
| Script.RomLimit | src/script.c:58 | the corrected limit is the smaller of the header's ROM size and the loaded byte count |
| Script.RomPokeChecked | src/script.c:47-68 | the corrected poke never overruns: it writes exactly when there are two arguments and addr is below the corrected limit, storing the value's low 8 bits at addr and nothing else |
| Script.RomPeekChecked | src/script.c:70-90 | the corrected peek never overruns: it returns the byte at addr exactly when there is one argument and addr is below the corrected limit |
| Script.CheckedAgrees | src/script.c:47-90 | on a buffer holding the whole header ROM size the corrected calls equal the calls as written; otherwise they differ only where the written ones overrun, which becomes the range error |
| Script.PeekAfterPoke | src/script.c:47-90 | with the corrected calls, a peek after a poke at the same address reads back the poked byte |
| Script.PokeOutOfRange | src/script.c:60-64 | with the corrected call, a poke out of range or past the loaded bytes is the range error, whatever the value |
| Script.ScriptPath | src/script.c:250-258 | on the device the script path is the value itself; in the simulator it is a prefix of "Source/" + value: all of it when it fits the 1024-byte buffer with its NUL, else exactly its first 1023 characters |
| Script.FirstScriptWins | src/script.c:234-261 | the matched script is the first "script" string report's path, and there is none exactly when no report is one |
| Script.MatchScript | src/script.c:234-261 | once a script has matched, later reports never change it |
| Script.NameIgnored | src/script.c:239-245 | a "name" report, matching or not, does not change the choice |
| Script.ScriptBegin | src/script.c:274-341 | script_begin yields a script exactly when scripts.json opened, decoded, named a script and the script loaded, and it is the first script named |
| Json.WillDecodeSublist | src/jparse.c:6-20 | an array sublist starts an empty array and any other starts an empty table |
| Json.DidDecodeArrayValue | src/jparse.c:22-45 | the value lands at the 1-based position, the array grows to that position if shorter, other slots are kept, and slots grown past stay unfilled |
| Json.DenseArray | src/jparse.c:22-45 | values reported at positions 1, 2, ..., k give exactly those k values in order |
| Json.FillArrayAppends | src/jparse.c:22-45 | values reported at positions just past the end append, in order |
| Json.DidDecodeTableValue | src/jparse.c:47-71 | a key/value pair is appended after the existing pairs, earlier pairs with the same key included |
| Json.TableKeepsReports | src/jparse.c:47-71 | a table keeps every reported pair in report order |
| Json.ParseJson | src/jparse.c:113-151 | parse_json returns 0 with no output for NULL out, 1 exactly when the file opened and decoding succeeded (out is the decoded value), otherwise 0 with out null |
| Dtcm.Alloc | src/dtcm.c:18-33 | once initialised, allocation returns the pool address and moves the pool up by exactly the size; before that the host allocator answers |
| Dtcm.AllocAligned | src/dtcm.c:35-42 | the aligned block is the smallest address from the raw allocation on that is congruent to offset mod 32, and it fits inside the size + 32 bytes taken |
| Dtcm.AlignedIsSmallest | src/dtcm.c:40-41 | u + ((offset - u % 32 + 32) % 32) is the first address from u with that residue |
| Dtcm.Init | src/dtcm.c:44-64 | initialising twice changes nothing; without a pool it stays uninitialised; otherwise it takes the low canary word from the pool |
| Dtcm.InitIdempotent | src/dtcm.c:44-48 | initialising twice is initialising once |
| Dtcm.SetMempoolOnce | src/dtcm.c:66-77 | once a pool is set no later call moves it |
| Dtcm.SetMempool | src/dtcm.c:66-77 | the first pool set is kept, and a later call changes nothing |
| Dtcm.Verify | src/dtcm.c:79-104 | verification passes while uninitialised, and afterwards exactly when both canaries are intact |
| Dtcm.EnabledLifecycle | src/dtcm.c:149-155 | DTCM starts disabled; dtcm_init enables it exactly when it already was or a pool is set; dtcm_set_mempool and dtcm_alloc never change it |
| Dtcm.VerifyCatchesBreakage | src/dtcm.c:79-104 | intact canaries always pass; after the start-up sequence with a pool, and any number of allocations, verification fails exactly when a canary is broken |
| Dtcm.AllocAllKeepsCanary | src/dtcm.c:18-33 | allocations keep the initialised flag and the low canary's address |
| Dtcm.FirstAllocation | src/dtcm.c:18-77 | set pool p, init, allocate: enabled, the block is at p + 4 and the pool moves past it |
| LcdDiff.Pack | src/game_scene.c:846-862 | packed flags fit in as many bits as there are flags |
| LcdDiff.PackBit | src/game_scene.c:846-862 | bit k of the packed word is flag k |
| LcdDiff.ShiftIn | src/game_scene.c:851-858 | shifting the word right by one and setting bit 15 for a changed line keeps the flags read so far, in order, in the top bits, below 2^16 |
| LcdDiff.LoopStep | src/game_scene.c:851-858 | each pass keeps the flags read so far in the top bits of the word |
| LcdDiff.LoopEnds | src/game_scene.c:846-861 | the word starts empty and after sixteen passes holds every flag unshifted |
| LcdDiff.WordBits | src/game_scene.c:846-862 | bit j of the packed word is set exactly when line 16y + j differs |
| LcdDiff.ChangedWord | src/game_scene.c:848-861 | after sixteen passes, bit j of word y is set exactly when line 16y + j differs from the previous frame |
| LcdDiff.LineFlags | src/game_scene.c:845-862 | line y is flagged exactly when it differs from the previous frame |
| LcdDiff.FullRefresh | src/game_scene.c:906-912 | a full refresh flags every line |
| LcdDiff.AllOnes | src/game_scene.c:906-912 | the full-refresh word 0xFFFF has all sixteen bits set |
| LcdDiff.PackAllSet | src/game_scene.c:906-912 | n set flags pack to 2^n - 1, so sixteen changed lines give the full-refresh word 0xFFFF |
| LcdDiff.Masked | src/game_scene.c:913-921 | after masking, a line stays flagged exactly when its interlace-mask bit is set |
| LcdDiff.DrawFlags | src/game_scene.c:904-921 | the frame draws every line on a full refresh, else exactly the changed lines the mask keeps |
| LcdDiff.CopyBack | src/game_scene.c:927-935 | each flagged line is copied into the previous frame and the others keep their contents |
| LcdDiff.DrawFrame | src/game_scene.c:843-936 | both frames keep their 144 rows of 40 bytes; afterwards a previous-frame line equals the current one exactly when it already did or was drawn, so a full refresh or an all-ones mask leaves no difference; every changed line was marked |
| Framebuffer.SwapExchanges | src/game_scene.c:603 | the half swap undoes itself and exchanges the halves the two rows read |
| Framebuffer.SwapHalves | src/game_scene.c:603 | the 32-bit rotate by 16 exchanges the low and high halves |
| Framebuffer.SwapInitial | src/game_scene.c:589-603 | the swap turns the initial table into the swapped one and back |
| Framebuffer.DitherByHalf | src/game_scene.c:626-666 | each framebuffer byte takes pixel k's two bits from the low or high pair of its shade's nibble in the row's half of the table |
| Framebuffer.PixelLoopUnrolled | src/game_scene.c:633-640 | the four-pass unpacking loop puts the first pixel's pair highest |
| Framebuffer.TakeReadsHalf | src/game_scene.c:633-640 | each pass of the pixel loop reads the same two bits as the row's half of the table |
| Framebuffer.DitherUnrolled | src/game_scene.c:626-643 | the dithered byte is the four pixel pairs, first pixel highest |
| Framebuffer.RowsTile | src/game_scene.c:586-620 | the line heights tile rows 0..239 exactly: the first line ends at 240, each line starts where the next drawn one ends, the last starts at 0 |
| Framebuffer.Height | src/game_scene.c:595-600 | every Game Boy line is one or two framebuffer rows high |
| Framebuffer.StepOfRow | src/game_scene.c:592-620 | every framebuffer row lies inside the rows of some Game Boy line |
| Framebuffer.LutStep | src/game_scene.c:595-604 | the table is swapped before each one-row line and kept for the next |
| Framebuffer.RowInLine | src/game_scene.c:592-620 | each framebuffer row belongs to exactly one Game Boy line |
| Framebuffer.DrawLine | src/game_scene.c:622-666 | the column loop writes, into the line's one or two rows at columns 4..43, the dithered byte of its packed column and nothing else |
| Framebuffer.DitherRow | src/game_scene.c:626-643 | one row: every picture column gets its dithered byte, other columns stay |
| Framebuffer.UpdateFbDirtyLines | src/game_scene.c:578-671 | every flagged line's rows show its dithered bytes, every other byte keeps its value, and exactly the flagged lines' row ranges are marked, in the walk's order from the bottom line up (`MarksUpTo`) |
| Framebuffer.Mark | src/game_scene.c:668-669 | the marked range is the line's first and last row |
| Framebuffer.MarksUpToMembers | src/game_scene.c:611-669 | exactly the flagged lines walked so far are marked |
| Framebuffer.DrawStep | src/game_scene.c:611-669 | one step over a flagged line extends the drawn prefix of the walk by that line |
| Framebuffer.SkipStep | src/game_scene.c:611-616 | a step over an unflagged line writes nothing and still extends the drawn prefix |
| GameTick.AddSeconds | src/game_scene.c:951-972 | whole seconds beyond 255 are capped at 255, and the step adds them to the 16-bit catch-up counter and the 32-bit clock with wrap-around |
| GameTick.TickLoop | src/game_scene.c:974-981 | at most one tick a frame, made exactly when seconds are owed, paying off one second |
| GameTick.Drain | src/game_scene.c:974-981 | the quiet frames never raise what is owed, pay it all off once there are at least as many frames as seconds, and otherwise take exactly one second a frame |
| GameTick.DrainPaysOff | src/game_scene.c:974-981 | after n quiet frames max(0, c - n) seconds are still owed |
| GameTick.SaveCheck | src/game_scene.c:1128-1162 | save_check as written: a save happens exactly when the cartridge has a battery and SRAM is dirty and the periodic limit is reached, or the frame wrote nothing and the counter reached the minimum; a save clears the dirty flag |
| GameTick.QuietGapNeverSaves | src/game_scene.c:1146-1160 | as written, dirty SRAM whose counter is below the minimum stays unsaved across any number of quiet frames before the periodic limit |
| GameTick.SaveCheckIntended | src/game_scene.c:1128-1162 | the corrected policy: the counter is the gap since the last SRAM write, and dirty SRAM is saved once that gap reaches the minimum or periodically |
| GameTick.QuietGapSaves | src/game_scene.c:1146-1156 | with the corrected counter, a quiet stretch of at least the minimum always ends with SRAM saved |
| GameTick.QuietGapGrows | src/game_scene.c:1146-1156 | with the corrected counter the gap grows by one each quiet frame, and dirty SRAM never outlives a gap of the minimum |
| GameTick.QuietStretchParts | src/game_scene.c:1146-1160 | the two policies part on such a stretch: unsaved as written, saved as intended |

## Left out

- I/O and host services are parameters: file access, listfiles, the JSON decoder, `playdate->system->realloc`, formatString, logging and error reporting, markUpdateRows (returned as a list of row ranges), and the Lua state and `luaL_dofile` (a load-succeeded flag).
- The floating-point parts of `src/game_scene.c` are outside the model: the RTC's fractional-second accumulator (its whole seconds are a parameter), the render-time budget, and the choice of interlace mask (the mask is a parameter).
- `muted` in the APU channel record: nothing sets it, so it is always false.
- The APU channel record's union: the duty fields, the wave sample and the LFSR fields are separate fields. An NR41 duty write lands in the noise channel's own unused duty field instead of aliasing the LFSR bits.
- ApuSynth.Slot: the sub-sample integration term `((pos - prev_pos) / freq_inc) * val` is left out. `pos - prev_pos` is always below `freq_inc` on a crossing, so the term is always 0.
- ApuSynth.UpdateNoise: the `freq >= 14` stop is modelled (in ApuSynth.Tuned) but never takes effect, because shift codes of 10 or more already return at the `freq_inc < 1000` guard.
- The noise LFSR's periods (127 and 32767 steps) and the wave-RAM playback scenario over 32 samples are not proved. The per-edge facts they rest on are proved: NoiseFeedback, RepeatWave and NibblesRebuildByte.
- ApuTimers.UpdateEnv: states one call. That a step-0 envelope keeps its volume over any number of calls follows from it, because the step is never changed, but it is not stated as a separate lemma.
- Concurrency: the serialisation of register writes against the audio callback is assumed, as the APU requires of its caller.
- `SI_didDecodeArrayValue` and `SI_didDecodeTableValue` round their buffers up to `next_pow2` capacity. Capacity is not modelled; only the contents are. `free_json_data` is memory management and is left out.
- Cover-art lookup and scaling (`pgb_find_cover_art_path`, the bitmap loading), the round-rectangle drawing and `pgb_easeInOutQuad` (floating point) are left out.
- `dtcm_store` and `dtcm_restore` copy raw memory and are left out. The canary words are not stored; Dtcm.Verify takes whether each canary is intact. Address arithmetic is on unbounded naturals, with no 32-bit wrap.
- Strings are byte strings: every `string` stands for a NUL-terminated C string, one `char` per byte, with no encoding. Lengths are byte counts, so the snprintf cut in Script.ScriptPath keeps 1023 bytes.
- ApuInit.Init: the master volumes are statics that audio_init does not touch; the model takes their previous values as parameters (0..7, the only values an NR50 write can give), so a fresh start has them 0 and a re-init keeps them.
- Script.RomPoke: the bank mask is read from the cartridge header by the emulator core, which is not part of this model; it is a parameter.
- Script.RomPoke: a non-integer Lua argument, which raises `luaL_checkinteger`'s error, is not modelled; arguments are integers.
- `PGB_MAX_FRAMES_SAVE`, `PGB_MIN_FRAMES_SAVE`, `LCD_WIDTH_PACKED` and the Playdate screen constants are defined in headers outside this model. The save thresholds are parameters; the LCD geometry takes the Game Boy's 144 lines of 40 packed bytes and a 240-row picture starting at byte column 4.
- `line_changed_count` in `src/game_scene.c` is never incremented and only feeds the render-time estimate, so it is left out.
- Utility.SortGames: qsort is not stable and its order among games with equal display names is unspecified. The model fixes one such order (Utility.InsertAll); its contract promises only what every qsort result has: sorted by display name and a permutation of the input.
- `gb_save_to_disk` is reduced to its effect on `sram_dirty`: it clears the flag when it was set. Writing the file is I/O.

## Findings

| source | as written | input that shows it | evidently intended | confidence | as-written member | corrected member |
|---|---|---|---|---|---|---|
| src/game_scene.c:1146-1160 | `frames_since_sram_update` only grows while SRAM is clean. The first quiet frame with dirty SRAM resets it to 0, and every later quiet frame resets it again. | SRAM is written on a frame that follows fewer than PGB_MIN_FRAMES_SAVE clean frames. Then no further writes happen for PGB_MIN_FRAMES_SAVE or more frames, all before the periodic limit. The "gap since last ram edit" save never happens. | The counter counts frames since the last SRAM write, and dirty SRAM is saved once that gap reaches PGB_MIN_FRAMES_SAVE | medium; not executed | GameTick.QuietGapNeverSaves | GameTick.QuietGapSaves |
| src/script.c:58-66 | `pgb.rom_poke` and `pgb.rom_peek` check addr against 0x4000 * (bank mask + 1) from the cartridge header, never against the size of the buffer the ROM file was read into (src/game_scene.c:416-421) | a 0x4000-byte ROM file whose header gives bank mask 1, then `pgb.rom_poke(0x4000, 0)`: the check admits 0x4000 and the write lands one past the 0x4000-byte buffer | the check also refuses addresses past the loaded bytes | low; not executed | Script.ShortRomOverruns | Script.CheckedAgrees |
