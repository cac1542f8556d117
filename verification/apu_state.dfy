/** State of the Game Boy (DMG) audio processing unit: the 0x30-byte register
    window 0xFF10..0xFF3F (wave RAM included), four channel records and the two
    master volumes, with the constants of minigb_apu and the invariant that
    every reachable state satisfies. */
module ApuState {
  import opened Bits

  /** AUDIO_SAMPLE_REPLICATION: one true sample per R output slots. */
  const Replication: nat := 2
  const AudioSampleRate: nat := 44100 / Replication
  /** FREQ_INC_REF, the threshold of every fixed-point timer. */
  const FreqIncRef: nat := AudioSampleRate * 1
  /** DMG_CLOCK_FREQ cast to unsigned. */
  const DmgClockFreq: nat := 4194304
  const MaxChanVolume: nat := 15
  /** INT16_MAX / 8 and INT16_MIN / 8. */
  const VolInitMax: int := 32767 / 8
  const VolInitMin: int := -4096
  /** The two square/noise levels: VOL_INIT_MAX / 15 and VOL_INIT_MIN / 15 in C. */
  const LevelHigh: int := VolInitMax / MaxChanVolume
  const LevelLow: int := TruncDiv(VolInitMin, MaxChanVolume)
  /** INT16_MAX / 64, the wave channel's amplitude unit. */
  const WaveUnit: int := 32767 / 64
  /** 256 rounded up to a multiple of the replication factor. */
  const MaxChunk: nat := ((256 + Replication - 1) / Replication) * Replication
  /** Largest frequency increment any channel computes (wave at freq 2047). */
  const MaxFreqInc: nat := 0x20_0000

  const AddrBase: int := 0xFF10
  const MemSize: nat := 0x30
  /** Offsets into the register window. */
  const NR10: nat := 0x00
  const NR52: nat := 0x16
  const WaveRam: nat := 0x20

  const DutyLookup: seq<byte> := [0x10, 0x30, 0x3C, 0xCF]

  /** Bits that read back as 1, per register (ortab in audio_read). */
  const OrTab: seq<byte> := [
    0x80, 0x3f, 0x00, 0xff, 0xbf,
    0xff, 0x3f, 0x00, 0xff, 0xbf,
    0x7f, 0xff, 0x9f, 0xff, 0xbf,
    0xff, 0xff, 0x00, 0x00, 0xbf,
    0x00, 0x00, 0x70,
    0xff, 0xff, 0xff, 0xff, 0xff, 0xff, 0xff, 0xff, 0xff,
    0x00, 0x00, 0x00, 0x00, 0x00, 0x00, 0x00, 0x00, 0x00,
    0x00, 0x00, 0x00, 0x00, 0x00, 0x00, 0x00]

  datatype LenCtr = LenCtr(load: byte, enabled: bool, counter: u32, inc: u32)

  datatype VolEnv = VolEnv(step: byte, up: bool, counter: u32, inc: u32)

  datatype FreqSweep = FreqSweep(freq: u16, rate: byte, shift: byte, up: bool, counter: u32, inc: u32)

  /** One channel (struct chan). The per-kind payloads that share a C union
      are kept as separate fields: duty/dutyCounter (square), lfsrReg,
      lfsrWide, lfsrDiv (noise) and waveSample (wave). For the wave channel
      `val` is the sample position; for the others it is the current level. */
  datatype Chan = Chan(
    enabled: bool,
    powered: bool,
    onLeft: bool,
    onRight: bool,
    volume: byte,
    volumeInit: byte,
    freq: u16,
    freqCounter: u32,
    freqInc: u32,
    val: int,
    len: LenCtr,
    env: VolEnv,
    sweep: FreqSweep,
    duty: byte,
    dutyCounter: byte,
    lfsrReg: u16,
    lfsrWide: bool,
    lfsrDiv: byte,
    waveSample: byte)

  const ZeroChan: Chan := Chan(false, false, false, false, 0, 0, 0, 0, 0, 0,
                               LenCtr(0, false, 0, 0), VolEnv(0, false, 0, 0),
                               FreqSweep(0, 0, 0, false, 0, 0), 0, 0, 0, false, 0, 0)

  type Regs = s: seq<byte> | |s| == 0x30 witness seq(0x30, _ => 0)

  type Chans = s: seq<Chan> | |s| == 4 witness [ZeroChan, ZeroChan, ZeroChan, ZeroChan]

  datatype Apu = Apu(mem: Regs, chans: Chans, volL: int, volR: int)

  /** Length counter period: 64 for the square and noise channels, 256 for wave. */
  function LenMax(i: nat): nat {
    if i == 2 then 256 else 64
  }

  /** update_len's counter either rests at 0 or sits just below 2^32 after
      `counter -= len * inc` wrapped. */
  const LenSlack: nat := 0x2_0000

  predicate LenCounterSane(c: Chan) {
    c.len.counter == 0 || c.len.counter >= 0x1_0000_0000 - LenSlack
  }

  /** Ranges every field of channel i keeps in every reachable state. */
  predicate ChanInv(i: nat, c: Chan) {
    && c.volume <= MaxChanVolume
    && c.volumeInit <= MaxChanVolume
    && c.env.step <= 7
    && c.env.inc <= 64
    && c.env.counter <= FreqIncRef
    && c.freqCounter <= FreqIncRef
    && c.freqInc <= MaxFreqInc
    && c.sweep.counter <= FreqIncRef
    && c.sweep.inc <= 128
    && c.sweep.shift <= 7
    && c.len.load < LenMax(i)
    && c.len.inc <= 256
    && LenCounterSane(c)
    && c.dutyCounter <= 7
    && c.lfsrDiv <= 7
    && (i < 2 && c.enabled ==> c.freq <= 2047)
    && (i == 2 ==> 0 <= c.val < 32 && c.freq <= 2047 && c.waveSample <= 15 && c.volume <= 3 && c.volumeInit <= 3)
    && (i == 3 ==> c.freq <= 15)
  }

  /** The length loads stay below the period, so chan_trigger never divides by zero. */
  predicate LoadsOk(cs: Chans) {
    cs[0].len.load < LenMax(0) && cs[1].len.load < LenMax(1)
    && cs[2].len.load < LenMax(2) && cs[3].len.load < LenMax(3)
  }

  predicate ChansInv(cs: Chans) {
    ChanInv(0, cs[0]) && ChanInv(1, cs[1]) && ChanInv(2, cs[2]) && ChanInv(3, cs[3])
  }

  /** With master power off the whole NR52 byte is 0 and no channel runs. */
  predicate PowerInv(a: Apu) {
    a.mem[NR52] < 0x80 ==>
      a.mem[NR52] == 0 && !a.chans[0].enabled && !a.chans[1].enabled
      && !a.chans[2].enabled && !a.chans[3].enabled
  }

  /** Ranges that hold whatever the power state. */
  predicate RangeInv(a: Apu) {
    && ChansInv(a.chans)
    && 0 <= a.volL <= 7
    && 0 <= a.volR <= 7
  }

  predicate Inv(a: Apu) {
    RangeInv(a) && PowerInv(a)
  }

  predicate PoweredOn(a: Apu) {
    a.mem[NR52] >= 0x80
  }
}
