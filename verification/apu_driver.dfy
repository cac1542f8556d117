/** audio_callback: the host asks for `len` stereo samples; the APU fills
    them in chunks of at most MAX_CHUNK, each chunk synthesised one slot in
    AUDIO_SAMPLE_REPLICATION and the slots then copied over the samples
    that follow them. */
module ApuDriver {
  import opened Bits
  import opened ApuState
  import opened ApuSynth

  /** What one chunk keeps: the invariant, the registers but the NR52
      mirror, the power bit, the master volumes, every stopped channel
      stopped, and every buffer entry that is not a slot of the chunk. */
  predicate ChunkKeeps(a: Apu, r: (Apu, seq<i16>, seq<i16>),
                       left: seq<i16>, right: seq<i16>, base: nat, n: int)
  {
    && Inv(r.0)
    && r.0.volL == a.volL && r.0.volR == a.volR
    && (forall k | 0 <= k < MemSize && k != NR52 :: r.0.mem[k] == a.mem[k])
    && (PoweredOn(r.0) <==> PoweredOn(a))
    && (forall j | 0 <= j < 4 :: r.0.chans[j].enabled ==> a.chans[j].enabled)
    && |r.1| == |left| && |r.2| == |right|
    && (forall j | 0 <= j < |left| && !InSlots(j, base, 0, n) :: r.1[j] == left[j])
    && (forall j | 0 <= j < |right| && !InSlots(j, base, 0, n) :: r.2[j] == right[j])
  }

  /** The four updaters in the order the callback runs them: the wave
      channel first (it overwrites its slots), then both squares and the
      noise channel (they add to them). With every channel stopped the
      buffers come out as they went in. */
  method Chunk(a: Apu, left: seq<i16>, right: seq<i16>, base: nat, n: int)
    returns (r: Apu, outL: seq<i16>, outR: seq<i16>)
    requires Inv(a)
    requires 0 <= n <= MaxChunk && base + n <= |left| == |right|
    ensures ChunkKeeps(a, (r, outL, outR), left, right, base, n)
    ensures AllStopped(a) ==> outL == left && outR == right
    ensures MixedSlots(a, n, left, right, outL, outR, base)
  {
    var a1, l1, r1 := UpdateWave(a, left, right, base, n);
    var a2, l2, r2 := UpdateSquare(a1, 0, l1, r1, base, n);
    var a3, l3, r3 := UpdateSquare(a2, 1, l2, r2, base, n);
    r, outL, outR := UpdateNoise(a3, l3, r3, base, n);
    ChunkValues(a, a1, a2, a3, n, base, left, right, l1, r1, l2, r2, l3, r3, outL, outR);
  }

  /** Every slot of the chunk at base holds what Mixed says. */
  ghost predicate MixedSlots(a: Apu, n: int, left: seq<i16>, right: seq<i16>,
                             outL: seq<i16>, outR: seq<i16>, base: nat)
    requires Inv(a)
  {
    && base + n <= |left| && |left| == |right| == |outL| == |outR|
    && forall m: nat | m * Replication < n ::
         && outL[base + m * Replication] == Mixed(a, n, m, left[base + m * Replication], true)
         && outR[base + m * Replication] == Mixed(a, n, m, right[base + m * Replication], false)
  }

  /** The four updaters of Chunk, each on the state its predecessor left,
      compose to Mixed. */
  lemma ChunkValues(a: Apu, a1: Apu, a2: Apu, a3: Apu, n: int, base: nat,
                    left: seq<i16>, right: seq<i16>, l1: seq<i16>, r1: seq<i16>,
                    l2: seq<i16>, r2: seq<i16>, l3: seq<i16>, r3: seq<i16>, outL: seq<i16>, outR: seq<i16>)
    requires Inv(a) && 0 <= n
    requires Keeps(a, (a1, l1, r1), 2, left, right, base, n)
    requires Keeps(a1, (a2, l2, r2), 0, l1, r1, base, n)
    requires Keeps(a2, (a3, l3, r3), 1, l2, r2, base, n)
    requires Voiced(a, 2, n, left, right, l1, r1, base)
    requires Voiced(a1, 0, n, l1, r1, l2, r2, base)
    requires Voiced(a2, 1, n, l2, r2, l3, r3, base)
    requires Voiced(a3, 3, n, l3, r3, outL, outR, base)
    ensures MixedSlots(a, n, left, right, outL, outR, base)
  {
    forall m: nat | m * Replication < n
      ensures outL[base + m * Replication] == Mixed(a, n, m, left[base + m * Replication], true)
      ensures outR[base + m * Replication] == Mixed(a, n, m, right[base + m * Replication], false)
    {
      var j := base + m * Replication;
      ChunkSlot(a, a1, a2, a3, n, m, left[j], l1[j], l2[j], l3[j], outL[j], true);
      ChunkSlot(a, a1, a2, a3, n, m, right[j], r1[j], r2[j], r3[j], outR[j], false);
    }
  }

  /** Slot m of a chunk of n samples, on one side, once all four updaters
      ran in the callback's order (wave, both squares, noise): an entry
      that held `prior` holds the noise channel's slot landed on the
      second square's, on the first square's, on the wave channel's. */
  ghost function Mixed(a: Apu, n: int, m: nat, prior: i16, leftSide: bool): i16
    requires Inv(a)
  {
    Voice(a, 3, n, m, Voice(a, 1, n, m, Voice(a, 0, n, m, Voice(a, 2, n, m, prior, leftSide), leftSide), leftSide), leftSide)
  }

  /** One slot of Chunk: each updater ran on the state its predecessors
      left, which still holds its channel, the master volumes and the wave
      RAM as they were at the start of the chunk. */
  lemma ChunkSlot(a: Apu, a1: Apu, a2: Apu, a3: Apu, n: int, m: nat,
                  p0: i16, p1: i16, p2: i16, p3: i16, p4: i16, leftSide: bool)
    requires Inv(a) && Inv(a1) && Inv(a2) && Inv(a3)
    requires a1.chans[0] == a.chans[0] && a1.chans[1] == a.chans[1] && a1.chans[3] == a.chans[3]
    requires a2.chans[1] == a.chans[1] && a2.chans[3] == a.chans[3] && a3.chans[3] == a.chans[3]
    requires a1.volL == a.volL && a1.volR == a.volR && a2.volL == a.volL && a2.volR == a.volR
    requires a3.volL == a.volL && a3.volR == a.volR
    requires forall k | 0 <= k < MemSize && k != NR52 :: a1.mem[k] == a.mem[k] && a2.mem[k] == a.mem[k] && a3.mem[k] == a.mem[k]
    requires p1 == Voice(a, 2, n, m, p0, leftSide)
    requires p2 == Voice(a1, 0, n, m, p1, leftSide)
    requires p3 == Voice(a2, 1, n, m, p2, leftSide)
    requires p4 == Voice(a3, 3, n, m, p3, leftSide)
    ensures p4 == Mixed(a, n, m, p0, leftSide)
  {
    VoiceLocal(a1, a, 0, n, m, p1, leftSide);
    VoiceLocal(a2, a, 1, n, m, p2, leftSide);
    VoiceLocal(a3, a, 3, n, m, p3, leftSide);
  }

  /** The replication loop of one chunk: every sample copies the slot that
      starts its group of AUDIO_SAMPLE_REPLICATION (the last group of an odd
      chunk is cut short). */
  method Replicate(buf: seq<i16>, base: nat, n: nat) returns (out: seq<i16>)
    requires base + n <= |buf|
    ensures |out| == |buf|
    ensures forall k | 0 <= k < |buf| && !(base <= k < base + n) :: out[k] == buf[k]
    ensures forall k | base <= k < base + n :: out[k] == buf[Lead(base, k)]
  {
    out := buf;
    var i := 0;
    while i < n
      invariant 0 <= i && i % Replication == 0
      invariant |out| == |buf|
      invariant forall k | 0 <= k < |buf| && !(base <= k < base + n) :: out[k] == buf[k]
      invariant forall k | base <= k < base + n && k < base + i :: out[k] == buf[Lead(base, k)]
      invariant forall k | base + i <= k < base + n :: out[k] == buf[k]
    {
      var next := CopyGroup(out, base, i, n);
      forall k | base + i <= k < base + n && k < base + i + Replication
        ensures Lead(base, k) == base + i
      {
        GroupStart(i, k - base, base);
      }
      out := next;
      i := i + Replication;
    }
  }

  /** The inner loop: samples i .. i + R - 1 of the chunk (those below n)
      take the value of sample i. */
  method CopyGroup(buf: seq<i16>, base: nat, i: nat, n: nat) returns (out: seq<i16>)
    requires i < n && base + n <= |buf|
    ensures |out| == |buf|
    ensures forall k | 0 <= k < |buf| && !(base + i <= k < base + i + Replication && k < base + n) :: out[k] == buf[k]
    ensures forall k | base + i <= k < base + i + Replication && k < base + n :: out[k] == buf[base + i]
  {
    out := buf;
    var j := i;
    while j < i + Replication && j < n
      invariant i <= j <= i + Replication && j <= n
      invariant |out| == |buf|
      invariant forall k | 0 <= k < |buf| && !(base + i < k < base + j) :: out[k] == buf[k]
      invariant forall k | base + i <= k < base + j :: out[k] == buf[base + i]
    {
      out := out[base + j := out[base + i]];
      j := j + 1;
    }
  }

  /** The slot that starts the group of sample k of a chunk at base. */
  function Lead(base: nat, k: nat): (l: nat)
    requires base <= k
    ensures base <= l <= k && (l - base) % Replication == 0 && k - l < Replication
  {
    k - (k - base) % Replication
  }

  /** Sample base + m lies in the group of R samples that starts at the
      multiple i of R. */
  lemma GroupStart(i: nat, m: nat, base: nat)
    requires i % Replication == 0 && i <= m < i + Replication
    ensures Lead(base, base + m) == base + i
  {
    ModUnique(m, Replication, i / Replication, m - i);
  }

  /** Chunks start at multiples of MAX_CHUNK, hence of R, so a group seen
      from the chunk is the group seen from the start of the buffer. */
  lemma LeadAligned(base: nat, k: nat)
    requires base <= k && base % Replication == 0
    ensures Lead(base, k) == Lead(0, k)
  {
    ModUnique(k, Replication, base / Replication + (k - base) / Replication, (k - base) % Replication);
  }

  /** A group's first slot leads its own group. */
  lemma LeadIdem(base: nat, k: nat)
    requires base <= k
    ensures Lead(base, Lead(base, k)) == Lead(base, k)
  {
    var l := Lead(base, k);
    ModUnique(l - base, Replication, (l - base) / Replication, 0);
  }

  /** Every chunk but the last is MAX_CHUNK long, a multiple of R, so the
      next chunk starts on a group boundary too. */
  lemma ChunkAligned(done: nat, n: int, len: int)
    requires done % Replication == 0
    requires n == if len - done >= MaxChunk then MaxChunk else len - done
    ensures done + n < len ==> (done + n) % Replication == 0
  {
    assert MaxChunk == 256;
  }

  predicate AllStopped(a: Apu) {
    forall j | 0 <= j < 4 :: !a.chans[j].enabled
  }

  /** What the callback keeps of the APU across its chunks. */
  predicate StateKept(a: Apu, r: Apu) {
    && Inv(r)
    && r.volL == a.volL && r.volR == a.volR
    && (forall k | 0 <= k < MemSize && k != NR52 :: r.mem[k] == a.mem[k])
    && (PoweredOn(r) <==> PoweredOn(a))
    && (forall j | 0 <= j < 4 :: r.chans[j].enabled ==> a.chans[j].enabled)
  }

  /** One output buffer after the first `done` samples were filled: the rest
      is as the host passed it, every filled sample repeats the lead of its
      group, and with every channel stopped that lead is the host's. */
  predicate Filled(host: seq<i16>, out: seq<i16>, done: nat, len: int, stopped: bool) {
    && |out| == |host| && done <= |host|
    && (forall k | done <= k < |host| :: out[k] == host[k])
    && (forall k | 0 <= k < done && k < len :: out[k] == out[Lead(0, k)])
    && (stopped ==> forall k | 0 <= k < done && k < len :: out[k] == host[Lead(0, k)])
  }

  /** A channel the callback found stopped is still stopped. */
  lemma StoppedStays(a: Apu, r: Apu)
    requires StateKept(a, r)
    ensures AllStopped(a) ==> AllStopped(r)
  {
  }

  /** One chunk keeps what the callback keeps of the APU. */
  lemma KeptStep(a: Apu, r: Apu, res: (Apu, seq<i16>, seq<i16>),
                 left: seq<i16>, right: seq<i16>, base: nat, n: int)
    requires StateKept(a, r) && ChunkKeeps(r, res, left, right, base, n)
    ensures StateKept(a, res.0)
  {
  }

  /** A chunk at `done` that only writes inside [done, done + n), followed
      by its replication, extends a filled buffer by n samples. */
  lemma FillStep(host: seq<i16>, out: seq<i16>, chunk: seq<i16>, rep: seq<i16>,
                 done: nat, n: nat, len: int, stopped: bool)
    requires Filled(host, out, done, len, stopped) && done % Replication == 0
    requires done + n <= |host|
    requires |chunk| == |out| && forall j | 0 <= j < |out| && !InSlots(j, done, 0, n) :: chunk[j] == out[j]
    requires stopped ==> chunk == out
    requires |rep| == |chunk|
    requires forall k | 0 <= k < |chunk| && !(done <= k < done + n) :: rep[k] == chunk[k]
    requires forall k | done <= k < done + n :: rep[k] == chunk[Lead(done, k)]
    ensures Filled(host, rep, done + n, len, stopped)
  {
    forall k | done <= k < done + n
      ensures Lead(done, k) == Lead(0, k) && done <= Lead(0, k) <= k
      ensures rep[Lead(0, k)] == chunk[Lead(0, k)]
    {
      LeadAligned(done, k);
      LeadIdem(done, k);
    }
  }

  /** audio_callback. `audioEnabled`, `hasScene` and `locked` stand for the
      global audio_enabled flag, a non-null game scene and its audioLocked
      flag; `left` and `right` are the host's buffers as they arrive, of
      which the first `len` samples are filled. */
  method AudioCallback(a: Apu, audioEnabled: bool, hasScene: bool, locked: bool,
                       left: seq<i16>, right: seq<i16>, len: int)
    returns (ret: int, r: Apu, outL: seq<i16>, outR: seq<i16>)
    requires Inv(a)
    requires len <= |left| == |right|
    ensures !audioEnabled || !hasScene || locked ==> ret == 0 && r == a && outL == left && outR == right
    ensures audioEnabled && hasScene && !locked ==> ret == 1
    ensures Inv(r)
    ensures r.volL == a.volL && r.volR == a.volR
    ensures forall k | 0 <= k < MemSize && k != NR52 :: r.mem[k] == a.mem[k]
    ensures PoweredOn(r) <==> PoweredOn(a)
    ensures forall j | 0 <= j < 4 :: r.chans[j].enabled ==> a.chans[j].enabled
    ensures |outL| == |left| && |outR| == |right|
    ensures forall k | 0 <= k < |left| && k >= len :: outL[k] == left[k]
    ensures forall k | 0 <= k < |right| && k >= len :: outR[k] == right[k]
    ensures ret == 1 ==> forall k | 0 <= k < len :: outL[k] == outL[Lead(0, k)] && outR[k] == outR[Lead(0, k)]
    ensures ret == 1 && AllStopped(a) ==>
              forall k | 0 <= k < len :: outL[k] == left[Lead(0, k)] && outR[k] == right[Lead(0, k)]
  {
    if !audioEnabled || !hasScene || locked {
      return 0, a, left, right;
    }
    ret, r, outL, outR := 1, a, left, right;
    var stopped := AllStopped(a);
    var done := 0;
    while done < len
      invariant 0 <= done && (done < len ==> done % Replication == 0)
      invariant done == 0 || done <= len
      invariant StateKept(a, r)
      invariant Filled(left, outL, done, len, stopped)
      invariant Filled(right, outR, done, len, stopped)
      decreases len - done
    {
      var n := if len - done >= MaxChunk then MaxChunk else len - done;
      StoppedStays(a, r);
      var c, cl, cr := Chunk(r, outL, outR, done, n);
      KeptStep(a, r, (c, cl, cr), outL, outR, done, n);
      var l := Replicate(cl, done, n);
      var rr := Replicate(cr, done, n);
      FillStep(left, outL, cl, l, done, n, len, stopped);
      FillStep(right, outR, cr, rr, done, n, len, stopped);
      ChunkAligned(done, n, len);
      r, outL, outR := c, l, rr;
      done := done + n;
    }
  }
}
