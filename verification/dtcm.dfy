/** src/dtcm.c, built with DTCM_ALLOC: a bump allocator over the tightly
    coupled memory below the stack, and its 32-byte-aligned variant.
    Addresses are naturals, with 0 standing for NULL; the host allocator's
    answer is a parameter, and the canary words are left to the memory
    they live in (only whether they are intact is seen, by Verify). */
module Dtcm {

  const Null: nat := 0
  const Align: nat := 32
  /** dtcm_init takes a 4-byte word for the low canary. */
  const CanarySize: nat := 4

  /** is_dtcm_init, dtcm_mempool and dtcm_low_canary_addr. */
  datatype Dtcm = Dtcm(init: bool, mempool: nat, lowCanary: nat)

  const Start := Dtcm(false, Null, Null)

  /** dtcm_alloc: once initialised it hands out the pool address and moves
      the pool up by exactly size; before that the host allocator answers
      (`host` is what realloc(NULL, size) returned). */
  function Alloc(s: Dtcm, size: nat, host: nat): (r: (Dtcm, nat))
    ensures s.init ==> r.1 == s.mempool && r.0 == s.(mempool := s.mempool + size)
    ensures !s.init ==> r == (s, host)
  {
    if s.init then (s.(mempool := s.mempool + size), s.mempool) else (s, host)
  }

  /** The offset dtcm_alloc_aligned adds: (offset - u % 32 + 32) % 32, in
      unsigned arithmetic that never wraps since the operand lies in
      [1, 63]. */
  function AlignGap(u: nat, offset: nat): nat {
    (offset % Align - u % Align + Align) % Align
  }

  /** dtcm_alloc_aligned(size, offset): allocate size + 32 bytes at u and
      return the smallest n >= u with n % 32 == offset % 32. */
  function AllocAligned(s: Dtcm, size: nat, offset: nat, host: nat): (r: (Dtcm, nat))
    ensures var u := Alloc(s, size + Align, host).1;
            && r.0 == Alloc(s, size + Align, host).0
            && u <= r.1 < u + Align
            && r.1 % Align == offset % Align
            && (forall m | u <= m < r.1 :: m % Align != offset % Align)
            && r.1 + size <= u + size + Align
  {
    var a := Alloc(s, size + Align, host);
    var u := a.1;
    var n := u + AlignGap(u, offset);
    AlignedIsSmallest(u, offset);
    (a.0, n)
  }

  /** u + AlignGap(u, offset) is the first address from u on that is
      offset modulo 32. */
  lemma AlignedIsSmallest(u: nat, offset: nat)
    ensures AlignGap(u, offset) < Align
    ensures (u + AlignGap(u, offset)) % Align == offset % Align
    ensures forall m | u <= m < u + AlignGap(u, offset) :: m % Align != offset % Align
  {
    var o := offset % Align;
    var g := AlignGap(u, offset);
    var q := u / Align;
    var ur := u % Align;
    assert u == Align * q + ur;
    if o >= ur {
      assert g == o - ur;
      assert u + g == Align * q + o;
    } else {
      assert g == o - ur + Align;
      assert u + g == Align * (q + 1) + o;
    }
    forall m | u <= m < u + g
      ensures m % Align != o
    {
      if o >= ur {
        assert m == Align * q + (ur + (m - u));
      } else if m < Align * (q + 1) {
        assert m == Align * q + (ur + (m - u));
      } else {
        assert m == Align * (q + 1) + (m - Align * (q + 1));
      }
    }
  }

  /** dtcm_init: nothing once initialised; without a mempool it stays
      uninitialised (and reports an error); otherwise it initialises and
      takes the low canary word from the pool. */
  function Init(s: Dtcm): (r: Dtcm)
    ensures s.init ==> r == s
    ensures !s.init && s.mempool == Null ==> r == s
    ensures !s.init && s.mempool != Null ==>
              r.init && r.lowCanary == s.mempool && r.mempool == s.mempool + CanarySize
  {
    if s.init then s
    else if s.mempool == Null then s
    else
      var s1 := s.(init := true);
      var a := Alloc(s1, CanarySize, Null);
      a.0.(lowCanary := a.1)
  }

  /** Initialising twice is initialising once. */
  lemma InitIdempotent(s: Dtcm)
    ensures Init(Init(s)) == Init(s)
  {
  }

  /** dtcm_set_mempool: only the first call with a pool in place counts; a
      second one reports an error and changes nothing. */
  function SetMempool(s: Dtcm, addr: nat): (r: Dtcm)
    ensures s.mempool != Null ==> r == s
    ensures s.mempool == Null ==> r == s.(mempool := addr)
  {
    if s.mempool != Null then s else s.(mempool := addr)
  }

  /** After one pool is set, no later call moves it. */
  lemma SetMempoolOnce(s: Dtcm, a: nat, b: nat)
    requires a != Null
    ensures SetMempool(SetMempool(s, a), b) == SetMempool(s, a)
  {
  }

  /** dtcm_verify: true whenever DTCM is not initialised, else whether both
      canaries still hold their pattern. */
  function Verify(s: Dtcm, lowIntact: bool, highIntact: bool): (ok: bool)
    ensures !s.init ==> ok
    ensures s.init && s.lowCanary != Null ==> (ok <==> lowIntact && highIntact)
  {
    if !s.init then true
    else if s.lowCanary != Null then lowIntact && highIntact
    else true
  }

  /** dtcm_enabled: whether DTCM has been initialised. */
  function Enabled(s: Dtcm): (e: bool)
    ensures e <==> s.init
  {
    s.init
  }

  /** DTCM starts disabled; initialising enables it exactly when it already
      was or a pool is in place; setting the pool and allocating never
      change it. */
  lemma EnabledLifecycle(s: Dtcm, size: nat, host: nat, addr: nat)
    ensures !Enabled(Start)
    ensures Enabled(Init(s)) <==> Enabled(s) || s.mempool != Null
    ensures Enabled(Alloc(s, size, host).0) == Enabled(s)
    ensures Enabled(SetMempool(s, addr)) == Enabled(s)
  {
  }

  /** Intact canaries always pass; once the start-up sequence has run with
      a non-NULL pool, verification fails exactly when a canary is broken,
      however many allocations followed. */
  lemma VerifyCatchesBreakage(p: nat, sizes: seq<nat>, lowIntact: bool, highIntact: bool)
    requires p != Null
    ensures forall s: Dtcm :: Verify(s, true, true)
    ensures Verify(AllocAll(Init(SetMempool(Start, p)), sizes), lowIntact, highIntact) <==> lowIntact && highIntact
  {
    AllocAllKeepsCanary(Init(SetMempool(Start, p)), sizes);
  }

  /** The state after allocating each size in turn. */
  function AllocAll(s: Dtcm, sizes: seq<nat>): (r: Dtcm)
    decreases |sizes|
  {
    if sizes == [] then s else AllocAll(Alloc(s, sizes[0], Null).0, sizes[1..])
  }

  /** Allocations keep the initialised flag and the low canary address. */
  lemma {:induction false} AllocAllKeepsCanary(s: Dtcm, sizes: seq<nat>)
    ensures AllocAll(s, sizes).init == s.init && AllocAll(s, sizes).lowCanary == s.lowCanary
    decreases |sizes|
  {
    if sizes != [] {
      AllocAllKeepsCanary(Alloc(s, sizes[0], Null).0, sizes[1..]);
    }
  }

  /** The start-up sequence: set the pool at a non-NULL p, initialise, then
      allocate: the block starts right after the low canary and the pool
      moves past it. */
  lemma FirstAllocation(p: nat, size: nat, host: nat)
    requires p != Null
    ensures var s := Init(SetMempool(Start, p));
            && Enabled(s)
            && Alloc(s, size, host).1 == p + CanarySize
            && Alloc(s, size, host).0.mempool == p + CanarySize + size
  {
  }
}
