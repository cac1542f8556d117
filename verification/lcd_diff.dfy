/** The changed-line bookkeeping of PGB_GameScene_update in
    src/game_scene.c: one bit per Game Boy line saying whether it differs
    from the previous frame, packed sixteen lines to a 16-bit word, then the
    copy of the drawn lines back into the previous frame. */
module LcdDiff {
  import opened Bits
  import opened Framebuffer

  /** LCD_HEIGHT / 16 words of changed flags. */
  const Words: nat := LcdHeight / 16

  /** Flags packed into a number, the first flag in bit 0. */
  function Pack(f: seq<bool>): (w: nat)
    ensures w < Pow2(|f|)
  {
    if |f| == 0 then 0 else (if f[0] then 1 else 0) + 2 * Pack(f[1..])
  }

  /** Bit k of the packed word is flag k. */
  lemma {:induction false} PackBit(f: seq<bool>, k: nat)
    requires k < |f|
    ensures Bit(Pack(f), k) <==> f[k]
  {
    var b := if f[0] then 1 else 0;
    if k == 0 {
      assert Pow2(0) == 1;
    } else {
      PackBit(f[1..], k - 1);
      ShiftedBit(Pack(f[1..]), b, k);
    }
  }

  /** A flag appended at the end lands in the next bit up. */
  lemma {:induction false} PackSnoc(f: seq<bool>, b: bool)
    ensures Pack(f + [b]) == Pack(f) + (if b then Pow2(|f|) else 0)
  {
    if |f| == 0 {
      assert Pow2(0) == 1;
      assert f + [b] == [b];
    } else {
      assert (f + [b])[1..] == f[1..] + [b];
      PackSnoc(f[1..], b);
    }
  }

  /** n set flags pack to 2^n - 1. */
  lemma {:induction false} PackAllSet(n: nat)
    ensures Pack(seq(n, _ => true)) == Pow2(n) - 1
  {
    if n > 0 {
      assert seq(n, _ => true)[1..] == seq(n - 1, _ => true);
      PackAllSet(n - 1);
    }
  }

  /** 0xFFFF, the full-refresh word, flags all sixteen lines. */
  lemma AllOnes(k: nat)
    requires k < 16
    ensures Bit(0xFFFF, k)
  {
    PackAllSet(16);
    Pow2Sixteen();
    PackBit(seq(16, _ => true), k);
  }

  /** Which of the sixteen lines of word y differ between the frames. */
  function Differences(cur: seq<seq<byte>>, prev: seq<seq<byte>>, y: nat): (d: seq<bool>)
    requires |cur| == LcdHeight && |prev| == LcdHeight && y < Words
    ensures |d| == 16 && forall j | 0 <= j < 16 :: d[j] == (cur[16 * y + j] != prev[16 * y + j])
  {
    seq(16, j requires 0 <= j < 16 => cur[16 * y + j] != prev[16 * y + j])
  }

  /** One `changed >>= 1`, then `changed |= 0x8000` for a line that differs,
      on a word holding k flags in its top k bits. The shift clears bit 15,
      so the OR adds 0x8000. */
  lemma ShiftIn(p: nat, k: nat, d: bool)
    requires k < 16 && p < Pow2(k)
    ensures (p * Pow2(16 - k)) / 2 < 0x8000
    ensures (p * Pow2(16 - k)) / 2 + (if d then 0x8000 else 0)
            == (p + (if d then Pow2(k) else 0)) * Pow2(16 - (k + 1))
  {
    var q := Pow2(15 - k);
    assert Pow2(16 - k) == 2 * q;
    Pow2Add(k, 15 - k);
    Pow2Sixteen();
    assert Pow2(16) == 2 * Pow2(15);
    HalveStep(p, Pow2(k), q, d);
  }

  /** ShiftIn with the powers of two named. */
  lemma HalveStep(p: nat, pk: nat, q: nat, d: bool)
    requires p < pk && pk * q == 0x8000
    ensures (p * (2 * q)) / 2 < 0x8000
    ensures (p * (2 * q)) / 2 + (if d then 0x8000 else 0) == (p + (if d then pk else 0)) * q
  {
    assert p * (2 * q) == 2 * (p * q);
    DivUnique(p * (2 * q), 2, p * q, 0);
    MulLe(p + 1, pk, q);
    assert (p + 1) * q == p * q + q;
    assert q > 0;
    assert (p + pk) * q == p * q + pk * q;
  }

  /** The word after k passes of the inner loop: the first k flags in its
      top k bits. */
  function Window(d: seq<bool>, k: nat): nat
    requires k <= |d| && k <= 16
  {
    Pack(d[..k]) * Pow2(16 - k)
  }

  /** One pass of the inner loop keeps `changed` holding the flags read so
      far in its top bits. */
  lemma LoopStep(d: seq<bool>, k: nat, changed: nat)
    requires k < |d| && k < 16 && changed == Window(d, k)
    ensures changed / 2 < 0x8000
    ensures changed / 2 + (if d[k] then 0x8000 else 0) == Window(d, k + 1)
  {
    ShiftIn(Pack(d[..k]), k, d[k]);
    PackSnoc(d[..k], d[k]);
    assert d[..k + 1] == d[..k] + [d[k]];
  }

  /** The inner loop for word y: sixteen shifts right, each ORing in bit 15
      for a line that differs, so line 16y + j ends in bit j. */
  method ChangedWord(cur: seq<seq<byte>>, prev: seq<seq<byte>>, y: nat) returns (changed: u16)
    requires |cur| == LcdHeight && |prev| == LcdHeight && y < Words
    ensures changed == Pack(Differences(cur, prev, y))
    ensures forall j | 0 <= j < 16 :: Bit(changed, j) <==> cur[16 * y + j] != prev[16 * y + j]
  {
    ghost var d := Differences(cur, prev, y);
    LoopEnds(d);
    changed := 0;
    var y2 := 0;
    while y2 < 16
      invariant 0 <= y2 <= 16
      invariant changed == Window(d, y2)
    {
      LoopStep(d, y2, changed);
      changed := changed / 2;
      // (y * 16) | y2: the low four bits of y * 16 are clear
      var sy := y * 16 + y2;
      if cur[sy] != prev[sy] {
        changed := changed + 0x8000;
      }
      y2 := y2 + 1;
    }
    WordBits(cur, prev, y, changed);
  }

  /** Before the loop no flag is in the word; after sixteen passes all are,
      unshifted. */
  lemma LoopEnds(d: seq<bool>)
    requires |d| == 16
    ensures Window(d, 0) == 0
    ensures Window(d, 16) == Pack(d)
  {
    assert d[..0] == [];
    assert d[..16] == d;
    assert Pow2(0) == 1;
  }

  /** The packed differences of word y say, bit by bit, which of its lines
      differ. */
  lemma WordBits(cur: seq<seq<byte>>, prev: seq<seq<byte>>, y: nat, w: nat)
    requires |cur| == LcdHeight && |prev| == LcdHeight && y < Words
    requires w == Pack(Differences(cur, prev, y))
    ensures forall j | 0 <= j < 16 :: Bit(w, j) <==> cur[16 * y + j] != prev[16 * y + j]
  {
    var d := Differences(cur, prev, y);
    forall j | 0 <= j < 16
      ensures Bit(w, j) <==> cur[16 * y + j] != prev[16 * y + j]
    {
      PackBit(d, j);
    }
  }

  /** line_has_changed: bit y % 16 of word y / 16 is set iff line y differs
      between the current and the previous frame. */
  method LineFlags(cur: seq<seq<byte>>, prev: seq<seq<byte>>) returns (flags: seq<u16>)
    requires |cur| == LcdHeight && |prev| == LcdHeight
    ensures |flags| == Words
    ensures forall y | 0 <= y < LcdHeight :: Flagged(flags, y) <==> cur[y] != prev[y]
  {
    flags := [];
    var y := 0;
    while y < Words
      invariant 0 <= y <= Words && |flags| == y
      invariant forall w, j | 0 <= w < y && 0 <= j < 16 :: Bit(flags[w], j) <==> cur[16 * w + j] != prev[16 * w + j]
    {
      var changed := ChangedWord(cur, prev, y);
      flags := flags + [changed];
      y := y + 1;
    }
    forall line | 0 <= line < LcdHeight
      ensures Flagged(flags, line) <==> cur[line] != prev[line]
    {
      assert line == 16 * (line / 16) + line % 16;
    }
  }

  /** The flags of a full refresh: every word 0xFFFF. */
  function FullRefresh(): (flags: seq<u16>)
    ensures |flags| == Words
    ensures forall y | 0 <= y < LcdHeight :: Flagged(flags, y)
  {
    var flags: seq<u16> := seq(Words, _ => 0xFFFF);
    forall y | 0 <= y < LcdHeight
      ensures Flagged(flags, y)
    {
      AllOnes(y % 16);
    }
    flags
  }

  /** `line_has_changed[i] &= interlace_mask` for every word: a line stays
      flagged iff its mask bit is set. */
  function Masked(flags: seq<u16>, mask: u16): (r: seq<u16>)
    requires |flags| == Words
    ensures |r| == Words
    ensures forall y | 0 <= y < LcdHeight :: Flagged(r, y) <==> Flagged(flags, y) && Bit(mask, y % 16)
  {
    var r: seq<u16> := seq(Words, i requires 0 <= i < Words => BitAnd(flags[i], mask));
    forall y | 0 <= y < LcdHeight
      ensures Flagged(r, y) <==> Flagged(flags, y) && Bit(mask, y % 16)
    {
      BitAndBits(flags[y / 16], mask, y % 16);
    }
    r
  }

  /** The flags the frame draws with: all of them on a full refresh, else
      the changed lines the interlace mask keeps. */
  function DrawFlags(diff: seq<u16>, fullRefresh: bool, mask: u16): (r: seq<u16>)
    requires |diff| == Words
    ensures |r| == Words
    ensures forall y | 0 <= y < LcdHeight ::
              Flagged(r, y) <==> fullRefresh || (Flagged(diff, y) && Bit(mask, y % 16))
  {
    if fullRefresh then FullRefresh() else Masked(diff, mask)
  }

  /** The copy-back loop: each flagged line of the current frame is copied
      into the previous frame; the others keep their old contents. */
  method CopyBack(prev: seq<seq<byte>>, cur: seq<seq<byte>>, flags: seq<u16>) returns (r: seq<seq<byte>>)
    requires |cur| == LcdHeight && |prev| == LcdHeight && |flags| == Words
    ensures |r| == LcdHeight
    ensures forall i | 0 <= i < LcdHeight :: r[i] == if Flagged(flags, i) then cur[i] else prev[i]
  {
    r := prev;
    var i := 0;
    while i < LcdHeight
      invariant 0 <= i <= LcdHeight && |r| == LcdHeight
      invariant forall k | 0 <= k < LcdHeight ::
                  r[k] == if k < i && Flagged(flags, k) then cur[k] else prev[k]
    {
      if Bit(flags[i / 16], i % 16) {
        r := r[i := cur[i]];
      }
      i := i + 1;
    }
  }

  /** Both frames the scene keeps: the current LCD picture and the copy of
      the previous one, each LcdHeight rows of LcdWidthPacked bytes. */
  predicate FramePair(cur: seq<seq<byte>>, prev: seq<seq<byte>>) {
    WellFormedLcd(cur) && WellFormedLcd(prev)
  }

  /** The drawing part of a frame: compare with the previous frame, choose
      the flags, draw the flagged lines and copy them back. Afterwards a
      line of the previous frame equals the current one iff it already did
      or it was drawn; without a full refresh or a mask, no line is left
      behind, so the next frame starts with no difference. */
  method DrawFrame(fb: seq<seq<byte>>, cur: seq<seq<byte>>, prev: seq<seq<byte>>, fullRefresh: bool, mask: u16)
    returns (fbOut: seq<seq<byte>>, marks: seq<(nat, nat)>, prevOut: seq<seq<byte>>)
    requires WellFormedFb(fb) && FramePair(cur, prev)
    ensures SameShape(fbOut, fb)
    ensures FramePair(cur, prevOut)
    ensures forall i | 0 <= i < LcdHeight ::
              (prevOut[i] == cur[i] <==> prev[i] == cur[i] || fullRefresh || Bit(mask, i % 16))
    ensures fullRefresh || mask == 0xFFFF ==> prevOut == cur
    ensures forall i | 0 <= i < LcdHeight ::
              (prevOut[i] != prev[i] ==> exists t | 0 <= t < LcdHeight :: LcdHeight - 1 - t == i && Mark(t) in marks)
  {
    var diff := LineFlags(cur, prev);
    var flags := DrawFlags(diff, fullRefresh, mask);
    fbOut, marks := UpdateFbDirtyLines(fb, cur, flags);
    prevOut := CopyBack(prev, cur, flags);
    FrameLines(cur, prev, diff, flags, marks, prevOut, fullRefresh, mask);
  }

  /** What a frame does to the previous-frame copy and the marks, from the
      flags alone. */
  lemma FrameLines(cur: seq<seq<byte>>, prev: seq<seq<byte>>, diff: seq<u16>, flags: seq<u16>,
                   marks: seq<(nat, nat)>, prevOut: seq<seq<byte>>, fullRefresh: bool, mask: u16)
    requires FramePair(cur, prev) && |diff| == Words && |flags| == Words
    requires forall y | 0 <= y < LcdHeight :: Flagged(diff, y) <==> cur[y] != prev[y]
    requires forall y | 0 <= y < LcdHeight ::
               Flagged(flags, y) <==> fullRefresh || (Flagged(diff, y) && Bit(mask, y % 16))
    requires forall t | 0 <= t < LcdHeight && Flagged(flags, LcdHeight - 1 - t) :: Mark(t) in marks
    requires |prevOut| == LcdHeight
    requires forall i | 0 <= i < LcdHeight :: prevOut[i] == if Flagged(flags, i) then cur[i] else prev[i]
    ensures FramePair(cur, prevOut)
    ensures forall i | 0 <= i < LcdHeight ::
              (prevOut[i] == cur[i] <==> prev[i] == cur[i] || fullRefresh || Bit(mask, i % 16))
    ensures fullRefresh || mask == 0xFFFF ==> prevOut == cur
    ensures forall i | 0 <= i < LcdHeight ::
              (prevOut[i] != prev[i] ==> exists t | 0 <= t < LcdHeight :: LcdHeight - 1 - t == i && Mark(t) in marks)
  {
    if !fullRefresh && mask == 0xFFFF {
      forall i | 0 <= i < LcdHeight
        ensures prevOut[i] == cur[i]
      {
        AllOnes(i % 16);
      }
    }
    forall i | 0 <= i < LcdHeight && prevOut[i] != prev[i]
      ensures exists t | 0 <= t < LcdHeight :: LcdHeight - 1 - t == i && Mark(t) in marks
    {
      assert Flagged(flags, i);
      FlaggedLineMarked(flags, marks, i);
    }
  }

  /** A flagged line's row range is among the marks, once every flagged
      walk step's range is. */
  lemma FlaggedLineMarked(flags: seq<u16>, marks: seq<(nat, nat)>, i: nat)
    requires |flags| == LcdHeight / 16 && i < LcdHeight && Flagged(flags, i)
    requires forall t | 0 <= t < LcdHeight && Flagged(flags, LcdHeight - 1 - t) :: Mark(t) in marks
    ensures exists t | 0 <= t < LcdHeight :: LcdHeight - 1 - t == i && Mark(t) in marks
  {
    var t := LcdHeight - 1 - i;
    assert LcdHeight - 1 - t == i;
    assert Mark(t) in marks;
  }
}
