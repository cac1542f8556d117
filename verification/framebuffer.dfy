/** update_fb_dirty_lines in src/game_scene.c: the Game Boy's 144 lines of
    packed 2-bit pixels drawn onto the Playdate's 1-bit framebuffer, walking
    from the bottom line up with row heights 2, 2, 1 repeating (144 lines
    onto 240 rows) and a 2x2 dither looked up per pixel. */
module Framebuffer {
  import opened Bits

  /** LCD_HEIGHT and LCD_WIDTH_PACKED (160 pixels at 4 a byte). */
  const LcdHeight: nat := 144
  const LcdWidthPacked: nat := 40
  /** PGB_LCD_Y + PGB_LCD_HEIGHT: the bottom of the drawn area. */
  const ScreenBottom: nat := 240
  /** PGB_LCD_X / 8: the byte column the picture starts at. */
  const ColumnOffset: nat := 4

  /** PGB_dither_lut_c0 and PGB_dither_lut_c1: for each 2-bit shade, a
      nibble whose low and high bit pairs are the two pixels of one row. */
  const LutC0: nat := 0xF + 0x7 * 0x10 + 0x1 * 0x100
  const LutC1: nat := 0xF + 0xD * 0x10 + 0x4 * 0x100
  /** dither_lut at the start: c0 in the low half, c1 in the high half. */
  const InitialLut: u32 := LutC0 + LutC1 * 0x1_0000
  /** The table after one swap: c1 low, c0 high. */
  const SwappedLut: u32 := LutC1 + LutC0 * 0x1_0000

  /** `(lut >> 16) | (lut << 16)` on a uint32_t: the halves are disjoint,
      so the OR is a sum. */
  function SwapHalves(lut: u32): (r: u32)
    ensures r / 0x1_0000 == lut % 0x1_0000 && r % 0x1_0000 == lut / 0x1_0000
  {
    var r := lut / 0x1_0000 + (lut % 0x1_0000) * 0x1_0000;
    ModUnique(r, 0x1_0000, lut % 0x1_0000, lut / 0x1_0000);
    DivUnique(r, 0x1_0000, lut % 0x1_0000, lut / 0x1_0000);
    r
  }

  /** The 16-bit half a Playdate row reads: the low half for the first row
      of a line, the high half for the second. */
  function Half(lut: nat, row: nat): (h: nat)
    requires row < 2
    ensures h < 0x1_0000
  {
    if row == 0 then lut % 0x1_0000 else lut / 0x1_0000 % 0x1_0000
  }

  /** Swapping twice restores the table, and a swap exchanges the halves
      the two rows read. */
  lemma SwapExchanges(lut: u32)
    ensures SwapHalves(SwapHalves(lut)) == lut
    ensures Half(SwapHalves(lut), 0) == Half(lut, 1) && Half(SwapHalves(lut), 1) == Half(lut, 0)
  {
    var lo := lut % 0x1_0000;
    var hi := lut / 0x1_0000;
    DivBelow(lut, 0x1_0000, 0x1_0000);
    assert lut == 0x1_0000 * hi + lo;
  }

  /** The two bits the unpacking loop takes for a pixel: the shade's nibble
      is selected by shifting the table right by 4 * (pix & 3), plus 16 for
      the second row, then the pair by (i * 2) % 4. */
  function Take(lut: nat, row: nat, pix: nat, i: nat): (c: nat)
    ensures c < 4
  {
    (lut / Pow2((pix % 4) * 4 + 16 * row) / Pow2((i * 2) % 4)) % 4
  }

  /** One pass of the unpacking loop: i counts the four pixels, pix holds
      the pixels not yet read (lowest first), p the output bits so far. Each
      pixel shifts p left by two and ORs in its two bits, which the shift
      has cleared, so the OR is an addition. */
  function PixelLoop(lut: nat, row: nat, pix: nat, i: nat, p: nat): nat
    decreases 4 - i
  {
    if i >= 4 then p
    else PixelLoop(lut, row, pix / 4, i + 1, p * 4 + Take(lut, row, pix, i))
  }

  /** The framebuffer byte for one packed byte b in the given row of its
      line (`p & 0xFF`). */
  function DitherByte(lut: nat, row: nat, b: byte): byte {
    PixelLoop(lut, row, b, 0, 0) % 0x100
  }

  /** Two bits of the shade v's nibble in the half h: the low pair, or the
      high pair when odd. */
  function Pair(h: nat, v: nat, odd: bool): (r: nat)
    ensures r < 4
  {
    (h / Pow2(4 * v + (if odd then 2 else 0))) % 4
  }

  /** The loop's shifts read the same two bits as the row's half. */
  lemma TakeReadsHalf(lut: nat, row: nat, pix: nat, i: nat)
    requires row < 2 && i < 4
    ensures Take(lut, row, pix, i) == Pair(Half(lut, row), pix % 4, i % 2 == 1)
  {
    var v := pix % 4;
    var sh := (i * 2) % 4;
    assert sh == if i % 2 == 1 then 2 else 0;
    Pow2Sixteen();
    DivPow2Twice(lut, v * 4 + 16 * row, sh);
    if row == 0 {
      assert Pow2(0) == 1;
      LowBitsKeep(lut, 4 * v + sh, 16);
    } else {
      DivPow2Twice(lut, 16, 4 * v + sh);
      assert v * 4 + 16 * row + sh == 16 + (4 * v + sh);
      LowBitsKeep(lut / Pow2(16), 4 * v + sh, 16);
    }
  }

  /** The loop run to its end: four pairs, the first pixel's highest. */
  lemma PixelLoopUnrolled(lut: nat, row: nat, b: byte)
    ensures PixelLoop(lut, row, b, 0, 0)
            == 64 * Take(lut, row, b, 0) + 16 * Take(lut, row, b / 4, 1)
               + 4 * Take(lut, row, b / 16, 2) + Take(lut, row, b / 64, 3)
  {
    var b1 := b / 4;
    var b2 := b1 / 4;
    var b3 := b2 / 4;
    assert b2 == b / 16 && b3 == b / 64;
    var p1 := Take(lut, row, b, 0);
    var p2 := p1 * 4 + Take(lut, row, b1, 1);
    var p3 := p2 * 4 + Take(lut, row, b2, 2);
    var p4 := p3 * 4 + Take(lut, row, b3, 3);
    assert PixelLoop(lut, row, b, 0, 0) == PixelLoop(lut, row, b1, 1, p1);
    assert PixelLoop(lut, row, b1, 1, p1) == PixelLoop(lut, row, b2, 2, p2);
    assert PixelLoop(lut, row, b2, 2, p2) == PixelLoop(lut, row, b3, 3, p3);
    assert PixelLoop(lut, row, b3, 3, p3) == p4;
  }

  /** Each framebuffer byte depends only on the packed byte and the half of
      the table its row reads: pixel k of b (bits 2k, 2k+1) gives output
      bits 7-2k and 6-2k, taken from the low pair of its shade's nibble for
      even k and the high pair for odd k. */
  lemma DitherByHalf(lut: nat, row: nat, b: byte)
    requires row < 2
    ensures var h := Half(lut, row);
            DitherByte(lut, row, b)
            == 64 * Pair(h, b % 4, false) + 16 * Pair(h, b / 4 % 4, true)
               + 4 * Pair(h, b / 16 % 4, false) + Pair(h, b / 64 % 4, true)
  {
    DitherUnrolled(lut, row, b);
    TakesAsPairs(lut, row, b);
  }

  /** DitherByte is the unrolled loop: the four pairs fill the byte. */
  lemma DitherUnrolled(lut: nat, row: nat, b: byte)
    ensures DitherByte(lut, row, b)
            == 64 * Take(lut, row, b, 0) + 16 * Take(lut, row, b / 4, 1)
               + 4 * Take(lut, row, b / 16, 2) + Take(lut, row, b / 64, 3)
  {
    var p := PixelLoop(lut, row, b, 0, 0);
    PixelLoopUnrolled(lut, row, b);
    assert p < 0x100;
    ModUnique(p, 0x100, 0, p);
  }

  /** The four reads of the unrolled loop, as pairs of the row's half. */
  lemma TakesAsPairs(lut: nat, row: nat, b: byte)
    requires row < 2
    ensures var h := Half(lut, row);
            && Take(lut, row, b, 0) == Pair(h, b % 4, false)
            && Take(lut, row, b / 4, 1) == Pair(h, b / 4 % 4, true)
            && Take(lut, row, b / 16, 2) == Pair(h, b / 16 % 4, false)
            && Take(lut, row, b / 64, 3) == Pair(h, b / 64 % 4, true)
  {
    TakeReadsHalf(lut, row, b, 0);
    TakeReadsHalf(lut, row, b / 4, 1);
    TakeReadsHalf(lut, row, b / 16, 2);
    TakeReadsHalf(lut, row, b / 64, 3);
  }

  /** The walk visits line 143 first: walk step t draws line 143 - t. Every
      third line (t % 3 == 2) is one row high, the others two. */
  function Height(t: nat): (h: nat)
    ensures h == 1 || h == 2
  {
    if t % 3 == 2 then 1 else 2
  }

  /** The running bottom before walk step t: 240 less the heights of the
      lines already walked, drawn or not. */
  function Bottom(t: nat): int {
    ScreenBottom - 5 * (t / 3) - 2 * (t % 3)
  }

  /** The first row of the line drawn at walk step t. */
  function Top(t: nat): int {
    Bottom(t) - Height(t)
  }

  /** The heights add up: each line's rows end where the previous walk
      step's begin, the first line ends at row 240 and the last starts at
      row 0. */
  lemma RowsTile(t: nat)
    requires t < LcdHeight
    ensures Bottom(0) == ScreenBottom && Top(LcdHeight - 1) == 0
    ensures Bottom(t + 1) == Top(t) && 0 <= Top(t) < Bottom(t) <= ScreenBottom
  {
  }

  /** The table at walk step t, after the swap a one-row line makes before
      it is drawn: swapped once for every one-row line walked so far. */
  function LutAt(t: nat): u32 {
    if ((t + 1) / 3) % 2 == 0 then InitialLut else SwappedLut
  }

  /** The table before walk step t: the lines walked so far held t / 3
      one-row lines. */
  function LutBefore(t: nat): u32 {
    if (t / 3) % 2 == 0 then InitialLut else SwappedLut
  }

  /** Walk step t swaps the table before drawing exactly when its line is
      one row high, and leaves the next step the table it drew with. */
  lemma LutStep(t: nat)
    ensures LutAt(t) == (if t % 3 == 2 then SwapHalves(LutBefore(t)) else LutBefore(t))
    ensures LutBefore(t + 1) == LutAt(t)
    ensures (t + 1) % 3 == (if t % 3 == 2 then 0 else t % 3 + 1)
  {
    SwapInitial();
  }

  /** The swap moves between the two tables. */
  lemma SwapInitial()
    ensures SwapHalves(InitialLut) == SwappedLut && SwapHalves(SwappedLut) == InitialLut
  {
    DivUnique(InitialLut, 0x1_0000, LutC1, LutC0);
    DivUnique(SwappedLut, 0x1_0000, LutC0, LutC1);
  }

  /** The walk step whose line covers row rho, and which of its rows rho
      is. */
  function StepOfRow(rho: nat): (t: nat)
    requires rho < ScreenBottom
    ensures t < LcdHeight && Top(t) <= rho < Bottom(t)
  {
    var d := ScreenBottom - 1 - rho;
    var g := d / 5;
    var e := d % 5;
    if e < 2 then 3 * g else if e < 4 then 3 * g + 1 else 3 * g + 2
  }

  /** Each row belongs to exactly one line: StepOfRow finds the line of
      walk step t exactly for the rows between its top and its bottom. */
  lemma RowInLine(rho: nat, t: nat)
    requires rho < ScreenBottom && t < LcdHeight
    ensures StepOfRow(rho) == t <==> Top(t) <= rho < Bottom(t)
  {
  }

  /** Line changed flags: bit y % 16 of word y / 16 for line y. */
  predicate Flagged(flags: seq<u16>, y: nat)
    requires y < LcdHeight && |flags| == LcdHeight / 16
  {
    Bit(flags[y / 16], y % 16)
  }

  predicate WellFormedLcd(lcd: seq<seq<byte>>) {
    |lcd| == LcdHeight && forall y | 0 <= y < LcdHeight :: |lcd[y]| == LcdWidthPacked
  }

  predicate WellFormedFb(fb: seq<seq<byte>>) {
    |fb| >= ScreenBottom && forall rho | 0 <= rho < |fb| :: |fb[rho]| >= ColumnOffset + LcdWidthPacked
  }

  /** Same shape: as many rows, each as long. */
  predicate SameShape(a: seq<seq<byte>>, b: seq<seq<byte>>) {
    |a| == |b| && forall rho | 0 <= rho < |a| :: |a[rho]| == |b[rho]|
  }

  /** The picture column of byte column c, when c shows the picture. */
  predicate InPicture(c: nat) {
    ColumnOffset <= c < ColumnOffset + LcdWidthPacked
  }

  /** What row rho, byte column c of the framebuffer holds once the walk has
      drawn the lines of flagged, which the walk reaches at the steps below
      `upto`: the dithered byte of its line for a flagged line it reached,
      the old byte otherwise. */
  function Drawn(fb: seq<seq<byte>>, lcd: seq<seq<byte>>, flags: seq<u16>, upto: nat, rho: nat, c: nat): byte
    requires WellFormedFb(fb) && WellFormedLcd(lcd) && |flags| == LcdHeight / 16
    requires rho < |fb| && c < |fb[rho]|
  {
    if rho < ScreenBottom && InPicture(c) then
      var t := StepOfRow(rho);
      var y := LcdHeight - 1 - t;
      if t < upto && Flagged(flags, y) then DitherByte(LutAt(t), rho - Top(t), lcd[y][c - ColumnOffset])
      else fb[rho][c]
    else fb[rho][c]
  }

  /** The column loop of one line: for x from 39 down to 0, the byte of
      packed column x goes, dithered with the row's half of the table, into
      row top (and, for a two-row line, row top + 1) at column 4 + x. */
  method DrawLine(fb: seq<seq<byte>>, top: nat, h: nat, line: seq<byte>, lut: u32)
    returns (out: seq<seq<byte>>)
    requires h == 1 || h == 2
    requires top + h <= |fb| && |line| == LcdWidthPacked
    requires forall rho | 0 <= rho < |fb| :: |fb[rho]| >= ColumnOffset + LcdWidthPacked
    ensures SameShape(out, fb)
    ensures forall rho, c | 0 <= rho < |fb| && 0 <= c < |fb[rho]| ::
              out[rho][c] == if top <= rho < top + h && InPicture(c)
                             then DitherByte(lut, rho - top, line[c - ColumnOffset]) else fb[rho][c]
  {
    var first := DitherRow(fb[top], line, lut, 0);
    out := fb[top := first];
    if h == 2 {
      var second := DitherRow(fb[top + 1], line, lut, 1);
      out := out[top + 1 := second];
    }
  }

  /** The writes the column loop makes into one row of the framebuffer. */
  method DitherRow(dst: seq<byte>, line: seq<byte>, lut: u32, row: nat) returns (out: seq<byte>)
    requires |line| == LcdWidthPacked && |dst| >= ColumnOffset + LcdWidthPacked
    ensures |out| == |dst|
    ensures forall c | 0 <= c < |dst| ::
              out[c] == if InPicture(c) then DitherByte(lut, row, line[c - ColumnOffset]) else dst[c]
  {
    out := dst;
    var x := LcdWidthPacked;
    while x > 0
      invariant 0 <= x <= LcdWidthPacked
      invariant |out| == |dst|
      invariant forall c | 0 <= c < |dst| ::
                  out[c] == if ColumnOffset + x <= c < ColumnOffset + LcdWidthPacked
                            then DitherByte(lut, row, line[c - ColumnOffset]) else dst[c]
    {
      x := x - 1;
      out := out[ColumnOffset + x := DitherByte(lut, row, line[x])];
    }
  }

  /** update_fb_dirty_lines. Returns the framebuffer and the row ranges
      passed to markUpdateRows, in call order. Every flagged line's rows
      show its dithered bytes; every other byte, unflagged lines included,
      is the old one; and exactly the flagged lines' row ranges are marked,
      bottom line first, in the order MarksUpTo lists them. */
  method UpdateFbDirtyLines(fb: seq<seq<byte>>, lcd: seq<seq<byte>>, flags: seq<u16>)
    returns (out: seq<seq<byte>>, marks: seq<(nat, nat)>)
    requires WellFormedFb(fb) && WellFormedLcd(lcd) && |flags| == LcdHeight / 16
    ensures SameShape(out, fb)
    ensures forall rho, c | 0 <= rho < |fb| && 0 <= c < |fb[rho]| ::
              out[rho][c] == Drawn(fb, lcd, flags, LcdHeight, rho, c)
    ensures forall m | m in marks :: exists t | 0 <= t < LcdHeight ::
              Flagged(flags, LcdHeight - 1 - t) && m == Mark(t)
    ensures forall t | 0 <= t < LcdHeight && Flagged(flags, LcdHeight - 1 - t) ::
              Mark(t) in marks
    ensures marks == MarksUpTo(flags, LcdHeight)
  {
    out := fb;
    marks := [];
    var scaleIndex := 0;
    var bottom := ScreenBottom;
    var lut := InitialLut;
    var y := LcdHeight;
    while y > 0
      invariant 0 <= y <= LcdHeight
      invariant scaleIndex == (LcdHeight - y) % 3
      invariant bottom == Bottom(LcdHeight - y)
      invariant lut == LutBefore(LcdHeight - y)
      invariant DrawnUpTo(out, fb, lcd, flags, LcdHeight - y)
      invariant marks == MarksUpTo(flags, LcdHeight - y)
    {
      var t := LcdHeight - y;
      LutStep(t);
      y := y - 1;
      var h := 2;
      if scaleIndex == 2 {
        scaleIndex := 0;
        h := 1;
        lut := SwapHalves(lut);
      } else {
        scaleIndex := scaleIndex + 1;
      }
      assert h == Height(t) && lut == LutAt(t);
      RowsTile(t);
      var top := bottom - h;
      if Bit(flags[y / 16], y % 16) {
        out := DrawStep(fb, lcd, flags, t, out, top, h, lut);
        marks := marks + [(top, top + h - 1)];
      } else {
        SkipStep(fb, lcd, flags, t, out);
      }
      bottom := bottom - h;
    }
    MarksUpToMembers(flags, LcdHeight);
  }

  /** The row range markUpdateRows is given for the line of walk step t:
      its first and its last row. */
  function Mark(t: nat): (m: (nat, nat))
    requires t < LcdHeight
    ensures m.0 == Top(t) && m.1 == Bottom(t) - 1
  {
    RowsTile(t);
    (Top(t), Top(t) + Height(t) - 1)
  }

  /** The marks of the first n walk steps, in the order they are made: one
      for each flagged line. */
  function MarksUpTo(flags: seq<u16>, n: nat): seq<(nat, nat)>
    requires n <= LcdHeight && |flags| == LcdHeight / 16
  {
    if n == 0 then []
    else MarksUpTo(flags, n - 1) + (if Flagged(flags, LcdHeight - n) then [Mark(n - 1)] else [])
  }

  /** Exactly the flagged lines among the first n walk steps are marked. */
  lemma {:induction false} MarksUpToMembers(flags: seq<u16>, n: nat)
    requires n <= LcdHeight && |flags| == LcdHeight / 16
    ensures forall m | m in MarksUpTo(flags, n) :: exists t | 0 <= t < n ::
              Flagged(flags, LcdHeight - 1 - t) && m == Mark(t)
    ensures forall t | 0 <= t < n && Flagged(flags, LcdHeight - 1 - t) :: Mark(t) in MarksUpTo(flags, n)
  {
    if n > 0 {
      MarksUpToMembers(flags, n - 1);
    }
  }

  /** `out` is the framebuffer once the walk has finished its first n
      steps. */
  predicate DrawnUpTo(out: seq<seq<byte>>, fb: seq<seq<byte>>, lcd: seq<seq<byte>>, flags: seq<u16>, n: nat)
    requires WellFormedFb(fb) && WellFormedLcd(lcd) && |flags| == LcdHeight / 16
  {
    && SameShape(out, fb)
    && forall rho, c | 0 <= rho < |fb| && 0 <= c < |fb[rho]| :: out[rho][c] == Drawn(fb, lcd, flags, n, rho, c)
  }

  /** A walk step over a flagged line draws it. */
  method DrawStep(fb: seq<seq<byte>>, lcd: seq<seq<byte>>, flags: seq<u16>, t: nat,
                  out: seq<seq<byte>>, top: nat, h: nat, lut: u32) returns (drawn: seq<seq<byte>>)
    requires WellFormedFb(fb) && WellFormedLcd(lcd) && |flags| == LcdHeight / 16 && t < LcdHeight
    requires top == Top(t) && h == Height(t) && lut == LutAt(t)
    requires Flagged(flags, LcdHeight - 1 - t)
    requires DrawnUpTo(out, fb, lcd, flags, t)
    ensures DrawnUpTo(drawn, fb, lcd, flags, t + 1)
  {
    RowsTile(t);
    drawn := DrawLine(out, top, h, lcd[LcdHeight - 1 - t], lut);
    StepAdvances(fb, lcd, flags, t, out, drawn, true);
  }

  /** A walk step over an unflagged line writes nothing. */
  lemma SkipStep(fb: seq<seq<byte>>, lcd: seq<seq<byte>>, flags: seq<u16>, t: nat, out: seq<seq<byte>>)
    requires WellFormedFb(fb) && WellFormedLcd(lcd) && |flags| == LcdHeight / 16 && t < LcdHeight
    requires !Flagged(flags, LcdHeight - 1 - t)
    requires DrawnUpTo(out, fb, lcd, flags, t)
    ensures DrawnUpTo(out, fb, lcd, flags, t + 1)
  {
    StepAdvances(fb, lcd, flags, t, out, out, false);
  }

  /** One walk step: if its line is flagged and `after` is `before` with the
      line drawn (unflagged: `after` is `before`), the picture drawn up to
      the step becomes the picture drawn through it. */
  lemma StepAdvances(fb: seq<seq<byte>>, lcd: seq<seq<byte>>, flags: seq<u16>, t: nat,
                     before: seq<seq<byte>>, after: seq<seq<byte>>, drawn: bool)
    requires WellFormedFb(fb) && WellFormedLcd(lcd) && |flags| == LcdHeight / 16 && t < LcdHeight
    requires drawn <==> Flagged(flags, LcdHeight - 1 - t)
    requires SameShape(before, fb) && SameShape(after, fb)
    requires forall rho, c | 0 <= rho < |fb| && 0 <= c < |fb[rho]| ::
               before[rho][c] == Drawn(fb, lcd, flags, t, rho, c)
    requires forall rho, c | 0 <= rho < |fb| && 0 <= c < |fb[rho]| ::
               after[rho][c] == if drawn && Top(t) <= rho < Top(t) + Height(t) && InPicture(c)
                                then DitherByte(LutAt(t), rho - Top(t), lcd[LcdHeight - 1 - t][c - ColumnOffset])
                                else before[rho][c]
    ensures forall rho, c | 0 <= rho < |fb| && 0 <= c < |fb[rho]| ::
              after[rho][c] == Drawn(fb, lcd, flags, t + 1, rho, c)
  {
    forall rho, c | 0 <= rho < |fb| && 0 <= c < |fb[rho]|
      ensures after[rho][c] == Drawn(fb, lcd, flags, t + 1, rho, c)
    {
      StepAdvancesAt(fb, lcd, flags, t, rho, c, before[rho][c], after[rho][c], drawn);
    }
  }

  /** StepAdvances for one byte. */
  lemma StepAdvancesAt(fb: seq<seq<byte>>, lcd: seq<seq<byte>>, flags: seq<u16>, t: nat,
                       rho: nat, c: nat, before: byte, after: byte, drawn: bool)
    requires WellFormedFb(fb) && WellFormedLcd(lcd) && |flags| == LcdHeight / 16 && t < LcdHeight
    requires rho < |fb| && c < |fb[rho]|
    requires drawn <==> Flagged(flags, LcdHeight - 1 - t)
    requires before == Drawn(fb, lcd, flags, t, rho, c)
    requires after == if drawn && Top(t) <= rho < Top(t) + Height(t) && InPicture(c)
                      then DitherByte(LutAt(t), rho - Top(t), lcd[LcdHeight - 1 - t][c - ColumnOffset])
                      else before
    ensures after == Drawn(fb, lcd, flags, t + 1, rho, c)
  {
    RowsTile(t);
    if rho < ScreenBottom && InPicture(c) {
      RowInLine(rho, t);
    }
  }
}
