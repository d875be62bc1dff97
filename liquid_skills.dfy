/**
 * The skills panel (src/components/LiquidSkills.js): the canvas layout of
 * category titles and pill-shaped tags that feeds the panel's texture, and the
 * resize guard that decides when that layout is redone. Coordinates are CSS
 * pixels, as after the context's `setTransform(dpr, ...)`.
 */
module LiquidSkills {
  import opened Canvas2D
  import opened PillWrap

  datatype Tier = Mobile | Tablet | Desktop

  /** The sizes that depend on the tier, and the horizontal margin of the wrapping limit. */
  datatype Style = Style(
    titleSize: real, pillFontSize: real, pillPadX: real, pillPadY: real, pillGap: real,
    categoryGap: real, rowGap: real, titleToTagGap: real, topPad: real, margin: real)
  {
    function PillHeight(): real { pillFontSize + pillPadY * 2.0 }
    function PillFont(): Font { Font(500, pillFontSize) }
    function TitleFont(): Font { Font(700, titleSize) }
  }

  /** The responsive tier of a container width. */
  function TierOf(W: real): (t: Tier)
    ensures t == Mobile <==> W < 500.0
    ensures t == Tablet <==> 500.0 <= W < 900.0
    ensures t == Desktop <==> 900.0 <= W
  {
    if W < 500.0 then Mobile else if W < 900.0 then Tablet else Desktop
  }

  /** The sizes of a tier; every one is positive, and a pill is 30, 36 or 42 pixels high. */
  function StyleOf(t: Tier): (st: Style)
    ensures st.titleSize > 0.0 && st.pillFontSize > 0.0 && st.pillPadX > 0.0 && st.pillPadY > 0.0
    ensures st.pillGap > 0.0 && st.categoryGap > 0.0 && st.rowGap > 0.0 && st.titleToTagGap > 0.0
    ensures st.topPad > 0.0 && st.margin > 0.0
    ensures st.PillHeight() == (match t case Mobile => 30.0 case Tablet => 36.0 case Desktop => 42.0)
  {
    match t
    case Mobile => Style(11.0, 14.0, 16.0, 8.0, 8.0, 40.0, 10.0, 18.0, 20.0, 20.0)
    case Tablet => Style(13.0, 16.0, 20.0, 10.0, 10.0, 50.0, 12.0, 24.0, 36.0, 48.0)
    case Desktop => Style(14.0, 18.0, 26.0, 12.0, 14.0, 60.0, 12.0, 24.0, 36.0, 48.0)
  }

  /**
   * The sizes at container width `W`, each chosen between the three tiers
   * by the width alone, and the pill height derived from the font size and
   * the vertical padding.
   */
  lemma StyleConstants(W: real)
    ensures var st := StyleOf(TierOf(W));
      && st.titleSize == (if W < 500.0 then 11.0 else if W < 900.0 then 13.0 else 14.0)
      && st.pillFontSize == (if W < 500.0 then 14.0 else if W < 900.0 then 16.0 else 18.0)
      && st.pillPadX == (if W < 500.0 then 16.0 else if W < 900.0 then 20.0 else 26.0)
      && st.pillPadY == (if W < 500.0 then 8.0 else if W < 900.0 then 10.0 else 12.0)
      && st.pillGap == (if W < 500.0 then 8.0 else if W < 900.0 then 10.0 else 14.0)
      && st.PillHeight() == st.pillFontSize + 2.0 * st.pillPadY
      && st.categoryGap == (if W < 500.0 then 40.0 else if W < 900.0 then 50.0 else 60.0)
      && st.rowGap == (if W < 500.0 then 10.0 else 12.0)
      && st.titleToTagGap == (if W < 500.0 then 18.0 else 24.0)
      && st.topPad == (if W < 500.0 then 20.0 else 36.0)
  {
  }

  /** The width limit a row of pills is wrapped against. */
  function MaxWidth(W: real): (m: real)
    ensures W < 500.0 ==> m == W - 20.0
    ensures 500.0 <= W ==> m == W - 48.0
  {
    W - StyleOf(TierOf(W)).margin
  }

  datatype Category = Category(title: string, items: seq<string>)

  /** One entry of the measuring pass's result: a category and its rows of pills. */
  datatype CategoryLayout = CategoryLayout(category: Category, rows: seq<seq<Pill>>)

  /** The rows of one category at container width `W`. */
  function CategoryRows(c: Category, W: real, measure: Measure): seq<seq<Pill>>
  {
    var st := StyleOf(TierOf(W));
    Wrap(Pills(c.items, measure, st.PillFont(), st.pillPadX), st.pillGap, MaxWidth(W))
  }

  /** The measuring pass's result for every category. */
  function SkillsLayout(skills: seq<Category>, W: real, measure: Measure): (layout: seq<CategoryLayout>)
    ensures |layout| == |skills|
  {
    seq(|skills|, i requires 0 <= i < |skills| => CategoryLayout(skills[i], CategoryRows(skills[i], W, measure)))
  }

  function RowCounts(layout: seq<CategoryLayout>): (counts: seq<nat>)
    ensures |counts| == |layout|
    ensures forall i :: 0 <= i < |layout| ==> counts[i] == |layout[i].rows|
  {
    seq(|layout|, i requires 0 <= i < |layout| => |layout[i].rows|)
  }

  // ---------------------------------------------------------------------------
  // Heights

  /** A category's title line and its block of `r` rows, without the gap after it. */
  function BlockHeight(st: Style, r: nat): real
  {
    st.titleSize + st.titleToTagGap + RowsHeight(st, r)
  }

  /** The height of `r` rows of pills with a row gap between neighbours. */
  function RowsHeight(st: Style, r: nat): real
  {
    r as real * st.PillHeight() + (r as real - 1.0) * st.rowGap
  }

  function SumBlocks(st: Style, counts: seq<nat>): real
  {
    if counts == [] then 0.0 else SumBlocks(st, counts[..|counts| - 1]) + BlockHeight(st, counts[|counts| - 1])
  }

  /** The content height: top and bottom padding, every block, and a gap between neighbouring blocks. */
  function ContentHeight(st: Style, counts: seq<nat>): real
  {
    2.0 * st.topPad + SumBlocks(st, counts) + (|counts| as real - 1.0) * st.categoryGap
  }

  /** How far the drawing pass moves down over one category of `r` rows. */
  function Advance(st: Style, r: nat): real
  {
    st.titleSize + st.titleToTagGap + r as real * (st.PillHeight() + st.rowGap) + st.categoryGap - st.rowGap
  }

  function SumAdvance(st: Style, counts: seq<nat>): real
  {
    if counts == [] then 0.0 else SumAdvance(st, counts[..|counts| - 1]) + Advance(st, counts[|counts| - 1])
  }

  lemma {:induction false} SumBlocksSnoc(st: Style, counts: seq<nat>, r: nat)
    ensures SumBlocks(st, counts + [r]) == SumBlocks(st, counts) + BlockHeight(st, r)
    ensures SumAdvance(st, counts + [r]) == SumAdvance(st, counts) + Advance(st, r)
  {
    assert (counts + [r])[..|counts|] == counts;
  }

  /**
   * The drawing pass moves down by exactly what the measuring pass added up:
   * starting at the top padding, it ends one category gap below the bottom of
   * the content, that is at `totalH - topPad + categoryGap`.
   */
  lemma {:induction false} DrawPassEndsAtContentBottom(st: Style, counts: seq<nat>)
    ensures st.topPad + SumAdvance(st, counts) == ContentHeight(st, counts) - st.topPad + st.categoryGap
  {
    if counts != [] {
      var n := |counts|;
      DrawPassEndsAtContentBottom(st, counts[..n - 1]);
      var r := counts[n - 1] as real;
      assert r * (st.PillHeight() + st.rowGap) == r * st.PillHeight() + r * st.rowGap;
      assert (n as real - 1.0) * st.categoryGap == (n as real - 2.0) * st.categoryGap + st.categoryGap;
    }
  }

  lemma MulNonNegative(a: real, b: real)
    requires a >= 0.0 && b >= 0.0
    ensures a * b >= 0.0
  {
  }

  lemma {:induction false} SumBlocksLowerBound(st: Style, counts: seq<nat>)
    requires st.PillHeight() >= 0.0 && st.rowGap >= 0.0
    ensures SumBlocks(st, counts) >= |counts| as real * (st.titleSize + st.titleToTagGap - st.rowGap)
  {
    if counts != [] {
      var n := |counts|;
      SumBlocksLowerBound(st, counts[..n - 1]);
      var r := counts[n - 1] as real;
      MulNonNegative(r, st.PillHeight());
      MulNonNegative(r, st.rowGap);
      assert (r - 1.0) * st.rowGap == r * st.rowGap - st.rowGap;
      var base := st.titleSize + st.titleToTagGap - st.rowGap;
      assert BlockHeight(st, counts[n - 1]) >= base;
      assert (n as real - 1.0) * base + base == n as real * base;
    }
  }

  /**
   * The content height is never negative, and it is zero exactly for a mobile
   * container with no categories (there the two paddings equal the one
   * category gap that is taken back).
   */
  lemma ContentHeightSign(W: real, counts: seq<nat>)
    ensures ContentHeight(StyleOf(TierOf(W)), counts) >= 0.0
    ensures ContentHeight(StyleOf(TierOf(W)), counts) == 0.0 <==> W < 500.0 && counts == []
  {
    var st := StyleOf(TierOf(W));
    SumBlocksLowerBound(st, counts);
    var n := |counts| as real;
    var base := st.titleSize + st.titleToTagGap - st.rowGap;
    assert n * base >= n * 19.0;
    assert (n - 1.0) * st.categoryGap == n * st.categoryGap - st.categoryGap;
    assert n * st.categoryGap >= n * 40.0;
  }

  // ---------------------------------------------------------------------------
  // The measuring pass

  lemma SkillsLayoutSnoc(skills: seq<Category>, i: nat, W: real, measure: Measure)
    requires i < |skills|
    ensures SkillsLayout(skills[..i + 1], W, measure) ==
      SkillsLayout(skills[..i], W, measure) + [CategoryLayout(skills[i], CategoryRows(skills[i], W, measure))]
  {
  }

  lemma RowCountsSnoc(layout: seq<CategoryLayout>, c: CategoryLayout)
    ensures RowCounts(layout + [c]) == RowCounts(layout) + [|c.rows|]
  {
  }

  /** The measuring loop's running height after the categories with these row counts. */
  function RunningHeight(st: Style, counts: seq<nat>): real
  {
    st.topPad + SumBlocks(st, counts) + |counts| as real * st.categoryGap
  }

  /**
   * One turn of the measuring loop adds one title line, one block of `r` rows
   * and one gap. The sum is written as the loop adds it up, so that the loop's
   * proof needs only this one equation per turn.
   */
  lemma MeasureStep(st: Style, counts: seq<nat>, r: nat)
    ensures RunningHeight(st, counts) + st.titleSize + st.titleToTagGap + RowsHeight(st, r) + st.categoryGap
      == RunningHeight(st, counts + [r])
  {
    SumBlocksSnoc(st, counts, r);
    MulSucc(|counts|, st.categoryGap);
  }

  /** Taking the last gap back and adding the bottom padding gives the content height. */
  lemma MeasureDone(st: Style, counts: seq<nat>)
    ensures RunningHeight(st, counts) - st.categoryGap + st.topPad == ContentHeight(st, counts)
  {
  }

  /**
   * Wrap one category's tags into rows no wider than the container less its
   * margin. The limit is computed inline, as the source computes it; the
   * ensures ties it to `MaxWidth`. This step is its own method so that the
   * measuring loop's proof sees only its result.
   */
  method WrapCategory(c: Category, W: real, measure: Measure) returns (rows: seq<seq<Pill>>)
    ensures rows == CategoryRows(c, W, measure)
  {
    var st := StyleOf(TierOf(W));
    var maxWidth := W - (if W < 500.0 then 20.0 else 48.0);
    assert maxWidth == MaxWidth(W);
    rows := WrapItems(c.items, measure, st.PillFont(), st.pillPadX, st.pillGap, maxWidth);
  }

  /**
   * The height of a category's pill rows, computed as the measuring loop
   * computes it. It is the imperative counterpart of `RowsHeight`, kept as its
   * own method so that the loop's proof sees no product of reals.
   */
  method BlockRows(st: Style, r: nat) returns (blockH: real)
    ensures blockH == RowsHeight(st, r)
  {
    blockH := r as real * st.PillHeight() + (r as real - 1.0) * st.rowGap;
  }

  /**
   * The first pass over the categories: wrap each one's tags into rows and add
   * up the content height, one title line, one block and one category gap per
   * category, then take the last gap back and add the bottom padding.
   */
  method MeasurePass(skills: seq<Category>, W: real, measure: Measure)
    returns (layout: seq<CategoryLayout>, totalH: real)
    ensures layout == SkillsLayout(skills, W, measure)
    ensures totalH == ContentHeight(StyleOf(TierOf(W)), RowCounts(layout))
  {
    var st := StyleOf(TierOf(W));
    totalH := st.topPad;
    layout := [];
    for i := 0 to |skills|
      invariant layout == SkillsLayout(skills[..i], W, measure)
      invariant totalH == RunningHeight(st, RowCounts(layout))
    {
      totalH := totalH + st.titleSize + st.titleToTagGap;
      var rows := WrapCategory(skills[i], W, measure);
      var blockH := BlockRows(st, |rows|);
      totalH := totalH + blockH + st.categoryGap;
      MeasureStep(st, RowCounts(layout), |rows|);
      RowCountsSnoc(layout, CategoryLayout(skills[i], rows));
      SkillsLayoutSnoc(skills, i, W, measure);
      layout := layout + [CategoryLayout(skills[i], rows)];
    }
    assert skills[..|skills|] == skills;
    MeasureDone(st, RowCounts(layout));
    totalH := totalH - st.categoryGap;
    totalH := totalH + st.topPad;
  }

  // ---------------------------------------------------------------------------
  // The drawing pass

  /** What the drawing pass puts on the canvas. */
  datatype DrawOp =
    | Glyph(ch: char, x: real, y: real)
      // one letter of a category title, drawn with its top at y
    | PillBox(text: string, x: real, y: real, width: real, height: real)
      // a rounded rectangle, filled and outlined, with its label centred in it
  {
    /** Where the label of a pill is anchored: its centre, one pixel low. */
    function LabelAnchor(): (real, real)
      requires PillBox?
    {
      (x + width / 2.0, y + height / 2.0 + 1.0)
    }
  }

  /** The spacing added after every title letter. */
  const LetterSpacing: real := 5.0

  /** The letters' widths added left to right. */
  function CharsWidth(chars: string, font: Font, measure: Measure): real
  {
    if chars == [] then 0.0
    else CharsWidth(chars[..|chars| - 1], font, measure) + measure(font, [chars[|chars| - 1]])
  }

  /** A letter-spaced title's width: its letters and one spacing between each neighbouring pair. */
  function TitleWidth(chars: string, font: Font, measure: Measure): real
  {
    CharsWidth(chars, font, measure) + LetterSpacing * (|chars| as real - 1.0)
  }

  /** Where something of width `w` starts so that it is centred in width `W`. */
  function Centred(W: real, w: real): real
  {
    (W - w) / 2.0
  }

  /** A title's letters from `x0`, each after the previous letter and one spacing. */
  function TitleOps(chars: string, x0: real, y: real, font: Font, measure: Measure): (ops: seq<DrawOp>)
    ensures |ops| == |chars|
  {
    if chars == [] then []
    else
      var n := |chars| - 1;
      TitleOps(chars[..n], x0, y, font, measure) +
      [Glyph(chars[n], GlyphX(chars, n, x0, font, measure), y)]
  }

  /** Where the `k`-th title letter drawn from `x0` starts: after the letters before it and a spacing after each. */
  function GlyphX(chars: string, k: nat, x0: real, font: Font, measure: Measure): real
    requires k <= |chars|
  {
    x0 + CharsWidth(chars[..k], font, measure) + LetterSpacing * k as real
  }

  /** The next letter starts where this one's advance ends, plus the spacing. */
  lemma GlyphXSucc(chars: string, k: nat, x0: real, font: Font, measure: Measure)
    requires k < |chars|
    ensures GlyphX(chars, k + 1, x0, font, measure) ==
      GlyphX(chars, k, x0, font, measure) + measure(font, [chars[k]]) + LetterSpacing
  {
    assert chars[..k + 1][..k] == chars[..k];
    MulSucc(k, LetterSpacing);
  }

  /** Placing the next title letter. */
  lemma TitleOpsSnoc(chars: string, k: nat, x0: real, y: real, font: Font, measure: Measure)
    requires k < |chars|
    ensures TitleOps(chars[..k + 1], x0, y, font, measure) ==
      TitleOps(chars[..k], x0, y, font, measure) + [Glyph(chars[k], GlyphX(chars, k, x0, font, measure), y)]
  {
    var pre := chars[..k + 1];
    assert pre[..k] == chars[..k];
    assert pre[k] == chars[k];
    assert GlyphX(pre, k, x0, font, measure) == GlyphX(chars, k, x0, font, measure);
  }

  /** A row's pills from `x0`, each after the previous pill and one gap. */
  function RowOps(row: seq<Pill>, x0: real, y: real, gap: real, h: real): (ops: seq<DrawOp>)
    ensures |ops| == |row|
  {
    if row == [] then []
    else
      var n := |row| - 1;
      RowOps(row[..n], x0, y, gap, h) + [PillBox(row[n].text, PillX(row, n, x0, gap), y, row[n].width, h)]
  }

  /** Where the `k`-th pill of a row drawn from `x0` starts: after the `k` pills before it and a gap after each. */
  function PillX(row: seq<Pill>, k: nat, x0: real, gap: real): real
    requires k <= |row|
  {
    x0 + SumWidths(row[..k]) + k as real * gap
  }

  /** The next pill starts where this one ends, plus the gap. */
  lemma PillXSucc(row: seq<Pill>, k: nat, x0: real, gap: real)
    requires k < |row|
    ensures PillX(row, k + 1, x0, gap) == PillX(row, k, x0, gap) + row[k].width + gap
  {
    assert row[..k + 1] == row[..k] + [row[k]];
    SumWidthsSnoc(row[..k], row[k]);
    MulSucc(k, gap);
  }

  /** A category's rows, each centred, from `y0` down, one pill height and one row gap apart. */
  function RowsOps(rows: seq<seq<Pill>>, W: real, y0: real, st: Style): seq<DrawOp>
  {
    if rows == [] then []
    else
      var n := |rows|;
      var row := rows[n - 1];
      RowsOps(rows[..n - 1], W, y0, st) +
      RowOps(row, Centred(W, RowWidth(row, st.pillGap)), RowTop(y0, n - 1, st), st.pillGap, st.PillHeight())
  }

  /** The top of row `r` of a category whose first row starts at `y0`. */
  function RowTop(y0: real, r: nat, st: Style): real
  {
    y0 + r as real * (st.PillHeight() + st.rowGap)
  }

  /** One category drawn with its title at `y`: the centred title, then its rows below it. */
  function CategoryOps(c: CategoryLayout, W: real, y: real, st: Style, measure: Measure): seq<DrawOp>
  {
    var chars := ToUpper(c.category.title);
    var font := st.TitleFont();
    TitleOps(chars, Centred(W, TitleWidth(chars, font, measure)), y, font, measure) +
    RowsOps(c.rows, W, y + st.titleSize + st.titleToTagGap, st)
  }

  /** Every category, the first at the top padding and each after the previous one's advance. */
  function PassOps(layout: seq<CategoryLayout>, W: real, st: Style, measure: Measure): seq<DrawOp>
  {
    if layout == [] then []
    else
      var n := |layout|;
      PassOps(layout[..n - 1], W, st, measure) +
      CategoryOps(layout[n - 1], W, st.topPad + SumAdvance(st, RowCounts(layout[..n - 1])), st, measure)
  }

  /** Measure the upper-cased title letter by letter, then draw it centred. */
  method DrawTitle(title: string, W: real, y: real, st: Style, measure: Measure) returns (ops: seq<DrawOp>)
    ensures var chars := ToUpper(title);
      ops == TitleOps(chars, Centred(W, TitleWidth(chars, st.TitleFont(), measure)), y, st.TitleFont(), measure)
  {
    var font := st.TitleFont();
    var chars := ToUpper(title);
    var titleW := 0.0;
    for i := 0 to |chars|
      invariant titleW == GlyphX(chars, i, 0.0, font, measure)
    {
      GlyphXSucc(chars, i, 0.0, font, measure);
      titleW := titleW + measure(font, [chars[i]]) + LetterSpacing;
    }
    TitleWidthIsEnd(chars, font, measure);
    titleW := titleW - LetterSpacing;
    var x0 := (W - titleW) / 2.0;
    assert x0 == Centred(W, TitleWidth(chars, font, measure));
    var tx := x0;
    ops := [];
    for i := 0 to |chars|
      invariant tx == GlyphX(chars, i, x0, font, measure)
      invariant ops == TitleOps(chars[..i], x0, y, font, measure)
    {
      TitleOpsSnoc(chars, i, x0, y, font, measure);
      GlyphXSucc(chars, i, x0, font, measure);
      ops := ops + [Glyph(chars[i], tx, y)];
      tx := tx + measure(font, [chars[i]]) + LetterSpacing;
    }
    assert chars[..|chars|] == chars;
  }

  /** The measured title width is where a letter after the last would start, less one spacing. */
  lemma TitleWidthIsEnd(chars: string, font: Font, measure: Measure)
    ensures TitleWidth(chars, font, measure) == GlyphX(chars, |chars|, 0.0, font, measure) - LetterSpacing
  {
    assert chars[..|chars|] == chars;
  }

  /** Placing the next pill of a row: where it goes and where the one after it goes. */
  lemma RowOpsSnoc(row: seq<Pill>, k: nat, x0: real, y: real, gap: real, h: real)
    requires k < |row|
    ensures RowOps(row[..k + 1], x0, y, gap, h) ==
      RowOps(row[..k], x0, y, gap, h) + [PillBox(row[k].text, PillX(row, k, x0, gap), y, row[k].width, h)]
  {
    var pre := row[..k + 1];
    assert pre[..k] == row[..k];
    assert pre[k] == row[k];
    assert PillX(pre, k, x0, gap) == PillX(row, k, x0, gap);
  }

  /** Draw one row of pills centred, left to right, one gap apart. */
  method DrawRow(row: seq<Pill>, W: real, y: real, st: Style) returns (ops: seq<DrawOp>)
    ensures ops == RowOps(row, Centred(W, RowWidth(row, st.pillGap)), y, st.pillGap, st.PillHeight())
  {
    var gap := st.pillGap;
    var rowTotalW := SumWidths(row) + (|row| - 1) as real * gap;
    var x0 := (W - rowTotalW) / 2.0;
    var rx := x0;
    ops := [];
    for k := 0 to |row|
      invariant rx == PillX(row, k, x0, gap)
      invariant ops == RowOps(row[..k], x0, y, gap, st.PillHeight())
    {
      var pw := row[k].width;
      RowOpsSnoc(row, k, x0, y, gap, st.PillHeight());
      PillXSucc(row, k, x0, gap);
      ops := ops + [PillBox(row[k].text, rx, y, pw, st.PillHeight())];
      rx := rx + pw + gap;
    }
    assert row[..|row|] == row;
    assert x0 == Centred(W, RowWidth(row, st.pillGap));
    assert ops == RowOps(row, x0, y, gap, st.PillHeight());
  }

  lemma RowsOpsSnoc(rows: seq<seq<Pill>>, r: nat, W: real, y0: real, st: Style)
    requires r < |rows|
    ensures RowsOps(rows[..r + 1], W, y0, st) ==
      RowsOps(rows[..r], W, y0, st) +
      RowOps(rows[r], Centred(W, RowWidth(rows[r], st.pillGap)), RowTop(y0, r, st), st.pillGap, st.PillHeight())
  {
    var pre := rows[..r + 1];
    assert pre[..r] == rows[..r];
    assert pre[r] == rows[r];
  }

  /** The next row starts one pill height and one row gap below this one. */
  lemma RowTopSucc(y0: real, r: nat, st: Style)
    ensures RowTop(y0, r + 1, st) == RowTop(y0, r, st) + st.PillHeight() + st.rowGap
  {
    MulSucc(r, st.PillHeight() + st.rowGap);
  }

  lemma AdvanceAfterRows(y: real, r: nat, st: Style)
    ensures RowTop(y + st.titleSize + st.titleToTagGap, r, st) + st.categoryGap - st.rowGap == y + Advance(st, r)
  {
  }

  /** Draw one category with its title at `y` and return where the next one starts. */
  method DrawCategory(c: CategoryLayout, W: real, y: real, st: Style, measure: Measure)
    returns (ops: seq<DrawOp>, y': real)
    ensures ops == CategoryOps(c, W, y, st, measure)
    ensures y' == y + Advance(st, |c.rows|)
  {
    var titleOps := DrawTitle(c.category.title, W, y, st, measure);
    y' := y + st.titleSize + st.titleToTagGap;
    ghost var y0 := y';
    var rowsOps := [];
    for r := 0 to |c.rows|
      invariant y' == RowTop(y0, r, st)
      invariant rowsOps == RowsOps(c.rows[..r], W, y0, st)
    {
      var rowOps := DrawRow(c.rows[r], W, y', st);
      RowsOpsSnoc(c.rows, r, W, y0, st);
      RowTopSucc(y0, r, st);
      rowsOps := rowsOps + rowOps;
      y' := y' + st.PillHeight() + st.rowGap;
    }
    assert c.rows[..|c.rows|] == c.rows;
    ops := titleOps + rowsOps;
    y' := y' + st.categoryGap - st.rowGap;
    AdvanceAfterRows(y, |c.rows|, st);
  }

  /**
   * The second pass: every category from the top padding down. It ends one
   * category gap below the content height the first pass computed.
   */
  method DrawPass(layout: seq<CategoryLayout>, W: real, measure: Measure) returns (ops: seq<DrawOp>, y: real)
    ensures ops == PassOps(layout, W, StyleOf(TierOf(W)), measure)
    ensures var st := StyleOf(TierOf(W));
      y == ContentHeight(st, RowCounts(layout)) - st.topPad + st.categoryGap
  {
    var st := StyleOf(TierOf(W));
    y := st.topPad;
    ops := [];
    for i := 0 to |layout|
      invariant y == st.topPad + SumAdvance(st, RowCounts(layout[..i]))
      invariant ops == PassOps(layout[..i], W, st, measure)
    {
      var catOps;
      catOps, y := DrawCategory(layout[i], W, y, st, measure);
      assert layout[..i + 1][..i] == layout[..i];
      assert RowCounts(layout[..i + 1]) == RowCounts(layout[..i]) + [|layout[i].rows|];
      SumBlocksSnoc(st, RowCounts(layout[..i]), |layout[i].rows|);
      ops := ops + catOps;
    }
    assert layout[..|layout|] == layout;
    DrawPassEndsAtContentBottom(st, RowCounts(layout));
  }

  // ---------------------------------------------------------------------------
  // Where things land

  /** The `k`-th pill of a row starts after the pills before it and one gap after each of them. */
  lemma {:induction false} RowOpsAt(row: seq<Pill>, x0: real, y: real, gap: real, h: real, k: nat)
    requires k < |row|
    ensures RowOps(row, x0, y, gap, h)[k] ==
      PillBox(row[k].text, x0 + SumWidths(row[..k]) + k as real * gap, y, row[k].width, h)
  {
    var n := |row| - 1;
    if k < n {
      RowOpsAt(row[..n], x0, y, gap, h, k);
      assert row[..n][..k] == row[..k];
      assert row[..n][k] == row[k];
    }
  }

  /** Neighbouring pills of a row are exactly one gap apart: each starts where the previous one (of its width) ends, plus the gap. */
  lemma RowSpacing(row: seq<Pill>, x0: real, y: real, gap: real, h: real, k: nat)
    requires k + 1 < |row|
    ensures var ops := RowOps(row, x0, y, gap, h);
      ops[k + 1].x == ops[k].x + row[k].width + gap && ops[k + 1].y == ops[k].y
  {
    RowOpsAt(row, x0, y, gap, h, k);
    RowOpsAt(row, x0, y, gap, h, k + 1);
    PillXSucc(row, k, x0, gap);
  }

  /**
   * Each pill's label is drawn at the pill's centre, one pixel low: half its
   * width right of where the pill starts, half the pill height plus one below
   * the row's top.
   */
  lemma PillLabelAt(row: seq<Pill>, x0: real, y: real, gap: real, h: real, k: nat)
    requires k < |row|
    ensures var op := RowOps(row, x0, y, gap, h)[k];
      op.PillBox? && op.LabelAnchor() == (x0 + SumWidths(row[..k]) + k as real * gap + row[k].width / 2.0, y + h / 2.0 + 1.0)
  {
    RowOpsAt(row, x0, y, gap, h, k);
  }

  /**
   * A row drawn from `Centred(W, rowTotalW)` is centred: it starts at that x,
   * and the space left of its first pill equals the space right of its last.
   */
  lemma RowCentred(row: seq<Pill>, W: real, y: real, gap: real, h: real)
    requires row != []
    ensures var x0 := Centred(W, RowWidth(row, gap));
      var ops := RowOps(row, x0, y, gap, h);
      var last := ops[|row| - 1];
      ops[0].x == x0 && ops[0].x == W - (last.x + row[|row| - 1].width)
  {
    var x0 := Centred(W, RowWidth(row, gap));
    var n := |row| - 1;
    RowOpsAt(row, x0, y, gap, h, 0);
    RowOpsAt(row, x0, y, gap, h, n);
    assert row == row[..n] + [row[n]];
    SumWidthsSnoc(row[..n], row[n]);
  }

  /**
   * Every wrapped row of two or more pills lies within half the margin of
   * either side of the canvas, since it fits the maximum width.
   */
  lemma WrappedRowInsideMargins(c: Category, W: real, measure: Measure, r: nat, y: real)
    requires r < |CategoryRows(c, W, measure)|
    requires |CategoryRows(c, W, measure)[r]| >= 2
    ensures var st := StyleOf(TierOf(W));
      var row := CategoryRows(c, W, measure)[r];
      var ops := RowOps(row, Centred(W, RowWidth(row, st.pillGap)), y, st.pillGap, st.PillHeight());
      var last := ops[|row| - 1];
      ops[0].x >= st.margin / 2.0 && last.x + row[|row| - 1].width <= W - st.margin / 2.0
  {
    var st := StyleOf(TierOf(W));
    var pills := Pills(c.items, measure, st.PillFont(), st.pillPadX);
    WrapRowsFit(pills, st.pillGap, MaxWidth(W));
    RowCentred(CategoryRows(c, W, measure)[r], W, y, st.pillGap, st.PillHeight());
  }

  /** The `k`-th title letter starts after the letters before it and one spacing after each of them. */
  lemma {:induction false} TitleOpsAt(chars: string, x0: real, y: real, font: Font, measure: Measure, k: nat)
    requires k < |chars|
    ensures TitleOps(chars, x0, y, font, measure)[k] ==
      Glyph(chars[k], x0 + CharsWidth(chars[..k], font, measure) + LetterSpacing * k as real, y)
  {
    var n := |chars| - 1;
    if k < n {
      TitleOpsAt(chars[..n], x0, y, font, measure, k);
      assert chars[..n][..k] == chars[..k];
    }
  }

  /**
   * A title drawn from `Centred(W, titleW)` is centred: the space left of its
   * first letter equals the space right of its last letter's advance.
   */
  lemma TitleCentred(chars: string, W: real, y: real, font: Font, measure: Measure)
    requires chars != []
    ensures var x0 := Centred(W, TitleWidth(chars, font, measure));
      var ops := TitleOps(chars, x0, y, font, measure);
      var last := ops[|chars| - 1];
      ops[0].x == x0 && ops[0].x == W - (last.x + measure(font, [chars[|chars| - 1]]))
  {
    var x0 := Centred(W, TitleWidth(chars, font, measure));
    var n := |chars| - 1;
    TitleOpsAt(chars, x0, y, font, measure, 0);
    TitleOpsAt(chars, x0, y, font, measure, n);
    assert chars == chars[..n] + [chars[n]];
    assert chars[..0] == [];
  }

  /** The canvas's logical size after a layout. */
  datatype Dims = Dims(width: real, height: real)

  function SkillsHeight(skills: seq<Category>, W: real, measure: Measure): real
  {
    ContentHeight(StyleOf(TierOf(W)), RowCounts(SkillsLayout(skills, W, measure)))
  }

  function SkillsOps(skills: seq<Category>, W: real, measure: Measure): seq<DrawOp>
  {
    PassOps(SkillsLayout(skills, W, measure), W, StyleOf(TierOf(W)), measure)
  }

  /** Lay the skills out at width `W`: measure and wrap, size the canvas, draw. */
  method RenderSkillsToCanvas(skills: seq<Category>, W: real, measure: Measure)
    returns (ops: seq<DrawOp>, dims: Dims)
    ensures dims == Dims(W, SkillsHeight(skills, W, measure))
    ensures ops == SkillsOps(skills, W, measure)
  {
    var layout, totalH := MeasurePass(skills, W, measure);
    var endY;
    ops, endY := DrawPass(layout, W, measure);
    dims := Dims(W, totalH);
  }

  // ---------------------------------------------------------------------------
  // The effect and its resize guard

  /** What a JavaScript division of two finite numbers yields. */
  datatype Quotient = Finite(value: real) | PosInfinity | NegInfinity | NaN

  function Divide(a: real, b: real): (q: Quotient)
    ensures q.Finite? <==> b != 0.0
    ensures q.Finite? ==> q.value * b == a
    ensures q == PosInfinity <==> b == 0.0 && a > 0.0
    ensures q == NegInfinity <==> b == 0.0 && a < 0.0
  {
    if b != 0.0 then Finite(a / b)
    else if a > 0.0 then PosInfinity
    else if a < 0.0 then NegInfinity
    else NaN
  }

  /**
   * The texture's aspect ratio `W / height` is a finite number except for a
   * mobile-width container with no categories, whose canvas is 0 pixels high;
   * for a positive width it is then positive.
   */
  lemma AspectDefined(skills: seq<Category>, W: real, measure: Measure)
    ensures var q := Divide(W, SkillsHeight(skills, W, measure));
      (q.Finite? <==> !(W < 500.0 && skills == [])) && (q.Finite? && W > 0.0 ==> q.value > 0.0)
  {
    var counts := RowCounts(SkillsLayout(skills, W, measure));
    ContentHeightSign(W, counts);
    assert counts == [] <==> skills == [];
  }

  /**
   * The width the effect is laid out at once the observer reports width `w`:
   * a new width is taken only when it is positive and more than 4 pixels
   * away from the current one.
   */
  function Settle(cW: real, w: real): (c: real)
    ensures c == w || c == cW
    ensures w > 0.0 ==> -4.0 <= c - w <= 4.0
    ensures w <= 0.0 || -4.0 <= w - cW <= 4.0 ==> c == cW
  {
    if w > 0.0 && (w - cW > 4.0 || cW - w > 4.0) then w else cW
  }

  /** Reporting the same width again changes nothing. */
  lemma SettleIdempotent(cW: real, w: real)
    ensures Settle(Settle(cW, w), w) == Settle(cW, w)
  {
  }

  /** The width after the observer's entries, handled in order. */
  function SettleAll(cW: real, entries: seq<real>): real
  {
    if entries == [] then cW else Settle(SettleAll(cW, entries[..|entries| - 1]), entries[|entries| - 1])
  }

  /** Handling one more entry settles from where the earlier ones left off. */
  lemma SettleAllSnoc(cW: real, entries: seq<real>, i: nat)
    requires i < |entries|
    ensures SettleAll(cW, entries[..i + 1]) == Settle(SettleAll(cW, entries[..i]), entries[i])
  {
    assert entries[..i + 1][..i] == entries[..i];
  }

  /** After a batch whose last entry is positive, the effect is within 4 pixels of it. */
  lemma SettleAllNearLast(cW: real, entries: seq<real>)
    requires entries != [] && entries[|entries| - 1] > 0.0
    ensures -4.0 <= SettleAll(cW, entries) - entries[|entries| - 1] <= 4.0
  {
  }

  /**
   * The mounted effect: the skills it shows, the width it was last laid out
   * at, the container's height, the shader's aspect uniform and what the
   * canvas texture holds.
   */
  class SkillsEffect {
    const skills: seq<Category>
    const measure: Measure
    var cW: real
    var height: real
    var aspect: Quotient
    var canvas: seq<DrawOp>

    /** Everything shown matches a layout at the current width. */
    ghost predicate Valid()
      reads this
    {
      height == SkillsHeight(skills, cW, measure) &&
      canvas == SkillsOps(skills, cW, measure) &&
      aspect == Divide(cW, height)
    }

    /** Mounting: lay out at the container's client width. */
    constructor(skills: seq<Category>, clientWidth: real, measure: Measure)
      ensures this.skills == skills && this.measure == measure && cW == clientWidth
      ensures Valid()
    {
      this.skills := skills;
      this.measure := measure;
      var ops, dims := RenderSkillsToCanvas(skills, clientWidth, measure);
      cW := clientWidth;
      height := dims.height;
      canvas := ops;
      aspect := Divide(clientWidth, dims.height);
    }

    /** One observer entry of width `w`: re-lay out only past the 4-pixel guard. */
    method Observe(w: real)
      requires Valid()
      modifies this
      ensures Valid()
      ensures cW == Settle(old(cW), w)
      ensures cW == old(cW) ==> unchanged(this)
    {
      if w > 0.0 && (w - cW > 4.0 || cW - w > 4.0) {
        cW := w;
        var ops, dims := RenderSkillsToCanvas(skills, w, measure);
        height := dims.height;
        aspect := Divide(w, dims.height);
        canvas := ops;
      }
    }

    /** The observer's callback: every entry of the batch, in order. */
    method OnResize(entries: seq<real>)
      requires Valid()
      modifies this
      ensures Valid()
      ensures cW == SettleAll(old(cW), entries)
    {
      for i := 0 to |entries|
        invariant Valid()
        invariant cW == SettleAll(old(cW), entries[..i])
      {
        SettleAllSnoc(old(cW), entries, i);
        Observe(entries[i]);
      }
      assert entries[..|entries|] == entries;
    }
  }
}
