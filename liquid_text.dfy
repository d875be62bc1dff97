/**
 * The heading effect's text texture: the text is split into lines, drawn
 * upper-cased in a heavy font on a fixed 2048 x 1024 canvas, and the font is
 * shrunk until every line fits between the horizontal paddings.
 */
module LiquidText {
  import opened Canvas2D

  const CanvasWidth: real := 2048.0
  const CanvasHeight: real := 1024.0
  /** The horizontal safe zone, split between both sides. */
  const Padding: real := 200.0
  const AvailableWidth: real := CanvasWidth - Padding
  const InitialFontSize: int := 240

  /** The font every line is measured in: the initial size is never reset while measuring. */
  const MeasuringFont: Font := Font(900, InitialFontSize as real)

  // ---------------------------------------------------------------------------
  // Lines

  /** `text.split("\n")`: the pieces between line feeds, empty ones included. */
  function Split(s: string): (lines: seq<string>)
    ensures |lines| >= 1
    ensures forall i :: 0 <= i < |lines| ==> '\n' !in lines[i]
  {
    if s == [] then [[]]
    else
      var rest := Split(s[1..]);
      if s[0] == '\n' then [[]] + rest
      else [[s[0]] + rest[0]] + rest[1..]
  }

  /** `lines.join("\n")`. */
  function Join(lines: seq<string>): string
  {
    if lines == [] then []
    else if |lines| == 1 then lines[0]
    else lines[0] + "\n" + Join(lines[1..])
  }

  /** Splitting loses nothing: joining the lines back gives the text. */
  lemma {:induction false} JoinSplit(s: string)
    ensures Join(Split(s)) == s
  {
    if s != [] {
      var rest := Split(s[1..]);
      JoinSplit(s[1..]);
      if s[0] == '\n' {
        assert ([[]] + rest)[1..] == rest;
      } else if |rest| > 1 {
        var lines := [[s[0]] + rest[0]] + rest[1..];
        assert lines[1..] == rest[1..];
        assert Join(rest) == rest[0] + "\n" + Join(rest[1..]);
        assert s == [s[0]] + s[1..];
      } else {
        assert s == [s[0]] + s[1..];
      }
    }
  }

  lemma {:induction false} SplitAppend(line: string, t: string)
    requires '\n' !in line
    ensures Split(line + t) == [line + Split(t)[0]] + Split(t)[1..]
  {
    if line != [] {
      SplitAppend(line[1..], t);
      assert (line + t)[1..] == line[1..] + t;
      assert [line[0]] + (line[1..] + Split(t)[0]) == line + Split(t)[0];
    } else {
      assert line + t == t;
      var lines := Split(t);
      assert [] + lines[0] == lines[0];
      assert lines == [lines[0]] + lines[1..];
    }
  }

  /** Lines without line feeds come back from the text they join into. */
  lemma {:induction false} SplitJoin(lines: seq<string>)
    requires |lines| >= 1
    requires forall i :: 0 <= i < |lines| ==> '\n' !in lines[i]
    ensures Split(Join(lines)) == lines
  {
    if |lines| == 1 {
      SplitAppend(lines[0], []);
      assert Split([]) == [[]];
      assert lines[0] + [] == lines[0];
      assert lines == [lines[0]];
    } else {
      var tail := Join(lines[1..]);
      SplitJoin(lines[1..]);
      SplitAppend(lines[0], "\n" + tail);
      assert ("\n" + tail)[1..] == tail;
      assert Split("\n" + tail) == [[]] + lines[1..];
      assert lines[0] + [] == lines[0];
      assert Join(lines) == lines[0] + "\n" + tail;
      assert lines[0] + "\n" + tail == lines[0] + ("\n" + tail);
      assert lines == [lines[0]] + lines[1..];
    }
  }

  // ---------------------------------------------------------------------------
  // Fitting the font

  /**
   * One line's turn of the shrinking loop: a line measured wider than the
   * available width scales the current size by the overflow ratio, rounded
   * down; any other line keeps it.
   */
  function Shrink(fontSize: int, width: real): (fs: int)
    ensures width <= AvailableWidth ==> fs == fontSize
    ensures fontSize >= 0 ==> 0 <= fs <= fontSize
    ensures fontSize > 0 && width > AvailableWidth ==> fs < fontSize
    ensures fontSize >= 0 && width > AvailableWidth ==> fs as real * width <= fontSize as real * AvailableWidth
    ensures width > AvailableWidth ==> (fs + 1) as real * width > fontSize as real * AvailableWidth
  {
    if width > AvailableWidth then
      ScaledBounds(fontSize, width);
      Scaled(fontSize, width)
    else fontSize
  }

  /** `Math.floor(fontSize * ratio)` for an overflowing line, with `ratio = availableWidth / width`. */
  function Scaled(fontSize: int, width: real): int
    requires width > AvailableWidth
  {
    var ratio := AvailableWidth / width;
    (fontSize as real * ratio).Floor
  }

  /** The scaled size is the largest whole size at which the line fits, and it is below a positive size. */
  lemma ScaledBounds(fontSize: int, width: real)
    requires width > AvailableWidth
    ensures fontSize >= 0 ==> 0 <= Scaled(fontSize, width) <= fontSize
    ensures fontSize > 0 ==> Scaled(fontSize, width) < fontSize
    ensures fontSize >= 0 ==> Scaled(fontSize, width) as real * width <= fontSize as real * AvailableWidth
    ensures (Scaled(fontSize, width) + 1) as real * width > fontSize as real * AvailableWidth
  {
    ScaledFits(fontSize, width);
    ScaledMaximal(fontSize, width);
  }

  lemma ScaledFits(fontSize: int, width: real)
    requires width > AvailableWidth
    ensures fontSize >= 0 ==> 0 <= Scaled(fontSize, width) <= fontSize
    ensures fontSize > 0 ==> Scaled(fontSize, width) < fontSize
    ensures fontSize >= 0 ==> Scaled(fontSize, width) as real * width <= fontSize as real * AvailableWidth
  {
    var ratio := AvailableWidth / width;
    var x := fontSize as real * ratio;
    ShrinkBounds(fontSize, width, ratio);
    var fs := x.Floor;
    assert Scaled(fontSize, width) == fs;
    assert fs as real <= x;
    if fontSize > 0 {
      assert fs as real < fontSize as real;
    }
    if fontSize >= 0 {
      MulMonotone(fs as real, x, width);
    }
  }

  lemma ScaledMaximal(fontSize: int, width: real)
    requires width > AvailableWidth
    ensures (Scaled(fontSize, width) + 1) as real * width > fontSize as real * AvailableWidth
  {
    var ratio := AvailableWidth / width;
    var x := fontSize as real * ratio;
    assert x * width == fontSize as real * (ratio * width);
    assert ratio * width == AvailableWidth;
    assert Scaled(fontSize, width) == x.Floor;
    FloorStep(x, width);
  }

  lemma ShrinkBounds(fontSize: int, width: real, ratio: real)
    requires width > AvailableWidth && ratio == AvailableWidth / width
    ensures 0.0 < ratio < 1.0 && ratio * width == AvailableWidth
    ensures fontSize >= 0 ==> 0.0 <= fontSize as real * ratio <= fontSize as real
    ensures fontSize > 0 ==> fontSize as real * ratio < fontSize as real
    ensures (fontSize as real * ratio) * width == fontSize as real * AvailableWidth
  {
    var f := fontSize as real;
    assert (f * ratio) * width == f * (ratio * width);
    if fontSize > 0 {
      assert f * ratio < f * 1.0;
    }
  }

  /** Rounding down loses less than one: the next whole number, scaled by a positive width, exceeds the scaled value. */
  lemma FloorStep(x: real, width: real)
    requires width > 0.0
    ensures (x.Floor + 1) as real * width > x * width
  {
    assert (x.Floor + 1) as real > x;
  }

  /** The font size after the loop has seen lines measuring `widths` at the initial size. */
  function FontSizeFor(widths: seq<real>): int
  {
    if widths == [] then InitialFontSize
    else Shrink(FontSizeFor(widths[..|widths| - 1]), widths[|widths| - 1])
  }

  /** Every line's width in the measuring font, upper-cased as drawn. */
  function Widths(lines: seq<string>, measure: Measure): (widths: seq<real>)
    ensures |widths| == |lines|
    ensures forall i :: 0 <= i < |lines| ==> widths[i] == measure(MeasuringFont, ToUpper(lines[i]))
  {
    seq(|lines|, i requires 0 <= i < |lines| => measure(MeasuringFont, ToUpper(lines[i])))
  }

  lemma FontSizeLast(widths: seq<real>)
    requires widths != []
    ensures FontSizeFor(widths) == Shrink(FontSizeFor(widths[..|widths| - 1]), widths[|widths| - 1])
  {
  }

  /** Seeing one more line: the size after it is that line's shrink of the size before it. */
  lemma FontSizeSnoc(widths: seq<real>, i: nat)
    requires i < |widths|
    ensures FontSizeFor(widths[..i + 1]) == Shrink(FontSizeFor(widths[..i]), widths[i])
  {
    var pre := widths[..i + 1];
    assert |pre| - 1 == i && pre[..i] == widths[..i] && pre[i] == widths[i];
    FontSizeLast(pre);
  }

  /** The font size starts at 240 and only ever shrinks, never below zero. */
  lemma {:induction false} FontSizeRange(widths: seq<real>)
    ensures 0 <= FontSizeFor(widths) <= InitialFontSize
  {
    if widths != [] {
      FontSizeRange(widths[..|widths| - 1]);
    }
  }

  /** Later lines never make the font larger: the size after a longer prefix is at most the size after a shorter one. */
  lemma {:induction false} FontSizeNonIncreasing(widths: seq<real>, j: nat, i: nat)
    requires j <= i <= |widths|
    ensures FontSizeFor(widths[..i]) <= FontSizeFor(widths[..j])
  {
    if j < i {
      FontSizeNonIncreasing(widths, j, i - 1);
      FontSizeSnoc(widths, i - 1);
      FontSizeRange(widths[..i - 1]);
    }
  }

  /** The font keeps its initial size exactly when no line overflows at that size. */
  lemma {:induction false} FontSizeKeptIff(widths: seq<real>)
    ensures FontSizeFor(widths) == InitialFontSize <==> forall i :: 0 <= i < |widths| ==> widths[i] <= AvailableWidth
  {
    if widths != [] {
      var n := |widths| - 1;
      var pre := widths[..n];
      FontSizeKeptIff(pre);
      FontSizeRange(pre);
      assert forall i :: 0 <= i < n ==> pre[i] == widths[i];
    }
  }

  /**
   * Shrinks compound: every line is measured at the initial size, yet each
   * overflowing line scales the size already reached. Two lines each twice
   * the available width end at 60px, though 120px would fit both.
   */
  lemma ShrinkCompounds()
    ensures var widths := [2.0 * AvailableWidth, 2.0 * AvailableWidth];
      FontSizeFor(widths) == 60 && FitsAt(120, widths[0]) && FitsAt(120, widths[1])
  {
    var widths := [2.0 * AvailableWidth, 2.0 * AvailableWidth];
    assert widths[..1] == [widths[0]] && [widths[0]][..0] == [];
    FontSizeLast([widths[0]]);
    var first := Shrink(InitialFontSize, widths[0]);
    assert (240.0 * (AvailableWidth / (2.0 * AvailableWidth))).Floor == 120;
    assert first == 120;
    FontSizeLast(widths);
    assert (120.0 * (AvailableWidth / (2.0 * AvailableWidth))).Floor == 60;
  }

  lemma MulMonotone(a: real, b: real, c: real)
    requires 0.0 <= a <= b && 0.0 <= c
    ensures a * c <= b * c
  {
  }

  /**
   * The fit bound for one line: at font size `fontSize`, a line measuring
   * `width` at the initial size stays within the available width, if widths
   * scale linearly with the size.
   */
  predicate FitsAt(fontSize: int, width: real)
  {
    fontSize as real * width <= InitialFontSize as real * AvailableWidth
  }

  /** A shrink from a size within the initial one leaves the line fitting at the new size, measured at the initial one. */
  lemma ShrinkFits(before: int, w: real)
    requires 0 <= before <= InitialFontSize
    ensures FitsAt(Shrink(before, w), w)
  {
    var after := Shrink(before, w) as real;
    if w > AvailableWidth {
      assert after * w <= before as real * AvailableWidth;
      MulMonotone(before as real, 240.0, AvailableWidth);
    } else if w >= 0.0 {
      assert after == before as real;
      MulMonotone(after, 240.0, w);
      MulMonotone(w, AvailableWidth, 240.0);
    } else {
      MulMonotone(0.0, after, -w);
    }
  }

  /** The line that sets the size after it fits at that size, measured at the initial size. */
  lemma FitAfterOwnLine(widths: seq<real>, i: nat)
    requires i < |widths|
    ensures FitsAt(FontSizeFor(widths[..i + 1]), widths[i])
  {
    FontSizeSnoc(widths, i);
    FontSizeRange(widths[..i]);
    ShrinkFits(FontSizeFor(widths[..i]), widths[i]);
  }

  /** A line that fits at some size fits at every smaller non-negative size. */
  lemma FitsAtSmaller(smaller: int, larger: int, width: real)
    requires 0 <= smaller <= larger && FitsAt(larger, width)
    ensures FitsAt(smaller, width)
  {
    if width >= 0.0 {
      MulMonotone(smaller as real, larger as real, width);
    } else {
      MulMonotone(0.0, smaller as real, -width);
    }
  }

  /**
   * The fit bound: for every line, the final size times the line's width at
   * the initial size is at most the initial size times the available width.
   */
  lemma FitBound(widths: seq<real>, i: nat)
    requires i < |widths|
    ensures FitsAt(FontSizeFor(widths), widths[i])
  {
    FitAfterOwnLine(widths, i);
    FontSizeNonIncreasing(widths, i + 1, |widths|);
    assert widths[..|widths|] == widths;
    FontSizeRange(widths);
    FitsAtSmaller(FontSizeFor(widths), FontSizeFor(widths[..i + 1]), widths[i]);
  }

  /** Widths in `measure` scale linearly with the font size: drawing `s` at `fontSize` measures its width at the initial size, scaled. */
  predicate ScalesLinearly(measure: Measure, s: string, fontSize: real)
  {
    measure(Font(900, fontSize), s) * InitialFontSize as real == fontSize * measure(MeasuringFont, s)
  }

  /**
   * If the font's widths scale linearly with its size, every line drawn at
   * the final size fits within the available width.
   */
  lemma LinesFit(lines: seq<string>, measure: Measure, i: nat)
    requires i < |lines|
    requires ScalesLinearly(measure, ToUpper(lines[i]), FontSizeFor(Widths(lines, measure)) as real)
    ensures measure(Font(900, FontSizeFor(Widths(lines, measure)) as real), ToUpper(lines[i])) <= AvailableWidth
  {
    var widths := Widths(lines, measure);
    FitBound(widths, i);
    ScaledWidthFits(measure, ToUpper(lines[i]), FontSizeFor(widths), widths[i]);
  }

  /** A line that fits at `fontSize`, measured at the initial size, is within the available width when drawn at `fontSize`. */
  lemma ScaledWidthFits(measure: Measure, s: string, fontSize: int, width: real)
    requires FitsAt(fontSize, width)
    requires width == measure(MeasuringFont, s)
    requires ScalesLinearly(measure, s, fontSize as real)
    ensures measure(Font(900, fontSize as real), s) <= AvailableWidth
  {
  }

  /**
   * One turn of the shrinking loop: an overflowing line scales the size down
   * by the ratio, rounded down. It is the imperative counterpart of `Shrink`,
   * kept as its own method so that the loop's proof sees no product of reals.
   */
  method ShrinkLine(fontSize: int, width: real) returns (fs: int)
    ensures fs == Shrink(fontSize, width)
  {
    fs := fontSize;
    if width > AvailableWidth {
      var ratio := AvailableWidth / width;
      fs := (fontSize as real * ratio).Floor;
    }
  }

  /** The shrinking loop: every line measured, upper-cased, in the unchanged initial font. */
  method FitFontSize(lines: seq<string>, measure: Measure) returns (fontSize: int)
    ensures fontSize == FontSizeFor(Widths(lines, measure))
    ensures 0 <= fontSize <= InitialFontSize
  {
    ghost var widths := Widths(lines, measure);
    fontSize := InitialFontSize;
    var font := Font(900, fontSize as real);
    for i := 0 to |lines|
      invariant fontSize == FontSizeFor(widths[..i])
    {
      var width := measure(font, ToUpper(lines[i]));
      FontSizeSnoc(widths, i);
      fontSize := ShrinkLine(fontSize, width);
    }
    assert widths[..|lines|] == widths;
    FontSizeRange(widths);
  }

  // ---------------------------------------------------------------------------
  // Placing the lines

  /** The line height is 1.05 times the font size: 21 pixels for every 20 of font, never less than the size. */
  function LineHeight(fontSize: int): (h: real)
    ensures h * 20.0 == fontSize as real * 21.0
    ensures fontSize >= 0 ==> fontSize as real <= h
  {
    fontSize as real * 1.05
  }

  /**
   * The centre of the first line, so that the block of lines is centred on
   * the canvas: the space above the block's top, half a line above that
   * centre, equals the space below its bottom, `n` line heights further down.
   */
  function StartY(fontSize: int, n: nat): (y: real)
    ensures var top := y - LineHeight(fontSize) / 2.0;
      top == CanvasHeight - (top + n as real * LineHeight(fontSize))
  {
    (CanvasHeight - n as real * LineHeight(fontSize)) / 2.0 + LineHeight(fontSize) / 2.0
  }

  /** The vertical centre of line `i` of `n`: the top of its box lies `i` line heights below the block's top. */
  function LineY(fontSize: int, n: nat, i: nat): (y: real)
    ensures y - LineHeight(fontSize) / 2.0 ==
      (CanvasHeight - n as real * LineHeight(fontSize)) / 2.0 + i as real * LineHeight(fontSize)
  {
    StartY(fontSize, n) + i as real * LineHeight(fontSize)
  }

  /** The draw calls for the lines: upper-cased, horizontally centred, one line height apart. */
  function LineCalls(lines: seq<string>, fontSize: int): (calls: seq<TextCall>)
    ensures |calls| == |lines|
    ensures forall i :: 0 <= i < |lines| ==>
      calls[i] == TextCall(ToUpper(lines[i]), CanvasWidth / 2.0, LineY(fontSize, |lines|, i))
  {
    seq(|lines|, i requires 0 <= i < |lines| =>
      TextCall(ToUpper(lines[i]), CanvasWidth / 2.0, LineY(fontSize, |lines|, i)))
  }

  /** Neighbouring lines are exactly one line height apart. */
  lemma LineSpacing(fontSize: int, n: nat, i: nat)
    ensures LineY(fontSize, n, i + 1) - LineY(fontSize, n, i) == LineHeight(fontSize)
  {
    MulSucc(i, LineHeight(fontSize));
  }

  /**
   * The block is centred: line `i` and line `n - 1 - i` lie symmetrically
   * about the canvas's middle, and the line boxes run from
   * `(1024 - n * lineHeight) / 2` to `(1024 + n * lineHeight) / 2`.
   */
  lemma LinesCentred(fontSize: int, n: nat, i: nat)
    requires i < n
    ensures LineY(fontSize, n, i) + LineY(fontSize, n, n - 1 - i) == CanvasHeight
    ensures LineY(fontSize, n, 0) - LineHeight(fontSize) / 2.0 == (CanvasHeight - n as real * LineHeight(fontSize)) / 2.0
    ensures LineY(fontSize, n, n - 1) + LineHeight(fontSize) / 2.0 == (CanvasHeight + n as real * LineHeight(fontSize)) / 2.0
  {
    var h := LineHeight(fontSize);
    assert i as real * h + (n - 1 - i) as real * h == (n - 1) as real * h;
    assert (n - 1) as real * h == n as real * h - h;
  }

  // ---------------------------------------------------------------------------
  // The canvas

  /** The text canvas's 2D context: the font it is set to and what has been drawn since it was cleared. */
  class TextCanvas {
    var font: Font
    var calls: seq<TextCall>

    constructor()
      ensures calls == []
    {
      font := Font(400, 10.0);
      calls := [];
    }

    /**
     * Clear the canvas, fit the font to the lines of `text`, and draw every
     * line upper-cased at the canvas's horizontal centre.
     */
    method RenderText(text: string, measure: Measure)
      modifies this
      ensures var lines := Split(text);
        var fontSize := FontSizeFor(Widths(lines, measure));
        font == Font(900, fontSize as real) && calls == LineCalls(lines, fontSize)
    {
      calls := [];
      var lines := Split(text);
      font := MeasuringFont;
      var fontSize := FitFontSize(lines, measure);
      font := Font(900, fontSize as real);
      DrawLines(lines, fontSize);
    }

    /** The drawing loop: each line upper-cased, centred, one line height below the previous. */
    method DrawLines(lines: seq<string>, fontSize: int)
      modifies this
      ensures font == old(font)
      ensures calls == old(calls) + LineCalls(lines, fontSize)
    {
      var lineHeight := LineHeight(fontSize);
      var startY := StartY(fontSize, |lines|);
      ghost var all := LineCalls(lines, fontSize);
      ghost var before := calls;
      for i := 0 to |lines|
        invariant font == old(font)
        invariant calls == before + all[..i]
      {
        assert startY + i as real * lineHeight == LineY(fontSize, |lines|, i);
        assert all[..i + 1] == all[..i] + [all[i]];
        calls := calls + [TextCall(ToUpper(lines[i]), CanvasWidth / 2.0, startY + i as real * lineHeight)];
      }
      assert all[..|lines|] == all;
    }
  }
}
