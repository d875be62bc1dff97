/**
 * The measuring pass of the skills effect wraps each category's tags into rows
 * of pills: a greedy line breaker over pill widths. A tag goes on the current
 * row unless the row already holds a pill and the tag would push the row past
 * the width limit; then the row is closed and the tag opens the next one.
 */
module PillWrap {
  import opened Canvas2D

  /** One measured tag: its text and its pill width (text width plus both paddings). */
  datatype Pill = Pill(text: string, width: real)

  /** The pills of a category's tags, each `measureText(item).width + 2 * pillPadX` wide. */
  function Pills(items: seq<string>, measure: Measure, font: Font, padX: real): (pills: seq<Pill>)
    ensures |pills| == |items|
    ensures forall i :: 0 <= i < |items| ==> pills[i].text == items[i]
    ensures forall i :: 0 <= i < |items| ==> pills[i].width == measure(font, items[i]) + 2.0 * padX
  {
    seq(|items|, i requires 0 <= i < |items| => Pill(items[i], measure(font, items[i]) + padX * 2.0))
  }

  /** `row.reduce((a, p) => a + p.width, 0)`: the pill widths added left to right. */
  function SumWidths(row: seq<Pill>): real
  {
    if row == [] then 0.0 else SumWidths(row[..|row| - 1]) + row[|row| - 1].width
  }

  /** The width a row occupies: its pills plus one gap between each neighbouring pair. */
  function RowWidth(row: seq<Pill>, gap: real): real
  {
    SumWidths(row) + (|row| - 1) as real * gap
  }

  /** The rows read one after another. */
  function Flatten(rows: seq<seq<Pill>>): seq<Pill>
  {
    if rows == [] then [] else Flatten(rows[..|rows| - 1]) + rows[|rows| - 1]
  }

  ghost predicate NoEmptyRow(rows: seq<seq<Pill>>)
  {
    forall r :: 0 <= r < |rows| ==> |rows[r]| > 0
  }

  /** Every row of two or more pills stays within the width limit. */
  ghost predicate RowsFit(rows: seq<seq<Pill>>, gap: real, maxWidth: real)
  {
    forall r :: 0 <= r < |rows| && |rows[r]| >= 2 ==> RowWidth(rows[r], gap) <= maxWidth
  }

  /** Every row break was forced: the next row's first pill did not fit after the previous row. */
  ghost predicate Greedy(rows: seq<seq<Pill>>, gap: real, maxWidth: real)
  {
    forall r :: 0 < r < |rows| ==>
      |rows[r]| > 0 && RowWidth(rows[r - 1], gap) + gap + rows[r][0].width > maxWidth
  }

  /** The loop's variables after a prefix of the tags: `rows`, `currentRow`, `rowWidth`. */
  datatype WrapState = WrapState(rows: seq<seq<Pill>>, current: seq<Pill>, rowWidth: real)

  /** One turn of the loop over a category's tags. */
  function Place(s: WrapState, p: Pill, gap: real, maxWidth: real): WrapState
  {
    if |s.current| > 0 && s.rowWidth + gap + p.width > maxWidth then
      WrapState(s.rows + [s.current], [p], p.width)
    else
      var w := if |s.current| > 0 then s.rowWidth + gap else s.rowWidth;
      WrapState(s.rows, s.current + [p], w + p.width)
  }

  /** The loop's state after placing every pill of `pills`, starting from no rows. */
  function Scan(pills: seq<Pill>, gap: real, maxWidth: real): WrapState
  {
    if pills == [] then WrapState([], [], 0.0)
    else Place(Scan(pills[..|pills| - 1], gap, maxWidth), pills[|pills| - 1], gap, maxWidth)
  }

  /** After the loop: a non-empty current row is pushed as the last row. */
  function Close(s: WrapState): seq<seq<Pill>>
  {
    if |s.current| > 0 then s.rows + [s.current] else s.rows
  }

  /** The rows the measuring pass produces for one category. */
  function Wrap(pills: seq<Pill>, gap: real, maxWidth: real): seq<seq<Pill>>
  {
    Close(Scan(pills, gap, maxWidth))
  }

  lemma {:induction false} SumWidthsSnoc(row: seq<Pill>, p: Pill)
    ensures SumWidths(row + [p]) == SumWidths(row) + p.width
  {
    assert (row + [p])[..|row|] == row;
  }

  lemma RowWidthSnoc(row: seq<Pill>, p: Pill, gap: real)
    requires |row| > 0
    ensures RowWidth(row + [p], gap) == RowWidth(row, gap) + gap + p.width
  {
    SumWidthsSnoc(row, p);
    var n := |row| as real;
    assert (n + 1.0 - 1.0) * gap == (n - 1.0) * gap + gap;
  }

  lemma {:induction false} FlattenSnoc(rows: seq<seq<Pill>>, row: seq<Pill>)
    ensures Flatten(rows + [row]) == Flatten(rows) + row
  {
    assert (rows + [row])[..|rows|] == rows;
  }

  /**
   * One turn of the loop loses and reorders nothing: the tag ends the current
   * row, the rows and the current row read in order gain exactly that tag,
   * and a row is closed exactly when it is non-empty and the tag does not fit
   * after it, the tag then opening the next row.
   */
  lemma PlaceKeepsOrder(s: WrapState, p: Pill, gap: real, maxWidth: real)
    ensures var s' := Place(s, p, gap, maxWidth);
      && |s'.current| > 0 && s'.current[|s'.current| - 1] == p
      && Flatten(s'.rows) + s'.current == Flatten(s.rows) + s.current + [p]
      && (|s'.rows| != |s.rows| <==> |s.current| > 0 && s.rowWidth + gap + p.width > maxWidth)
      && (|s'.rows| != |s.rows| ==> s'.rows == s.rows + [s.current] && s'.current == [p])
      && (|s'.rows| == |s.rows| ==> s'.rows == s.rows && s'.current == s.current + [p])
  {
    if |s.current| > 0 && s.rowWidth + gap + p.width > maxWidth {
      FlattenSnoc(s.rows, s.current);
    }
  }

  /**
   * Pushing the last row keeps every placed tag in order and the rows before
   * it, and adds a row exactly when the current row is non-empty.
   */
  lemma CloseKeepsOrder(s: WrapState)
    ensures var rows := Close(s);
      && Flatten(rows) == Flatten(s.rows) + s.current
      && |rows| >= |s.rows| && rows[..|s.rows|] == s.rows
      && (|rows| > |s.rows| <==> |s.current| > 0)
      && (|s.current| > 0 ==> rows[|s.rows|] == s.current)
  {
    FlattenSnoc(s.rows, s.current);
    if s.current == [] {
      assert Flatten(s.rows) + s.current == Flatten(s.rows);
    }
  }

  /** The four properties of a wrapping of `pills`, together. */
  ghost predicate WellWrapped(rows: seq<seq<Pill>>, pills: seq<Pill>, gap: real, maxWidth: real)
  {
    Flatten(rows) == pills && NoEmptyRow(rows) && RowsFit(rows, gap, maxWidth) && Greedy(rows, gap, maxWidth)
  }

  /** Once a tag has been seen the current row is non-empty and `rowWidth` is its width. */
  lemma {:induction false} ScanShape(pills: seq<Pill>, gap: real, maxWidth: real)
    ensures pills == [] ==> Scan(pills, gap, maxWidth) == WrapState([], [], 0.0)
    ensures pills != [] ==>
      |Scan(pills, gap, maxWidth).current| > 0 &&
      Scan(pills, gap, maxWidth).rowWidth == RowWidth(Scan(pills, gap, maxWidth).current, gap)
  {
    if pills != [] {
      var init, p := pills[..|pills| - 1], pills[|pills| - 1];
      ScanShape(init, gap, maxWidth);
      var s := Scan(init, gap, maxWidth);
      SumWidthsSnoc([], p);
      assert [] + [p] == [p];
      if |s.current| > 0 {
        RowWidthSnoc(s.current, p, gap);
      }
    }
  }

  /** Breaking before `p` keeps a wrapping well formed when `p` does not fit after the last row. */
  lemma {:induction false} BreakBefore(rows: seq<seq<Pill>>, pills: seq<Pill>, p: Pill, gap: real, maxWidth: real)
    requires WellWrapped(rows, pills, gap, maxWidth) && |rows| > 0
    requires RowWidth(rows[|rows| - 1], gap) + gap + p.width > maxWidth
    ensures WellWrapped(rows + [[p]], pills + [p], gap, maxWidth)
  {
    FlattenSnoc(rows, [p]);
    var rows' := rows + [[p]];
    assert forall r :: 0 <= r < |rows| ==> rows'[r] == rows[r];
  }

  /** Appending `p` to the last row keeps a wrapping well formed when the row still fits. */
  lemma {:induction false} AppendToLast(rows: seq<seq<Pill>>, pills: seq<Pill>, p: Pill, gap: real, maxWidth: real)
    requires WellWrapped(rows, pills, gap, maxWidth) && |rows| > 0
    requires RowWidth(rows[|rows| - 1], gap) + gap + p.width <= maxWidth
    ensures RowWidth(rows[|rows| - 1] + [p], gap) == RowWidth(rows[|rows| - 1], gap) + gap + p.width
    ensures WellWrapped(rows[..|rows| - 1] + [rows[|rows| - 1] + [p]], pills + [p], gap, maxWidth)
  {
    var n := |rows|;
    var last := rows[n - 1];
    RowWidthSnoc(last, p, gap);
    var rows' := rows[..n - 1] + [last + [p]];
    assert rows == rows[..n - 1] + [last];
    FlattenSnoc(rows[..n - 1], last);
    FlattenSnoc(rows[..n - 1], last + [p]);
    assert forall r :: 0 <= r < n - 1 ==> rows'[r] == rows[r];
    assert rows'[n - 1][0] == last[0];
    assert NoEmptyRow(rows');
    assert RowsFit(rows', gap, maxWidth);
    assert Greedy(rows', gap, maxWidth);
  }

  /** The rows of every prefix of the tags form a well-formed wrapping of it. */
  lemma {:induction false} ScanInvariant(pills: seq<Pill>, gap: real, maxWidth: real)
    ensures WellWrapped(Wrap(pills, gap, maxWidth), pills, gap, maxWidth)
  {
    if pills != [] {
      var init, p := pills[..|pills| - 1], pills[|pills| - 1];
      assert pills == init + [p];
      ScanInvariant(init, gap, maxWidth);
      ScanStep(init, p, gap, maxWidth);
    }
  }

  /** Placing one more tag keeps the wrapping well formed. */
  lemma ScanStep(init: seq<Pill>, p: Pill, gap: real, maxWidth: real)
    requires WellWrapped(Wrap(init, gap, maxWidth), init, gap, maxWidth)
    ensures WellWrapped(Wrap(init + [p], gap, maxWidth), init + [p], gap, maxWidth)
  {
    var pills := init + [p];
    assert pills[..|pills| - 1] == init;
    ScanShape(init, gap, maxWidth);
    var s := Scan(init, gap, maxWidth);
    assert Scan(pills, gap, maxWidth) == Place(s, p, gap, maxWidth);
    if init == [] {
      SumWidthsSnoc([], p);
      assert [] + [p] == [p];
      assert Wrap(pills, gap, maxWidth) == [[p]];
      FlattenSnoc([], [p]);
    } else if s.rowWidth + gap + p.width > maxWidth {
      BreakBefore(Wrap(init, gap, maxWidth), init, p, gap, maxWidth);
    } else {
      var rows := Wrap(init, gap, maxWidth);
      assert rows == s.rows + [s.current];
      AppendToLast(rows, init, p, gap, maxWidth);
      assert rows[..|rows| - 1] == s.rows;
    }
  }

  /** Reading the rows in order gives back every tag exactly once, in order. */
  lemma WrapPartitions(pills: seq<Pill>, gap: real, maxWidth: real)
    ensures Flatten(Wrap(pills, gap, maxWidth)) == pills
  {
    ScanInvariant(pills, gap, maxWidth);
  }

  /** No row is empty, and only a category without tags has no rows. */
  lemma WrapNoEmptyRow(pills: seq<Pill>, gap: real, maxWidth: real)
    ensures NoEmptyRow(Wrap(pills, gap, maxWidth))
    ensures Wrap(pills, gap, maxWidth) == [] <==> pills == []
  {
    ScanInvariant(pills, gap, maxWidth);
  }

  /** A row of two or more pills is never wider than the limit. */
  lemma WrapRowsFit(pills: seq<Pill>, gap: real, maxWidth: real)
    ensures RowsFit(Wrap(pills, gap, maxWidth), gap, maxWidth)
  {
    ScanInvariant(pills, gap, maxWidth);
  }

  /** A row is closed only when the next pill would not have fitted on it. */
  lemma WrapGreedy(pills: seq<Pill>, gap: real, maxWidth: real)
    ensures Greedy(Wrap(pills, gap, maxWidth), gap, maxWidth)
  {
    ScanInvariant(pills, gap, maxWidth);
  }

  lemma {:induction false} SumWidthsAtLeast(row: seq<Pill>, j: nat)
    requires j < |row|
    requires forall k :: 0 <= k < |row| ==> row[k].width >= 0.0
    ensures SumWidths(row) >= row[j].width
  {
    if j < |row| - 1 {
      SumWidthsAtLeast(row[..|row| - 1], j);
    } else if |row| > 1 {
      SumWidthsAtLeast(row[..|row| - 1], 0);
    }
  }

  /** With pill widths and the gap non-negative, a pill wider than the limit sits alone on its row. */
  lemma WrapOversizedAlone(pills: seq<Pill>, gap: real, maxWidth: real, r: nat, j: nat)
    requires gap >= 0.0
    requires forall k :: 0 <= k < |pills| ==> pills[k].width >= 0.0
    requires r < |Wrap(pills, gap, maxWidth)| && j < |Wrap(pills, gap, maxWidth)[r]|
    requires Wrap(pills, gap, maxWidth)[r][j].width > maxWidth
    ensures Wrap(pills, gap, maxWidth)[r] == [Wrap(pills, gap, maxWidth)[r][j]]
  {
    var rows := Wrap(pills, gap, maxWidth);
    ScanInvariant(pills, gap, maxWidth);
    FlattenContains(rows, r);
    var row := rows[r];
    assert forall k :: 0 <= k < |row| ==> row[k] in pills;
    if |row| >= 2 {
      SumWidthsAtLeast(row, j);
      assert false;
    }
  }

  lemma {:induction false} FlattenContains(rows: seq<seq<Pill>>, r: nat)
    requires r < |rows|
    ensures forall k :: 0 <= k < |rows[r]| ==> rows[r][k] in Flatten(rows)
  {
    if r < |rows| - 1 {
      FlattenContains(rows[..|rows| - 1], r);
    }
  }

  /** Where the last pill of a wrapping sits: at the end of its last row. */
  lemma {:induction false} LastPillOfLastRow(rows: seq<seq<Pill>>, pills: seq<Pill>)
    requires Flatten(rows) == pills && NoEmptyRow(rows) && rows != []
    ensures pills != []
    ensures rows[|rows| - 1][|rows[|rows| - 1]| - 1] == pills[|pills| - 1]
    ensures Flatten(rows[..|rows| - 1]) + rows[|rows| - 1][..|rows[|rows| - 1]| - 1] == pills[..|pills| - 1]
  {
    var n := |rows|;
    var init, last := rows[..n - 1], rows[n - 1];
    var k := |last| - 1;
    var front := last[..k];
    assert rows == init + [last];
    FlattenSnoc(init, last);
    assert last == front + [last[k]];
    var before := Flatten(init) + front;
    assert pills == before + [last[k]];
    assert |pills| - 1 == |before|;
    assert pills[..|before|] == before;
  }

  /** The first rows of a well-formed wrapping keep its row properties. */
  lemma PrefixRowsKeep(rows: seq<seq<Pill>>, k: nat, gap: real, maxWidth: real)
    requires k <= |rows|
    requires NoEmptyRow(rows) && RowsFit(rows, gap, maxWidth) && Greedy(rows, gap, maxWidth)
    ensures NoEmptyRow(rows[..k]) && RowsFit(rows[..k], gap, maxWidth) && Greedy(rows[..k], gap, maxWidth)
  {
    assert forall r :: 0 <= r < k ==> rows[..k][r] == rows[r];
  }

  /** Shortening the last row to a non-empty prefix that is no wider keeps the row properties. */
  lemma ShortenLastRow(rows: seq<seq<Pill>>, shorter: seq<Pill>, gap: real, maxWidth: real)
    requires rows != [] && NoEmptyRow(rows) && RowsFit(rows, gap, maxWidth) && Greedy(rows, gap, maxWidth)
    requires 0 < |shorter| < |rows[|rows| - 1]| && shorter[0] == rows[|rows| - 1][0]
    requires RowWidth(shorter, gap) <= RowWidth(rows[|rows| - 1], gap)
    ensures var rows' := rows[..|rows| - 1] + [shorter];
      NoEmptyRow(rows') && RowsFit(rows', gap, maxWidth) && Greedy(rows', gap, maxWidth)
  {
    var n := |rows|;
    var rows' := rows[..n - 1] + [shorter];
    assert forall r :: 0 <= r < n - 1 ==> rows'[r] == rows[r];
    assert rows'[n - 1] == shorter;
  }

  /** Dropping the last pill of a wrapping leaves a wrapping of the other pills. */
  lemma {:induction false} DropLastPill(rows: seq<seq<Pill>>, pills: seq<Pill>, gap: real, maxWidth: real)
    returns (rows': seq<seq<Pill>>)
    requires gap >= 0.0
    requires forall k :: 0 <= k < |pills| ==> pills[k].width >= 0.0
    requires WellWrapped(rows, pills, gap, maxWidth) && rows != []
    ensures pills != []
    ensures rows[|rows| - 1][|rows[|rows| - 1]| - 1] == pills[|pills| - 1]
    ensures WellWrapped(rows', pills[..|pills| - 1], gap, maxWidth)
    ensures var n, last := |rows|, rows[|rows| - 1];
      if |last| == 1 then rows' == rows[..n - 1]
      else rows' == rows[..n - 1] + [last[..|last| - 1]]
  {
    var n := |rows|;
    var last := rows[n - 1];
    LastPillOfLastRow(rows, pills);
    var p := pills[|pills| - 1];
    if |last| == 1 {
      rows' := rows[..n - 1];
      assert last[..0] == [];
      assert Flatten(rows') + [] == Flatten(rows');
      PrefixRowsKeep(rows, n - 1, gap, maxWidth);
    } else {
      var shorter := last[..|last| - 1];
      assert last == shorter + [p];
      rows' := rows[..n - 1] + [shorter];
      FlattenSnoc(rows[..n - 1], shorter);
      RowWidthSnoc(shorter, p, gap);
      ShortenLastRow(rows, shorter, gap, maxWidth);
    }
  }

  /** A pill that does not fit after the last row opens a new row. */
  lemma WrapBreaks(init: seq<Pill>, p: Pill, gap: real, maxWidth: real)
    requires init != []
    requires RowWidth(Wrap(init, gap, maxWidth)[|Wrap(init, gap, maxWidth)| - 1], gap) + gap + p.width > maxWidth
    ensures Wrap(init + [p], gap, maxWidth) == Wrap(init, gap, maxWidth) + [[p]]
  {
    ScanShape(init, gap, maxWidth);
    assert (init + [p])[..|init|] == init;
  }

  /** A pill that fits after the last row joins it. */
  lemma WrapAppends(init: seq<Pill>, p: Pill, gap: real, maxWidth: real)
    requires init != []
    requires RowWidth(Wrap(init, gap, maxWidth)[|Wrap(init, gap, maxWidth)| - 1], gap) + gap + p.width <= maxWidth
    ensures var rows := Wrap(init, gap, maxWidth);
      Wrap(init + [p], gap, maxWidth) == rows[..|rows| - 1] + [rows[|rows| - 1] + [p]]
  {
    ScanShape(init, gap, maxWidth);
    assert (init + [p])[..|init|] == init;
    var s := Scan(init, gap, maxWidth);
    assert Wrap(init, gap, maxWidth) == s.rows + [s.current];
    assert (s.rows + [s.current])[..|s.rows|] == s.rows;
  }

  /** Putting back a last pill that sat alone on its row: it did not fit after the row before. */
  lemma RestoreAlone(rows: seq<seq<Pill>>, init: seq<Pill>, p: Pill, gap: real, maxWidth: real)
    requires rows != [] && rows[|rows| - 1] == [p]
    requires rows[..|rows| - 1] == Wrap(init, gap, maxWidth)
    requires init == [] <==> |rows| == 1
    requires |rows| >= 2 ==> RowWidth(rows[|rows| - 2], gap) + gap + p.width > maxWidth
    ensures rows == Wrap(init + [p], gap, maxWidth)
  {
    var n := |rows|;
    var rows' := rows[..n - 1];
    assert rows == rows' + [[p]];
    if init == [] {
      SumWidthsSnoc([], p);
      assert [] + [p] == [p];
      assert Wrap([p], gap, maxWidth) == [[p]];
    } else {
      assert rows'[n - 2] == rows[n - 2];
      WrapBreaks(init, p, gap, maxWidth);
    }
  }

  /** Putting back a last pill that shared its row: the row with it still fits. */
  lemma RestoreAppended(rows: seq<seq<Pill>>, init: seq<Pill>, p: Pill, gap: real, maxWidth: real)
    requires rows != [] && |rows[|rows| - 1]| >= 2 && rows[|rows| - 1][|rows[|rows| - 1]| - 1] == p
    requires rows[..|rows| - 1] + [rows[|rows| - 1][..|rows[|rows| - 1]| - 1]] == Wrap(init, gap, maxWidth)
    requires init != []
    requires RowWidth(rows[|rows| - 1], gap) <= maxWidth
    ensures rows == Wrap(init + [p], gap, maxWidth)
  {
    var n, last := |rows|, rows[|rows| - 1];
    var shorter := last[..|last| - 1];
    var rows' := rows[..n - 1] + [shorter];
    assert last == shorter + [p];
    RowWidthSnoc(shorter, p, gap);
    assert rows'[n - 1] == shorter;
    WrapAppends(init, p, gap, maxWidth);
    assert rows'[..n - 1] == rows[..n - 1];
    assert rows == rows[..n - 1] + [last];
  }

  /** Putting the last pill back: the wrapping it extends is greedy, so the extension is too. */
  lemma RestoreLastPill(rows: seq<seq<Pill>>, rows': seq<seq<Pill>>, init: seq<Pill>, p: Pill, gap: real, maxWidth: real)
    requires rows != [] && |rows[|rows| - 1]| > 0 && rows[|rows| - 1][|rows[|rows| - 1]| - 1] == p
    requires rows' == Wrap(init, gap, maxWidth)
    requires init == [] ==> rows' == []
    requires init != [] ==> rows' != []
    requires var n, last := |rows|, rows[|rows| - 1];
      if |last| == 1 then rows' == rows[..n - 1]
      else rows' == rows[..n - 1] + [last[..|last| - 1]]
    requires |rows| >= 2 && |rows[|rows| - 1]| == 1 ==>
      RowWidth(rows[|rows| - 2], gap) + gap + p.width > maxWidth
    requires |rows[|rows| - 1]| >= 2 ==> RowWidth(rows[|rows| - 1], gap) <= maxWidth
    ensures rows == Wrap(init + [p], gap, maxWidth)
  {
    var last := rows[|rows| - 1];
    if |last| == 1 {
      assert last == [p];
      RestoreAlone(rows, init, p, gap, maxWidth);
    } else {
      RestoreAppended(rows, init, p, gap, maxWidth);
    }
  }

  /**
   * With non-negative pill widths and gap the greedy rows are the only
   * well-formed wrapping: any partition of the tags into non-empty rows that
   * fit and break only when forced is exactly what the measuring pass builds.
   */
  lemma {:induction false} WellWrappedIsWrap(rows: seq<seq<Pill>>, pills: seq<Pill>, gap: real, maxWidth: real)
    requires gap >= 0.0
    requires forall k :: 0 <= k < |pills| ==> pills[k].width >= 0.0
    requires WellWrapped(rows, pills, gap, maxWidth)
    ensures rows == Wrap(pills, gap, maxWidth)
    decreases |pills|
  {
    if rows == [] {
      assert pills == [];
    } else {
      var rows' := DropLastPill(rows, pills, gap, maxWidth);
      var init, p := pills[..|pills| - 1], pills[|pills| - 1];
      assert pills == init + [p];
      WellWrappedIsWrap(rows', init, gap, maxWidth);
      WrapNoEmptyRow(init, gap, maxWidth);
      RestoreLastPill(rows, rows', init, p, gap, maxWidth);
    }
  }

  /**
   * The forEach over a category's items: measure each tag at the pill font,
   * add both paddings, and place it on the current row or start a new one.
   */
  method WrapItems(items: seq<string>, measure: Measure, font: Font, padX: real, gap: real, maxWidth: real)
    returns (rows: seq<seq<Pill>>)
    ensures rows == Wrap(Pills(items, measure, font, padX), gap, maxWidth)
  {
    rows := [];
    var currentRow: seq<Pill> := [];
    var rowWidth := 0.0;
    for i := 0 to |items|
      invariant WrapState(rows, currentRow, rowWidth) == Scan(Pills(items[..i], measure, font, padX), gap, maxWidth)
    {
      var textW := measure(font, items[i]);
      var pw := textW + padX * 2.0;
      var pill := Pill(items[i], pw);
      ghost var before := Pills(items[..i], measure, font, padX);
      ghost var after := Pills(items[..i + 1], measure, font, padX);
      assert after[..i] == before && after[i] == pill;
      if |currentRow| > 0 && rowWidth + gap + pw > maxWidth {
        rows := rows + [currentRow];
        currentRow := [pill];
        rowWidth := pw;
      } else {
        if |currentRow| > 0 {
          rowWidth := rowWidth + gap;
        }
        currentRow := currentRow + [pill];
        rowWidth := rowWidth + pw;
      }
    }
    assert items[..|items|] == items;
    if |currentRow| > 0 {
      rows := rows + [currentRow];
    }
  }
}
