/**
 * `columnize` (shcol.py:14-18): plan the column widths, render the lines and
 * join them with newlines.
 */
module Shcol {
  import opened Arith
  import opened Results
  import opened Planner
  import opened Renderer

  /** The line properties `get_properties` returns for these items. */
  function Plan(items: seq<string>, spacing: nat, maxLineWidth: nat): LineProperties
  {
    LineProperties(ColumnWidths(Lengths(items), spacing, maxLineWidth), spacing)
  }

  /** What `columnize(items, spacing, max_line_width)` returns or raises. */
  function Columnized(items: seq<string>, spacing: int, maxLineWidth: int): Result<string>
  {
    match CheckArgs(spacing, maxLineWidth)
    case Failure(e) => Failure(e)
    case Success(_) => Success(Join(RenderedLines(Plan(items, spacing, maxLineWidth), items), "\n"))
  }

  /** `columnize`. */
  method Columnize(items: seq<string>, spacing: int := 2, maxLineWidth: int := 80) returns (r: Result<string>)
    ensures r == Columnized(items, spacing, maxLineWidth)
  {
    var builder := LinePropertyBuilder.Create(items, spacing, maxLineWidth);
    if builder.Failure? {
      return Failure(builder.error);
    }
    var lineProperties := builder.value.GetProperties();
    var formatter := new Formatter(lineProperties, items);
    var lines := formatter.LineStrings();
    return Success(Join(lines, "\n"));
  }

  /** A negative spacing or limit raises `ValueError`, and nothing is rendered. */
  lemma ArgumentsChecked(items: seq<string>, spacing: int, maxLineWidth: int)
    ensures Columnized(items, spacing, maxLineWidth).Failure? <==> spacing < 0 || maxLineWidth < 0
    ensures Columnized(items, spacing, maxLineWidth).Failure?
            ==> Columnized(items, spacing, maxLineWidth).error == ValueError(ArgsMessage)
  {
  }

  /** No items: no columns, the single empty line, and `columnize([]) == ''`. */
  lemma NoItems(spacing: nat, maxLineWidth: nat)
    ensures Plan([], spacing, maxLineWidth).columnWidths == []
    ensures RenderedLines(Plan([], spacing, maxLineWidth), []) == [""]
    ensures Columnized([], spacing, maxLineWidth) == Success("")
  {
  }

  /**
   * Some items: at least one column, `ceil(n / num_columns)` lines, and line
   * `r` is the row `items[r::num_lines]`, of between one and `num_columns` items.
   */
  lemma LineCount(items: seq<string>, spacing: nat, maxLineWidth: nat)
    requires |items| > 0
    ensures var props := Plan(items, spacing, maxLineWidth);
      var numColumns := |props.columnWidths|;
      && numColumns >= 1
      && |RenderedLines(props, items)| == CeilDiv(|items|, numColumns)
      && forall r :: 0 <= r < |RenderedLines(props, items)| ==>
           var row := Stride(items, r, CeilDiv(|items|, numColumns));
           && 1 <= |row| <= numColumns
           && RenderRow(props, row) == Success(RenderedLines(props, items)[r])
  {
    var props := Plan(items, spacing, maxLineWidth);
    ColumnWidthsWithinLimit(Lengths(items), spacing, maxLineWidth);
    var numColumns := |props.columnWidths|;
    forall r | 0 <= r < |RenderedLines(props, items)|
      ensures 1 <= |Stride(items, r, CeilDiv(|items|, numColumns))| <= numColumns
    {
      RowLengthBounds(items, numColumns, r);
    }
  }

  /** When every item fits the limit, so does every rendered line. */
  lemma LinesWithinLimit(items: seq<string>, spacing: nat, maxLineWidth: nat)
    requires forall i :: 0 <= i < |items| ==> |items[i]| <= maxLineWidth
    ensures forall line :: line in RenderedLines(Plan(items, spacing, maxLineWidth), items) ==> |line| <= maxLineWidth
  {
    var props := Plan(items, spacing, maxLineWidth);
    var widths, columnWidths := Lengths(items), props.columnWidths;
    if |items| > 0 {
      ColumnWidthsWithinLimit(widths, spacing, maxLineWidth);
      var numColumns := |columnWidths|;
      var numLines := NumLines(|items|, numColumns);
      forall r | 0 <= r < numLines
        ensures |LineAt(props, items, r)| <= maxLineWidth
      {
        var row := Stride(items, r, numLines);
        RowLengthBounds(items, numColumns, r);
        if |row| == 1 {
          StrideAt(items, r, numLines, 0);
          assert row == [items[r]];
          OneItemRowUntruncated(props, items[r]);
        } else {
          RowWidthAtMost(props, row);
          SumPrefixAtMost(columnWidths, |row|);
          MulMono(|row| - 1, numColumns - 1, spacing);
        }
      }
    }
  }

  /**
   * When an item is longer than the limit, the single column `[maxLineWidth]`
   * is rendered as one item per line, none of them truncated.
   */
  lemma DegradedLinesUntruncated(items: seq<string>, spacing: nat, maxLineWidth: nat)
    requires exists i :: 0 <= i < |items| && |items[i]| > maxLineWidth
    ensures Plan(items, spacing, maxLineWidth).columnWidths == [maxLineWidth]
    ensures RenderedLines(Plan(items, spacing, maxLineWidth), items) == items
  {
    var i :| 0 <= i < |items| && |items[i]| > maxLineWidth;
    assert Lengths(items)[i] > maxLineWidth;
    ColumnWidthsEdgeCases(Lengths(items), spacing, maxLineWidth);
    SingleColumnLines(Plan(items, spacing, maxLineWidth), items);
  }
}
