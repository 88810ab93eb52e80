/**
 * The layout planner of shcol.py: `LinePropertyBuilder` reduces the items to
 * their lengths and searches the smallest chunk size whose per-chunk maxima,
 * used as column widths, fit into `max_line_width`.
 */
module Planner {
  import opened Arith
  import opened Results

  const ArgsMessage := "spacing and max_line_width must be non-negative integers"

  /** The named tuple `LineProperties`: one width per column and the spacing between columns. */
  datatype LineProperties = LineProperties(columnWidths: seq<nat>, spacing: nat)

  function Min(a: int, b: int): int
  {
    if a <= b then a else b
  }

  /** Python's `max` over the non-empty stretch `widths[start:stop]`. */
  function MaxOf(widths: seq<nat>, start: nat, stop: nat): nat
    requires start < stop <= |widths|
    decreases stop - start
  {
    if stop == start + 1 then widths[start]
    else
      var rest := MaxOf(widths, start + 1, stop);
      if widths[start] >= rest then widths[start] else rest
  }

  /** `MaxOf` is a width of the stretch, and no width there is larger. */
  lemma {:induction false} MaxOfIsMaximum(widths: seq<nat>, start: nat, stop: nat)
    requires start < stop <= |widths|
    decreases stop - start
    ensures exists i :: start <= i < stop && widths[i] == MaxOf(widths, start, stop)
    ensures forall i :: start <= i < stop ==> widths[i] <= MaxOf(widths, start, stop)
  {
    if stop == start + 1 {
      assert widths[start] == MaxOf(widths, start, stop);
    } else {
      MaxOfIsMaximum(widths, start + 1, stop);
      var i :| start + 1 <= i < stop && widths[i] == MaxOf(widths, start + 1, stop);
      if widths[start] >= widths[i] {
        assert widths[start] == MaxOf(widths, start, stop);
      } else {
        assert widths[i] == MaxOf(widths, start, stop);
      }
    }
  }

  /** `max(widths)` for a non-empty list. */
  function Max(widths: seq<nat>): nat
    requires |widths| > 0
  {
    MaxOf(widths, 0, |widths|)
  }

  /** Python's `sum`. */
  function Sum(s: seq<nat>): nat
  {
    if |s| == 0 then 0 else s[0] + Sum(s[1..])
  }

  /** A prefix of non-negative widths never sums to more than the whole. */
  lemma {:induction false} SumPrefixAtMost(s: seq<nat>, m: nat)
    requires m <= |s|
    ensures Sum(s[..m]) <= Sum(s)
  {
    if m > 0 {
      assert s[..m][1..] == s[1..][..m - 1];
      SumPrefixAtMost(s[1..], m - 1);
    }
  }

  /** `[len(item) for item in items]`. */
  function Lengths(items: seq<string>): seq<nat>
  {
    seq(|items|, i requires 0 <= i < |items| => |items[i]|)
  }

  /** `_check_args`: both arguments must be non-negative, or `ValueError` is raised. */
  function CheckArgs(spacing: int, maxLineWidth: int): (r: Result<()>)
    ensures r.Success? <==> spacing >= 0 && maxLineWidth >= 0
    ensures r.Failure? ==> r.error == ValueError(ArgsMessage)
  {
    if spacing < 0 || maxLineWidth < 0 then Failure(ValueError(ArgsMessage)) else Success(())
  }

  /** `get_max_width(start, stop)`: `max(widths[start:stop])`, the slice clipped at the end. */
  function GetMaxWidth(widths: seq<nat>, start: nat, stop: nat): nat
    requires start < |widths| && start < stop
  {
    MaxOf(widths, start, Min(stop, |widths|))
  }

  /**
   * The candidate column widths of shcol.py:43-44 for the chunk starts
   * `start, start + chunkSize, ...` below `|widths|`: one `GetMaxWidth` per chunk.
   */
  function ChunkMaxima(widths: seq<nat>, chunkSize: nat, start: nat): seq<nat>
    requires chunkSize >= 1
    decreases |widths| - start
  {
    if start >= |widths| then []
    else [GetMaxWidth(widths, start, start + chunkSize)] + ChunkMaxima(widths, chunkSize, start + chunkSize)
  }

  /** There is one candidate column per chunk: `ceil((n - start) / chunkSize)` of them. */
  lemma {:induction false} ChunkMaximaLength(widths: seq<nat>, chunkSize: nat, start: nat)
    requires chunkSize >= 1
    decreases |widths| - start
    ensures |ChunkMaxima(widths, chunkSize, start)| == if start >= |widths| then 0 else CeilDiv(|widths| - start, chunkSize)
  {
    if start < |widths| {
      ChunkMaximaLength(widths, chunkSize, start + chunkSize);
    }
  }

  /** Candidate column `j` is the maximum width of the `j`-th chunk. */
  lemma {:induction false} ChunkMaximaAt(widths: seq<nat>, chunkSize: nat, start: nat, j: nat)
    requires chunkSize >= 1
    requires j < |ChunkMaxima(widths, chunkSize, start)|
    decreases j
    ensures start + j * chunkSize < |widths|
    ensures ChunkMaxima(widths, chunkSize, start)[j]
            == GetMaxWidth(widths, start + j * chunkSize, start + j * chunkSize + chunkSize)
  {
    if j > 0 {
      var next := start + chunkSize;
      assert |ChunkMaxima(widths, chunkSize, start)| == 1 + |ChunkMaxima(widths, chunkSize, next)|;
      ChunkMaximaAt(widths, chunkSize, next, j - 1);
      assert (j - 1) * chunkSize + chunkSize == j * chunkSize;
      ChunkMaximaTail(widths, chunkSize, start, j);
    }
  }

  lemma ChunkMaximaTail(widths: seq<nat>, chunkSize: nat, start: nat, j: nat)
    requires chunkSize >= 1
    requires 0 < j < |ChunkMaxima(widths, chunkSize, start)|
    ensures ChunkMaxima(widths, chunkSize, start)[j] == ChunkMaxima(widths, chunkSize, start + chunkSize)[j - 1]
  {
  }

  /** The width of a line with these columns: `sum(column_widths) + (len(column_widths) - 1) * spacing`. */
  function LineWidth(columnWidths: seq<nat>, spacing: nat): int
  {
    Sum(columnWidths) + (|columnWidths| - 1) * spacing
  }

  /** Chunk size `chunkSize` is accepted by the search of shcol.py:42-48. */
  predicate Fits(widths: seq<nat>, spacing: nat, maxLineWidth: nat, chunkSize: nat)
    requires chunkSize >= 1
  {
    LineWidth(ChunkMaxima(widths, chunkSize, 0), spacing) <= maxLineWidth
  }

  /** A chunk size covering all widths gives the single column `[max(widths)]`, which fits when the widest item does. */
  lemma WholeChunkFits(widths: seq<nat>, spacing: nat, maxLineWidth: nat, chunkSize: nat)
    requires 0 < |widths| <= chunkSize
    ensures ChunkMaxima(widths, chunkSize, 0) == [Max(widths)]
    ensures Max(widths) <= maxLineWidth ==> Fits(widths, spacing, maxLineWidth, chunkSize)
  {
    assert ChunkMaxima(widths, chunkSize, chunkSize) == [];
    assert Sum([Max(widths)]) == Max(widths) + Sum([]);
  }

  /** The first accepted chunk size from `from` on; the search always stops by `|widths|`. */
  function SmallestFit(widths: seq<nat>, spacing: nat, maxLineWidth: nat, from: nat): (k: nat)
    requires 1 <= from <= |widths| && Max(widths) <= maxLineWidth
    decreases |widths| - from
    ensures from <= k <= |widths|
    ensures Fits(widths, spacing, maxLineWidth, k)
    ensures forall j :: from <= j < k ==> !Fits(widths, spacing, maxLineWidth, j)
  {
    if Fits(widths, spacing, maxLineWidth, from) then from
    else
      WholeChunkFits(widths, spacing, maxLineWidth, |widths|);
      SmallestFit(widths, spacing, maxLineWidth, from + 1)
  }

  /** What `get_column_widths` returns (shcol.py:36-49). */
  function ColumnWidths(widths: seq<nat>, spacing: nat, maxLineWidth: nat): seq<nat>
  {
    if |widths| == 0 then []
    else if Max(widths) > maxLineWidth then [maxLineWidth]
    else ChunkMaxima(widths, SmallestFit(widths, spacing, maxLineWidth, 1), 0)
  }

  /** Empty input has no columns; an item longer than the limit degrades to the one column `[maxLineWidth]`. */
  lemma ColumnWidthsEdgeCases(widths: seq<nat>, spacing: nat, maxLineWidth: nat)
    ensures |widths| == 0 <==> ColumnWidths(widths, spacing, maxLineWidth) == []
    ensures (exists i :: 0 <= i < |widths| && widths[i] > maxLineWidth)
            ==> ColumnWidths(widths, spacing, maxLineWidth) == [maxLineWidth]
  {
    if |widths| > 0 {
      MaxOfIsMaximum(widths, 0, |widths|);
    }
    if |widths| > 0 && Max(widths) <= maxLineWidth {
      ChunkMaximaLength(widths, SmallestFit(widths, spacing, maxLineWidth, 1), 0);
    }
  }

  /**
   * When every item fits, the widths are the chunk maxima for the smallest
   * chunk size `k` whose line fits: `ceil(n / k)` columns, column `j` the maximum
   * over items `j * k .. min((j + 1) * k, n) - 1`, and every smaller chunk size
   * gives a line wider than `maxLineWidth`.
   */
  lemma {:induction false} ColumnWidthsFirstFit(widths: seq<nat>, spacing: nat, maxLineWidth: nat)
    requires |widths| > 0
    requires forall i :: 0 <= i < |widths| ==> widths[i] <= maxLineWidth
    ensures exists k :: (
      && 1 <= k <= |widths|
      && ColumnWidths(widths, spacing, maxLineWidth) == ChunkMaxima(widths, k, 0)
      && |ChunkMaxima(widths, k, 0)| == CeilDiv(|widths|, k)
      && (forall j :: 0 <= j < |ChunkMaxima(widths, k, 0)| ==>
            j * k < |widths| && ChunkMaxima(widths, k, 0)[j] == GetMaxWidth(widths, j * k, j * k + k))
      && LineWidth(ChunkMaxima(widths, k, 0), spacing) <= maxLineWidth
      && (forall k' :: 1 <= k' < k ==> LineWidth(ChunkMaxima(widths, k', 0), spacing) > maxLineWidth))
  {
    MaxOfIsMaximum(widths, 0, |widths|);
    var k := SmallestFit(widths, spacing, maxLineWidth, 1);
    FirstFitShape(widths, spacing, maxLineWidth, k);
    assert ColumnWidths(widths, spacing, maxLineWidth) == ChunkMaxima(widths, k, 0);
  }

  /** The facts of `ColumnWidthsFirstFit` for the chunk size the search accepts. */
  lemma FirstFitShape(widths: seq<nat>, spacing: nat, maxLineWidth: nat, k: nat)
    requires |widths| > 0 && Max(widths) <= maxLineWidth
    requires k == SmallestFit(widths, spacing, maxLineWidth, 1)
    ensures 1 <= k <= |widths|
    ensures |ChunkMaxima(widths, k, 0)| == CeilDiv(|widths|, k)
    ensures forall j :: 0 <= j < |ChunkMaxima(widths, k, 0)| ==>
              j * k < |widths| && ChunkMaxima(widths, k, 0)[j] == GetMaxWidth(widths, j * k, j * k + k)
    ensures LineWidth(ChunkMaxima(widths, k, 0), spacing) <= maxLineWidth
    ensures forall k' :: 1 <= k' < k ==> LineWidth(ChunkMaxima(widths, k', 0), spacing) > maxLineWidth
  {
    var cw := ChunkMaxima(widths, k, 0);
    ChunkMaximaLength(widths, k, 0);
    forall j | 0 <= j < |cw|
      ensures j * k < |widths| && cw[j] == GetMaxWidth(widths, j * k, j * k + k)
    {
      ChunkMaximaAt(widths, k, 0, j);
    }
    forall k' | 1 <= k' < k
      ensures LineWidth(ChunkMaxima(widths, k', 0), spacing) > maxLineWidth
    {
      assert !Fits(widths, spacing, maxLineWidth, k');
    }
  }

  /**
   * The plan's invariant: a non-empty plan fits into `maxLineWidth`, unless an
   * item alone is longer, in which case it is the single column `[maxLineWidth]`.
   */
  lemma ColumnWidthsWithinLimit(widths: seq<nat>, spacing: nat, maxLineWidth: nat)
    requires |widths| > 0
    ensures var cw := ColumnWidths(widths, spacing, maxLineWidth);
      |cw| >= 1 &&
      (LineWidth(cw, spacing) <= maxLineWidth
       || (cw == [maxLineWidth] && exists i :: 0 <= i < |widths| && widths[i] > maxLineWidth))
  {
    MaxOfIsMaximum(widths, 0, |widths|);
    if Max(widths) <= maxLineWidth {
      ChunkMaximaLength(widths, SmallestFit(widths, spacing, maxLineWidth, 1), 0);
    }
  }

  /** Widening the limit (items and spacing fixed) never lowers the number of columns. */
  lemma ColumnCountMonotone(widths: seq<nat>, spacing: nat, narrow: nat, wide: nat)
    requires narrow <= wide
    ensures |ColumnWidths(widths, spacing, narrow)| <= |ColumnWidths(widths, spacing, wide)|
  {
    var n := |widths|;
    if n > 0 && Max(widths) <= wide {
      var kw := SmallestFit(widths, spacing, wide, 1);
      ChunkMaximaLength(widths, kw, 0);
      if Max(widths) <= narrow {
        var kn := SmallestFit(widths, spacing, narrow, 1);
        assert Fits(widths, spacing, wide, kn);
        assert kw <= kn;
        ChunkMaximaLength(widths, kn, 0);
        CeilDivAntitone(n, kw, kn);
      } else {
        CeilDivOfCeilDiv(n, kw);
      }
    }
  }

  /**
   * `LinePropertyBuilder`: the item widths, spacing and limit stored by
   * `__init__` (they are never reassigned afterwards).
   */
  class LinePropertyBuilder {
    const itemWidths: seq<nat>
    const spacing: nat
    const maxLineWidth: nat

    constructor (items: seq<string>, spacing: nat, maxLineWidth: nat)
      ensures itemWidths == Lengths(items)
      ensures this.spacing == spacing && this.maxLineWidth == maxLineWidth
    {
      itemWidths := Lengths(items);
      this.spacing := spacing;
      this.maxLineWidth := maxLineWidth;
    }

    /** `__init__`: `_check_args` first, so negative arguments give `ValueError` and no builder. */
    static method Create(items: seq<string>, spacing: int, maxLineWidth: int) returns (r: Result<LinePropertyBuilder>)
      ensures r.Failure? <==> spacing < 0 || maxLineWidth < 0
      ensures r.Failure? ==> r.error == ValueError(ArgsMessage)
      ensures r.Success? ==> (
        && fresh(r.value) && r.value.itemWidths == Lengths(items)
        && r.value.spacing == spacing && r.value.maxLineWidth == maxLineWidth)
    {
      var check := CheckArgs(spacing, maxLineWidth);
      if check.Failure? {
        return Failure(check.error);
      }
      var builder := new LinePropertyBuilder(items, spacing, maxLineWidth);
      return Success(builder);
    }

    /** `get_properties`. */
    method GetProperties() returns (p: LineProperties)
      ensures p == LineProperties(ColumnWidths(itemWidths, spacing, maxLineWidth), spacing)
    {
      var columnWidths := GetColumnWidths();
      p := LineProperties(columnWidths, spacing);
    }

    /** `get_column_widths`: the scan over chunk sizes `1, 2, ...` until a line fits. */
    method GetColumnWidths() returns (columnWidths: seq<nat>)
      ensures columnWidths == ColumnWidths(itemWidths, spacing, maxLineWidth)
    {
      if |itemWidths| == 0 {
        return [];
      }
      if Max(itemWidths) > maxLineWidth {
        return [maxLineWidth];
      }
      var numItems := |itemWidths|;
      WholeChunkFits(itemWidths, spacing, maxLineWidth, numItems);
      var chunkSize := 1;
      while true
        invariant 1 <= chunkSize <= numItems
        invariant forall j :: 1 <= j < chunkSize ==> !Fits(itemWidths, spacing, maxLineWidth, j)
        decreases numItems - chunkSize
      {
        columnWidths := ChunkMaxima(itemWidths, chunkSize, 0);
        var totalSpacing := (|columnWidths| - 1) * spacing;
        var lineWidth := Sum(columnWidths) + totalSpacing;
        if lineWidth <= maxLineWidth {
          break;
        }
        chunkSize := chunkSize + 1;
      }
      assert Fits(itemWidths, spacing, maxLineWidth, chunkSize);
      assert chunkSize == SmallestFit(itemWidths, spacing, maxLineWidth, 1);
    }
  }
}
