/** Concrete layouts, worked out against the model. */
module Scenarios {
  import opened Results
  import opened Planner
  import opened Renderer
  import opened Shcol

  /** `columnize` joins the planned and rendered lines. */
  lemma ColumnizedFrom(items: seq<string>, spacing: nat, maxLineWidth: nat, props: LineProperties, lines: seq<string>)
    requires Plan(items, spacing, maxLineWidth) == props
    requires RenderedLines(props, items) == lines
    ensures Columnized(items, spacing, maxLineWidth) == Success(Join(lines, "\n"))
  {
  }

  /** Three short items fit on one line, each column as wide as its item. */
  lemma OneLine()
    ensures Columnized(["a", "bb", "ccc"], 2, 80) == Success("a  bb  ccc")
  {
    OneLinePlan();
    OneLineLines();
    ColumnizedFrom(["a", "bb", "ccc"], 2, 80, LineProperties([1, 2, 3], 2), ["a  bb  ccc"]);
  }

  lemma OneLineLines()
    ensures RenderedLines(LineProperties([1, 2, 3], 2), ["a", "bb", "ccc"]) == ["a  bb  ccc"]
  {
    var props := LineProperties([1, 2, 3], 2);
    var items := ["a", "bb", "ccc"];
    assert NumLines(3, 3) == 1;
    assert Stride(items, 0, 1) == items;
    var t := GetLineTemplate(props, 3, true).value;
    assert t == Template([LeftPadded(1), LeftPadded(2), Truncated(3)], 2);
    assert Spaces(2) == "  ";
    FormatRendersFields(t, items, items);
    assert Join(items, "  ") == "a  bb  ccc";
    assert LineAt(props, items, 0) == "a  bb  ccc";
    var lines := RenderedLines(props, items);
    assert |lines| == 1 && lines[0] == "a  bb  ccc";
  }

  lemma OneLinePlan()
    ensures Fits(Lengths(["a", "bb", "ccc"]), 2, 80, 1)
    ensures Plan(["a", "bb", "ccc"], 2, 80) == LineProperties([1, 2, 3], 2)
  {
    var w := Lengths(["a", "bb", "ccc"]);
    assert w == [1, 2, 3];
    assert GetMaxWidth(w, 0, 1) == 1;
    assert GetMaxWidth(w, 1, 2) == 2;
    assert GetMaxWidth(w, 2, 3) == 3;
    assert ChunkMaxima(w, 1, 0) == [1, 2, 3];
    assert Fits(w, 2, 80, 1);
  }

  /** Two columns of width 2; rows take every second item, column-major. */
  lemma ColumnMajor()
    ensures Columnized(["aa", "bb", "cc", "d"], 1, 5) == Success("aa cc\nbb d")
  {
    ColumnMajorPlan();
    ColumnMajorLines();
    ColumnizedFrom(["aa", "bb", "cc", "d"], 1, 5, LineProperties([2, 2], 1), ["aa cc", "bb d"]);
    assert Join(["aa cc", "bb d"], "\n") == "aa cc\nbb d";
  }

  lemma ColumnMajorPlan()
    ensures !Fits(Lengths(["aa", "bb", "cc", "d"]), 1, 5, 1)
    ensures Fits(Lengths(["aa", "bb", "cc", "d"]), 1, 5, 2)
    ensures Plan(["aa", "bb", "cc", "d"], 1, 5) == LineProperties([2, 2], 1)
  {
    var w := Lengths(["aa", "bb", "cc", "d"]);
    assert w == [2, 2, 2, 1];
    assert ChunkMaxima(w, 1, 0) == [2, 2, 2, 1];
    assert !Fits(w, 1, 5, 1);
    assert ChunkMaxima(w, 2, 0) == [2, 2];
    assert Fits(w, 1, 5, 2);
  }

  lemma ColumnMajorLines()
    ensures RenderedLines(LineProperties([2, 2], 1), ["aa", "bb", "cc", "d"]) == ["aa cc", "bb d"]
  {
    var props := LineProperties([2, 2], 1);
    var items := ["aa", "bb", "cc", "d"];
    assert NumLines(4, 2) == 2;
    assert Stride(items, 0, 2) == ["aa", "cc"];
    assert Stride(items, 1, 2) == ["bb", "d"];
    var t := GetLineTemplate(props, 2, true).value;
    assert t == Template([LeftPadded(2), Truncated(2)], 1);
    assert Spaces(1) == " ";
    FormatRendersFields(t, ["aa", "cc"], ["aa", "cc"]);
    FormatRendersFields(t, ["bb", "d"], ["bb", "d"]);
    assert Join(["aa", "cc"], " ") == "aa cc";
    assert Join(["bb", "d"], " ") == "bb d";
    assert LineAt(props, items, 0) == "aa cc";
    assert LineAt(props, items, 1) == "bb d";
    var lines := RenderedLines(props, items);
    assert |lines| == 2 && lines[0] == "aa cc" && lines[1] == "bb d";
  }

  /** A single over-long item is printed whole: the one-column template is a bare `%s`. */
  lemma OverlongItemUntruncated()
    ensures Columnized(["xxxxx"], 2, 3) == Success("xxxxx")
  {
    assert Lengths(["xxxxx"]) == [5];
  }

  /** The short last row gets a template of its own and no trailing padding. */
  lemma ShortLastRow()
    ensures Columnized(["a", "b", "c"], 2, 4) == Success("a  c\nb")
  {
    ShortLastRowPlan();
    ShortLastRowLines();
    ColumnizedFrom(["a", "b", "c"], 2, 4, LineProperties([1, 1], 2), ["a  c", "b"]);
    assert Join(["a  c", "b"], "\n") == "a  c\nb";
  }

  lemma ShortLastRowPlan()
    ensures !Fits(Lengths(["a", "b", "c"]), 2, 4, 1)
    ensures Fits(Lengths(["a", "b", "c"]), 2, 4, 2)
    ensures Plan(["a", "b", "c"], 2, 4) == LineProperties([1, 1], 2)
  {
    var w := Lengths(["a", "b", "c"]);
    assert w == [1, 1, 1];
    assert ChunkMaxima(w, 1, 0) == [1, 1, 1];
    assert !Fits(w, 2, 4, 1);
    assert ChunkMaxima(w, 2, 0) == [1, 1];
    assert Fits(w, 2, 4, 2);
  }

  lemma ShortLastRowLines()
    ensures RenderedLines(LineProperties([1, 1], 2), ["a", "b", "c"]) == ["a  c", "b"]
  {
    var props := LineProperties([1, 1], 2);
    var items := ["a", "b", "c"];
    assert NumLines(3, 2) == 2;
    assert Stride(items, 0, 2) == ["a", "c"];
    assert Stride(items, 1, 2) == ["b"];
    var t := GetLineTemplate(props, 2, true).value;
    assert t == Template([LeftPadded(1), Truncated(1)], 2);
    assert Spaces(2) == "  ";
    FormatRendersFields(t, ["a", "c"], ["a", "c"]);
    OneItemRowUntruncated(props, "b");
    assert Join(["a", "c"], "  ") == "a  c";
    assert LineAt(props, items, 0) == "a  c";
    assert LineAt(props, items, 1) == "b";
    var lines := RenderedLines(props, items);
    assert |lines| == 2 && lines[0] == "a  c" && lines[1] == "b";
  }

  /**
   * The planner groups widths by chunk size 4 (`[5, 1]`), but the renderer
   * groups items by `ceil(5 / 2) == 3` lines, so "ddddd" lands in the second
   * column, of width 1, and is cut to "d".
   */
  lemma ChunkColumnMismatch()
    ensures Columnized(["bb", "a", "c", "ddddd", "e"], 0, 6) == Success("bb   d\na    e\nc")
  {
    var items := ["bb", "a", "c", "ddddd", "e"];
    var lines := ["bb   d", "a    e", "c"];
    MismatchPlan();
    MismatchLines();
    ColumnizedFrom(items, 0, 6, LineProperties([5, 1], 0), lines);
    MismatchJoin();
  }

  lemma MismatchJoin()
    ensures Join(["bb   d", "a    e", "c"], "\n") == "bb   d\na    e\nc"
  {
    var lines := ["bb   d", "a    e", "c"];
    assert lines[1..] == ["a    e", "c"];
    assert lines[1..][1..] == ["c"];
    assert Join(["a    e", "c"], "\n") == "a    e\nc";
  }

  /** The search rejects chunk sizes 1, 2 and 3 and accepts 4. */
  lemma MismatchPlan()
    ensures forall k :: 1 <= k < 4 ==> !Fits(Lengths(["bb", "a", "c", "ddddd", "e"]), 0, 6, k)
    ensures Fits(Lengths(["bb", "a", "c", "ddddd", "e"]), 0, 6, 4)
    ensures Plan(["bb", "a", "c", "ddddd", "e"], 0, 6) == LineProperties([5, 1], 0)
  {
    var w := Lengths(["bb", "a", "c", "ddddd", "e"]);
    assert w == [2, 1, 1, 5, 1];
    assert ChunkMaxima(w, 1, 0) == [2, 1, 1, 5, 1];
    assert !Fits(w, 0, 6, 1);
    assert ChunkMaxima(w, 2, 0) == [2, 5, 1];
    assert !Fits(w, 0, 6, 2);
    assert ChunkMaxima(w, 3, 0) == [2, 5];
    assert !Fits(w, 0, 6, 3);
    assert ChunkMaxima(w, 4, 0) == [5, 1];
    assert Fits(w, 0, 6, 4);
    forall k | 1 <= k < 4
      ensures !Fits(w, 0, 6, k)
    {
      assert k == 1 || k == 2 || k == 3;
    }
  }

  lemma MismatchLines()
    ensures RenderedLines(LineProperties([5, 1], 0), ["bb", "a", "c", "ddddd", "e"]) == ["bb   d", "a    e", "c"]
  {
    var props := LineProperties([5, 1], 0);
    var items := ["bb", "a", "c", "ddddd", "e"];
    MismatchRows();
    var lines := RenderedLines(props, items);
    assert |lines| == 3 && lines[0] == "bb   d" && lines[1] == "a    e" && lines[2] == "c";
  }

  /** Rows `items[0::3]`, `items[1::3]` and `items[2::3]`, rendered with widths `[5, 1]`. */
  lemma MismatchRows()
    ensures NumLines(5, 2) == 3
    ensures LineAt(LineProperties([5, 1], 0), ["bb", "a", "c", "ddddd", "e"], 0) == "bb   d"
    ensures LineAt(LineProperties([5, 1], 0), ["bb", "a", "c", "ddddd", "e"], 1) == "a    e"
    ensures LineAt(LineProperties([5, 1], 0), ["bb", "a", "c", "ddddd", "e"], 2) == "c"
  {
    var props := LineProperties([5, 1], 0);
    var items := ["bb", "a", "c", "ddddd", "e"];
    assert NumLines(5, 2) == 3;
    assert Stride(items, 0, 3) == ["bb", "ddddd"];
    assert Stride(items, 1, 3) == ["a", "e"];
    assert Stride(items, 2, 3) == ["c"];
    assert Spaces(0) == "";
    assert CutAndPad("bb", 5) == "bb   ";
    assert Cut("ddddd", 1) == "d";
    RowRendersCutAndPadded(props, ["bb", "ddddd"], ["bb   ", "d"]);
    assert Join(["bb   ", "d"], "") == "bb   d";
    assert CutAndPad("a", 5) == "a    ";
    assert Cut("e", 1) == "e";
    RowRendersCutAndPadded(props, ["a", "e"], ["a    ", "e"]);
    assert Join(["a    ", "e"], "") == "a    e";
    OneItemRowUntruncated(props, "c");
  }
}
