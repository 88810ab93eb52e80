/**
 * The renderer of shcol.py: `Formatter` distributes the items column-major
 * over `ceil(n / num_columns)` lines and formats each line with a printf-style
 * template built from the planned column widths.
 */
module Renderer {
  import opened Arith
  import opened Results
  import opened Planner

  const SpecsMessage := "not enough column widths to fill requested number of specs"
  const TooFewArguments := "not enough arguments for format string"
  const TooManyArguments := "not all arguments converted during string formatting"

  /** One conversion of a line template: `%s`, `%-w.ws` or `%.ws`. */
  datatype Field = Plain | LeftPadded(width: nat) | Truncated(width: nat)

  /** A line template: its conversions, separated by `spacing` blanks. */
  datatype Template = Template(fields: seq<Field>, spacing: nat)

  /** `n * ' '`. */
  function Spaces(n: nat): (r: string)
    ensures |r| == n
    ensures forall i :: 0 <= i < n ==> r[i] == ' '
  {
    seq(n, _ => ' ')
  }

  /** What one conversion makes of one item. */
  function RenderField(f: Field, s: string): (r: string)
    ensures f.Plain? ==> r == s
    ensures f.LeftPadded? ==> (
      && |r| == f.width
      && r[..Min(|s|, f.width)] == s[..Min(|s|, f.width)]
      && forall i :: Min(|s|, f.width) <= i < f.width ==> r[i] == ' ')
    ensures f.Truncated? ==> |r| == Min(|s|, f.width) && r == s[..|r|]
  {
    match f
    case Plain => s
    case LeftPadded(w) => CutAndPad(s, w)
    case Truncated(w) => Cut(s, w)
  }

  /** `s` cut to at most `w` characters, the precision of `%.ws`. */
  function Cut(s: string, w: nat): string
  {
    s[..Min(|s|, w)]
  }

  /** `s` cut to at most `w` characters and padded with blanks to exactly `w`, as `%-w.ws` does. */
  function CutAndPad(s: string, w: nat): string
  {
    Cut(s, w) + Spaces(w - Min(|s|, w))
  }

  /** `sep.join(parts)`. */
  function Join(parts: seq<string>, sep: string): string
  {
    if |parts| == 0 then ""
    else if |parts| == 1 then parts[0]
    else parts[0] + sep + Join(parts[1..], sep)
  }

  /** A join is as long as its parts plus one separator between each two of them. */
  lemma {:induction false} JoinLength(parts: seq<string>, sep: string)
    requires |parts| >= 1
    ensures |Join(parts, sep)| == Sum(Lengths(parts)) + (|parts| - 1) * |sep|
  {
    assert Lengths(parts)[1..] == Lengths(parts[1..]);
    if |parts| > 1 {
      JoinLength(parts[1..], sep);
    }
  }

  /**
   * `template % line_items`: a `TypeError` unless there is exactly one item
   * per conversion; otherwise the rendered fields joined by the blanks.
   */
  function Format(t: Template, row: seq<string>): (r: Result<string>)
    ensures r.Failure? <==> |row| != |t.fields|
    ensures r.Failure? ==> r.error.TypeError?
  {
    if |row| < |t.fields| then Failure(TypeError(TooFewArguments))
    else if |row| > |t.fields| then Failure(TypeError(TooManyArguments))
    else Success(Join(seq(|row|, j requires 0 <= j < |row| => RenderField(t.fields[j], row[j])), Spaces(t.spacing)))
  }

  /** A row formats to the join of its rendered fields. */
  lemma FormatRendersFields(t: Template, row: seq<string>, parts: seq<string>)
    requires |row| == |t.fields| == |parts|
    requires forall j :: 0 <= j < |row| ==> parts[j] == RenderField(t.fields[j], row[j])
    ensures Format(t, row) == Success(Join(parts, Spaces(t.spacing)))
  {
    var fields := seq(|row|, j requires 0 <= j < |row| => RenderField(t.fields[j], row[j]));
    forall j | 0 <= j < |row|
      ensures fields[j] == parts[j]
    {
    }
    assert fields == parts;
  }

  /**
   * `get_line_template(num_specs, allow_exceeding)`: a negative `numSpecs`
   * means one conversion per column; more than that is a `ValueError`.
   */
  function GetLineTemplate(props: LineProperties, numSpecs: int, allowExceeding: bool): (r: Result<Template>)
    ensures r.Failure? <==> numSpecs > |props.columnWidths|
    ensures r.Failure? ==> r.error == ValueError(SpecsMessage)
    ensures r.Success? ==> (
      var m := if numSpecs < 0 then |props.columnWidths| else numSpecs;
      && r.value.spacing == props.spacing
      && |r.value.fields| == m
      && (m == 1 && allowExceeding ==> r.value.fields == [Plain])
      && ((m >= 2 || (m == 1 && !allowExceeding)) ==>
            && (forall j :: 0 <= j < m - 1 ==> r.value.fields[j] == LeftPadded(props.columnWidths[j]))
            && r.value.fields[m - 1] == Truncated(props.columnWidths[m - 1])))
  {
    var widths := props.columnWidths;
    if numSpecs > |widths| then Failure(ValueError(SpecsMessage))
    else
      var m := if numSpecs < 0 then |widths| else numSpecs;
      if m == 0 then Success(Template([], props.spacing))
      else if m == 1 && allowExceeding then Success(Template([Plain], props.spacing))
      else
        var specs := seq(m - 1, j requires 0 <= j < m - 1 => LeftPadded(widths[j]));
        Success(Template(specs + [Truncated(widths[m - 1])], props.spacing))
  }

  /** `items[start::step]`. */
  function Stride<T>(s: seq<T>, start: nat, step: nat): seq<T>
    requires step >= 1
    decreases |s| - start
  {
    if start >= |s| then [] else [s[start]] + Stride(s, start + step, step)
  }

  /** A stride from `start` holds `ceil((n - start) / step)` items. */
  lemma {:induction false} StrideLength<T>(s: seq<T>, start: nat, step: nat)
    requires step >= 1
    decreases |s| - start
    ensures |Stride(s, start, step)| == if start >= |s| then 0 else CeilDiv(|s| - start, step)
  {
    if start < |s| {
      StrideLength(s, start + step, step);
    }
  }

  /** Entry `p` of a stride is `s[start + p * step]`. */
  lemma {:induction false} StrideAt<T>(s: seq<T>, start: nat, step: nat, p: nat)
    requires step >= 1
    requires p < |Stride(s, start, step)|
    decreases p
    ensures start + p * step < |s|
    ensures Stride(s, start, step)[p] == s[start + p * step]
  {
    if p > 0 {
      StrideAt(s, start + step, step, p - 1);
      assert start + step + (p - 1) * step == start + p * step;
    }
  }

  /** `int(ceil(len(items) / num_columns))`. */
  function NumLines(numItems: nat, numColumns: nat): nat
    requires numColumns >= 1
  {
    CeilDiv(numItems, numColumns)
  }

  /**
   * Every cell of the grid is an item: row `r`, position `p` holds item
   * `r + p * numLines`, and that index leads back to `r` and `p`.
   */
  lemma RowEntryIsItem<T>(items: seq<T>, numLines: nat, r: nat, p: nat)
    requires numLines >= 1 && r < numLines && p < |Stride(items, r, numLines)|
    ensures r + p * numLines < |items|
    ensures Stride(items, r, numLines)[p] == items[r + p * numLines]
    ensures (r + p * numLines) % numLines == r
    ensures (r + p * numLines) / numLines == p
  {
    StrideAt(items, r, numLines, p);
    DivModUnique(r + p * numLines, numLines, p, r);
  }

  /**
   * Every item is in the grid: item `j` is in row `j % numLines` at position
   * `j / numLines`. With `RowEntryIsItem`, each item appears in exactly one line.
   */
  lemma ItemInOneRow<T>(items: seq<T>, numLines: nat, j: nat)
    requires numLines >= 1 && j < |items|
    ensures j / numLines < |Stride(items, j % numLines, numLines)|
    ensures Stride(items, j % numLines, numLines)[j / numLines] == items[j]
  {
    var n, r, p := |items|, j % numLines, j / numLines;
    assert j == r + p * numLines;
    StrideLength(items, r, numLines);
    CeilDivBounds(n - r, numLines);
    var len := CeilDiv(n - r, numLines);
    if p >= len {
      MulMono(len, p, numLines);
    }
    StrideAt(items, r, numLines, p);
  }

  /** Every row of a non-empty grid holds between one item and one item per column. */
  lemma RowLengthBounds<T>(items: seq<T>, numColumns: nat, r: nat)
    requires numColumns >= 1 && r < NumLines(|items|, numColumns)
    ensures 1 <= |Stride(items, r, NumLines(|items|, numColumns))| <= numColumns
  {
    var n, numLines := |items|, NumLines(|items|, numColumns);
    CeilDivOfCeilDiv(n, numColumns);
    StrideLength(items, r, numLines);
    CeilDivBounds(n, numColumns);
    assert n - r <= numColumns * numLines;
    CeilDivAtMost(n - r, numLines, numColumns);
  }

  /** One line: the row formatted with a template of exactly `|row|` conversions. */
  function RenderRow(props: LineProperties, row: seq<string>): (r: Result<string>)
    ensures r.Success? <==> |row| <= |props.columnWidths|
  {
    match GetLineTemplate(props, |row|, true)
    case Failure(e) => Failure(e)
    case Success(t) => Format(t, row)
  }

  /** A template built for the row's own length formats the row as `RenderRow` does. */
  lemma FormatWithRowTemplate(props: LineProperties, t: Template, row: seq<string>)
    requires GetLineTemplate(props, |t.fields|, true) == Success(t)
    requires |row| == |t.fields|
    ensures Format(t, row) == RenderRow(props, row)
  {
  }

  /** A row of one item is that item, untruncated: the template is a bare `%s`. */
  lemma OneItemRowUntruncated(props: LineProperties, item: string)
    requires |props.columnWidths| >= 1
    ensures RenderRow(props, [item]) == Success(item)
  {
    var t := GetLineTemplate(props, 1, true).value;
    assert t.fields == [Plain];
    assert seq(1, j requires 0 <= j < 1 => RenderField(t.fields[j], [item][j])) == [item];
  }

  /**
   * A row of `m >= 2` items, on strings: each of the first `m - 1` items is cut
   * to its column's width and padded with blanks to exactly that width, the
   * last is only cut to its width, and the parts are joined by `spacing` blanks.
   */
  lemma RowRendersCutAndPadded(props: LineProperties, row: seq<string>, parts: seq<string>)
    requires 2 <= |row| <= |props.columnWidths|
    requires |parts| == |row|
    requires forall j :: 0 <= j < |row| - 1 ==> parts[j] == CutAndPad(row[j], props.columnWidths[j])
    requires parts[|row| - 1] == Cut(row[|row| - 1], props.columnWidths[|row| - 1])
    ensures RenderRow(props, row) == Success(Join(parts, Spaces(props.spacing)))
  {
    PartsAreFields(props, row, parts);
    RowRendersFields(props, row, parts);
  }

  /** The cut and padded items are what the row template's fields make of them. */
  lemma PartsAreFields(props: LineProperties, row: seq<string>, parts: seq<string>)
    requires 2 <= |row| <= |props.columnWidths|
    requires |parts| == |row|
    requires forall j :: 0 <= j < |row| - 1 ==> parts[j] == CutAndPad(row[j], props.columnWidths[j])
    requires parts[|row| - 1] == Cut(row[|row| - 1], props.columnWidths[|row| - 1])
    ensures forall j :: 0 <= j < |row| ==> parts[j] == RenderField(GetLineTemplate(props, |row|, true).value.fields[j], row[j])
  {
    var t := GetLineTemplate(props, |row|, true).value;
    forall j | 0 <= j < |row|
      ensures parts[j] == RenderField(t.fields[j], row[j])
    {
      FieldRenders(props, |row|, j, row[j]);
      if j < |row| - 1 {
        assert parts[j] == CutAndPad(row[j], props.columnWidths[j]);
      } else {
        assert j == |row| - 1;
        assert parts[j] == Cut(row[j], props.columnWidths[j]);
      }
    }
  }

  /** A row formats to the join of what its template's fields make of its items. */
  lemma RowRendersFields(props: LineProperties, row: seq<string>, parts: seq<string>)
    requires 2 <= |row| <= |props.columnWidths| && |parts| == |row|
    requires forall j :: 0 <= j < |row| ==> parts[j] == RenderField(GetLineTemplate(props, |row|, true).value.fields[j], row[j])
    ensures RenderRow(props, row) == Success(Join(parts, Spaces(props.spacing)))
  {
    FormatRendersFields(GetLineTemplate(props, |row|, true).value, row, parts);
  }

  /** What field `j` of a template of `2 <= m` conversions makes of an item. */
  lemma FieldRenders(props: LineProperties, m: nat, j: nat, item: string)
    requires 2 <= m <= |props.columnWidths| && j < m
    ensures GetLineTemplate(props, m, true).Success?
    ensures RenderField(GetLineTemplate(props, m, true).value.fields[j], item)
            == if j < m - 1 then CutAndPad(item, props.columnWidths[j]) else Cut(item, props.columnWidths[j])
  {
    var t := GetLineTemplate(props, m, true).value;
    if j < m - 1 {
      assert t.fields[j] == LeftPadded(props.columnWidths[j]);
    } else {
      assert t.fields[j] == Truncated(props.columnWidths[j]);
    }
  }

  /**
   * A row of `m >= 2` items is at most as wide as the first `m` column widths
   * and the `m - 1` gaps: its first `m - 1` fields are exactly as wide as their
   * columns and the last one is cut to its column.
   */
  lemma RowWidthAtMost(props: LineProperties, row: seq<string>)
    requires 2 <= |row| <= |props.columnWidths|
    ensures |RenderRow(props, row).value| <= Sum(props.columnWidths[..|row|]) + (|row| - 1) * props.spacing
  {
    var m, widths := |row|, props.columnWidths;
    var t := GetLineTemplate(props, m, true).value;
    var parts := seq(m, j requires 0 <= j < m => RenderField(t.fields[j], row[j]));
    assert RenderRow(props, row).value == Join(parts, Spaces(props.spacing));
    forall j | 0 <= j < m
      ensures |parts[j]| <= widths[..m][j]
    {
      if j < m - 1 {
        assert t.fields[j] == LeftPadded(widths[j]);
      } else {
        assert t.fields[j] == Truncated(widths[j]);
      }
    }
    SumLengthsAtMost(parts, widths[..m]);
    JoinLength(parts, Spaces(props.spacing));
  }

  lemma {:induction false} SumLengthsAtMost(parts: seq<string>, bounds: seq<nat>)
    requires |parts| == |bounds|
    requires forall j :: 0 <= j < |parts| ==> |parts[j]| <= bounds[j]
    ensures Sum(Lengths(parts)) <= Sum(bounds)
  {
    if |parts| > 0 {
      assert Lengths(parts)[1..] == Lengths(parts[1..]);
      SumLengthsAtMost(parts[1..], bounds[1..]);
    }
  }

  /** Row `r` of the grid, rendered. */
  function LineAt(props: LineProperties, items: seq<string>, r: nat): string
    requires |props.columnWidths| >= 1 && r < NumLines(|items|, |props.columnWidths|)
  {
    RowLengthBounds(items, |props.columnWidths|, r);
    RenderRow(props, Stride(items, r, NumLines(|items|, |props.columnWidths|))).value
  }

  /** What `line_strings` yields: one empty line without columns, else one line per grid row. */
  function RenderedLines(props: LineProperties, items: seq<string>): seq<string>
  {
    var numColumns := |props.columnWidths|;
    if numColumns == 0 then [""]
    else seq(NumLines(|items|, numColumns), r requires 0 <= r < NumLines(|items|, numColumns) => LineAt(props, items, r))
  }

  /** With a single column every line is one item, untruncated, in order. */
  lemma SingleColumnLines(props: LineProperties, items: seq<string>)
    requires |props.columnWidths| == 1
    ensures RenderedLines(props, items) == items
  {
    var lines := RenderedLines(props, items);
    assert NumLines(|items|, 1) == |items| by {
      CeilDivBounds(|items|, 1);
    }
    forall r | 0 <= r < |items|
      ensures lines[r] == items[r]
    {
      var row := Stride(items, r, |items|);
      assert row == [items[r]] + Stride(items, r + |items|, |items|);
      assert row == [items[r]];
      OneItemRowUntruncated(props, items[r]);
    }
  }

  /** `Formatter`: the line properties and the items, stored by `__init__`. */
  class Formatter {
    const lineProperties: LineProperties
    const items: seq<string>

    constructor (lineProperties: LineProperties, items: seq<string> := [])
      ensures this.lineProperties == lineProperties && this.items == items
    {
      this.lineProperties := lineProperties;
      this.items := items;
    }

    /** `num_columns`. */
    function NumColumns(): nat
    {
      |lineProperties.columnWidths|
    }

    /**
     * `line_strings`: formats row `i` (`items[i::num_lines]`) with the current
     * template; when that raises `TypeError` because the row is short, it
     * switches to a template sized to the row and formats again.
     */
    method LineStrings() returns (lines: seq<string>)
      ensures lines == RenderedLines(lineProperties, items)
    {
      var numColumns := NumColumns();
      if numColumns == 0 {
        return [""];
      }
      var numLines := NumLines(|items|, numColumns);
      var template := GetLineTemplate(lineProperties, -1, true).value;
      assert GetLineTemplate(lineProperties, |template.fields|, true) == Success(template);
      lines := [];
      for i := 0 to numLines
        invariant |lines| == i
        invariant forall r :: 0 <= r < i ==> lines[r] == LineAt(lineProperties, items, r)
        invariant GetLineTemplate(lineProperties, |template.fields|, true) == Success(template)
      {
        var lineItems := Stride(items, i, numLines);
        RowLengthBounds(items, numColumns, i);
        var line := Format(template, lineItems);
        if line.Failure? {
          // the row is shorter than the template: rebuild it for the real number of items
          template := GetLineTemplate(lineProperties, |lineItems|, true).value;
          line := Format(template, lineItems);
        }
        FormatWithRowTemplate(lineProperties, template, lineItems);
        assert line.value == LineAt(lineProperties, items, i);
        lines := lines + [line.value];
      }
    }
  }
}
