# shcol column layout, modelled in Dafny

shcol lays out a list of strings in columns, as `ls` does. Its core is
`shcol.py`:

- `columnize(items, spacing=2, max_line_width=80)` plans the column widths,
  renders the lines and joins them with newlines;
- `LinePropertyBuilder` is the planner. It checks the two integer arguments
  and reduces the items to their lengths. It then searches chunk sizes
  `k = 1, 2, …`. For each `k` it splits the width list into contiguous
  chunks of `k` and takes each chunk's maximum. It accepts the first `k` for
  which the column widths plus `(columns - 1) * spacing` fit the line width;
- `Formatter` is the renderer. It puts row `i` as `items[i::num_lines]`
  (column-major) on `num_lines = ceil(n / num_columns)` lines. Each row is
  formatted with a printf template: `%-w.ws` for every field but the last,
  `%.ws` for the last field, and a bare `%s` when the template has a single
  conversion. When a row is shorter than the template, the `%` operator
  raises `TypeError` and the loop rebuilds the template for that row.

The project has six modules:

- `Arith` (`arith.dfy`): ceiling division `CeilDiv` on naturals, with its
  bounds.
- `Results` (`results.dfy`): `Result` and the two Python exceptions the core
  raises, `ValueError` and `TypeError`.
- `Planner` (`planner.dfy`): `LineProperties`, the width search as
  specification functions (`ChunkMaxima`, `Fits`, `SmallestFit`,
  `ColumnWidths`) with lemmas about them, and the class `LinePropertyBuilder`.
  The class's `GetColumnWidths` method is the source's loop, proved equal to
  `ColumnWidths`.
- `Renderer` (`renderer.dfy`): templates as data (`Field`, `Template`), the
  `%` operator as `Format`, `GetLineTemplate`, the stride `Stride`, the
  rendered lines `RenderedLines`, and the class `Formatter`. Its
  `LineStrings` loop keeps the try/except fallback and is proved equal to
  `RenderedLines`.
- `Shcol` (`columnize.dfy`): `Columnized` (what `columnize` returns or
  raises), the method `Columnize`, and the end-to-end properties.
- `Scenarios` (`scenarios.dfy`): concrete layouts worked out against the
  model.

Two behaviours of the code are kept as they are, although one might expect
otherwise:

- **The planner's chunks are not the renderer's columns.** The planner
  groups widths by the chunk size `k`. The renderer groups items by
  `ceil(n / ceil(n / k))` lines, which can differ from `k`. An item can
  therefore land under a column whose width was computed from other items,
  and be cut. `Scenarios.ChunkColumnMismatch` shows "ddddd" printed as "d".
  No lemma claims that every item fits its column.
- **One-conversion lines are not truncated.** A template of one conversion is
  `%s`. So when an item is longer than the limit, the one-column fallback
  `[max_line_width]` prints every item whole
  (`Shcol.DegradedLinesUntruncated`, `Scenarios.OverlongItemUntruncated`).
  The same holds for a last row that holds a single item. A 100-character
  item with limit 80 therefore comes out as 100 characters, not 80.

In the `["aa", "bb", "cc", "d"]` layout with spacing 1 and limit 5, row 0
holds items 0 and 2 and row 1 holds items 1 and 3. Column 0 thus holds items
0 and 1 (`Scenarios.ColumnMajor`).

## Model

| member | source | states |
|---|---|---|
| Planner.Lengths | shcol.py:23 | no contract of its own; the item lengths `[len(item) for item in items]`, used by `Plan` and the builder |
| Planner.MaxOf | shcol.py:52 | no contract of its own; characterised by `MaxOfIsMaximum` |
| Planner.GetMaxWidth | shcol.py:51-52 | no contract of its own; `max` of the slice clipped at the end, characterised by `MaxOfIsMaximum` and used by `ChunkMaximaAt` |
| Planner.ChunkMaxima | shcol.py:43-44 | no contract of its own; characterised by `ChunkMaximaLength` and `ChunkMaximaAt` |
| Planner.LineWidth | shcol.py:45-46 | no contract of its own; `sum(column_widths) + (len(column_widths) - 1) * spacing` |
| Planner.Fits | shcol.py:47 | no contract of its own; the acceptance test of a chunk size, used by `SmallestFit` and `ColumnWidthsFirstFit` |
| Planner.ColumnWidths | shcol.py:36-49 | no contract of its own; characterised by `ColumnWidthsEdgeCases`, `ColumnWidthsFirstFit`, `ColumnWidthsWithinLimit` and `ColumnCountMonotone`, and equal to what `GetColumnWidths` returns |
| Planner.CheckArgs | shcol.py:27-31 | succeeds exactly when spacing and max_line_width are both non-negative; otherwise the error is `ValueError` with the source's message |
| Planner.MaxOfIsMaximum | shcol.py:51-52 | the maximum of a non-empty slice of widths is one of its entries and bounds every entry |
| Planner.ChunkMaximaLength | shcol.py:43-44 | the comprehension over `range(start, n, k)` has `ceil((n - start) / k)` entries, none when `start >= n` |
| Planner.ChunkMaximaAt | shcol.py:43-44 | entry `j` is `get_max_width(start + j*k, start + j*k + k)` |
| Planner.WholeChunkFits | shcol.py:42-48 | with `k = n` there is one chunk, whose width is the widest item; so if that fits, the line fits and the search stops by `k = n` |
| Planner.SmallestFit | shcol.py:42-48 | the scan from `from` ends at some `k <= n` that fits, and every `k` in between does not fit |
| Planner.ColumnWidthsEdgeCases | shcol.py:36-40 | the widths are `[]` exactly when there are no items; an item longer than the limit gives exactly `[max_line_width]` |
| Planner.ColumnWidthsFirstFit | shcol.py:41-52 | when every item fits, the widths are the chunk maxima for some `1 <= k <= n`: `ceil(n / k)` entries, entry `j` the maximum of items `j*k` to `min((j+1)*k, n) - 1`, the line fits, and every smaller chunk size does not fit |
| Planner.FirstFitShape | shcol.py:41-52 | for the accepted chunk size `k`: `1 <= k <= n`, `ceil(n / k)` columns, column `j` the maximum of chunk `j`, the line fits, and every smaller chunk size does not |
| Planner.ColumnWidthsWithinLimit | shcol.py:36-49 | for a non-empty input there is at least one column, and either the planned line fits the limit or the widths are the fallback `[max_line_width]` because some item is too long |
| Planner.ColumnCountMonotone | shcol.py:42-48 | a wider limit never gives fewer columns |
| Planner.LinePropertyBuilder.constructor | shcol.py:21-25 | stores the item lengths, the spacing and the limit |
| Planner.LinePropertyBuilder.Create | shcol.py:21-31 | with a negative argument it fails with the `ValueError` of `_check_args`; otherwise it returns a fresh builder holding the item lengths, spacing and limit |
| Planner.LinePropertyBuilder.GetProperties | shcol.py:33-34 | returns the planned column widths together with the spacing |
| Planner.LinePropertyBuilder.GetColumnWidths | shcol.py:36-49 | the `count(1)` loop returns `ColumnWidths` of the stored fields, the first chunk size that fits |
| Arith.CeilDiv | shcol.py:66 | no contract of its own; characterised by `CeilDivBounds` (the least `q` with `a <= q * b`) |
| Renderer.Spaces | shcol.py:96 | `n * ' '` has length `n` and holds only blanks |
| Renderer.RenderField | shcol.py:93-95 | `%s` leaves the item as it is; `%-w.ws` gives exactly `w` characters, the item's first `min(len, w)` followed by blanks; `%.ws` gives the item's first `min(len, w)` characters |
| Renderer.Cut | shcol.py:95 | no contract of its own; the precision of `%.ws`, characterised by `RenderField`'s contract |
| Renderer.CutAndPad | shcol.py:93-94 | no contract of its own; `%-w.ws`, characterised by `RenderField`'s contract |
| Renderer.Join | shcol.py:96 | no contract of its own; `sep.join(parts)`, characterised by `JoinLength` |
| Renderer.JoinLength | shcol.py:96 | a join is as long as its parts plus one separator between each two of them |
| Renderer.Format | shcol.py:70-72 | `template % line_items` raises `TypeError` exactly when the number of items differs from the number of conversions |
| Renderer.GetLineTemplate | shcol.py:82-96 | more specs than columns raise `ValueError`; a negative count means one per column; zero gives no conversion; one with `allow_exceeding` gives `%s`; otherwise the first `m-1` fields are `%-w.ws` and the last is `%.ws`, on the first `m` widths, joined by `spacing` blanks |
| Renderer.Stride | shcol.py:69 | no contract of its own; characterised by `StrideLength` and `StrideAt` |
| Renderer.NumLines | shcol.py:66 | no contract of its own; `ceil(n / num_columns)` as `CeilDiv`, bounded by `RowLengthBounds` and `LineCount` |
| Renderer.StrideLength | shcol.py:69 | `items[start::step]` has `ceil((n - start) / step)` entries, none when `start >= n` |
| Renderer.StrideAt | shcol.py:69 | entry `p` of `items[start::step]` is `items[start + p*step]` |
| Renderer.RowEntryIsItem | shcol.py:66-69 | entry `p` of row `r` is item `r + p*num_lines`, and that index determines `r` and `p` back, so no item is in two places |
| Renderer.ItemInOneRow | shcol.py:66-69 | item `j` appears in row `j mod num_lines` at position `j div num_lines` |
| Renderer.RowLengthBounds | shcol.py:66-69 | each of the `ceil(n / num_columns)` rows has between one and `num_columns` items |
| Renderer.RenderRow | shcol.py:70-76 | a row renders without error exactly when it has at most `num_columns` items |
| Renderer.FormatWithRowTemplate | shcol.py:67-76 | a template built for `m` specs formats a row of `m` items exactly as `RenderRow` does, so keeping the template across rows changes nothing |
| Renderer.RowRendersCutAndPadded | shcol.py:92-96 | a row of `m >= 2` items renders to the join, by `spacing` blanks, of its first `m - 1` items each cut to its column's width and padded with blanks to exactly that width, followed by the last item cut to its width |
| Renderer.OneItemRowUntruncated | shcol.py:90-91 | a one-item row is the item itself, untruncated |
| Renderer.RowWidthAtMost | shcol.py:92-96 | a row of `m >= 2` items is at most as wide as the first `m` column widths plus `m - 1` gaps |
| Renderer.LineAt | shcol.py:68-76 | no contract of its own; line `r` is `RenderRow` of the row `items[r::num_lines]`, which `RowLengthBounds` shows renders without error |
| Renderer.RenderedLines | shcol.py:60-76 | no contract of its own; characterised by `SingleColumnLines`, `LineCount`, `LinesWithinLimit` and `DegradedLinesUntruncated`, and equal to what `LineStrings` returns |
| Renderer.SingleColumnLines | shcol.py:60-76 | with a single column the lines are exactly the items, in order and untruncated |
| Renderer.Formatter.constructor | shcol.py:56-58 | stores the line properties and the items, which default to none |
| Renderer.Formatter.NumColumns | shcol.py:78-80 | no contract of its own; `len(column_widths)` of the stored properties, as `LineStrings` uses it |
| Renderer.Formatter.LineStrings | shcol.py:60-76 | the loop with its `TypeError` fallback yields exactly `RenderedLines`: `''` alone without columns, else row `i` formatted with a template of that row's length |
| Shcol.Plan | shcol.py:15-16 | no contract of its own; the `LineProperties` that `get_properties` returns, as `GetProperties` is proved to |
| Shcol.Columnized | shcol.py:14-18 | no contract of its own; what `columnize` returns or raises, characterised by `ArgumentsChecked`, `NoItems`, `LineCount`, `LinesWithinLimit` and `DegradedLinesUntruncated` |
| Shcol.Columnize | shcol.py:14-18 | returns `Columnized`: the `ValueError` of the builder, or the rendered lines joined by newlines |
| Shcol.ArgumentsChecked | shcol.py:14-16 | `columnize` fails exactly when spacing or max_line_width is negative, and the failure is that `ValueError` |
| Shcol.NoItems | shcol.py:37-38 | no items give no widths, the single line `''`, and `columnize([]) == ''` |
| Shcol.LineCount | shcol.py:62-69 | with items there is at least one column and `ceil(n / num_columns)` lines; each line renders the row `items[i::num_lines]`, which has between one and `num_columns` items |
| Shcol.LinesWithinLimit | shcol.py:39-96 | when every item fits the limit, every rendered line does too |
| Shcol.DegradedLinesUntruncated | shcol.py:39-40 | when some item is too long, the widths are `[max_line_width]` and the lines are the items themselves, none cut |
| Scenarios.OneLine | shcol.py:14-18 | `columnize(["a", "bb", "ccc"], 2, 80) == "a  bb  ccc"` |
| Scenarios.OneLinePlan | shcol.py:36-49 | chunk size 1 fits, and the plan is widths `[1, 2, 3]` with spacing 2 |
| Scenarios.ColumnMajor | shcol.py:14-18 | `columnize(["aa", "bb", "cc", "d"], 1, 5) == "aa cc\nbb d"` |
| Scenarios.ColumnMajorPlan | shcol.py:36-49 | chunk size 1 does not fit and 2 does, and the plan is widths `[2, 2]` with spacing 1 |
| Scenarios.ColumnMajorLines | shcol.py:60-76 | the lines are `["aa cc", "bb d"]`, rendered from the rows `items[0::2]` and `items[1::2]` |
| Scenarios.OverlongItemUntruncated | shcol.py:39-40 | `columnize(["xxxxx"], 2, 3) == "xxxxx"` |
| Scenarios.ShortLastRow | shcol.py:14-18 | `columnize(["a", "b", "c"], 2, 4) == "a  c\nb"` |
| Scenarios.ShortLastRowPlan | shcol.py:36-49 | chunk size 1 does not fit and 2 does, and the plan is widths `[1, 1]` with spacing 2 |
| Scenarios.ShortLastRowLines | shcol.py:70-76 | the lines are `["a  c", "b"]`: the short last row has no trailing blanks |
| Scenarios.ChunkColumnMismatch | shcol.py:14-18 | `columnize(["bb", "a", "c", "ddddd", "e"], 0, 6) == "bb   d\na    e\nc"` |
| Scenarios.MismatchPlan | shcol.py:36-49 | chunk sizes 1 to 3 do not fit and 4 does, and the plan is widths `[5, 1]` with spacing 0 |
| Scenarios.MismatchLines | shcol.py:60-76 | the lines are `["bb   d", "a    e", "c"]`: "ddddd" falls under the column of width 1 |
| Scenarios.MismatchRows | shcol.py:66-76 | there are 3 lines, and lines 0 to 2 are `"bb   d"`, `"a    e"` and `"c"` |

## Left out

- `test` (shcol.py:99-104) is not modelled: it reads `globals()`, sorts with `str.lower` and prints.
- The `_range` shim (shcol.py:7-10) is not modelled: it exists only for Python 2 compatibility.
- The `isinstance(arg, int)` half of `_check_args` is not modelled: the Dafny types already demand integers. Only the negativity check remains.
- `shcol/helpers/misc.py` and `shcol/highlevel.py` are not part of this model. They hold locale collation, file listing, stream handling and printing wrappers.
- `line_strings` is a lazy generator. The model computes the whole sequence of lines.
- `ceil(n / num_columns)` uses float division. The model uses exact ceiling division, which agrees with it for any list that fits in memory.
- Templates are modelled as a list of conversions (`Template`), not as a format string. `Format` gives `%` its meaning on that list. The only other character in a template is the blank.
- `Planner.GetMaxWidth`: `max` of an empty slice raises `ValueError`. The model requires `start < stop` and `start < len(widths)`, which every call in `get_column_widths` meets.
- `GetProperties` and `GetColumnWidths` are idempotent. Their fields are never reassigned, so this follows from their contracts and needs no lemma.
