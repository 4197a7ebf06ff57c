# chart_generator in Dafny

chart_generator produces synthetic chart images for visual question answering. Each generator seeds Python's
`random`, draws an overlay colour and a small data table, and renders the chart. It then pads the image onto a
square canvas and writes a metadata record, whose `answer` field is the ground truth for the chart's question.

This project models the deterministic core of those generators:

- **The colour strings** (`rgba.dfy`, `text.dfy`):
  - `_random_rgba` writes `rgba(r,g,b,alpha)`; `_rgba_str_to_tuple` reads it back.
  - The supporting Python string operations are modelled exactly: `str(int)`, `split`, `replace(pat, "")`
    and string order. `float()`'s trimming of surrounding whitespace is modelled for the six ASCII
    whitespace characters (space, `\t`, `\n`, `\v`, `\f`, `\r`).
- **The square padding** (`padding.dfy`):
  - The canvas is a class over a 2-D pixel array.
  - The paste is a loop over the source rectangle, and the optional tint is a full-canvas composite.
  - The result is saved without alpha, to `save_path` or over the source.
- **The ground truth of each generator**:
  - bar, pie, bubble, line, area, treemap, choropleth, stacked bar, stacked area, 100%-stacked bar, and the
    older `generate_bar_chart`;
  - for each: default and fallback labels, the order of the random draws and their ranges, the table layout,
    pandas' `idxmax` (the first row with the largest value), `groupby('category').sum()`, the file names, and
    the metadata record.

The seeded random stream is an input: `draws` holds the outcome of each `randint`/`choice`/`uniform` call in call
order. Preconditions state the range each call can return.

Pandas' `idxmax` is `Aggregate.IdxMax`. It returns the first maximal position, or `None` where pandas raises on an
empty column. A run that raises is an `Err` of `Records.GenError`:
- `ArgMaxOfEmpty` when a generator is asked for zero items;
- `MissingColumn("category")` when a stacked generator builds `DataFrame([])`.

The nested loops of the stacked generators are methods with loop invariants (`Stacking.FillTable`,
`Stacked100Chart.FillShares`). Each is proved equal to the specification function `Tables.CategoryMajor`, and
lemmas about that function give:
- the row count;
- the position of each (category, member) pair;
- the per-category group sums;
- the order in which `groupby` lists the groups.

The 100%-stacked proportions `val / total` are exact rationals, like every Python `float` in the model (see `Rgba.ParseNumber` under "Left out").

Two details of the code matter here:
- The overlay alpha is `int(255 * overlay_opacity)`, a truncation, and the alpha parsed from the colour string
  is ignored (`Padding.OverlayColour`).
- `BarChart`, `BubbleChart` and `LineChart` use fixed file names that do not depend on the seed.

## Model

| member | source | states |
|---|---|---|
| Rgba.FormatIsJoin | generators/generator.py:31 | the colour string is `rgba(` + the four printed fields joined by commas + `)` |
| Rgba.RandomRgbaReadsBack | generators/generator.py:27-36 | `_random_rgba` writes exactly three commas; parsing it back gives the three drawn channels, each in [220, 255], and the alpha |
| Rgba.DefaultAlphaIsOne | generators/generator.py:27 | the default alpha `1.0` is a well-formed decimal whose value is 1 |
| Rgba.RoundTrip | generators/generator.py:31-36 | with `float` read as an exact real, for all integer channels and every decimal alpha, parse(format(r, g, b, alpha)) == Ok(Colour(r, g, b, alpha)); Python agrees for channels up to 2^53 in magnitude, which covers the drawn 220..255 |
| Rgba.FieldsOfFormat | generators/generator.py:31-35 | stripping the wrapper and splitting on commas recovers exactly the four printed fields |
| Rgba.FieldCount | generators/generator.py:34-35 | the string splits into one more field than it has commas; removing the wrapper removes no comma |
| Rgba.WrongCommaCount | generators/generator.py:35 | a string without exactly three commas is refused (the four-name unpacking raises) |
| Rgba.Unwrap | generators/generator.py:34 | `replace("rgba(", "").replace(")", "")` on `rgba(x)` gives back x when x is printed numbers and commas |
| Rgba.ParseInt | generators/generator.py:35 | `float(str(i))` read as an exact real is i for every integer; Python's `float` agrees up to 2^53 in magnitude |
| Rgba.ParseDecimal | generators/generator.py:31-35 | `float` of a printed decimal, read as an exact real, is the decimal's value; in Python this holds for a printed float, since `float(repr(x)) == x` |
| Rgba.ParseAll | generators/generator.py:35 | `map(float, fields)` succeeds with one value per field that parses, else names the first field that fails, with all earlier fields parsing |
| Rgba.Unpack4 | generators/generator.py:35 | unpacking into four names succeeds only with exactly four fields, each the parse of its field; any other count is an error |
| Rgba.UnpackParsed | generators/generator.py:35 | four fields that parse unpack to exactly their values |
| Rgba.FromParsed | generators/generator.py:35-36 | four parsed fields give the colour with the first three cut to integers and the fourth kept |
| Rgba.ReadBack | generators/generator.py:35-36 | the printed channels and alpha convert back to the same colour |
| Rgba.Truncate | generators/generator.py:36 | `int(x)` truncates toward zero: within one of x and no farther from 0 than x, for both signs |
| Text.IntToStringInjective | generators/pie_generator.py:38 | different seeds print differently |
| Text.NatToStringRoundTrip | generators/stackedbar_generator.py:19 | the digits of `str(n)` read back as n |
| Text.Split | generators/generator.py:35 | `split(sep)` gives at least one piece and no piece holds the separator |
| Text.SplitCount | generators/generator.py:35 | split gives one more piece than there are separators |
| Text.SplitJoin | generators/generator.py:35 | splitting a join of separator-free pieces gives back the pieces |
| Text.Erase | generators/generator.py:34 | `replace(pat, "")` never lengthens the string |
| Text.EraseKeepsCount | generators/generator.py:34 | deleting a pattern that lacks c keeps the number of c's |
| Text.StripKeepsTrimmed | generators/generator.py:35 | `float`'s whitespace strip leaves a trimmed numeral unchanged |
| Text.LexLessTotal | generators/stackedbar_generator.py:31 | Python's string order is total on different strings |
| Text.LexLessTransitive | generators/stackedbar_generator.py:31 | Python's string order is transitive |
| Padding.Dim | generators/generator.py:43 | the canvas side is at least size, w and h, and equals one of them |
| Padding.Offset | generators/generator.py:47-48 | the paste offset is non-negative, the image fits inside the canvas, and the margin after it is the margin before it or one more |
| Padding.Canvas.constructor | generators/generator.py:45 | the new canvas is side x side and entirely opaque white |
| Padding.Canvas.Paste | generators/generator.py:49 | every pixel of the source rectangle is mixed with its source pixel; every other pixel is unchanged |
| Padding.Canvas.Composite | generators/generator.py:54-55 | `alpha_composite` yields a new canvas of the same side with each pixel blended with the overlay colour |
| Padding.Canvas.Rgb | generators/generator.py:61 | `convert("RGB")` keeps the side and drops each pixel's alpha |
| Padding.FinalImage | generators/generator.py:43-61 | the saved image is square with side `max(size, w, h)` |
| Padding.ShowsFinal | generators/generator.py:45-61 | a canvas holding the padded (and tinted) image converts to FinalImage |
| Padding.MakeSquarePadding | generators/generator.py:38-61 | fails exactly when an overlay string is given and does not parse; otherwise saves FinalImage to `save_path`, or over `img_path` when none is given, tinted with the parsed channels and alpha `int(255 * overlay_opacity)` |
| Padding.OpaqueSourceKept | generators/generator.py:47-49 | with no overlay, an opaque source pixel appears unchanged at its centred position |
| Padding.MarginWhite | generators/generator.py:45-52 | with no overlay, every pixel outside the pasted rectangle, or under a fully transparent source pixel, is white |
| Padding.ClearOverlay | generators/generator.py:52-55 | an overlay of alpha 0 leaves the saved image as it would be without one |
| Padding.OpaqueSquareUnchanged | generators/generator.py:42-49 | an opaque square image at least `size` wide comes back as it was, without alpha |
| Draws.RangeLen | generators/treemap_generator.py:18 | `len(range(n))` is n for n >= 0 and 0 otherwise |
| Draws.Choice | generators/bar_generator.py:30-32 | `random.choice` returns a member of its list |
| Labels.Letter | generators/treemap_generator.py:18 | `chr(65 + i)` is the one character with code 65 + i |
| Labels.Letters | generators/treemap_generator.py:18 | n letters, the i-th being `chr(65 + i)` |
| Labels.LettersAscending | generators/stackedbar_generator.py:18 | the letters strictly ascend in Python's string order, so groupby keeps generation order |
| Labels.SeriesName | generators/stackedbar_generator.py:19 | `f"S{i+1}"` is an S followed by decimal digits whose value is i + 1 |
| Labels.SeriesNames | generators/stackedbar_generator.py:19 | n series names, the i-th being `S{i+1}` |
| Labels.SeriesNamesDistinct | generators/stackedbar_generator.py:19 | different series get different names |
| Labels.Positions | generators/line_generator.py:20 | `range(1, n + 1)` is exactly 1..n in order |
| Labels.Categories | generators/bar_generator.py:23-25 | the supplied categories are used exactly when non-empty and of length n, otherwise the letters; always n labels |
| Aggregate.IdxMax | generators/pie_generator.py:46 | None exactly on an empty column; otherwise the first position with the largest value |
| Aggregate.FirstMaxUnique | generators/pie_generator.py:46 | there is only one first maximal position |
| Aggregate.LabelAtMax | generators/pie_generator.py:46 | `df.loc[idxmax, label]`: None exactly on an empty column, else the label of the first maximal row |
| Records.SeededNamesDistinct | generators/pie_generator.py:38 | different seeds give different seeded base names |
| Records.PathJoinShape | generators/generator.py:18-19 | `os.path.join` ends with the name and, for a relative name, starts with the directory and a separator |
| Records.PathJoinInjective | generators/generator.py:18-23 | under one directory, different relative names give different paths |
| Records.Saved | generators/generator.py:18-25 | image at `output_dir/{base}.{img_format}`, metadata at `output_dir/{base}.json`, and the record's filename naming the image |
| Records.SavedApart | generators/generator.py:18-25 | the metadata file never overwrites the image unless the image format is json |
| Charts.BackgroundReadsBack | generators/generator.py:52-53 | the background colour parses back as the first three draws and alpha 1 |
| Charts.Padded | generators/bar_generator.py:52-58 | a padded run files its outputs and pads its image at size `width` with the given overlay |
| Bars.Frame | generators/bar_generator.py:28 | one row per category with its value, in order |
| Bars.Insert | generators/bar_generator.py:34-35 | inserting keeps the rows sorted by value and adds exactly that row |
| Bars.SortByValue | generators/bar_generator.py:34-35 | `sort_values('Value')` gives ascending values and the same multiset of (category, value) rows |
| Bars.MaxCategory | generators/bar_generator.py:60 | None exactly when there are no rows |
| Bars.UnsortedAnswer | generators/bar_generator.py:60 | unsorted, the answer is the category of the first row of maximal value |
| Bars.AnswerIsMaximal | generators/bar_generator.py:34-60 | sorted or not, the answer is the category of a row whose value is at least every value |
| Bars.ColumnAnswer | generators/bar_generator.py:28-60 | the answer is a category of maximal value, the first such when unsorted; None only for empty columns |
| BarChart.Generate | generators/bar_generator.py:14-75 | fails (idxmax on empty) exactly when `num_bars <= 0`; files as `BarChart.{fmt}`; pads with the background colour; chart type "bar" and answer == max_category |
| BarChart.GenerateVariation | generators/bar_generator.py:30-32 | the scheme, sort and orientation picks are recorded in the variation with `num_bars` |
| BarChart.GenerateAnswer | generators/bar_generator.py:60 | the answer is a category whose value is maximal |
| BarChart.GenerateFirstAnswer | generators/bar_generator.py:60 | when not sorted, the answer is the first category of maximal value |
| PieChart.Generate | generators/pie_generator.py:14-59 | fails exactly when `num_slices <= 0`; files as `pie_{seed}.{fmt}`; pads with the background; chart type "pie" and answer == max_category |
| PieChart.GenerateVariation | generators/pie_generator.py:30 | the scheme is in {category10, set2} and `num_slices` is recorded |
| PieChart.GenerateAnswer | generators/pie_generator.py:46 | the answer is the first category whose value is maximal |
| BubbleChart.Generate | generators/bubble_generator.py:14-64 | fails exactly when `num_points <= 0`; files as the fixed `BubbleChart.{fmt}`; chart type "bubble" and answer == max_label |
| BubbleChart.GenerateVariation | generators/bubble_generator.py:36 | the scheme, drawn after the sizes, is in {category10, tableau10} |
| BubbleChart.GenerateAnswer | generators/bubble_generator.py:35 | the answer is the first label whose size is maximal; the x and y draws play no part |
| LineChart.Generate | generators/line_generator.py:14-56 | fails exactly when `num_points <= 0`; files as the fixed `LineChart.{fmt}`; chart type "line" and answer == max_x |
| LineChart.GenerateVariation | generators/line_generator.py:25 | the colour is one of the three listed |
| LineChart.GenerateAnswer | generators/line_generator.py:23 | the answer is an x in 1..n whose y is the first maximal |
| AreaChart.Generate | generators/area_generator.py:14-52 | fails exactly when `num_points <= 0`; files as `area_{seed}.{fmt}`; chart type "area" and answer == max_x |
| AreaChart.GenerateVariation | generators/area_generator.py:25 | the scheme is in {blue, teal, orange} |
| AreaChart.GenerateAnswer | generators/area_generator.py:23 | the answer is an x in 1..n whose y is the first maximal |
| TreemapChart.Generate | generators/treemap_generator.py:13-63 | fails exactly when `num_categories <= 0`; padding without overlay; background colour recorded in the variation; chart type "treemap" |
| TreemapChart.GenerateAnswer | generators/treemap_generator.py:21 | the answer is the first letter whose value is maximal |
| ChoroplethChart.Generate | generators/choropleth_generator.py:13-86 | never fails; `num_states` is 50; the answer is the first state, in list order, whose value is maximal; chart type "choropleth" |
| LegacyBarChart.Generate | generator.py:26-73 | fails exactly when `num_bars <= 0`; files as `bar_{seed}` with metadata at `output_dir/bar_{seed}.json`; no padding; chart type "bar" |
| LegacyBarChart.GenerateVariation | generator.py:33-35 | the three picks are recorded in the variation with `num_bars` |
| LegacyBarChart.GenerateAnswer | generator.py:58 | the answer is a category of maximal value; unsorted, the first such |
| Tables.Block | generators/stackedbar_generator.py:23-28 | one inner-loop pass appends one row per member, in order |
| Tables.Chunks | generators/stackedbar_generator.py:22-28 | the draws cut into one piece of w values per category |
| Tables.ChunkAt | generators/stackedbar_generator.py:22-28 | piece i is the draws at positions i*w up to (i+1)*w |
| Tables.BlockStep | generators/stackedbar_generator.py:23-28 | an inner-loop step appends exactly the next row |
| Tables.CategoryMajorStep | generators/stackedbar_generator.py:22-28 | an outer-loop step appends exactly the next category's block |
| Tables.CategoryMajorSize | generators/stackedbar_generator.py:22-28 | the table has `num_categories * num_series` rows |
| Tables.CellAt | generators/stackedbar_generator.py:22-28 | row i*w + j holds category i, member j and the j-th value drawn for i |
| Tables.PairsOnce | generators/stackedbar_generator.py:22-28 | with distinct categories and members, no (category, member) pair occurs twice |
| Tables.GroupSumIsBlockSum | generators/stackedbar_generator.py:31 | the group sum of a category is the sum of the values drawn for it |
| Tables.GroupSumOfAbsentKey | generators/stackedbar_generator.py:31 | a key that is no category has group sum 0 |
| Tables.InsertKey | generators/stackedbar_generator.py:31 | adding a key keeps the key list ascending and adds exactly that key |
| Tables.GroupKeys | generators/stackedbar_generator.py:31 | the groups are the row categories, each once, in ascending order |
| Tables.AscendingUnique | generators/stackedbar_generator.py:31 | two ascending lists with the same keys are equal, so the group order is determined |
| Tables.GroupOrderUnique | generators/stackedbar_generator.py:31 | the group order of a table is unique |
| Tables.CategoriesHaveRows | generators/stackedbar_generator.py:22-31 | with at least one member every category has a row |
| Tables.RowsHaveCategories | generators/stackedbar_generator.py:22-31 | every row's category is one of the categories |
| Tables.CategoriesAreGroupOrder | generators/stackedbar_generator.py:22-31 | ascending categories are the order in which groupby lists the groups |
| Stacking.Drawn | generators/stackedbar_generator.py:22-28 | the values the loop takes form n pieces of w |
| Stacking.DrawnAt | generators/stackedbar_generator.py:27 | value j of category i is draw from + i*w + j |
| Stacking.FillTable | generators/stackedbar_generator.py:20-28 | the nested loop builds exactly the category-major table of the draws and consumes n*w draws |
| Stacking.GroupMax | generators/stackedbar_generator.py:31-32 | `groupby(...).sum().idxmax()` is None exactly on an empty table |
| Stacking.TotalsOfTable | generators/stackedbar_generator.py:31 | grouped totals of the table are the per-category sums of the draws |
| Stacking.GroupMaxOfTable | generators/stackedbar_generator.py:31-32 | for ascending categories, the answer is the first category whose drawn total is maximal |
| Stacking.GroupMaxOfLetters | generators/stackedbar_generator.py:18-32 | the same for the letter categories |
| StackedBarChart.Summarise | generators/stackedbar_generator.py:30-77 | fails (KeyError) exactly on an empty table; files as `stacked_bar_{seed}`; variation records the scheme and both counts; answer == max_category == groupby argmax |
| StackedBarChart.Generate | generators/stackedbar_generator.py:13-79 | the loop's table is the category-major table of the draws, with `num_categories * num_series` rows, and the result is Summarise of it |
| StackedBarChart.GenerateFails | generators/stackedbar_generator.py:30-32 | the run fails exactly when there are no categories or no series |
| StackedBarChart.GenerateAnswer | generators/stackedbar_generator.py:31-32 | the answer is the first letter whose drawn values have the largest total |
| StackedAreaChart.Summarise | generators/stackedarea_generator.py:31-79 | fails exactly on an empty table; files as `stacked_area_{seed}`; variation records scheme, `num_series`, `num_points`; answer == max_category |
| StackedAreaChart.Generate | generators/stackedarea_generator.py:13-81 | the loop's table is the series-major table over x = 1..n, with `num_series * num_points` rows, and the result is Summarise of it |
| StackedAreaChart.GenerateFails | generators/stackedarea_generator.py:31-33 | the run fails exactly when there are no series or no points |
| StackedAreaChart.GenerateAnswer | generators/stackedarea_generator.py:32-33 | the answer is the first series letter whose drawn values have the largest total |
| Proportions.SharesAreRatios | generators/stacked100_generator.py:24-29 | the total is positive and each proportion is `val / total` |
| Proportions.SharesSumToOne | generators/stacked100_generator.py:24-29 | a category's proportions add up to exactly 1 |
| Proportions.ShareBounds | generators/stacked100_generator.py:24-29 | each proportion lies in (0, 1], and is below 1 whenever there are two or more series |
| Stacked100Chart.PieceIsPositive | generators/stacked100_generator.py:23-24 | each category's draws lie in the stream and are positive, so its total is positive |
| Stacked100Chart.CategorySharesAt | generators/stacked100_generator.py:23-29 | category i's proportions are the shares of its own draws |
| Stacked100Chart.CategorySharesBounds | generators/stacked100_generator.py:23-29 | category i's proportions lie in (0, 1] and sum to exactly 1 |
| Stacked100Chart.FillStep | generators/stacked100_generator.py:22-30 | one outer-loop pass extends the table by that category's block of shares |
| Stacked100Chart.AppendShares | generators/stacked100_generator.py:25-30 | the inner `zip` loop appends one row per series holding `val / total` |
| Stacked100Chart.FillShares | generators/stacked100_generator.py:22-30 | the loop builds exactly the category-major table of proportions and consumes n*w draws |
| Stacked100Chart.Summarise | generators/stacked100_generator.py:32-89 | fails exactly on an empty table; the answer and max_segment are the (category, series) of the first maximal row; chart type "stacked_bar_100"; scheme in the three listed |
| Stacked100Chart.Generate | generators/stacked100_generator.py:13-91 | the loop's table is the proportions table, with `num_categories * num_series` rows, and the result is Summarise of it |
| Stacked100Chart.TableGrid | generators/stacked100_generator.py:22-30 | row i*w + j of the table is (category i, series j, proportion i j) |
| Stacked100Chart.FirstMaxGrid | generators/stacked100_generator.py:36-38 | the first maximal row of the column is a grid cell no proportion exceeds and every earlier cell is below |
| Stacked100Chart.SegmentOfTable | generators/stacked100_generator.py:36-38 | the first maximal row is that cell's category and series |
| Stacked100Chart.SegmentAnswer | generators/stacked100_generator.py:36-38 | the segment Summarise reports is (category i, series j) of the first largest proportion |
| Stacked100Chart.GenerateFails | generators/stacked100_generator.py:32-36 | the run fails exactly when there are no categories or no series |
| Stacked100Chart.GenerateAnswer | generators/stacked100_generator.py:36-38 | the answer is the segment (letter i, `S{j+1}`) of the largest proportion, earliest in row order on ties |

## Left out

- Rendering with altair and plotly (`chart.save`, `fig.write_image`, styling and layout calls): these are foreign libraries, so the chart image is an input to the padding.
- Image decoding and encoding, and the per-pixel arithmetic of PIL's masked `paste` and `alpha_composite`: these are the parameters `mix` and `blend`. Only their exact cases are assumed, and only by the lemmas that need them (`PasteLaw`, `CompositeLaw`).
- Padding.MakeSquarePadding: takes `int(255 * overlay_opacity)` as an integer parameter; float multiplication is not modelled. The decoding and writing errors of PIL are not modelled either.
- The random generator's algorithm and `random.seed`: the outcomes of the calls are the input `draws`.
- StackedBarChart.Generate, StackedAreaChart.Generate and Stacked100Chart.Generate (and their lemmas): require the scheme pick after the table to be in range even when the table is empty, where Python raises before making that call. The unused requirement excludes no seeded stream, since such a stream always has a next value. Line, area and bubble require their last pick only when they succeed.
- The bubble chart's `uniform(0, 100)` x and y values: they are floats and never reach the answer. The model accounts for their position in the stream but not their values.
- The pie chart's `Percentage` column: it is float arithmetic that nothing downstream reads.
- The keyword arguments `x_label`, `y_label`, `size_label` and `title`: they only reach the renderer.
- The `height` setting: it only reaches the renderer.
- Bars.SortByValue: keeps rows of equal value in their original order, as numpy's default sort does on short columns. pandas' default sort promises no order among equal values, so which tied row it puts last is not modelled.
- BarChart.GenerateAnswer: promises only a category of maximal value when the table was sorted. The tie order after pandas' sort is unspecified, for the reason above.
- LegacyBarChart.GenerateAnswer: the same for the older pipeline.
- Rgba.ParseNumber: models Python's `float` values as exact reals, not as binary64. Python agrees for integers up to 2^53 in magnitude and for `float(repr(x)) == x`, so the drawn channels (220..255) and the alpha `1.0` are exact. `float("0.1")` is not 1/10 in Python, and integers above 2^53 round; neither is modelled.
- Rgba.ParseNumber: reads the positional decimal forms of Python's `float` only: optional sign, digits with at most one point, and surrounding ASCII whitespace. Non-ASCII whitespace around the numeral, which `float()` also skips, is refused here. Exponents, `inf`, `nan`, underscores and non-ASCII digits are not modelled.
- Rgba.RgbaStrToTuple: its own contract states only that a success parsed exactly four fields. The round trip and the error cases are Rgba.RoundTrip, Rgba.WrongCommaCount and Rgba.Unpack4.
- Labels.Letter: `chr(65 + i)` is modelled only below the surrogate code points (`MaxLetters`), which Dafny's `char` excludes.
- Writing the files (`os.makedirs`, `chart.save`, `json.dump`, the JSON layout): only the paths and the record are modelled. On the `ArgMaxOfEmpty` path the source has already saved (and, except in the older bar pipeline, padded) the image before `idxmax` raises; the model's error result does not record that file.
- `ChartGenerator.generate` of the base class: it only raises NotImplementedError.
- The scatter and histogram generators: they are built on float distances and gaussian/exponential samples.
- app.py (the gradio UI) and main.py (a script entry point).
