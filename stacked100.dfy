/** `Stacked100Generator.generate`: for each letter category one draw in
    [1, 100] per series, normalised by the category's total so the
    segments of a bar fill it exactly; the segment with the largest
    proportion (the first one in row order on a tie) is the answer; the
    chart is saved as `stacked_bar_100_{seed}` and padded with the
    background colour. */
module Stacked100Chart {
  import opened Wrappers
  import opened Draws
  import opened Aggregate
  import opened Labels
  import opened Tables
  import opened Stacking
  import opened Proportions
  import opened Records
  import opened Charts

  const ColorSchemes: seq<string> := ["category10", "set2", "dark2"]

  /** Category i's w draws, starting at from + i * w, lie within the
      stream and are all positive. */
  lemma PieceIsPositive(draws: seq<int>, from: nat, n: nat, w: nat, i: nat)
    requires InRange(draws, from, n * w, 1, 100) && i < n
    ensures from + i * w + w <= |draws|
    ensures Positive(draws[from + i * w..from + i * w + w])
  {
    BlockBound(i, n, w);
    var piece := draws[from + i * w..from + i * w + w];
    forall j | 0 <= j < |piece| ensures piece[j] > 0 {
      assert piece[j] == draws[from + i * w + j];
    }
  }

  /** The proportions of category i, whose w draws start at
      from + i * w. */
  function CategoryShares(draws: seq<int>, from: nat, n: nat, w: nat, i: nat): (r: seq<real>)
    requires InRange(draws, from, n * w, 1, 100) && i < n
    ensures |r| == w
  {
    PieceIsPositive(draws, from, n, w, i);
    Shares(draws[from + i * w..from + i * w + w])
  }

  /** The proportions table of the draws starting at `from`: n categories
      of w series each. */
  function Proportioned(draws: seq<int>, from: nat, n: nat, w: nat): (r: seq<seq<real>>)
    requires InRange(draws, from, n * w, 1, 100)
    ensures |r| == n && Rectangular(r, w)
  {
    seq(n, i requires 0 <= i < n => CategoryShares(draws, from, n, w, i))
  }

  /** Category i's proportions are the shares of its draws `piece`. */
  lemma CategorySharesAt(draws: seq<int>, from: nat, n: nat, w: nat, i: nat, piece: seq<int>)
    requires InRange(draws, from, n * w, 1, 100) && i < n
    requires from + i * w + w <= |draws| && piece == draws[from + i * w..from + i * w + w]
    ensures Positive(piece) && Proportioned(draws, from, n, w)[i] == Shares(piece)
  {
    PieceIsPositive(draws, from, n, w, i);
    assert Proportioned(draws, from, n, w)[i] == CategoryShares(draws, from, n, w, i);
  }

  /** Category i's proportions lie in (0, 1] and add up to exactly 1. */
  lemma CategorySharesBounds(draws: seq<int>, from: nat, n: nat, w: nat, i: nat)
    requires InRange(draws, from, n * w, 1, 100) && i < n && w > 0
    ensures forall j :: 0 <= j < w ==> 0.0 < Proportioned(draws, from, n, w)[i][j] <= 1.0
    ensures SumReals(Proportioned(draws, from, n, w)[i]) == 1.0
  {
    PieceIsPositive(draws, from, n, w, i);
    var piece := draws[from + i * w..from + i * w + w];
    SharesSumToOne(piece);
    forall j | 0 <= j < w ensures 0.0 < Shares(piece)[j] <= 1.0 {
      ShareBounds(piece, j);
    }
  }

  /** One turn of the outer loop: appending the shares of category i's
      draws extends the table by that category's block. */
  lemma FillStep(cats: seq<string>, series: seq<string>, draws: seq<int>, from: nat, i: nat, piece: seq<int>)
    requires InRange(draws, from, |cats| * |series|, 1, 100) && i < |cats|
    requires from + i * |series| + |series| <= |draws|
    requires piece == draws[from + i * |series|..from + i * |series| + |series|]
    ensures Positive(piece) && |piece| == |series|
    ensures from + (i + 1) * |series| == from + i * |series| + |series|
    ensures var props := Proportioned(draws, from, |cats|, |series|);
            CategoryMajor(cats[..i], series, props[..i]) + Block(cats[i], series, Shares(piece))
              == CategoryMajor(cats[..i + 1], series, props[..i + 1])
  {
    var props := Proportioned(draws, from, |cats|, |series|);
    CategorySharesAt(draws, from, |cats|, |series|, i, piece);
    CategoryMajorStep(cats, series, props, i);
    assert (i + 1) * |series| == i * |series| + |series|;
  }

  /** The inner loop: one row per series, holding `val / total`. */
  method AppendShares(data: seq<Cell<string, real>>, category: string, series: seq<string>, proportions: seq<int>)
    returns (out: seq<Cell<string, real>>)
    requires |proportions| == |series| && Positive(proportions)
    ensures out == data + Block(category, series, Shares(proportions))
  {
    var total := Sum(proportions);
    if proportions != [] {
      SharesAreRatios(proportions);
    }
    out := data;
    for j := 0 to |series|
      invariant out == data + Block(category, series[..j], Shares(proportions)[..j])
    {
      BlockStep(category, series, Shares(proportions), j);
      out := out + [Cell(category, series[j], proportions[j] as real / total as real)];
    }
    assert series[..|series|] == series && Shares(proportions)[..|series|] == Shares(proportions);
  }

  /** The loop: for each category the proportions are drawn, totalled
      and appended series by series. */
  method FillShares(cats: seq<string>, series: seq<string>, draws: seq<int>, from: nat)
    returns (data: seq<Cell<string, real>>, next: nat)
    requires InRange(draws, from, |cats| * |series|, 1, 100)
    ensures next == from + |cats| * |series|
    ensures data == CategoryMajor(cats, series, Proportioned(draws, from, |cats|, |series|))
  {
    var n, w := |cats|, |series|;
    ghost var props := Proportioned(draws, from, n, w);
    data := [];
    next := from;
    for i := 0 to n
      invariant next == from + i * w
      invariant data == CategoryMajor(cats[..i], series, props[..i])
    {
      BlockBound(i, n, w);
      var proportions := draws[next..next + w];
      FillStep(cats, series, draws, from, i, proportions);
      data := AppendShares(data, cats[i], series, proportions);
      next := next + w;
    }
    assert cats[..n] == cats && props[..n] == props;
  }

  /** The frame's 'value' column. */
  function Column<S>(data: seq<Cell<S, real>>): (r: seq<real>)
    ensures |r| == |data| && forall t :: 0 <= t < |data| ==> r[t] == data[t].value
  {
    seq(|data|, t requires 0 <= t < |data| => data[t].value)
  }

  /** Everything after the loop, given the table it built: the row of
      `df['value'].idxmax()`, the scheme pick `pick` and the records.  With
      no rows the frame has no 'category' column and building the 'key'
      column raises. */
  function Summarise(s: Settings, seed: int, numSeries: int, numCategories: int, question: Option<string>,
                     draws: seq<int>, data: seq<Cell<string, real>>, pick: int): (r: Result<Generated, GenError>)
    requires InRange(draws, 0, 3, 220, 255)
    requires 0 <= pick < |ColorSchemes|
    ensures r.Err? <==> data == []
    ensures r.Err? ==> r.error == MissingColumn("category")
    ensures r.Ok? ==> Filed(r.value, s, SeededName("stacked_bar_100_", seed))
    ensures r.Ok? ==> r.value.padding == Some(PaddingCall(r.value.imagePath, s.width, Some(Background(draws))))
    ensures r.Ok? ==> var m := r.value.metadata;
              m.chartType == "stacked_bar_100" && m.key == "max_segment" && m.answer == m.keyed && m.question == question
    ensures r.Ok? ==> var v := r.value.metadata.variation;
              && v.StackedVariation? && v.numSeries == numSeries && v.numCategories == numCategories
              && v.colorScheme in ColorSchemes && v.colorScheme == ColorSchemes[pick]
    ensures r.Ok? ==> exists k :: IsFirstMax(Column(data), k) &&
                                  r.value.metadata.answer == Segment(data[k].category, data[k].member)
  {
    match LabelAtMax(data, Column(data))
    case None => Err(MissingColumn("category"))
    case Some(row) =>
      var segment := Segment(row.category, row.member);
      var colorScheme := Choice(ColorSchemes, pick);
      var base := SeededName("stacked_bar_100_", seed);
      var meta := Metadata(WithExtension(base, s.imgFormat), "stacked_bar_100", "max_segment", segment,
                           StackedVariation(colorScheme, numSeries, numCategories), question, segment);
      Ok(Padded(s, base, Some(Background(draws)), meta))
  }

  /** The run for `num_series` series over `num_categories` letter
      categories.  The stream holds the background channels, the draws of
      each category in turn, then the scheme pick.  `data` is the table
      the loop built.
      An empty table raises before the pick is drawn; the stream is still
      required to hold it. */
  method Generate(s: Settings, seed: int, numSeries: int, numCategories: int, question: Option<string>,
                  draws: seq<int>)
    returns (r: Result<Generated, GenError>, data: seq<Cell<string, real>>)
    requires numCategories <= MaxLetters
    requires InRange(draws, 0, 3, 220, 255)
    requires InRange(draws, 3, RangeLen(numCategories) * RangeLen(numSeries), 1, 100)
    requires InRange(draws, 3 + RangeLen(numCategories) * RangeLen(numSeries), 1, 0, 2)
    ensures var nc, ns := RangeLen(numCategories), RangeLen(numSeries);
            data == CategoryMajor(Letters(numCategories), SeriesNames(numSeries), Proportioned(draws, 3, nc, ns))
    ensures |data| == RangeLen(numCategories) * RangeLen(numSeries)
    ensures r == Summarise(s, seed, numSeries, numCategories, question, draws, data, draws[3 + |data|])
  {
    var categories := Letters(numCategories);
    var series := SeriesNames(numSeries);
    var next;
    data, next := FillShares(categories, series, draws, 3);
    CategoryMajorSize(categories, series, Proportioned(draws, 3, |categories|, |series|));
    assert next == 3 + |data|;
    r := Summarise(s, seed, numSeries, numCategories, question, draws, data, draws[next]);
  }

  /** Row (i', j') comes before row (i, j) in category-major order. */
  lemma RowOrder(i': nat, j': nat, i: nat, j: nat, w: nat)
    requires j' < w && j < w && (i' < i || (i' == i && j' < j))
    ensures i' * w + j' < i * w + j
  {
    if i' < i {
      MulLe(i' + 1, i, w);
    }
  }

  /** The position of pair (i, j) in a category-major table of width w. */
  function Pos(i: nat, j: nat, w: nat): nat
  {
    i * w + j
  }

  /** Row Pos(i, j, w) of the table holds pair (i, j) and its value. */
  lemma TableGrid<S>(cats: seq<string>, members: seq<S>, props: seq<seq<real>>)
    requires |props| == |cats| && Rectangular(props, |members|)
    ensures |CategoryMajor(cats, members, props)| == |cats| * |members|
    ensures forall i, j :: 0 <= i < |cats| && 0 <= j < |members| ==>
              Pos(i, j, |members|) < |CategoryMajor(cats, members, props)| &&
              CategoryMajor(cats, members, props)[Pos(i, j, |members|)] == Cell(cats[i], members[j], props[i][j])
  {
    CategoryMajorSize(cats, members, props);
    forall i, j | 0 <= i < |cats| && 0 <= j < |members|
      ensures Pos(i, j, |members|) < |CategoryMajor(cats, members, props)|
      ensures CategoryMajor(cats, members, props)[Pos(i, j, |members|)] == Cell(cats[i], members[j], props[i][j])
    {
      CellAt(cats, members, props, i, j);
    }
  }

  /** (i, j) is the first pair, in row order, with the largest value of
      an n-by-w grid. */
  ghost predicate IsFirstMaxCell(props: seq<seq<real>>, n: nat, w: nat, i: int, j: int)
    requires |props| == n && Rectangular(props, w)
  {
    && 0 <= i < n && 0 <= j < w
    && (forall i', j' :: 0 <= i' < n && 0 <= j' < w ==> props[i'][j'] <= props[i][j])
    && (forall i', j' :: 0 <= i' < n && 0 <= j' < w && (i' < i || (i' == i && j' < j)) ==>
          props[i'][j'] < props[i][j])
  }

  /** The first largest entry of a column laid out as an n-by-w grid sits
      at some pair (i, j): no entry is larger, and every pair before it in
      row order holds a smaller one. */
  lemma FirstMaxGrid(column: seq<real>, props: seq<seq<real>>, n: nat, w: nat, k: int) returns (i: nat, j: nat)
    requires |props| == n && Rectangular(props, w) && |column| == n * w
    requires forall i, j :: 0 <= i < n && 0 <= j < w ==> Pos(i, j, w) < |column| && column[Pos(i, j, w)] == props[i][j]
    requires IsFirstMax(column, k)
    ensures i < n && j < w && k == Pos(i, j, w)
    ensures IsFirstMaxCell(props, n, w, i, j)
  {
    i, j := Decompose(k, n, w);
    assert column[Pos(i, j, w)] == props[i][j];
    forall i', j' | 0 <= i' < n && 0 <= j' < w
      ensures props[i'][j'] <= props[i][j]
      ensures i' < i || (i' == i && j' < j) ==> props[i'][j'] < props[i][j]
    {
      assert column[Pos(i', j', w)] == props[i'][j'];
      if i' < i || (i' == i && j' < j) {
        RowOrder(i', j', i, j, w);
      }
    }
  }

  /** The first largest row of a category-major table is the cell of the
      first largest share in the grid it was laid out from. */
  lemma SegmentOfTable(cats: seq<string>, series: seq<string>, props: seq<seq<real>>, k: int) returns (i: nat, j: nat)
    requires |props| == |cats| && Rectangular(props, |series|)
    requires IsFirstMax(Column(CategoryMajor(cats, series, props)), k)
    ensures IsFirstMaxCell(props, |cats|, |series|, i, j)
    ensures CategoryMajor(cats, series, props)[k] == Cell(cats[i], series[j], props[i][j])
  {
    var data := CategoryMajor(cats, series, props);
    TableGrid(cats, series, props);
    i, j := FirstMaxGrid(Column(data), props, |cats|, |series|, k);
  }

  /** Summarise's answer on such a table names the (category, series) of
      that cell. */
  lemma SegmentAnswer(cats: seq<string>, series: seq<string>, props: seq<seq<real>>, data: seq<Cell<string, real>>,
                      answer: Answer)
    requires |props| == |cats| && Rectangular(props, |series|)
    requires data == CategoryMajor(cats, series, props)
    requires exists k :: IsFirstMax(Column(data), k) && answer == Segment(data[k].category, data[k].member)
    ensures exists i, j :: IsFirstMaxCell(props, |cats|, |series|, i, j) && answer == Segment(cats[i], series[j])
  {
    var k :| IsFirstMax(Column(data), k) && answer == Segment(data[k].category, data[k].member);
    var i, j := SegmentOfTable(cats, series, props, k);
  }

  /** The run fails exactly when there are no categories or no series: the
      table is then empty and has no "category" column. */
  lemma GenerateFails(s: Settings, seed: int, numSeries: int, numCategories: int, question: Option<string>,
                      draws: seq<int>)
    requires numCategories <= MaxLetters
    requires InRange(draws, 0, 3, 220, 255)
    requires InRange(draws, 3, RangeLen(numCategories) * RangeLen(numSeries), 1, 100)
    requires InRange(draws, 3 + RangeLen(numCategories) * RangeLen(numSeries), 1, 0, 2)
    ensures var nc, ns := RangeLen(numCategories), RangeLen(numSeries);
            var data := CategoryMajor(Letters(numCategories), SeriesNames(numSeries), Proportioned(draws, 3, nc, ns));
            var r := Summarise(s, seed, numSeries, numCategories, question, draws, data, draws[3 + nc * ns]);
            r.Err? <==> numCategories <= 0 || numSeries <= 0
  {
    var nc, ns := RangeLen(numCategories), RangeLen(numSeries);
    CategoryMajorSize(Letters(numCategories), SeriesNames(numSeries), Proportioned(draws, 3, nc, ns));
    if nc > 0 && ns > 0 {
      MulLe(1, nc, ns);
    }
  }

  /** When the run succeeds, the answer is the segment (category, series)
      of the first largest proportion in row order. */
  lemma GenerateAnswer(s: Settings, seed: int, numSeries: int, numCategories: int, question: Option<string>,
                       draws: seq<int>)
    requires numCategories <= MaxLetters
    requires InRange(draws, 0, 3, 220, 255)
    requires InRange(draws, 3, RangeLen(numCategories) * RangeLen(numSeries), 1, 100)
    requires InRange(draws, 3 + RangeLen(numCategories) * RangeLen(numSeries), 1, 0, 2)
    ensures var nc, ns := RangeLen(numCategories), RangeLen(numSeries);
            var props := Proportioned(draws, 3, nc, ns);
            var data := CategoryMajor(Letters(numCategories), SeriesNames(numSeries), props);
            var r := Summarise(s, seed, numSeries, numCategories, question, draws, data, draws[3 + nc * ns]);
            r.Ok? ==> exists i, j :: IsFirstMaxCell(props, nc, ns, i, j) &&
                                     r.value.metadata.answer == Segment(Letters(numCategories)[i], SeriesName(j))
  {
    var nc, ns := RangeLen(numCategories), RangeLen(numSeries);
    var cats, series := Letters(numCategories), SeriesNames(numSeries);
    var props := Proportioned(draws, 3, nc, ns);
    var data := CategoryMajor(cats, series, props);
    CategoryMajorSize(cats, series, props);
    var r := Summarise(s, seed, numSeries, numCategories, question, draws, data, draws[3 + nc * ns]);
    if r.Ok? {
      SegmentAnswer(cats, series, props, data, r.value.metadata.answer);
    }
  }
}
