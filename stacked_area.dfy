/** `StackedAreaGenerator.generate`: one row per (series, x) pair with a
    value in [10, 50] for x = 1..num_points, grouped by series letter (the
    frame's 'category' column), the series with the largest total as the
    answer, the chart saved as `stacked_area_{seed}` and padded with the
    background colour. */
module StackedAreaChart {
  import opened Wrappers
  import opened Draws
  import opened Aggregate
  import opened Labels
  import opened Tables
  import opened Stacking
  import opened Records
  import opened Charts

  const ColorSchemes: seq<string> := ["category10", "set2", "dark2"]

  /** Everything after the loop, given the table it built: the groupby
      answer, the scheme pick `pick` (the draw right after the table's
      values) and the records.  With no rows the frame has no
      'category' column and the groupby raises. */
  function Summarise(s: Settings, seed: int, numSeries: int, numPoints: int, question: Option<string>,
                     draws: seq<int>, data: seq<Cell<int, int>>, pick: int): (r: Result<Generated, GenError>)
    requires InRange(draws, 0, 3, 220, 255)
    requires 0 <= pick < |ColorSchemes|
    ensures r.Err? <==> data == []
    ensures r.Err? ==> r.error == MissingColumn("category")
    ensures r.Ok? ==> Filed(r.value, s, SeededName("stacked_area_", seed))
    ensures r.Ok? ==> r.value.padding == Some(PaddingCall(r.value.imagePath, s.width, Some(Background(draws))))
    ensures r.Ok? ==> var m := r.value.metadata;
              m.chartType == "stacked_area" && m.key == "max_category" && m.answer == m.keyed && m.question == question
    ensures r.Ok? ==> var v := r.value.metadata.variation;
              && v.StackedAreaVariation? && v.numSeries == numSeries && v.numPoints == numPoints
              && v.colorScheme in ColorSchemes && v.colorScheme == ColorSchemes[pick]
    ensures r.Ok? ==> r.value.metadata.answer == Label(GroupMax(data).value)
  {
    match GroupMax(data)
    case None => Err(MissingColumn("category"))
    case Some(maxCat) =>
      var colorScheme := Choice(ColorSchemes, pick);
      var base := SeededName("stacked_area_", seed);
      var meta := Metadata(WithExtension(base, s.imgFormat), "stacked_area", "max_category", Label(maxCat),
                           StackedAreaVariation(colorScheme, numSeries, numPoints), question, Label(maxCat));
      Ok(Padded(s, base, Some(Background(draws)), meta))
  }

  /** The run for `num_series` letter series over `num_points` x values.
      The stream holds the background channels, one value per row with
      the series outermost, then the scheme pick.  `data` is
      the table the loop built.
      An empty table raises before the pick is drawn; the stream is still
      required to hold it. */
  method Generate(s: Settings, seed: int, numSeries: int, numPoints: int, question: Option<string>,
                  draws: seq<int>)
    returns (r: Result<Generated, GenError>, data: seq<Cell<int, int>>)
    requires numSeries <= MaxLetters
    requires InRange(draws, 0, 3, 220, 255)
    requires InRange(draws, 3, RangeLen(numSeries) * RangeLen(numPoints), 10, 50)
    requires InRange(draws, 3 + RangeLen(numSeries) * RangeLen(numPoints), 1, 0, 2)
    ensures var ns, np := RangeLen(numSeries), RangeLen(numPoints);
            data == CategoryMajor(Letters(numSeries), Positions(numPoints), Drawn(draws, 3, ns, np))
    ensures |data| == RangeLen(numSeries) * RangeLen(numPoints)
    ensures r == Summarise(s, seed, numSeries, numPoints, question, draws, data, draws[3 + |data|])
  {
    var xs := Positions(numPoints);
    var categories := Letters(numSeries);
    var next;
    data, next := FillTable(categories, xs, draws, 3);
    CategoryMajorSize(categories, xs, Drawn(draws, 3, |categories|, |xs|));
    assert next == 3 + |data|;
    r := Summarise(s, seed, numSeries, numPoints, question, draws, data, draws[next]);
  }

  /** The run fails exactly when there are no series or no points: the
      table is then empty and has no "category" column. */
  lemma GenerateFails(s: Settings, seed: int, numSeries: int, numPoints: int, question: Option<string>,
                      draws: seq<int>)
    requires numSeries <= MaxLetters
    requires InRange(draws, 0, 3, 220, 255)
    requires InRange(draws, 3, RangeLen(numSeries) * RangeLen(numPoints), 10, 50)
    requires InRange(draws, 3 + RangeLen(numSeries) * RangeLen(numPoints), 1, 0, 2)
    ensures var ns, np := RangeLen(numSeries), RangeLen(numPoints);
            var data := CategoryMajor(Letters(numSeries), Positions(numPoints), Drawn(draws, 3, ns, np));
            var r := Summarise(s, seed, numSeries, numPoints, question, draws, data, draws[3 + ns * np]);
            r.Err? <==> numSeries <= 0 || numPoints <= 0
  {
    var ns, np := RangeLen(numSeries), RangeLen(numPoints);
    var blocks := Drawn(draws, 3, ns, np);
    CategoryMajorSize(Letters(numSeries), Positions(numPoints), blocks);
    if ns > 0 && np > 0 {
      MulLe(1, ns, np);
    }
  }

  /** When the run succeeds, the answer is the first letter series whose drawn values
      have the largest total. */
  lemma GenerateAnswer(s: Settings, seed: int, numSeries: int, numPoints: int, question: Option<string>,
                       draws: seq<int>)
    requires numSeries <= MaxLetters
    requires InRange(draws, 0, 3, 220, 255)
    requires InRange(draws, 3, RangeLen(numSeries) * RangeLen(numPoints), 10, 50)
    requires InRange(draws, 3 + RangeLen(numSeries) * RangeLen(numPoints), 1, 0, 2)
    ensures var ns, np := RangeLen(numSeries), RangeLen(numPoints);
            var blocks := Drawn(draws, 3, ns, np);
            var data := CategoryMajor(Letters(numSeries), Positions(numPoints), blocks);
            var r := Summarise(s, seed, numSeries, numPoints, question, draws, data, draws[3 + ns * np]);
            r.Ok? ==> exists k :: IsFirstMax(Reals(Totals(blocks)), k) &&
                                 r.value.metadata.answer == Label(Letters(numSeries)[k])
  {
    var ns, np := RangeLen(numSeries), RangeLen(numPoints);
    var blocks := Drawn(draws, 3, ns, np);
    var data := CategoryMajor(Letters(numSeries), Positions(numPoints), blocks);
    CategoryMajorSize(Letters(numSeries), Positions(numPoints), blocks);
    if data != [] {
      GroupMaxOfLetters(numSeries, Positions(numPoints), blocks);
    }
  }
}
