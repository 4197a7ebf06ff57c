/** `StackedBarGenerator.generate`: one row per (category, series) pair
    with a value in [10, 60], grouped by category, the category with the
    largest total as the answer, the chart saved as `stacked_bar_{seed}`
    and padded with the background colour. */
module StackedBarChart {
  import opened Wrappers
  import opened Draws
  import opened Aggregate
  import opened Labels
  import opened Tables
  import opened Stacking
  import opened Records
  import opened Charts

  const ColorSchemes: seq<string> := ["category10", "set2", "dark2"]

  /** Everything after the loop, given the table it built: the groupby
      answer, the scheme pick `pick` (the draw right after the table's
      values) and the records.  With no rows the frame has no
      'category' column and the groupby raises. */
  function Summarise(s: Settings, seed: int, numSeries: int, numCategories: int, question: Option<string>,
                     draws: seq<int>, data: seq<Cell<string, int>>, pick: int): (r: Result<Generated, GenError>)
    requires InRange(draws, 0, 3, 220, 255)
    requires 0 <= pick < |ColorSchemes|
    ensures r.Err? <==> data == []
    ensures r.Err? ==> r.error == MissingColumn("category")
    ensures r.Ok? ==> Filed(r.value, s, SeededName("stacked_bar_", seed))
    ensures r.Ok? ==> r.value.padding == Some(PaddingCall(r.value.imagePath, s.width, Some(Background(draws))))
    ensures r.Ok? ==> var m := r.value.metadata;
              m.chartType == "stacked_bar" && m.key == "max_category" && m.answer == m.keyed && m.question == question
    ensures r.Ok? ==> var v := r.value.metadata.variation;
              && v.StackedVariation? && v.numSeries == numSeries && v.numCategories == numCategories
              && v.colorScheme in ColorSchemes && v.colorScheme == ColorSchemes[pick]
    ensures r.Ok? ==> r.value.metadata.answer == Label(GroupMax(data).value)
  {
    match GroupMax(data)
    case None => Err(MissingColumn("category"))
    case Some(maxCat) =>
      var colorScheme := Choice(ColorSchemes, pick);
      var base := SeededName("stacked_bar_", seed);
      var meta := Metadata(WithExtension(base, s.imgFormat), "stacked_bar", "max_category", Label(maxCat),
                           StackedVariation(colorScheme, numSeries, numCategories), question, Label(maxCat));
      Ok(Padded(s, base, Some(Background(draws)), meta))
  }

  /** The run for `num_series` series over `num_categories` letter
      categories.  The stream holds the background channels, one value
      per row in category-major order, then the scheme pick.  `data` is
      the table the loop built.
      An empty table raises before the pick is drawn; the stream is still
      required to hold it. */
  method Generate(s: Settings, seed: int, numSeries: int, numCategories: int, question: Option<string>,
                  draws: seq<int>)
    returns (r: Result<Generated, GenError>, data: seq<Cell<string, int>>)
    requires numCategories <= MaxLetters
    requires InRange(draws, 0, 3, 220, 255)
    requires InRange(draws, 3, RangeLen(numCategories) * RangeLen(numSeries), 10, 60)
    requires InRange(draws, 3 + RangeLen(numCategories) * RangeLen(numSeries), 1, 0, 2)
    ensures var nc, ns := RangeLen(numCategories), RangeLen(numSeries);
            data == CategoryMajor(Letters(numCategories), SeriesNames(numSeries), Drawn(draws, 3, nc, ns))
    ensures |data| == RangeLen(numCategories) * RangeLen(numSeries)
    ensures r == Summarise(s, seed, numSeries, numCategories, question, draws, data, draws[3 + |data|])
  {
    var categories := Letters(numCategories);
    var series := SeriesNames(numSeries);
    var next;
    data, next := FillTable(categories, series, draws, 3);
    CategoryMajorSize(categories, series, Drawn(draws, 3, |categories|, |series|));
    assert next == 3 + |data|;
    r := Summarise(s, seed, numSeries, numCategories, question, draws, data, draws[next]);
  }

  /** The run fails exactly when there are no categories or no series: the
      table is then empty and has no "category" column. */
  lemma GenerateFails(s: Settings, seed: int, numSeries: int, numCategories: int, question: Option<string>,
                      draws: seq<int>)
    requires numCategories <= MaxLetters
    requires InRange(draws, 0, 3, 220, 255)
    requires InRange(draws, 3, RangeLen(numCategories) * RangeLen(numSeries), 10, 60)
    requires InRange(draws, 3 + RangeLen(numCategories) * RangeLen(numSeries), 1, 0, 2)
    ensures var nc, ns := RangeLen(numCategories), RangeLen(numSeries);
            var data := CategoryMajor(Letters(numCategories), SeriesNames(numSeries), Drawn(draws, 3, nc, ns));
            var r := Summarise(s, seed, numSeries, numCategories, question, draws, data, draws[3 + nc * ns]);
            r.Err? <==> numCategories <= 0 || numSeries <= 0
  {
    var nc, ns := RangeLen(numCategories), RangeLen(numSeries);
    var blocks := Drawn(draws, 3, nc, ns);
    CategoryMajorSize(Letters(numCategories), SeriesNames(numSeries), blocks);
    if nc > 0 && ns > 0 {
      MulLe(1, nc, ns);
    }
  }

  /** When the run succeeds, the answer is the first letter category whose drawn values
      have the largest total. */
  lemma GenerateAnswer(s: Settings, seed: int, numSeries: int, numCategories: int, question: Option<string>,
                       draws: seq<int>)
    requires numCategories <= MaxLetters
    requires InRange(draws, 0, 3, 220, 255)
    requires InRange(draws, 3, RangeLen(numCategories) * RangeLen(numSeries), 10, 60)
    requires InRange(draws, 3 + RangeLen(numCategories) * RangeLen(numSeries), 1, 0, 2)
    ensures var nc, ns := RangeLen(numCategories), RangeLen(numSeries);
            var blocks := Drawn(draws, 3, nc, ns);
            var data := CategoryMajor(Letters(numCategories), SeriesNames(numSeries), blocks);
            var r := Summarise(s, seed, numSeries, numCategories, question, draws, data, draws[3 + nc * ns]);
            r.Ok? ==> exists k :: IsFirstMax(Reals(Totals(blocks)), k) &&
                                 r.value.metadata.answer == Label(Letters(numCategories)[k])
  {
    var nc, ns := RangeLen(numCategories), RangeLen(numSeries);
    var blocks := Drawn(draws, 3, nc, ns);
    var data := CategoryMajor(Letters(numCategories), SeriesNames(numSeries), blocks);
    CategoryMajorSize(Letters(numCategories), SeriesNames(numSeries), blocks);
    if data != [] {
      GroupMaxOfLetters(numCategories, SeriesNames(numSeries), blocks);
    }
  }
}
