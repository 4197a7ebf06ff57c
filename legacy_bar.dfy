/** `ChartGenerator.generate_bar_chart` of the top-level generator module:
    the older bar pipeline, with letter categories only, no background
    colour and no padding. */
module LegacyBarChart {
  import opened Wrappers
  import opened Draws
  import opened Aggregate
  import opened Labels
  import opened Bars
  import opened Records
  import opened Charts

  const ColorSchemes: seq<string> := ["category10", "dark2"]
  const SortChoices: seq<bool> := [true, false]
  const Orientations: seq<string> := ["vertical", "horizontal"]

  /** The run for `num_bars` bars.  The stream holds one value per bar,
      then the colour scheme, sort and orientation picks.  An empty chart
      fails at idxmax. */
  function Generate(s: Settings, seed: int, numBars: int, question: Option<string>, draws: seq<int>)
    : (r: Result<Generated, GenError>)
    requires numBars <= MaxLetters
    requires InRange(draws, 0, RangeLen(numBars), 10, 100)
    requires InRange(draws, RangeLen(numBars), 3, 0, 1)
    ensures r.Err? <==> numBars <= 0
    ensures r.Err? ==> r.error == ArgMaxOfEmpty
    ensures r.Ok? ==> Filed(r.value, s, SeededName("bar_", seed)) && r.value.padding == None
    ensures r.Ok? ==> var m := r.value.metadata;
              m.chartType == "bar" && m.key == "max_category" && m.answer == m.keyed && m.question == question
  {
    var n := RangeLen(numBars);
    var cats := Letters(numBars);
    var values := draws[..n];
    var colorScheme := Choice(ColorSchemes, draws[n]);
    var sort := Choice(SortChoices, draws[n + 1]);
    var orientation := Choice(Orientations, draws[n + 2]);
    var base := SeededName("bar_", seed);
    match ColumnAnswer(cats, values, sort)
    case None => Err(ArgMaxOfEmpty)
    case Some(maxCategory) =>
      var meta := Metadata(WithExtension(base, s.imgFormat), "bar", "max_category", Label(maxCategory),
                           BarVariation(colorScheme, sort, orientation, numBars), question, Label(maxCategory));
      Ok(Saved(s, base, None, meta))
  }

  /** The three picks land in the variation record: the scheme and the
      orientation are options of their lists, and "sorted" is the first
      choice of [True, False]. */
  lemma GenerateVariation(s: Settings, seed: int, numBars: int, question: Option<string>, draws: seq<int>)
    requires numBars <= MaxLetters
    requires InRange(draws, 0, RangeLen(numBars), 10, 100)
    requires InRange(draws, RangeLen(numBars), 3, 0, 1)
    ensures var r := Generate(s, seed, numBars, question, draws);
            r.Ok? ==> var n, v := RangeLen(numBars), r.value.metadata.variation;
              && v.BarVariation? && v.numBars == numBars
              && v.colorScheme in ColorSchemes && v.orientation in Orientations
              && v.colorScheme == ColorSchemes[draws[n]]
              && v.sorted == (draws[n + 1] == 0)
              && v.orientation == Orientations[draws[n + 2]]
  {
  }

  /** The answer is a category whose value is the largest; unsorted, it is
      the first such category, as idxmax reports it. */
  lemma GenerateAnswer(s: Settings, seed: int, numBars: int, question: Option<string>, draws: seq<int>)
    requires numBars <= MaxLetters
    requires InRange(draws, 0, RangeLen(numBars), 10, 100)
    requires InRange(draws, RangeLen(numBars), 3, 0, 1)
    ensures var r := Generate(s, seed, numBars, question, draws);
            r.Ok? ==> var n, cats := RangeLen(numBars), Letters(numBars);
              var values := draws[..n];
              exists k :: 0 <= k < n && r.value.metadata.answer == Label(cats[k]) &&
                          forall j :: 0 <= j < n ==> values[j] <= values[k]
    ensures var r := Generate(s, seed, numBars, question, draws);
            r.Ok? && !r.value.metadata.variation.sorted ==>
              var n, cats := RangeLen(numBars), Letters(numBars);
              exists k :: IsFirstMax(Reals(draws[..n]), k) && r.value.metadata.answer == Label(cats[k])
  {
  }
}
