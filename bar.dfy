/** `BarGenerator.generate`: one bar per category, values in [10, 100],
    three random choices, an optional sort by value, the chart saved as
    "BarChart" and padded with the background colour, and the category of
    the largest bar as the answer. */
module BarChart {
  import opened Wrappers
  import opened Draws
  import opened Aggregate
  import opened Labels
  import opened Bars
  import opened Records
  import opened Charts

  const ColorSchemes: seq<string> := ["category10", "dark2"]
  const SortChoices: seq<bool> := [true, false]
  const Orientations: seq<string> := ["vertical", "horizontal"]

  /** The run for `num_bars` bars and the optional `categories` argument.
      The stream holds the background channels (draws 0-2), one value per
      bar, then the colour scheme, sort and orientation picks.  An empty
      chart fails at idxmax. */
  function Generate(s: Settings, numBars: int, question: Option<string>, supplied: Option<seq<string>>,
                    draws: seq<int>): (r: Result<Generated, GenError>)
    requires numBars <= MaxLetters
    requires InRange(draws, 0, 3, 220, 255)
    requires InRange(draws, 3, RangeLen(numBars), 10, 100)
    requires InRange(draws, 3 + RangeLen(numBars), 3, 0, 1)
    ensures r.Err? <==> numBars <= 0
    ensures r.Err? ==> r.error == ArgMaxOfEmpty
    ensures r.Ok? ==> Filed(r.value, s, "BarChart")
    ensures r.Ok? ==> r.value.padding == Some(PaddingCall(r.value.imagePath, s.width, Some(Background(draws))))
    ensures r.Ok? ==> var m := r.value.metadata;
              m.chartType == "bar" && m.key == "max_category" && m.answer == m.keyed && m.question == question
  {
    var n := RangeLen(numBars);
    var bgcolor := Background(draws);
    var cats := Labels.Categories(numBars, supplied);
    var values := draws[3..3 + n];
    var colorScheme := Choice(ColorSchemes, draws[3 + n]);
    var sort := Choice(SortChoices, draws[3 + n + 1]);
    var orientation := Choice(Orientations, draws[3 + n + 2]);
    match ColumnAnswer(cats, values, sort)
    case None => Err(ArgMaxOfEmpty)
    case Some(maxCategory) =>
      var meta := Metadata(WithExtension("BarChart", s.imgFormat), "bar", "max_category", Label(maxCategory),
                           BarVariation(colorScheme, sort, orientation, numBars), question, Label(maxCategory));
      Ok(Padded(s, "BarChart", Some(bgcolor), meta))
  }

  /** The three picks land in the variation record: the scheme and the
      orientation are options of their lists, and "sorted" is the first
      choice of [True, False]. */
  lemma GenerateVariation(s: Settings, numBars: int, question: Option<string>, supplied: Option<seq<string>>, draws: seq<int>)
    requires numBars <= MaxLetters
    requires InRange(draws, 0, 3, 220, 255)
    requires InRange(draws, 3, RangeLen(numBars), 10, 100)
    requires InRange(draws, 3 + RangeLen(numBars), 3, 0, 1)
    ensures var r := Generate(s, numBars, question, supplied, draws);
            r.Ok? ==> var n, v := RangeLen(numBars), r.value.metadata.variation;
              && v.BarVariation? && v.numBars == numBars
              && v.colorScheme in ColorSchemes && v.orientation in Orientations
              && v.colorScheme == ColorSchemes[draws[3 + n]]
              && v.sorted == (draws[3 + n + 1] == 0)
              && v.orientation == Orientations[draws[3 + n + 2]]
  {
  }

  /** The answer is a category whose value is the largest. */
  lemma GenerateAnswer(s: Settings, numBars: int, question: Option<string>, supplied: Option<seq<string>>,
                       draws: seq<int>)
    requires numBars <= MaxLetters
    requires InRange(draws, 0, 3, 220, 255)
    requires InRange(draws, 3, RangeLen(numBars), 10, 100)
    requires InRange(draws, 3 + RangeLen(numBars), 3, 0, 1)
    ensures var r := Generate(s, numBars, question, supplied, draws);
            r.Ok? ==> var n, cats := RangeLen(numBars), Labels.Categories(numBars, supplied);
              var values := draws[3..3 + n];
              exists k :: 0 <= k < n && r.value.metadata.answer == Label(cats[k]) &&
                          forall j :: 0 <= j < n ==> values[j] <= values[k]
  {
  }

  /** Unsorted, it is the first such category, as idxmax reports it. */
  lemma GenerateFirstAnswer(s: Settings, numBars: int, question: Option<string>, supplied: Option<seq<string>>,
                            draws: seq<int>)
    requires numBars <= MaxLetters
    requires InRange(draws, 0, 3, 220, 255)
    requires InRange(draws, 3, RangeLen(numBars), 10, 100)
    requires InRange(draws, 3 + RangeLen(numBars), 3, 0, 1)
    ensures var r := Generate(s, numBars, question, supplied, draws);
            r.Ok? && !r.value.metadata.variation.sorted ==>
              var n, cats := RangeLen(numBars), Labels.Categories(numBars, supplied);
              exists k :: IsFirstMax(Reals(draws[3..3 + n]), k) && r.value.metadata.answer == Label(cats[k])
  {
  }
}
