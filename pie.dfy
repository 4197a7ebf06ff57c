/** `PieGenerator.generate`: one slice per category, values in [10, 100],
    a colour scheme, the chart saved as `pie_{seed}` and padded with the
    background colour, and the category of the largest slice as the
    answer. */
module PieChart {
  import opened Wrappers
  import opened Draws
  import opened Aggregate
  import opened Labels
  import opened Records
  import opened Charts

  const ColorSchemes: seq<string> := ["category10", "set2"]

  /** The run for `num_slices` slices and the optional `categories`
      argument.  The stream holds the background channels, one value per
      slice, then the colour scheme pick.  An empty chart fails at idxmax. */
  function Generate(s: Settings, seed: int, numSlices: int, question: Option<string>,
                    supplied: Option<seq<string>>, draws: seq<int>): (r: Result<Generated, GenError>)
    requires numSlices <= MaxLetters
    requires InRange(draws, 0, 3, 220, 255)
    requires InRange(draws, 3, RangeLen(numSlices), 10, 100)
    requires InRange(draws, 3 + RangeLen(numSlices), 1, 0, 1)
    ensures r.Err? <==> numSlices <= 0
    ensures r.Err? ==> r.error == ArgMaxOfEmpty
    ensures r.Ok? ==> Filed(r.value, s, SeededName("pie_", seed))
    ensures r.Ok? ==> r.value.padding == Some(PaddingCall(r.value.imagePath, s.width, Some(Background(draws))))
    ensures r.Ok? ==> var m := r.value.metadata;
              m.chartType == "pie" && m.key == "max_category" && m.answer == m.keyed && m.question == question
  {
    var n := RangeLen(numSlices);
    var bgcolor := Background(draws);
    var cats := Labels.Categories(numSlices, supplied);
    var values := draws[3..3 + n];
    var colorScheme := Choice(ColorSchemes, draws[3 + n]);
    var base := SeededName("pie_", seed);
    match LabelAtMax(cats, Reals(values))
    case None => Err(ArgMaxOfEmpty)
    case Some(maxCategory) =>
      var meta := Metadata(WithExtension(base, s.imgFormat), "pie", "max_category", Label(maxCategory),
                           PieVariation(colorScheme, numSlices), question, Label(maxCategory));
      Ok(Padded(s, base, Some(bgcolor), meta))
  }

  /** The scheme pick lands in the variation record. */
  lemma GenerateVariation(s: Settings, seed: int, numSlices: int, question: Option<string>, supplied: Option<seq<string>>, draws: seq<int>)
    requires numSlices <= MaxLetters
    requires InRange(draws, 0, 3, 220, 255)
    requires InRange(draws, 3, RangeLen(numSlices), 10, 100)
    requires InRange(draws, 3 + RangeLen(numSlices), 1, 0, 1)
    ensures var r := Generate(s, seed, numSlices, question, supplied, draws);
            r.Ok? ==> var n, v := RangeLen(numSlices), r.value.metadata.variation;
              && v.PieVariation? && v.numSlices == numSlices
              && v.colorScheme in ColorSchemes && v.colorScheme == ColorSchemes[draws[3 + n]]
  {
  }

  /** The answer is the first category whose value is the largest, as
      idxmax reports it. */
  lemma GenerateAnswer(s: Settings, seed: int, numSlices: int, question: Option<string>, supplied: Option<seq<string>>, draws: seq<int>)
    requires numSlices <= MaxLetters
    requires InRange(draws, 0, 3, 220, 255)
    requires InRange(draws, 3, RangeLen(numSlices), 10, 100)
    requires InRange(draws, 3 + RangeLen(numSlices), 1, 0, 1)
    ensures var r := Generate(s, seed, numSlices, question, supplied, draws);
            r.Ok? ==> var n, cats := RangeLen(numSlices), Labels.Categories(numSlices, supplied);
              exists k :: IsFirstMax(Reals(draws[3..3 + n]), k) && r.value.metadata.answer == Label(cats[k])
  {
  }
}
