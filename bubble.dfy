/** `BubbleGenerator.generate`: one bubble per label with x and y drawn
    from `uniform(0, 100)` and an integer size in [20, 200], the chart
    saved as "BubbleChart" and padded with the background colour, and the
    label of the largest bubble as the answer. */
module BubbleChart {
  import opened Wrappers
  import opened Draws
  import opened Aggregate
  import opened Labels
  import opened Records
  import opened Charts

  const ColorSchemes: seq<string> := ["category10", "tableau10"]

  /** The run for `num_points` bubbles and the optional `categories`
      argument.  The stream holds the background channels, the n x draws,
      the n y draws, the n sizes, then the colour scheme pick; the x and y
      outcomes do not reach the answer.  No bubbles: idxmax fails before
      the scheme is drawn, so the pick is only read on success. */
  function Generate(s: Settings, numPoints: int, question: Option<string>,
                    supplied: Option<seq<string>>, draws: seq<int>): (r: Result<Generated, GenError>)
    requires numPoints <= MaxLetters
    requires InRange(draws, 0, 3, 220, 255)
    requires InRange(draws, 3 + 2 * RangeLen(numPoints), RangeLen(numPoints), 20, 200)
    requires numPoints > 0 ==> InRange(draws, 3 + 3 * RangeLen(numPoints), 1, 0, 1)
    ensures r.Err? <==> numPoints <= 0
    ensures r.Err? ==> r.error == ArgMaxOfEmpty
    ensures r.Ok? ==> Filed(r.value, s, "BubbleChart")
    ensures r.Ok? ==> r.value.padding == Some(PaddingCall(r.value.imagePath, s.width, Some(Background(draws))))
    ensures r.Ok? ==> var m := r.value.metadata;
              m.chartType == "bubble" && m.key == "max_label" && m.answer == m.keyed && m.question == question
  {
    var n := RangeLen(numPoints);
    var bgcolor := Background(draws);
    var labels := Labels.Categories(numPoints, supplied);
    var sizes := draws[3 + 2 * n..3 + 3 * n];
    var largest := LabelAtMax(labels, Reals(sizes));
    match largest
    case None => Err(ArgMaxOfEmpty)
    case Some(top) =>
      var colorScheme := Choice(ColorSchemes, draws[3 + 3 * n]);
      var meta := Metadata(WithExtension("BubbleChart", s.imgFormat), "bubble", "max_label", Label(top),
                           BubbleVariation(colorScheme, numPoints), question, Label(top));
      Ok(Padded(s, "BubbleChart", Some(bgcolor), meta))
  }

  /** The scheme pick, made after the sizes, lands in the variation record. */
  lemma GenerateVariation(s: Settings, numPoints: int, question: Option<string>, supplied: Option<seq<string>>, draws: seq<int>)
    requires numPoints <= MaxLetters
    requires InRange(draws, 0, 3, 220, 255)
    requires InRange(draws, 3 + 2 * RangeLen(numPoints), RangeLen(numPoints), 20, 200)
    requires numPoints > 0 ==> InRange(draws, 3 + 3 * RangeLen(numPoints), 1, 0, 1)
    ensures var r := Generate(s, numPoints, question, supplied, draws);
            r.Ok? ==> var n, v := RangeLen(numPoints), r.value.metadata.variation;
              && v.BubbleVariation? && v.numPoints == numPoints
              && v.colorScheme in ColorSchemes && v.colorScheme == ColorSchemes[draws[3 + 3 * n]]
  {
  }

  /** The answer is the first label whose size is the largest, as idxmax
      reports it; the x and y draws play no part. */
  lemma GenerateAnswer(s: Settings, numPoints: int, question: Option<string>, supplied: Option<seq<string>>, draws: seq<int>)
    requires numPoints <= MaxLetters
    requires InRange(draws, 0, 3, 220, 255)
    requires InRange(draws, 3 + 2 * RangeLen(numPoints), RangeLen(numPoints), 20, 200)
    requires numPoints > 0 ==> InRange(draws, 3 + 3 * RangeLen(numPoints), 1, 0, 1)
    ensures var r := Generate(s, numPoints, question, supplied, draws);
            r.Ok? ==> var n, labels := RangeLen(numPoints), Labels.Categories(numPoints, supplied);
              exists k :: IsFirstMax(Reals(draws[3 + 2 * n..3 + 3 * n]), k) && r.value.metadata.answer == Label(labels[k])
  {
  }
}
