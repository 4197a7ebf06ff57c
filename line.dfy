/** `LineGenerator.generate`: y values in [10, 100] at x = 1..n, a line
    colour, the chart saved as "LineChart" and padded with the background
    colour, and the x of the highest point as the answer. */
module LineChart {
  import opened Wrappers
  import opened Draws
  import opened Aggregate
  import opened Labels
  import opened Records
  import opened Charts

  const Colors: seq<string> := ["#1f77b4", "#ff7f0e", "#2ca02c"]

  /** The run for `num_points` points.  The stream holds the background
      channels, one y per point, then the colour pick.  No points: idxmax
      fails before the pick is drawn, so the pick is only read on success. */
  function Generate(s: Settings, numPoints: int, question: Option<string>, draws: seq<int>)
    : (r: Result<Generated, GenError>)
    requires InRange(draws, 0, 3, 220, 255)
    requires InRange(draws, 3, RangeLen(numPoints), 10, 100)
    requires numPoints > 0 ==> InRange(draws, 3 + RangeLen(numPoints), 1, 0, 2)
    ensures r.Err? <==> numPoints <= 0
    ensures r.Err? ==> r.error == ArgMaxOfEmpty
    ensures r.Ok? ==> Filed(r.value, s, "LineChart")
    ensures r.Ok? ==> r.value.padding == Some(PaddingCall(r.value.imagePath, s.width, Some(Background(draws))))
    ensures r.Ok? ==> var m := r.value.metadata;
              m.chartType == "line" && m.key == "max_x" && m.answer == m.keyed && m.question == question
  {
    var n := RangeLen(numPoints);
    var bgcolor := Background(draws);
    var xs := Positions(numPoints);
    var ys := draws[3..3 + n];
    var maxX := LabelAtMax(xs, Reals(ys));
    match maxX
    case None => Err(ArgMaxOfEmpty)
    case Some(x) =>
      var color := Choice(Colors, draws[3 + n]);
      var meta := Metadata(WithExtension("LineChart", s.imgFormat), "line", "max_x", Position(x),
                           LineVariation(color, numPoints), question, Position(x));
      Ok(Padded(s, "LineChart", Some(bgcolor), meta))
  }

  /** The colour pick lands in the variation record. */
  lemma GenerateVariation(s: Settings, numPoints: int, question: Option<string>, draws: seq<int>)
    requires InRange(draws, 0, 3, 220, 255)
    requires InRange(draws, 3, RangeLen(numPoints), 10, 100)
    requires numPoints > 0 ==> InRange(draws, 3 + RangeLen(numPoints), 1, 0, 2)
    ensures var r := Generate(s, numPoints, question, draws);
            r.Ok? ==> var n, v := RangeLen(numPoints), r.value.metadata.variation;
              && v.LineVariation? && v.numPoints == numPoints
              && v.color in Colors && v.color == Colors[draws[3 + n]]
  {
  }

  /** The answer is the position x in 1..n of the first largest y, as
      idxmax reports it. */
  lemma GenerateAnswer(s: Settings, numPoints: int, question: Option<string>, draws: seq<int>)
    requires InRange(draws, 0, 3, 220, 255)
    requires InRange(draws, 3, RangeLen(numPoints), 10, 100)
    requires numPoints > 0 ==> InRange(draws, 3 + RangeLen(numPoints), 1, 0, 2)
    ensures var r := Generate(s, numPoints, question, draws);
            r.Ok? ==> var n, a := RangeLen(numPoints), r.value.metadata.answer;
              && a.Position? && 1 <= a.x <= n
              && IsFirstMax(Reals(draws[3..3 + n]), a.x - 1)
  {
  }
}
