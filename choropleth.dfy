/** `ChoroplethGenerator.generate`: a value in [10, 100] for each of the
    fifty US states, the map saved as `choropleth_{seed}` and padded with
    the background colour, and the state with the largest value as the
    answer. */
module ChoroplethChart {
  import opened Wrappers
  import opened Draws
  import opened Aggregate
  import opened Records
  import opened Charts

  /** The state abbreviations, in the order the values are drawn. */
  const States: seq<string> := [
    "AL", "AK", "AZ", "AR", "CA", "CO", "CT", "DE", "FL", "GA",
    "HI", "ID", "IL", "IN", "IA", "KS", "KY", "LA", "ME", "MD",
    "MA", "MI", "MN", "MS", "MO", "MT", "NE", "NV", "NH", "NJ",
    "NM", "NY", "NC", "ND", "OH", "OK", "OR", "PA", "RI", "SC",
    "SD", "TN", "TX", "UT", "VT", "VA", "WA", "WV", "WI", "WY"]

  /** The stream holds the background channels and one value per state.
      The list is never empty, so the run cannot fail; the question is
      always given. */
  function Generate(s: Settings, seed: int, question: string, draws: seq<int>): (g: Generated)
    requires InRange(draws, 0, 3, 220, 255)
    requires InRange(draws, 3, |States|, 10, 100)
    ensures Filed(g, s, SeededName("choropleth_", seed))
    ensures g.padding == Some(PaddingCall(g.imagePath, s.width, Some(Background(draws))))
    ensures g.metadata.chartType == "choropleth" && g.metadata.key == "max_state"
    ensures g.metadata.answer == g.metadata.keyed && g.metadata.question == Some(question)
    ensures g.metadata.variation == ChoroplethVariation("Blues", 50)
    ensures exists k :: IsFirstMax(Reals(draws[3..3 + |States|]), k) && g.metadata.answer == Label(States[k])
  {
    var bgcolor := Background(draws);
    var values := draws[3..3 + |States|];
    var maxState := LabelAtMax(States, Reals(values)).value;
    var base := SeededName("choropleth_", seed);
    var meta := Metadata(WithExtension(base, s.imgFormat), "choropleth", "max_state", Label(maxState),
                         ChoroplethVariation("Blues", |States|), Some(question), Label(maxState));
    Padded(s, base, Some(bgcolor), meta)
  }
}
