/** `TreeMapGenerator.generate`: one tile per letter category with a value
    in [10, 100], the background colour used as the figure's paper colour
    and recorded in the metadata, the image padded without a tint, and
    the category of the largest tile as the answer. */
module TreemapChart {
  import opened Wrappers
  import opened Draws
  import opened Aggregate
  import opened Labels
  import opened Records
  import opened Charts

  /** The run for `num_categories` tiles.  The stream holds the background
      channels and one value per tile; there is no pick.  No tiles:
      idxmax fails. */
  function Generate(s: Settings, seed: int, numCategories: int, question: Option<string>, draws: seq<int>)
    : (r: Result<Generated, GenError>)
    requires numCategories <= MaxLetters
    requires InRange(draws, 0, 3, 220, 255)
    requires InRange(draws, 3, RangeLen(numCategories), 10, 100)
    ensures r.Err? <==> numCategories <= 0
    ensures r.Err? ==> r.error == ArgMaxOfEmpty
    ensures r.Ok? ==> Filed(r.value, s, SeededName("treemap_", seed))
    ensures r.Ok? ==> r.value.padding == Some(PaddingCall(r.value.imagePath, s.width, None))
    ensures r.Ok? ==> var m := r.value.metadata;
              m.chartType == "treemap" && m.key == "max_category" && m.answer == m.keyed && m.question == question
    ensures r.Ok? ==> r.value.metadata.variation == TreemapVariation(numCategories, Background(draws))
  {
    var n := RangeLen(numCategories);
    var bgcolor := Background(draws);
    var cats := Letters(numCategories);
    var values := draws[3..3 + n];
    var base := SeededName("treemap_", seed);
    match LabelAtMax(cats, Reals(values))
    case None => Err(ArgMaxOfEmpty)
    case Some(maxCategory) =>
      var meta := Metadata(WithExtension(base, s.imgFormat), "treemap", "max_category", Label(maxCategory),
                           TreemapVariation(numCategories, bgcolor), question, Label(maxCategory));
      Ok(Padded(s, base, None, meta))
  }

  /** The answer is the letter of the first largest tile, as idxmax
      reports it. */
  lemma GenerateAnswer(s: Settings, seed: int, numCategories: int, question: Option<string>, draws: seq<int>)
    requires numCategories <= MaxLetters
    requires InRange(draws, 0, 3, 220, 255)
    requires InRange(draws, 3, RangeLen(numCategories), 10, 100)
    ensures var r := Generate(s, seed, numCategories, question, draws);
            r.Ok? ==> var n, cats := RangeLen(numCategories), Letters(numCategories);
              exists k :: IsFirstMax(Reals(draws[3..3 + n]), k) && r.value.metadata.answer == Label(cats[k])
  {
  }
}
