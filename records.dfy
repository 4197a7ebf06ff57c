/** What every generator hands back: the file names it writes under, the
    padding call it makes and the metadata record it saves. */
module Records {
  import opened Wrappers
  import Text

  /** The settings of `ChartGenerator.__init__`. */
  datatype Settings = Settings(outputDir: string, imgFormat: string, width: int, height: int)

  /** POSIX `os.path.join(dir, name)`: an absolute `name` replaces `dir`;
      otherwise a '/' goes between them unless `dir` is empty or already
      ends with one. */
  function PathJoin(dir: string, name: string): string
  {
    if |name| > 0 && name[0] == '/' then name
    else if dir == [] || dir[|dir| - 1] == '/' then dir + name
    else dir + "/" + name
  }

  /** The joined path ends with `name`; for a relative `name`, what comes
      before it is `dir`, with a '/' added unless `dir` is empty or ends
      with one. */
  lemma PathJoinShape(dir: string, name: string)
    ensures var p := PathJoin(dir, name);
            |p| >= |name| && p[|p| - |name|..] == name
    ensures var p := PathJoin(dir, name);
            name == [] || name[0] != '/' ==>
              p[..|p| - |name|] == (if dir == [] || dir[|dir| - 1] == '/' then dir else dir + "/")
  {
  }

  /** Under one directory, different relative names give different paths. */
  lemma PathJoinInjective(dir: string, a: string, b: string)
    requires a == [] || a[0] != '/'
    requires b == [] || b[0] != '/'
    requires PathJoin(dir, a) == PathJoin(dir, b)
    ensures a == b
  {
    var pa, pb := PathJoin(dir, a), PathJoin(dir, b);
    PathJoinShape(dir, a);
    PathJoinShape(dir, b);
    assert pa[..|pa| - |a|] == pb[..|pb| - |b|];
    assert a == pa[|pa| - |a|..] && b == pb[|pb| - |b|..];
  }

  /** `f"{name}.{ext}"`. */
  function WithExtension(name: string, ext: string): string
  {
    name + "." + ext
  }

  /** `f"{prefix}{seed}"`, the seeded base names such as `pie_{seed}`. */
  function SeededName(prefix: string, seed: int): string
  {
    prefix + Text.IntToString(seed)
  }

  /** Different seeds give different base names. */
  lemma SeededNamesDistinct(prefix: string, a: int, b: int)
    requires SeededName(prefix, a) == SeededName(prefix, b)
    ensures a == b
  {
    var sa, sb := SeededName(prefix, a), SeededName(prefix, b);
    assert sa[|prefix|..] == Text.IntToString(a);
    assert sb[|prefix|..] == Text.IntToString(b);
    Text.IntToStringInjective(a, b);
  }

  /** The ground-truth answer: a label, an x position, or a
      (category, series) segment. */
  datatype Answer = Label(name: string) | Position(x: int) | Segment(category: string, series: string)

  /** The `variation` entry of each chart type. */
  datatype Variation =
    | BarVariation(colorScheme: string, sorted: bool, orientation: string, numBars: int)
    | PieVariation(colorScheme: string, numSlices: int)
    | BubbleVariation(colorScheme: string, numPoints: int)
    | LineVariation(color: string, numPoints: int)
    | AreaVariation(colorScheme: string, numPoints: int)
    | TreemapVariation(numCategories: int, backgroundColor: string)
    | ChoroplethVariation(colorScheme: string, numStates: int)
    | StackedVariation(colorScheme: string, numSeries: int, numCategories: int)
    | StackedAreaVariation(colorScheme: string, numSeries: int, numPoints: int)

  /** The metadata record: `key` is the chart-specific answer field
      ("max_category", "max_x", ...) and `keyed` its value. */
  datatype Metadata = Metadata(filename: string, chartType: string, key: string, keyed: Answer,
                               variation: Variation, question: Option<string>, answer: Answer)

  /** The arguments of `_make_square_padding`: the image path, `size` and
      `overlay_rgba` (`save_path` is never given, `overlay_opacity` is
      always 0.15). */
  datatype PaddingCall = PaddingCall(imagePath: string, size: int, overlay: Option<string>)

  /** One finished run: the returned base name, the chart image path, the
      padding call if any, the metadata path and the metadata. */
  datatype Generated = Generated(baseName: string, imagePath: string, padding: Option<PaddingCall>,
                                 metadataPath: string, metadata: Metadata)

  /** Why a run stops: `idxmax` of an empty column (pandas' ValueError),
      or a column looked up in the column-less frame `DataFrame([])`
      (KeyError). */
  datatype GenError = ArgMaxOfEmpty | MissingColumn(name: string)

  /** The image is saved as `{base}.{img_format}` and the metadata as
      `{base}.json`, both under the output directory; the record's
      `filename` is the image's file name. */
  function Saved(s: Settings, base: string, padding: Option<PaddingCall>, meta: Metadata): (g: Generated)
    requires meta.filename == WithExtension(base, s.imgFormat)
    ensures g.baseName == base && g.metadata == meta && g.padding == padding
    ensures g.imagePath == PathJoin(s.outputDir, meta.filename)
    ensures g.metadataPath == PathJoin(s.outputDir, WithExtension(base, "json"))
  {
    Generated(base, PathJoin(s.outputDir, WithExtension(base, s.imgFormat)), padding,
              PathJoin(s.outputDir, WithExtension(base, "json")), meta)
  }

  /** The metadata does not overwrite the image unless the image format
      is "json". */
  lemma SavedApart(s: Settings, base: string, padding: Option<PaddingCall>, meta: Metadata)
    requires meta.filename == WithExtension(base, s.imgFormat)
    requires base != [] && base[0] != '/' && s.imgFormat != "json"
    ensures Saved(s, base, padding, meta).imagePath != Saved(s, base, padding, meta).metadataPath
  {
    var g := Saved(s, base, padding, meta);
    var a, b := WithExtension(base, s.imgFormat), WithExtension(base, "json");
    assert a[|base| + 1..] == s.imgFormat && b[|base| + 1..] == "json";
    if g.imagePath == g.metadataPath {
      PathJoinInjective(s.outputDir, a, b);
    }
  }
}
