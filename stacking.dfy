/** The stacked generators' data: the nested `for cat ...: for m ...:`
    loop that appends one row per pair with a fresh random value, and
    `df.groupby('category')['value'].sum().idxmax()`. */
module Stacking {
  import opened Wrappers
  import opened Aggregate
  import opened Tables
  import Labels

  /** The per-category totals. */
  function Totals(blocks: seq<seq<int>>): (t: seq<int>)
    ensures |t| == |blocks| && forall i :: 0 <= i < |blocks| ==> t[i] == Sum(blocks[i])
  {
    seq(|blocks|, i requires 0 <= i < |blocks| => Sum(blocks[i]))
  }

  /** The values the nested loop takes from the stream starting at `from`,
      one piece of `w` per category. */
  function Drawn(draws: seq<int>, from: nat, n: nat, w: nat): (blocks: seq<seq<int>>)
    requires from + n * w <= |draws|
    ensures |blocks| == n && Rectangular(blocks, w)
  {
    Chunks(draws[from..from + n * w], n, w)
  }

  /** Entry j of the piece for category i is the stream entry
      from + i * w + j. */
  lemma DrawnAt(draws: seq<int>, from: nat, n: nat, w: nat, i: nat, j: nat)
    requires from + n * w <= |draws| && i < n && j < w
    ensures from + i * w + j < from + n * w
    ensures Drawn(draws, from, n, w)[i][j] == draws[from + i * w + j]
  {
    ChunkAt(draws[from..from + n * w], n, w, i);
  }

  /** The nested loop: categories outermost, one draw per row.  `next` is
      the position of the first draw after the loop. */
  method FillTable<S>(cats: seq<string>, members: seq<S>, draws: seq<int>, from: nat)
    returns (data: seq<Cell<S, int>>, next: nat)
    requires from + |cats| * |members| <= |draws|
    ensures next == from + |cats| * |members|
    ensures data == CategoryMajor(cats, members, Drawn(draws, from, |cats|, |members|))
  {
    var n, w := |cats|, |members|;
    ghost var blocks := Drawn(draws, from, n, w);
    data := [];
    next := from;
    for i := 0 to n
      invariant next == from + i * w
      invariant data == CategoryMajor(cats[..i], members, blocks[..i])
    {
      ghost var before := data;
      for j := 0 to w
        invariant next == from + i * w + j
        invariant data == before + Block(cats[i], members[..j], blocks[i][..j])
      {
        DrawnAt(draws, from, n, w, i, j);
        assert Block(cats[i], members[..j + 1], blocks[i][..j + 1])
            == Block(cats[i], members[..j], blocks[i][..j]) + [Cell(cats[i], members[j], draws[next])];
        data := data + [Cell(cats[i], members[j], draws[next])];
        next := next + 1;
      }
      assert members[..w] == members && blocks[i][..w] == blocks[i];
      CategoryMajorStep(cats, members, blocks, i);
      assert (i + 1) * w == i * w + w;
    }
    assert cats[..n] == cats && blocks[..n] == blocks;
  }

  /** The group totals, in group order. */
  function GroupTotals<S>(rows: seq<Cell<S, int>>, keys: seq<string>): (t: seq<int>)
    ensures |t| == |keys| && forall g :: 0 <= g < |keys| ==> t[g] == GroupSum(rows, keys[g])
  {
    seq(|keys|, g requires 0 <= g < |keys| => GroupSum(rows, keys[g]))
  }

  /** `df.groupby('category')['value'].sum().idxmax()`: the key of the
      first group with the largest total; None where idxmax raises. */
  function GroupMax<S>(rows: seq<Cell<S, int>>): (r: Option<string>)
    ensures r.None? <==> rows == []
  {
    var keys := GroupKeys(rows);
    assert rows != [] ==> keys != [] by {
      if rows != [] {
        assert rows[0].category in KeySet(rows);
      }
    }
    LabelAtMax(keys, Reals(GroupTotals(rows, keys)))
  }

  /** Ascending pairwise-different keys. */
  lemma AscendingDistinct(keys: seq<string>)
    requires Ascending(keys)
    ensures Distinct(keys)
  {
    LexLessOrder();
  }

  /** Grouped by category, the table's totals are the per-category totals
      of the drawn values. */
  lemma TotalsOfTable<S>(cats: seq<string>, members: seq<S>, blocks: seq<seq<int>>)
    requires |blocks| == |cats| && Rectangular(blocks, |members|) && Distinct(cats)
    ensures GroupTotals(CategoryMajor(cats, members, blocks), cats) == Totals(blocks)
  {
    var rows := CategoryMajor(cats, members, blocks);
    forall g | 0 <= g < |cats| ensures GroupTotals(rows, cats)[g] == Totals(blocks)[g] {
      GroupSumIsBlockSum(cats, members, blocks, g);
    }
  }

  /** For the nested-loop table over ascending categories and at least one
      member, the answer is the first category whose drawn values have
      the largest total. */
  lemma GroupMaxOfTable<S>(cats: seq<string>, members: seq<S>, blocks: seq<seq<int>>)
    requires |blocks| == |cats| && Rectangular(blocks, |members|)
    requires |cats| > 0 && |members| > 0 && Ascending(cats)
    ensures exists k :: IsFirstMax(Reals(Totals(blocks)), k) &&
                        GroupMax(CategoryMajor(cats, members, blocks)) == Some(cats[k])
  {
    var rows := CategoryMajor(cats, members, blocks);
    CategoriesAreGroupOrder(cats, members, blocks);
    GroupOrderUnique(GroupKeys(rows), cats, rows);
    AscendingDistinct(cats);
    TotalsOfTable(cats, members, blocks);
    assert GroupMax(rows) == LabelAtMax(cats, Reals(Totals(blocks)));
  }

  /** The same for the letter categories "A", "B", ... of the stacked
      generators, which are ascending. */
  lemma GroupMaxOfLetters<S>(n: int, members: seq<S>, blocks: seq<seq<int>>)
    requires n <= Labels.MaxLetters
    requires |blocks| == |Labels.Letters(n)| && Rectangular(blocks, |members|)
    requires n > 0 && |members| > 0
    ensures exists k :: IsFirstMax(Reals(Totals(blocks)), k) &&
                        GroupMax(CategoryMajor(Labels.Letters(n), members, blocks)) == Some(Labels.Letters(n)[k])
  {
    Labels.LettersAscending(n);
    GroupMaxOfTable(Labels.Letters(n), members, blocks);
  }
}
