/** The long-format tables of the stacked generators and pandas'
    `groupby('category')`.  A nested `for cat in categories: for m in
    members:` loop appends one row per pair; CategoryMajor is the table it
    builds, and the lemmas below give its row count, the position of every
    pair, the per-category totals and the order of the groups. */
module Tables {
  import Text
  import opened Aggregate

  /** One appended row: its category, its inner-loop item (a series name
      or an x position) and its value. */
  datatype Cell<S, V> = Cell(category: string, member: S, value: V)

  /** The rows appended for one category. */
  function Block<S, V>(category: string, members: seq<S>, vals: seq<V>): (r: seq<Cell<S, V>>)
    requires |vals| == |members|
    ensures |r| == |members|
    ensures forall j :: 0 <= j < |r| ==> r[j] == Cell(category, members[j], vals[j])
  {
    seq(|members|, j requires 0 <= j < |members| => Cell(category, members[j], vals[j]))
  }

  lemma MulLe(a: nat, b: nat, w: nat)
    requires a <= b
    ensures a * w <= b * w
  {
  }

  /** Block i of a table with n blocks of w rows lies inside the table. */
  lemma BlockBound(i: nat, n: nat, w: nat)
    requires i < n
    ensures i * w + w <= n * w
  {
    MulLe(i + 1, n, w);
    assert (i + 1) * w == i * w + w;
  }

  /** Every position of a table with n blocks of w rows is i * w + j for
      some block i and some offset j. */
  lemma Decompose(t: nat, n: nat, w: nat) returns (i: nat, j: nat)
    requires t < n * w
    ensures i < n && j < w && t == i * w + j
  {
    assert w > 0;
    i, j := t / w, t % w;
    if n <= i {
      MulLe(n, i, w);
    }
  }

  /** Every block has w entries. */
  ghost predicate Rectangular<V>(blocks: seq<seq<V>>, w: nat)
  {
    forall i :: 0 <= i < |blocks| ==> |blocks[i]| == w
  }

  /** `vals` cut into n consecutive pieces of w: what each pass of the
      outer loop takes from the random stream. */
  function Chunks<V>(vals: seq<V>, n: nat, w: nat): (r: seq<seq<V>>)
    requires |vals| == n * w
    ensures |r| == n && Rectangular(r, w)
  {
    if n == 0 then []
    else
      assert n * w == (n - 1) * w + w;
      Chunks(vals[..(n - 1) * w], n - 1, w) + [vals[(n - 1) * w..]]
  }

  /** Piece i is the values at positions i * w up to (i + 1) * w. */
  lemma {:induction false} ChunkAt<V>(vals: seq<V>, n: nat, w: nat, i: nat)
    requires |vals| == n * w && i < n
    ensures i * w + w <= |vals|
    ensures Chunks(vals, n, w)[i] == vals[i * w..i * w + w]
    decreases n
  {
    BlockBound(i, n, w);
    assert n * w == (n - 1) * w + w;
    if i < n - 1 {
      BlockBound(i, n - 1, w);
      ChunkAt(vals[..(n - 1) * w], n - 1, w, i);
      assert vals[..(n - 1) * w][i * w..i * w + w] == vals[i * w..i * w + w];
    }
  }

  /** The table built by the nested loops, categories outermost:
      `blocks[i]` holds the values drawn for `cats[i]`, one per member. */
  function CategoryMajor<S, V>(cats: seq<string>, members: seq<S>, blocks: seq<seq<V>>): seq<Cell<S, V>>
    requires |blocks| == |cats| && Rectangular(blocks, |members|)
    decreases |cats|
  {
    if cats == [] then []
    else
      var m := |cats| - 1;
      CategoryMajor(cats[..m], members, blocks[..m]) + Block(cats[m], members, blocks[m])
  }

  /** Adding a member adds its row at the end of the block (the inner
      loop's step). */
  lemma BlockStep<S, V>(category: string, members: seq<S>, vals: seq<V>, j: nat)
    requires |vals| == |members| && j < |members|
    ensures Block(category, members[..j + 1], vals[..j + 1])
              == Block(category, members[..j], vals[..j]) + [Cell(category, members[j], vals[j])]
  {
  }

  /** Adding a category adds its block at the end (the outer loop's step). */
  lemma CategoryMajorStep<S, V>(cats: seq<string>, members: seq<S>, blocks: seq<seq<V>>, i: nat)
    requires |blocks| == |cats| && Rectangular(blocks, |members|) && i < |cats|
    ensures CategoryMajor(cats[..i + 1], members, blocks[..i + 1])
              == CategoryMajor(cats[..i], members, blocks[..i]) + Block(cats[i], members, blocks[i])
  {
    var c, b := cats[..i + 1], blocks[..i + 1];
    assert c[..i] == cats[..i] && c[i] == cats[i];
    assert b[..i] == blocks[..i] && b[i] == blocks[i];
  }

  /** The table has one row per (category, member) pair. */
  lemma {:induction false} CategoryMajorSize<S, V>(cats: seq<string>, members: seq<S>, blocks: seq<seq<V>>)
    requires |blocks| == |cats| && Rectangular(blocks, |members|)
    ensures |CategoryMajor(cats, members, blocks)| == |cats| * |members|
    decreases |cats|
  {
    if cats != [] {
      var m := |cats| - 1;
      CategoryMajorSize(cats[..m], members, blocks[..m]);
      assert |cats| * |members| == m * |members| + |members|;
    }
  }

  /** The row of the pair (i, j) sits at position i * |members| + j and
      holds the j-th value drawn for category i. */
  lemma {:induction false} CellAt<S, V>(cats: seq<string>, members: seq<S>, blocks: seq<seq<V>>, i: nat, j: nat)
    requires |blocks| == |cats| && Rectangular(blocks, |members|)
    requires i < |cats| && j < |members|
    ensures i * |members| + j < |CategoryMajor(cats, members, blocks)|
    ensures CategoryMajor(cats, members, blocks)[i * |members| + j] == Cell(cats[i], members[j], blocks[i][j])
    decreases |cats|
  {
    var m := |cats| - 1;
    var w := |members|;
    CategoryMajorSize(cats[..m], members, blocks[..m]);
    var prefix := CategoryMajor(cats[..m], members, blocks[..m]);
    if i < m {
      CellAt(cats[..m], members, blocks[..m], i, j);
    } else {
      assert i * w + j == |prefix| + j;
    }
  }

  /** No two rows hold the same (category, member) pair when the
      categories and the members are each pairwise different. */
  lemma PairsOnce<S, V>(cats: seq<string>, members: seq<S>, blocks: seq<seq<V>>)
    requires |blocks| == |cats| && Rectangular(blocks, |members|)
    requires Distinct(cats) && Distinct(members)
    ensures forall t, u :: 0 <= t < u < |CategoryMajor(cats, members, blocks)| ==>
              CategoryMajor(cats, members, blocks)[t].category != CategoryMajor(cats, members, blocks)[u].category ||
              CategoryMajor(cats, members, blocks)[t].member != CategoryMajor(cats, members, blocks)[u].member
  {
    CategoryMajorSize(cats, members, blocks);
    var rows := CategoryMajor(cats, members, blocks);
    var w := |members|;
    forall t, u | 0 <= t < u < |rows|
      ensures rows[t].category != rows[u].category || rows[t].member != rows[u].member
    {
      var i, j := Decompose(t, |cats|, w);
      var k, l := Decompose(u, |cats|, w);
      CellAt(cats, members, blocks, i, j);
      CellAt(cats, members, blocks, k, l);
    }
  }

  /** pandas' `groupby('category')['value'].sum()` for one key: the total
      of the values of the rows in that group. */
  function GroupSum<S>(rows: seq<Cell<S, int>>, key: string): int
  {
    if rows == [] then 0
    else GroupSum(rows[..|rows| - 1], key) + (if rows[|rows| - 1].category == key then rows[|rows| - 1].value else 0)
  }

  lemma {:induction false} GroupSumAppend<S>(a: seq<Cell<S, int>>, b: seq<Cell<S, int>>, key: string)
    ensures GroupSum(a + b, key) == GroupSum(a, key) + GroupSum(b, key)
    decreases |b|
  {
    if b == [] {
      assert a + b == a;
    } else {
      assert (a + b)[..|a + b| - 1] == a + b[..|b| - 1];
      GroupSumAppend(a, b[..|b| - 1], key);
    }
  }

  lemma {:induction false} GroupSumOfBlock<S>(category: string, members: seq<S>, vals: seq<int>, key: string)
    requires |vals| == |members|
    ensures GroupSum(Block(category, members, vals), key) == if key == category then Sum(vals) else 0
    decreases |members|
  {
    if members != [] {
      var n := |members| - 1;
      assert Block(category, members, vals)[..n] == Block(category, members[..n], vals[..n]);
      GroupSumOfBlock(category, members[..n], vals[..n], key);
    }
  }

  /** The group total of a key that is no category is 0. */
  lemma {:induction false} GroupSumOfAbsentKey<S>(cats: seq<string>, members: seq<S>, blocks: seq<seq<int>>, key: string)
    requires |blocks| == |cats| && Rectangular(blocks, |members|)
    requires key !in cats
    ensures GroupSum(CategoryMajor(cats, members, blocks), key) == 0
    decreases |cats|
  {
    if cats != [] {
      var m := |cats| - 1;
      var c, b := cats[..m], blocks[..m];
      assert key !in c;
      GroupSumOfAbsentKey(c, members, b, key);
      GroupSumAppend(CategoryMajor(c, members, b), Block(cats[m], members, blocks[m]), key);
      GroupSumOfBlock(cats[m], members, blocks[m], key);
    }
  }

  /** Entries are pairwise different. */
  ghost predicate Distinct<T>(s: seq<T>)
  {
    forall a, b :: 0 <= a < b < |s| ==> s[a] != s[b]
  }

  /** The group total of the i-th category is the sum of the values drawn
      for it, when categories are pairwise different. */
  lemma {:induction false} GroupSumIsBlockSum<S>(cats: seq<string>, members: seq<S>, blocks: seq<seq<int>>, i: nat)
    requires |blocks| == |cats| && Rectangular(blocks, |members|) && i < |cats|
    requires Distinct(cats)
    ensures GroupSum(CategoryMajor(cats, members, blocks), cats[i]) == Sum(blocks[i])
    decreases |cats|
  {
    var m := |cats| - 1;
    var c, b := cats[..m], blocks[..m];
    var key := cats[i];
    var prefix := CategoryMajor(c, members, b);
    var last := Block(cats[m], members, blocks[m]);
    assert CategoryMajor(cats, members, blocks) == prefix + last;
    GroupSumAppend(prefix, last, key);
    GroupSumOfBlock(cats[m], members, blocks[m], key);
    if i < m {
      assert c[i] == key && b[i] == blocks[i];
      assert Distinct(c) by {
        forall a, a' | 0 <= a < a' < |c| ensures c[a] != c[a'] {
          assert c[a] == cats[a] && c[a'] == cats[a'];
        }
      }
      GroupSumIsBlockSum(c, members, b, i);
      assert cats[m] != key;
    } else {
      assert key !in c by {
        forall a | 0 <= a < m ensures c[a] != key {
          assert c[a] == cats[a];
        }
      }
      GroupSumOfAbsentKey(c, members, b, key);
    }
  }

  /** Keys in strictly ascending string order. */
  ghost predicate Ascending(keys: seq<string>)
  {
    forall i, j :: 0 <= i < j < |keys| ==> Text.LexLess(keys[i], keys[j])
  }

  ghost function KeySet<S, V>(rows: seq<Cell<S, V>>): set<string>
  {
    set r | r in rows :: r.category
  }

  /** pandas' groupby lists its groups by ascending key: `keys` is that
      list for `rows` when it is ascending and names exactly the row keys. */
  ghost predicate IsGroupOrder<S, V>(keys: seq<string>, rows: seq<Cell<S, V>>)
  {
    Ascending(keys) && Elems(keys) == KeySet(rows)
  }

  lemma LexLessOrder()
    ensures forall x :: !Text.LexLess(x, x)
    ensures forall x, y :: Text.LexLess(x, y) ==> !Text.LexLess(y, x)
  {
    forall x ensures !Text.LexLess(x, x) {
      Text.LexLessIrreflexive(x);
    }
    forall x, y | Text.LexLess(x, y) ensures !Text.LexLess(y, x) {
      Text.LexLessAsymmetric(x, y);
    }
  }

  ghost function Elems(keys: seq<string>): set<string>
  {
    set k | k in keys
  }

  /** Two ascending key lists with the same keys are the same list. */
  lemma {:induction false} AscendingUnique(a: seq<string>, b: seq<string>)
    requires Ascending(a) && Ascending(b)
    requires Elems(a) == Elems(b)
    ensures a == b
    decreases |a|
  {
    if b != [] {
      assert b[0] in Elems(b);
    }
    if a != [] {
      assert a[0] in Elems(a);
    }
    if a != [] && b != [] {
      assert b[0] in a && a[0] in b;
      var i :| 0 <= i < |a| && a[i] == b[0];
      var j :| 0 <= j < |b| && b[j] == a[0];
      LexLessOrder();
      var x, y := a[0], b[0];
      assert i > 0 ==> Text.LexLess(x, y);
      assert j > 0 ==> Text.LexLess(y, x);
      assert x == y;
      assert a[0] !in a[1..];
      assert b[0] !in b[1..];
      assert Elems(a[1..]) == Elems(a) - {a[0]};
      assert Elems(b[1..]) == Elems(b) - {b[0]};
      AscendingUnique(a[1..], b[1..]);
      assert a == [a[0]] + a[1..];
      assert b == [b[0]] + b[1..];
    }
  }

  lemma GroupOrderUnique<S, V>(a: seq<string>, b: seq<string>, rows: seq<Cell<S, V>>)
    requires IsGroupOrder(a, rows) && IsGroupOrder(b, rows)
    ensures a == b
  {
    AscendingUnique(a, b);
  }

  /** The groups of a concatenation are those of its parts. */
  lemma KeySetAppend<S, V>(a: seq<Cell<S, V>>, b: seq<Cell<S, V>>)
    ensures KeySet(a + b) == KeySet(a) + KeySet(b)
  {
    forall k | k in KeySet(a + b) ensures k in KeySet(a) + KeySet(b) {
      var r :| r in a + b && r.category == k;
      assert r in a || r in b;
    }
    forall k | k in KeySet(a) + KeySet(b) ensures k in KeySet(a + b) {
      if k in KeySet(a) {
        var r :| r in a && r.category == k;
        assert r in a + b;
      } else {
        var r :| r in b && r.category == k;
        assert r in a + b;
      }
    }
  }

  /** Every category has a row when there is at least one member. */
  lemma {:induction false} CategoriesHaveRows<S, V>(cats: seq<string>, members: seq<S>, blocks: seq<seq<V>>)
    requires |blocks| == |cats| && Rectangular(blocks, |members|) && |members| > 0
    ensures Elems(cats) <= KeySet(CategoryMajor(cats, members, blocks))
    decreases |cats|
  {
    if cats != [] {
      var m := |cats| - 1;
      var prefix := CategoryMajor(cats[..m], members, blocks[..m]);
      var block := Block(cats[m], members, blocks[m]);
      CategoriesHaveRows(cats[..m], members, blocks[..m]);
      KeySetAppend(prefix, block);
      assert block[0] in block;
      assert cats == cats[..m] + [cats[m]];
      assert Elems(cats) == Elems(cats[..m]) + {cats[m]};
    }
  }

  /** Every row's category is one of the categories. */
  lemma RowsHaveCategories<S, V>(cats: seq<string>, members: seq<S>, blocks: seq<seq<V>>)
    requires |blocks| == |cats| && Rectangular(blocks, |members|)
    ensures KeySet(CategoryMajor(cats, members, blocks)) <= Elems(cats)
  {
    CategoryMajorSize(cats, members, blocks);
    var rows := CategoryMajor(cats, members, blocks);
    forall k | k in KeySet(rows) ensures k in Elems(cats) {
      var t :| 0 <= t < |rows| && rows[t].category == k;
      var i, j := Decompose(t, |cats|, |members|);
      CellAt(cats, members, blocks, i, j);
    }
  }

  /** When there is at least one member, ascending categories are the
      order in which groupby lists the groups of the nested-loop table. */
  lemma CategoriesAreGroupOrder<S, V>(cats: seq<string>, members: seq<S>, blocks: seq<seq<V>>)
    requires |blocks| == |cats| && Rectangular(blocks, |members|) && |members| > 0
    requires Ascending(cats)
    ensures IsGroupOrder(cats, CategoryMajor(cats, members, blocks))
  {
    CategoriesHaveRows(cats, members, blocks);
    RowsHaveCategories(cats, members, blocks);
  }

  /** An ascending list stays ascending with a smaller key in front. */
  lemma AscendingCons(h: string, rest: seq<string>)
    requires Ascending(rest) && forall x :: x in rest ==> Text.LexLess(h, x)
    ensures Ascending([h] + rest)
  {
    var r := [h] + rest;
    forall i, j | 0 <= i < j < |r| ensures Text.LexLess(r[i], r[j]) {
      if i == 0 {
        assert r[j] == rest[j - 1];
        assert r[j] in rest;
      } else {
        assert r[i] == rest[i - 1] && r[j] == rest[j - 1];
      }
    }
  }

  /** Adds `key` to an ascending key list at its place, once. */
  function InsertKey(key: string, keys: seq<string>): (r: seq<string>)
    requires Ascending(keys)
    ensures Ascending(r)
    ensures Elems(r) == Elems(keys) + {key}
  {
    if keys == [] then [key]
    else if key == keys[0] then
      assert Elems(keys) == Elems(keys) + {key} by {
        assert key in keys;
      }
      keys
    else if Text.LexLess(key, keys[0]) then
      assert forall x :: x in keys ==> Text.LexLess(key, x) by {
        forall x | x in keys ensures Text.LexLess(key, x) {
          var j :| 0 <= j < |keys| && keys[j] == x;
          if j > 0 {
            Text.LexLessTransitive(key, keys[0], x);
          }
        }
      }
      AscendingCons(key, keys);
      assert Elems([key] + keys) == Elems(keys) + {key};
      [key] + keys
    else
      Text.LexLessTotal(key, keys[0]);
      var tail := keys[1..];
      assert Ascending(tail) by {
        forall i, j | 0 <= i < j < |tail| ensures Text.LexLess(tail[i], tail[j]) {
          assert tail[i] == keys[i + 1] && tail[j] == keys[j + 1];
        }
      }
      var rest := InsertKey(key, tail);
      assert forall x :: x in rest ==> Text.LexLess(keys[0], x) by {
        forall x | x in rest ensures Text.LexLess(keys[0], x) {
          assert x in Elems(rest);
          if x != key {
            var j :| 0 <= j < |tail| && tail[j] == x;
            assert keys[j + 1] == x;
          }
        }
      }
      AscendingCons(keys[0], rest);
      assert keys == [keys[0]] + tail;
      assert Elems([keys[0]] + rest) == {keys[0]} + Elems(rest);
      assert Elems(keys) == {keys[0]} + Elems(tail);
      [keys[0]] + rest
  }

  /** The group keys of `groupby('category')`: the row categories, each
      once, in ascending order. */
  function GroupKeys<S, V>(rows: seq<Cell<S, V>>): (keys: seq<string>)
    ensures IsGroupOrder(keys, rows)
  {
    if rows == [] then []
    else
      var n := |rows| - 1;
      var keys := InsertKey(rows[n].category, GroupKeys(rows[..n]));
      assert KeySet(rows) == KeySet(rows[..n]) + {rows[n].category} by {
        assert rows == rows[..n] + [rows[n]];
      }
      keys
  }
}
