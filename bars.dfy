/** The bar table shared by the two bar generators: one row per category,
    optionally sorted by value (`df.sort_values('Value')`), and the
    category of the row idxmax picks. */
module Bars {
  import opened Wrappers
  import opened Aggregate

  /** A row of the `{'Category': ..., 'Value': ...}` frame. */
  datatype Bar = Bar(category: string, value: int)

  /** The frame built from the two columns. */
  function Frame(categories: seq<string>, values: seq<int>): (rows: seq<Bar>)
    requires |categories| == |values|
    ensures |rows| == |categories|
    ensures forall i :: 0 <= i < |rows| ==> rows[i] == Bar(categories[i], values[i])
  {
    seq(|categories|, i requires 0 <= i < |categories| => Bar(categories[i], values[i]))
  }

  function Values(rows: seq<Bar>): (vs: seq<real>)
    ensures |vs| == |rows| && forall i :: 0 <= i < |rows| ==> vs[i] == rows[i].value as real
  {
    seq(|rows|, i requires 0 <= i < |rows| => rows[i].value as real)
  }

  function Categories(rows: seq<Bar>): (cs: seq<string>)
    ensures |cs| == |rows| && forall i :: 0 <= i < |rows| ==> cs[i] == rows[i].category
  {
    seq(|rows|, i requires 0 <= i < |rows| => rows[i].category)
  }

  ghost predicate SortedByValue(rows: seq<Bar>)
  {
    forall i, j :: 0 <= i < j < |rows| ==> rows[i].value <= rows[j].value
  }

  /** Puts `b` in front of the first row that is larger, so after every
      row of equal value. */
  function Insert(b: Bar, rows: seq<Bar>): (r: seq<Bar>)
    requires SortedByValue(rows)
    ensures SortedByValue(r)
    ensures multiset(r) == multiset(rows) + multiset{b}
  {
    if rows == [] then [b]
    else if b.value < rows[0].value then [b] + rows
    else
      var rest := Insert(b, rows[1..]);
      assert rows == [rows[0]] + rows[1..];
      FirstIsLeast(rows, b, rest);
      SortedCons(rows[0], rest);
      [rows[0]] + rest
  }

  /** The head of a sorted list is no greater than what is built from its
      tail and a greater row. */
  lemma FirstIsLeast(rows: seq<Bar>, b: Bar, rest: seq<Bar>)
    requires rows != [] && SortedByValue(rows) && rows[0].value <= b.value
    requires multiset(rest) == multiset(rows[1..]) + multiset{b}
    ensures forall x :: x in rest ==> rows[0].value <= x.value
  {
    forall x | x in rest ensures rows[0].value <= x.value {
      assert x in multiset(rest);
      if x != b {
        assert x in multiset(rows[1..]);
        var j :| 0 <= j < |rows[1..]| && rows[1..][j] == x;
        assert rows[j + 1] == x;
      }
    }
  }

  lemma SortedCons(h: Bar, rest: seq<Bar>)
    requires SortedByValue(rest) && forall x :: x in rest ==> h.value <= x.value
    ensures SortedByValue([h] + rest)
  {
    var r := [h] + rest;
    forall i, j | 0 <= i < j < |r| ensures r[i].value <= r[j].value {
      if i == 0 {
        assert r[j] == rest[j - 1];
        assert r[j] in rest;
      } else {
        assert r[i] == rest[i - 1] && r[j] == rest[j - 1];
      }
    }
  }

  /** The rows in ascending order of value, each row kept as often as it
      occurs.  Each row is inserted after the earlier rows of equal value,
      so equal rows keep their order, as numpy's default sort does on
      short columns; pandas itself promises no order among equal values. */
  function SortByValue(rows: seq<Bar>): (r: seq<Bar>)
    ensures SortedByValue(r)
    ensures multiset(r) == multiset(rows)
  {
    if rows == [] then []
    else
      var n := |rows| - 1;
      assert rows == rows[..n] + [rows[n]];
      Insert(rows[n], SortByValue(rows[..n]))
  }

  /** The answer of a bar chart: the category idxmax picks, in the sorted
      order when `sort` is set.  None when there are no rows. */
  function MaxCategory(rows: seq<Bar>, sort: bool): (r: Option<string>)
    ensures r.None? <==> rows == []
  {
    var ordered := if sort then SortByValue(rows) else rows;
    assert |ordered| == |rows| by {
      if sort {
        assert |multiset(ordered)| == |multiset(rows)|;
      }
    }
    LabelAtMax(Categories(ordered), Values(ordered))
  }

  /** Unsorted, the answer is the category of the first row of maximal
      value. */
  lemma UnsortedAnswer(rows: seq<Bar>)
    requires rows != []
    ensures exists k :: IsFirstMax(Values(rows), k) && MaxCategory(rows, false) == Some(rows[k].category)
  {
    assert MaxCategory(rows, false) == LabelAtMax(Categories(rows), Values(rows));
    var k :| IsFirstMax(Values(rows), k) && Categories(rows)[k] == MaxCategory(rows, false).value;
    assert MaxCategory(rows, false) == Some(rows[k].category);
  }

  /** Sorted or not, the answer is the category of a row whose value is at
      least every row's value. */
  lemma {:induction false} AnswerIsMaximal(rows: seq<Bar>, sort: bool)
    requires rows != []
    ensures exists k :: 0 <= k < |rows| && MaxCategory(rows, sort) == Some(rows[k].category) &&
                        forall j :: 0 <= j < |rows| ==> rows[j].value <= rows[k].value
  {
    var ordered := if sort then SortByValue(rows) else rows;
    assert multiset(ordered) == multiset(rows);
    assert |ordered| == |rows| by {
      assert |multiset(ordered)| == |multiset(rows)|;
    }
    assert MaxCategory(rows, sort) == LabelAtMax(Categories(ordered), Values(ordered));
    var m :| IsFirstMax(Values(ordered), m) && Categories(ordered)[m] == MaxCategory(rows, sort).value;
    var top := ordered[m];
    assert top in multiset(rows);
    var k :| 0 <= k < |rows| && rows[k] == top;
    forall j | 0 <= j < |rows| ensures rows[j].value <= rows[k].value {
      assert rows[j] in multiset(ordered);
      var i :| 0 <= i < |ordered| && ordered[i] == rows[j];
      assert Values(ordered)[i] <= Values(ordered)[m];
    }
  }

  /** `df.loc[df['Value'].idxmax(), 'Category']` on the frame built from
      the two columns, sorted by value first when `sort` is set: a
      category whose value is at least every value, and when unsorted the
      first such.  None when the columns are empty. */
  function ColumnAnswer(categories: seq<string>, values: seq<int>, sort: bool): (r: Option<string>)
    requires |categories| == |values|
    ensures r.None? <==> values == []
    ensures r.Some? ==> exists k :: 0 <= k < |values| && r.value == categories[k] &&
                                    forall j :: 0 <= j < |values| ==> values[j] <= values[k]
    ensures r.Some? && !sort ==> exists k :: IsFirstMax(Reals(values), k) && r.value == categories[k]
  {
    var rows := Frame(categories, values);
    if rows == [] then None
    else
      AnswerIsMaximal(rows, sort);
      UnsortedAnswer(rows);
      assert Values(rows) == Reals(values);
      MaxCategory(rows, sort)
  }
}
