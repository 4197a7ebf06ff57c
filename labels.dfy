/** The labels the generators make up: letters `chr(65 + i)` for
    categories and points, `f"S{i+1}"` for series, `range(1, n + 1)` for x
    positions, and the fallback from user-supplied categories to letters. */
module Labels {
  import opened Wrappers
  import Text
  import opened Draws

  /** How many letters `chr(65 + i)` this model can produce: Dafny's
      characters stop short of the surrogate block at 0xD800. */
  const MaxLetters: nat := 0xD800 - 65

  /** `chr(65 + i)`: "A", "B", ... */
  function Letter(i: nat): (s: string)
    requires i < MaxLetters
    ensures |s| == 1 && s[0] as int == 65 + i
  {
    [(65 + i) as char]
  }

  /** `[chr(65 + i) for i in range(n)]`. */
  function Letters(n: int): (r: seq<string>)
    requires n <= MaxLetters
    ensures |r| == RangeLen(n)
    ensures forall i :: 0 <= i < |r| ==> r[i] == Letter(i)
  {
    seq(RangeLen(n), i requires 0 <= i < RangeLen(n) => Letter(i))
  }

  /** Letters are pairwise different, and each comes after the previous
      one in Python's string order. */
  lemma LettersAscending(n: int)
    requires n <= MaxLetters
    ensures forall i, j :: 0 <= i < j < RangeLen(n) ==> Text.LexLess(Letters(n)[i], Letters(n)[j])
  {
    var r := Letters(n);
    forall i, j | 0 <= i < j < |r| ensures Text.LexLess(r[i], r[j]) {
      assert r[i][0] < r[j][0];
    }
  }

  /** `f"S{i+1}"`: an "S" followed by decimal digits that read as i + 1. */
  function SeriesName(i: nat): (s: string)
    ensures |s| >= 2 && s[0] == 'S'
    ensures Text.AllDigits(s[1..]) && Text.DigitsValue(s[1..]) == i + 1
  {
    var s := "S" + Text.NatToString(i + 1);
    assert s[1..] == Text.NatToString(i + 1);
    Text.NatToStringRoundTrip(i + 1);
    s
  }

  lemma SeriesNamesDistinct(i: nat, j: nat)
    requires SeriesName(i) == SeriesName(j)
    ensures i == j
  {
  }

  /** `[f"S{i+1}" for i in range(n)]`. */
  function SeriesNames(n: int): (r: seq<string>)
    ensures |r| == RangeLen(n)
    ensures forall i :: 0 <= i < |r| ==> r[i] == SeriesName(i)
  {
    seq(RangeLen(n), i requires 0 <= i < RangeLen(n) => SeriesName(i))
  }

  /** `list(range(1, n + 1))`: the x positions 1..n. */
  function Positions(n: int): (r: seq<int>)
    ensures |r| == RangeLen(n)
    ensures forall i :: 0 <= i < |r| ==> r[i] == i + 1
  {
    seq(RangeLen(n), i requires 0 <= i < RangeLen(n) => i + 1)
  }

  /** The category rule of the bar, pie and bubble generators:
      `kwargs.get("categories") or <letters>`, replaced by the letters
      again when its length is not n.  A supplied list is used exactly
      when it is non-empty and has n entries; otherwise the letters are. */
  function Categories(n: int, supplied: Option<seq<string>>): (r: seq<string>)
    requires n <= MaxLetters
    ensures |r| == RangeLen(n)
    ensures supplied.Some? && supplied.value != [] && |supplied.value| == n ==> r == supplied.value
    ensures !(supplied.Some? && supplied.value != [] && |supplied.value| == n) ==> r == Letters(n)
  {
    var first := if supplied.Some? && supplied.value != [] then supplied.value else Letters(n);
    if |first| != n then Letters(n) else first
  }
}
