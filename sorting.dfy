/**
 * Python's `list.sort()` on a list of readings, modelled as a functional
 * insertion sort over `real` whose result is proved sorted and a
 * permutation of its input.
 */
module Sorting {

  predicate IsSorted(s: seq<real>)
  {
    forall i, j :: 0 <= i < j < |s| ==> s[i] <= s[j]
  }

  /** Putting an element no larger than the head in front keeps a sequence sorted. */
  lemma ConsSorted(a: real, t: seq<real>)
    requires IsSorted(t)
    requires t != [] ==> a <= t[0]
    ensures IsSorted([a] + t)
  {
    var r := [a] + t;
    forall i, j | 0 <= i < j < |r| ensures r[i] <= r[j] {
      if i > 0 {
        assert r[i] == t[i - 1] && r[j] == t[j - 1];
      } else {
        assert r[j] == t[j - 1];
        assert t[0] <= t[j - 1];
      }
    }
  }

  /** Inserts `x` into the sorted sequence `s`, keeping it sorted. */
  function Insert(x: real, s: seq<real>): (r: seq<real>)
    requires IsSorted(s)
    ensures IsSorted(r)
    ensures multiset(r) == multiset(s) + multiset{x}
    ensures |r| == |s| + 1
    ensures r[0] == x || (s != [] && r[0] == s[0])
  {
    if s == [] then [x]
    else if x <= s[0] then
      ConsSorted(x, s);
      [x] + s
    else
      assert s == [s[0]] + s[1..];
      var rest := Insert(x, s[1..]);
      ConsSorted(s[0], rest);
      [s[0]] + rest
  }

  /** The ascending rearrangement of `s`. */
  function Sort(s: seq<real>): (r: seq<real>)
    ensures IsSorted(r)
    ensures multiset(r) == multiset(s)
    ensures |r| == |s|
  {
    if s == [] then []
    else
      assert s == [s[0]] + s[1..];
      Insert(s[0], Sort(s[1..]))
  }

  /** Every element of the sorted sequence comes from the input. */
  lemma SortedElementFromInput(s: seq<real>, k: nat)
    requires k < |s|
    ensures Sort(s)[k] in s
  {
    var r := Sort(s);
    assert r[k] in multiset(r);
  }
}
