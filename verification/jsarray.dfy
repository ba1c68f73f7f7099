/** The two array built-ins the lifecycle state machine removes entries with:
    `Array.prototype.indexOf` (strict equality, first match, -1 when absent)
    and `Array.prototype.splice(start, 1)` (remove at most one element, a
    negative start counting back from the end). Every removal in the source is
    written `list.splice(list.indexOf(x), 1)`, modelled here by RemoveFirst. */
module JsArray {

  /** First index of `x` in `s`, or -1 when `x` does not occur. */
  function IndexOf<T(==)>(s: seq<T>, x: T): (i: int)
    ensures -1 <= i < |s|
    ensures i == -1 <==> x !in s
    ensures 0 <= i ==> s[i] == x && x !in s[..i]
  {
    if |s| == 0 then -1
    else if s[0] == x then 0
    else
      var j := IndexOf(s[1..], x);
      if j == -1 then -1
      else
        assert s[..j + 1] == [s[0]] + s[1..][..j];
        j + 1
  }

  /** The position `splice(start, 1)` removes from a list of length `n`, or
      `n` when it removes nothing: a negative start counts from the end and is
      clamped at 0, a start past the end removes nothing. */
  function SpliceStart(n: nat, start: int): (k: nat)
    ensures k <= n
    ensures 0 <= start ==> k == if start < n then start else n
    ensures start < 0 && 0 <= n + start ==> k == n + start
    ensures n + start < 0 ==> k == 0
  {
    if start < 0 then (if n + start < 0 then 0 else n + start)
    else if start < n then start
    else n
  }

  /** `s.splice(start, 1)`: the list that remains after removing at most one element. */
  function SpliceOne<T>(s: seq<T>, start: int): (r: seq<T>)
    ensures var k := SpliceStart(|s|, start);
      if k < |s| then |r| == |s| - 1 && r == s[..k] + s[k + 1..] else r == s
  {
    var k := SpliceStart(|s|, start);
    if k < |s| then s[..k] + s[k + 1..] else s
  }


  /** What `splice(start, 1)` does to the list: the elements before the
      clamped start keep their index, those after it move down by one, and
      the multiset loses exactly the element at the start, if there is one. */
  lemma SpliceOneSpec<T>(s: seq<T>, start: int)
    ensures var k := SpliceStart(|s|, start); var r := SpliceOne(s, start);
      |r| == (if k < |s| then |s| - 1 else |s|)
    ensures var k := SpliceStart(|s|, start); var r := SpliceOne(s, start);
      forall j :: 0 <= j < |r| ==> r[j] == s[if j < k then j else j + 1]
    ensures var k := SpliceStart(|s|, start);
      multiset(SpliceOne(s, start)) == multiset(s) - (if k < |s| then multiset{s[k]} else multiset{})
  {
    var k := SpliceStart(|s|, start);
    if k < |s| {
      assert s == s[..k] + [s[k]] + s[k + 1..];
    }
  }

  /** `s.splice(s.indexOf(x), 1)`: when `x` occurs, exactly its first occurrence
      is removed and the order of the rest is kept; when it does not, -1 makes
      splice remove the LAST element of a non-empty list. */
  function RemoveFirst<T(==)>(s: seq<T>, x: T): (r: seq<T>)
    ensures x in s ==> |r| == |s| - 1 && multiset(r) == multiset(s) - multiset{x}
    ensures x !in s && |s| > 0 ==> r == s[..|s| - 1]
    ensures x !in s && |s| == 0 ==> r == s
  {
    var i := IndexOf(s, x);
    if 0 <= i then
      assert s == s[..i] + [s[i]] + s[i + 1..];
      SpliceOne(s, i)
    else
      SpliceOne(s, i)
  }

  /** The removal of a present element cuts the list at its first occurrence. */
  lemma RemoveFirstAt<T>(s: seq<T>, x: T)
    requires x in s
    ensures var i := IndexOf(s, x); RemoveFirst(s, x) == s[..i] + s[i + 1..]
  {
  }

  /** Every element is smaller than every later one (so no element repeats). */
  ghost predicate Increasing(s: seq<nat>)
  {
    forall i, j :: 0 <= i < j < |s| ==> s[i] < s[j]
  }

  /** Cutting one element out of an increasing list keeps it increasing. */
  lemma CutIncreasing(s: seq<nat>, i: nat, r: seq<nat>)
    requires Increasing(s)
    requires i < |s| && r == s[..i] + s[i + 1..]
    ensures Increasing(r)
  {
  }

  /** Cutting index `i` out of a list without repeats leaves exactly the
      members other than `s[i]`. */
  lemma CutMembers(s: seq<nat>, i: nat, r: seq<nat>)
    requires Increasing(s)
    requires i < |s| && r == s[..i] + s[i + 1..]
    ensures forall y :: y in r <==> y in s && y != s[i]
  {
  }

  /** Removing an element from an increasing list keeps it increasing. */
  lemma RemoveFirstIncreasing(s: seq<nat>, x: nat)
    requires Increasing(s)
    requires x in s
    ensures Increasing(RemoveFirst(s, x))
  {
    RemoveFirstAt(s, x);
    CutIncreasing(s, IndexOf(s, x), RemoveFirst(s, x));
  }

  /** Removing the first occurrence of `x` from a list without repeats leaves
      exactly the other members. */
  lemma RemoveFirstMembers(s: seq<nat>, x: nat)
    requires Increasing(s)
    requires x in s
    ensures forall y :: y in RemoveFirst(s, x) <==> y in s && y != x
  {
    RemoveFirstAt(s, x);
    CutMembers(s, IndexOf(s, x), RemoveFirst(s, x));
  }
}
