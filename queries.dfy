/** The list queries the assertion helpers run over the tracked events, LINQ's FirstOrDefault
    (as an index) and Count, each with a predicate supplied by the caller, and Filter, the
    subsequence of matching elements, against which the count is checked. */
module Queries {
  import opened Outcomes

  /** No element of `s` satisfies `p`. */
  predicate NoMatch<E>(s: seq<E>, p: E -> bool)
  {
    forall i | 0 <= i < |s| :: !p(s[i])
  }

  /** `i` is the position of the first element of `s`, in order, that satisfies `p`. */
  predicate IsFirstMatch<E>(s: seq<E>, p: E -> bool, i: int)
  {
    0 <= i < |s| && p(s[i]) && forall j | 0 <= j < i :: !p(s[j])
  }

  /** The position of the element FirstOrDefault returns, or Nothing where it returns the default. */
  function FirstMatch<E>(s: seq<E>, p: E -> bool): (r: Option<nat>)
    ensures r.Some? ==> IsFirstMatch(s, p, r.value)
    ensures r.Nothing? <==> NoMatch(s, p)
  {
    if s == [] then Nothing
    else if p(s[0]) then Some(0)
    else match FirstMatch(s[1..], p)
      case Nothing => Nothing
      case Some(i) =>
        assert s[1..][i] == s[i + 1];
        Some(i + 1)
  }

  /** At most one position is the first match. */
  lemma FirstMatchUnique<E>(s: seq<E>, p: E -> bool, i: int, j: int)
    requires IsFirstMatch(s, p, i) && IsFirstMatch(s, p, j)
    ensures i == j
  {
  }

  /** Some element matches exactly when a first match exists. */
  lemma FirstMatchExists<E>(s: seq<E>, p: E -> bool)
    ensures !NoMatch(s, p) <==> exists i :: IsFirstMatch(s, p, i)
  {
    var r := FirstMatch(s, p);
    if r.Some? {
      assert IsFirstMatch(s, p, r.value);
    }
  }

  /** Elements appended after a match leave the first match where it was. */
  lemma {:induction false} FirstMatchStable<E>(s: seq<E>, t: seq<E>, p: E -> bool)
    requires FirstMatch(s, p).Some?
    ensures FirstMatch(s + t, p) == FirstMatch(s, p)
  {
    var i := FirstMatch(s, p).value;
    assert IsFirstMatch(s + t, p, i) by {
      forall j | 0 <= j < i ensures !p((s + t)[j]) {
        assert (s + t)[j] == s[j];
      }
      assert (s + t)[i] == s[i];
    }
    FirstMatchUnique(s + t, p, i, FirstMatch(s + t, p).value);
  }

  /** The number of elements of `s` that satisfy `p`, as LINQ's Count counts them. */
  function CountMatching<E>(s: seq<E>, p: E -> bool): (n: nat)
    ensures n <= |s|
    ensures n == 0 <==> NoMatch(s, p)
    ensures n == |s| <==> forall i | 0 <= i < |s| :: p(s[i])
  {
    if s == [] then 0
    else
      assert forall i | 0 <= i < |s| - 1 :: s[1..][i] == s[i + 1];
      (if p(s[0]) then 1 else 0) + CountMatching(s[1..], p)
  }

  /** The elements of `s` that satisfy `p`, in order: a reference definition of what is counted. */
  function Filter<E>(s: seq<E>, p: E -> bool): (r: seq<E>)
    ensures |r| <= |s|
    ensures forall i | 0 <= i < |r| :: p(r[i])
    ensures multiset(r) <= multiset(s)
    ensures forall i | 0 <= i < |s| && p(s[i]) :: multiset(r)[s[i]] == multiset(s)[s[i]]
  {
    if s == [] then []
    else
      assert s == [s[0]] + s[1..];
      (if p(s[0]) then [s[0]] else []) + Filter(s[1..], p)
  }

  /** Filtering keeps order: the matches of a concatenation are the matches of the first part
      followed by those of the second. */
  lemma {:induction false} FilterAppend<E>(s: seq<E>, t: seq<E>, p: E -> bool)
    ensures Filter(s + t, p) == Filter(s, p) + Filter(t, p)
  {
    if s == [] {
      assert s + t == t;
    } else {
      assert (s + t)[0] == s[0] && (s + t)[1..] == s[1..] + t;
      FilterAppend(s[1..], t, p);
    }
  }

  /** Count is the length of the filtered subsequence. */
  lemma {:induction false} CountIsFilterLength<E>(s: seq<E>, p: E -> bool)
    ensures CountMatching(s, p) == |Filter(s, p)|
  {
    if s != [] {
      CountIsFilterLength(s[1..], p);
    }
  }

  /** Counting distributes over concatenation. */
  lemma {:induction false} CountAppend<E>(s: seq<E>, t: seq<E>, p: E -> bool)
    ensures CountMatching(s + t, p) == CountMatching(s, p) + CountMatching(t, p)
  {
    if s == [] {
      assert s + t == t;
    } else {
      assert (s + t)[0] == s[0] && (s + t)[1..] == s[1..] + t;
      CountAppend(s[1..], t, p);
    }
  }
}
