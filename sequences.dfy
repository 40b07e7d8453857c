/** Facts about sequences used to describe insertion-ordered maps: a JS `Map`
    remembers its keys in the order they were first set. */
module Sequences {

  predicate NoDup<T(==)>(s: seq<T>) {
    forall i, j :: 0 <= i < j < |s| ==> s[i] != s[j]
  }

  function Elements<T>(s: seq<T>): set<T> {
    set x | x in s
  }

  /** The elements of `s` in order of first occurrence, each once. */
  function Distinct<T(==,!new)>(s: seq<T>): (r: seq<T>)
    ensures forall x :: x in r <==> x in s
    ensures NoDup(r)
    decreases |s|
  {
    if s == [] then []
    else
      var n := |s| - 1;
      assert s == s[..n] + [s[n]];
      var d := Distinct(s[..n]);
      if s[n] in d then d else d + [s[n]]
  }

  /** The position of the first occurrence of `x` in `s`. */
  function FirstIndex<T(==)>(s: seq<T>, x: T): (r: nat)
    requires x in s
    ensures r < |s| && s[r] == x
    ensures forall i :: 0 <= i < r ==> s[i] != x
    decreases |s|
  {
    var n := |s| - 1;
    assert s == s[..n] + [s[n]];
    if x in s[..n] then FirstIndex(s[..n], x) else n
  }

  /** The position of the last occurrence of `x` in `s`. */
  function LastIndex<T(==)>(s: seq<T>, x: T): (r: nat)
    requires x in s
    ensures r < |s| && s[r] == x
    ensures forall i :: r < i < |s| ==> s[i] != x
    decreases |s|
  {
    var n := |s| - 1;
    if s[n] == x then n else LastIndex(s[..n], x)
  }

  /** Appending one element adds it to the distinct elements exactly when it is new. */
  lemma DistinctSnoc<T(!new)>(s: seq<T>, x: T)
    ensures Distinct(s + [x]) == if x in s then Distinct(s) else Distinct(s) + [x]
  {
    assert (s + [x])[..|s|] == s;
  }

  /** Appending to `s` moves no first occurrence already in `s`. */
  lemma FirstIndexSnoc<T>(s: seq<T>, x: T, y: T)
    requires y in s + [x]
    ensures FirstIndex(s + [x], y) == if y in s then FirstIndex(s, y) else |s|
  {
    assert (s + [x])[..|s|] == s;
  }

  /** The last occurrence in `s + [x]` is the new element when it matches. */
  lemma LastIndexSnoc<T>(s: seq<T>, x: T, y: T)
    requires y in s + [x]
    ensures LastIndex(s + [x], y) == if x == y then |s| else LastIndex(s, y)
  {
    assert (s + [x])[..|s|] == s;
  }

  /** In `a + b`, an element first occurs inside `a` exactly when it occurs in `a`. */
  lemma FirstIndexConcat<T>(a: seq<T>, b: seq<T>, x: T)
    requires x in a + b
    ensures FirstIndex(a + b, x) < |a| <==> x in a
  {
    var r := FirstIndex(a + b, x);
    assert forall i :: 0 <= i < |a| ==> (a + b)[i] == a[i];
    if x in a {
      var p :| 0 <= p < |a| && a[p] == x;
    }
  }

  /** A sequence without repetitions has as many elements as its set of elements. */
  lemma {:induction false} NoDupCard<T>(s: seq<T>)
    requires NoDup(s)
    ensures |Elements(s)| == |s|
    decreases |s|
  {
    if s != [] {
      var n := |s| - 1;
      var t := s[..n];
      assert NoDup(t);
      NoDupCard(t);
      assert s == t + [s[n]];
      assert s[n] !in t;
      assert Elements(s) == Elements(t) + {s[n]};
    }
  }

  /** The distinct elements are exactly as many as the elements of the set. */
  lemma DistinctCard<T(!new)>(s: seq<T>)
    ensures |Distinct(s)| == |Elements(s)|
  {
    NoDupCard(Distinct(s));
    assert Elements(Distinct(s)) == Elements(s);
  }

  /** The distinct elements appear in the order of their first occurrence in `s`. */
  lemma {:induction false} DistinctOrder<T(!new)>(s: seq<T>)
    ensures forall i, j :: 0 <= i < j < |Distinct(s)| ==>
      FirstIndex(s, Distinct(s)[i]) < FirstIndex(s, Distinct(s)[j])
    decreases |s|
  {
    if s != [] {
      var n := |s| - 1;
      var t := s[..n];
      assert s == t + [s[n]];
      DistinctOrder(t);
      DistinctSnoc(t, s[n]);
      var d, dt := Distinct(s), Distinct(t);
      forall i, j | 0 <= i < j < |d|
        ensures FirstIndex(s, d[i]) < FirstIndex(s, d[j])
      {
        assert d[i] == dt[i] && dt[i] in t;
        FirstIndexSnoc(t, s[n], d[i]);
        FirstIndexSnoc(t, s[n], d[j]);
        if j < |dt| {
          assert d[j] == dt[j] && dt[j] in t;
        } else {
          assert d[j] == s[n] && s[n] !in t;
        }
      }
    }
  }
}
