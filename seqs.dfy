/** Order-preserving selection from a list, as a list comprehension with an `if`. */
module Seqs {

  /** The elements of s that satisfy p, in their original order. */
  function Filter<T>(s: seq<T>, p: T -> bool): (r: seq<T>)
    ensures |r| <= |s|
    ensures forall i :: 0 <= i < |r| ==> p(r[i]) && r[i] in s
    decreases |s|
  {
    if s == [] then []
    else
      var r := Filter(s[..|s| - 1], p);
      if p(s[|s| - 1]) then r + [s[|s| - 1]] else r
  }

  /** Appending one element selects it exactly when it qualifies. */
  lemma FilterAppend<T>(s: seq<T>, x: T, p: T -> bool)
    ensures Filter(s + [x], p) == if p(x) then Filter(s, p) + [x] else Filter(s, p)
  {
    assert (s + [x])[..|s + [x]| - 1] == s;
  }

  /** Selecting from a concatenation selects from each part. */
  lemma {:induction false} FilterConcat<T>(a: seq<T>, b: seq<T>, p: T -> bool)
    ensures Filter(a + b, p) == Filter(a, p) + Filter(b, p)
    decreases |b|
  {
    if b != [] {
      var b' := b[..|b| - 1];
      assert (a + b)[..|a + b| - 1] == a + b';
      FilterConcat(a, b', p);
    } else {
      assert a + b == a;
    }
  }

  /** Nothing is selected from a list none of whose elements qualifies. */
  lemma {:induction false} FilterNone<T>(s: seq<T>, p: T -> bool)
    requires forall i :: 0 <= i < |s| ==> !p(s[i])
    ensures Filter(s, p) == []
    decreases |s|
  {
    if s != [] {
      FilterNone(s[..|s| - 1], p);
    }
  }

  /** Everything is selected from a list all of whose elements qualify. */
  lemma {:induction false} FilterAll<T>(s: seq<T>, p: T -> bool)
    requires forall i :: 0 <= i < |s| ==> p(s[i])
    ensures Filter(s, p) == s
    decreases |s|
  {
    if s != [] {
      FilterAll(s[..|s| - 1], p);
    }
  }

  /** A final block of qualifying elements after a part that selects nothing is exactly what is selected. */
  lemma FilterOnlyLast<T>(a: seq<T>, b: seq<T>, p: T -> bool)
    requires Filter(a, p) == []
    requires forall i :: 0 <= i < |b| ==> p(b[i])
    ensures Filter(a + b, p) == b
  {
    FilterConcat(a, b, p);
    FilterAll(b, p);
  }

  /** A final block of non-qualifying elements contributes nothing. */
  lemma FilterSkipLast<T>(a: seq<T>, b: seq<T>, p: T -> bool)
    requires forall i :: 0 <= i < |b| ==> !p(b[i])
    ensures Filter(a + b, p) == Filter(a, p)
  {
    FilterConcat(a, b, p);
    FilterNone(b, p);
  }
}
