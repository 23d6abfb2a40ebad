/** Optional values and the list operations the application uses everywhere:
    order-preserving filter (`Array.prototype.filter`), filter-length counts
    and left-to-right sums (`Array.prototype.reduce` starting from 0). */
module Seqs {

  datatype Option<+T> = None | Some(value: T) {
    function GetOr(default: T): T {
      match this
      case Some(v) => v
      case None => default
    }
  }

  /** The elements of `s` that satisfy `p`, in their original order. */
  function Filter<T>(s: seq<T>, p: T -> bool): (r: seq<T>)
    ensures |r| <= |s|
    ensures forall i :: 0 <= i < |r| ==> r[i] in s && p(r[i])
    ensures forall i :: 0 <= i < |s| && p(s[i]) ==> s[i] in r
  {
    if s == [] then [] else (if p(s[0]) then [s[0]] else []) + Filter(s[1..], p)
  }

  /** Filtering distributes over concatenation: the relative order of the kept
      elements is that of the input. */
  lemma {:induction false} FilterAppend<T>(s: seq<T>, t: seq<T>, p: T -> bool)
    ensures Filter(s + t, p) == Filter(s, p) + Filter(t, p)
  {
    if s == [] {
      assert s + t == t;
    } else {
      assert (s + t)[1..] == s[1..] + t;
      FilterAppend(s[1..], t, p);
    }
  }

  /** A filter that rejects nothing is the identity. */
  lemma {:induction false} FilterAll<T>(s: seq<T>, p: T -> bool)
    requires forall i :: 0 <= i < |s| ==> p(s[i])
    ensures Filter(s, p) == s
  {
    if s != [] {
      FilterAll(s[1..], p);
    }
  }

  /** A filter that keeps nothing is empty. */
  lemma {:induction false} FilterNone<T>(s: seq<T>, p: T -> bool)
    requires forall i :: 0 <= i < |s| ==> !p(s[i])
    ensures Filter(s, p) == []
  {
    if s != [] {
      FilterNone(s[1..], p);
    }
  }

  /** Filters that agree on every element give the same list. */
  lemma {:induction false} FilterSame<T>(s: seq<T>, p: T -> bool, q: T -> bool)
    requires forall i :: 0 <= i < |s| ==> p(s[i]) == q(s[i])
    ensures Filter(s, p) == Filter(s, q)
  {
    if s != [] {
      FilterSame(s[1..], p, q);
    }
  }

  /** The number of elements satisfying `p` (the length of the filter). */
  function Count<T>(s: seq<T>, p: T -> bool): nat {
    |Filter(s, p)|
  }

  /** Some element is kept exactly when the count is positive. */
  lemma CountPositive<T>(s: seq<T>, p: T -> bool)
    ensures Count(s, p) > 0 <==> exists i :: 0 <= i < |s| && p(s[i])
  {
    if Count(s, p) > 0 {
      var x := Filter(s, p)[0];
      assert x in Filter(s, p);
      var i :| 0 <= i < |s| && s[i] == x;
    }
  }

  /** If `p` and `q` split every element between them, their counts add up to
      the length of the list. */
  lemma {:induction false} CountPartition<T>(s: seq<T>, p: T -> bool, q: T -> bool)
    requires forall i :: 0 <= i < |s| ==> (p(s[i]) <==> !q(s[i]))
    ensures Count(s, p) + Count(s, q) == |s|
  {
    if s != [] {
      CountPartition(s[1..], p, q);
    }
  }

  /** `s.reduce((sum, x) => sum + f(x), 0)`, folded from the left. */
  function Sum<T>(s: seq<T>, f: T -> real): real {
    if s == [] then 0.0 else Sum(s[..|s| - 1], f) + f(s[|s| - 1])
  }

  lemma {:induction false} SumAppend<T>(s: seq<T>, t: seq<T>, f: T -> real)
    ensures Sum(s + t, f) == Sum(s, f) + Sum(t, f)
  {
    if t == [] {
      assert s + t == s;
    } else {
      assert (s + t)[..|s + t| - 1] == s + t[..|t| - 1];
      SumAppend(s, t[..|t| - 1], f);
    }
  }

  /** Sums are linear in the summand. */
  lemma {:induction false} SumDifference<T>(s: seq<T>, f: T -> real, g: T -> real, h: T -> real)
    requires forall i :: 0 <= i < |s| ==> h(s[i]) == f(s[i]) - g(s[i])
    ensures Sum(s, h) == Sum(s, f) - Sum(s, g)
  {
    if s != [] {
      SumDifference(s[..|s| - 1], f, g, h);
    }
  }
}
