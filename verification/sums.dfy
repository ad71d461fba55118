/**
  Sums of a real-valued projection over a sequence: the reference sum, the
  left fold that Swift's `reduce(0) { acc, x in f(x) + acc }` performs, and
  the facts about sums that the centroid properties rest on.
*/
module Sums {

  /** Reference definition: f(s[0]) + f(s[1]) + ... */
  function Sum<T>(s: seq<T>, f: T -> real): real
  {
    if |s| == 0 then 0.0 else f(s[0]) + Sum(s[1..], f)
  }

  /** `s.reduce(acc) { acc, x in f(x) + acc }`, folded left to right. */
  function Reduce<T>(s: seq<T>, f: T -> real, acc: real): (r: real)
    ensures r == acc + Sum(s, f)
  {
    if |s| == 0 then acc else Reduce(s[1..], f, f(s[0]) + acc)
  }

  lemma {:induction false} SumAppend<T>(a: seq<T>, b: seq<T>, f: T -> real)
    ensures Sum(a + b, f) == Sum(a, f) + Sum(b, f)
  {
    if |a| == 0 {
      assert a + b == b;
    } else {
      assert (a + b)[1..] == a[1..] + b;
      SumAppend(a[1..], b, f);
    }
  }

  /** Taking element k out of the sum. */
  lemma SumRemove<T>(t: seq<T>, k: int, f: T -> real)
    requires 0 <= k < |t|
    ensures Sum(t, f) == f(t[k]) + Sum(t[..k] + t[k+1..], f)
  {
    assert t == t[..k] + ([t[k]] + t[k+1..]);
    SumAppend(t[..k], [t[k]] + t[k+1..], f);
    assert ([t[k]] + t[k+1..])[1..] == t[k+1..];
    SumAppend(t[..k], t[k+1..], f);
  }

  /** A sum does not depend on the order of its terms. */
  lemma {:induction false} SumPermutation<T>(s: seq<T>, t: seq<T>, f: T -> real)
    requires multiset(s) == multiset(t)
    ensures Sum(s, f) == Sum(t, f)
    decreases |s|
  {
    if |s| == 0 {
      assert |t| == |multiset(t)| == 0;
    } else {
      assert s[0] in multiset(s);
      assert s[0] in t;
      var k :| 0 <= k < |t| && t[k] == s[0];
      var rest := t[..k] + t[k+1..];
      assert t == t[..k] + [t[k]] + t[k+1..];
      assert multiset(t) == multiset(t[..k]) + multiset{t[k]} + multiset(t[k+1..]);
      assert multiset(rest) == multiset(t[..k]) + multiset(t[k+1..]);
      assert multiset(t) == multiset(rest) + multiset{t[k]};
      assert s == [s[0]] + s[1..];
      assert multiset(s) == multiset{s[0]} + multiset(s[1..]);
      assert multiset(s[1..]) == multiset(s) - multiset{s[0]};
      assert multiset(rest) == multiset(t) - multiset{t[k]};
      SumPermutation(s[1..], rest, f);
      SumRemove(t, k, f);
    }
  }

  /** n equal terms c add up to n * c. */
  lemma {:induction false} SumConstant<T>(s: seq<T>, f: T -> real, c: real)
    requires forall i :: 0 <= i < |s| ==> f(s[i]) == c
    ensures Sum(s, f) == (|s| as real) * c
  {
    if |s| > 0 {
      SumConstant(s[1..], f, c);
    }
  }

  /** n terms within [lo, hi] add up to a value within [n * lo, n * hi]. */
  lemma {:induction false} SumBounds<T>(s: seq<T>, f: T -> real, lo: real, hi: real)
    requires forall i :: 0 <= i < |s| ==> lo <= f(s[i]) <= hi
    ensures (|s| as real) * lo <= Sum(s, f) <= (|s| as real) * hi
  {
    if |s| > 0 {
      SumBounds(s[1..], f, lo, hi);
    }
  }

  /** A sum of n terms within [n * lo, n * hi], divided by n, lies within [lo, hi]. */
  lemma MeanWithin(total: real, n: real, lo: real, hi: real)
    requires n > 0.0
    requires n * lo <= total <= n * hi
    ensures lo <= total / n <= hi
  {
  }

  /** The mean of terms within [lo, hi] lies within [lo, hi]. */
  lemma MeanBounds<T>(s: seq<T>, f: T -> real, lo: real, hi: real)
    requires |s| > 0
    requires forall i :: 0 <= i < |s| ==> lo <= f(s[i]) <= hi
    ensures lo <= Sum(s, f) / (|s| as real) <= hi
  {
    SumBounds(s, f, lo, hi);
    MeanWithin(Sum(s, f), |s| as real, lo, hi);
  }

}
