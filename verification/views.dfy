/**
  `UIView.recursiveSubviews()`: a view's direct subviews, followed by each
  subview's own recursive subviews in subview order. Views are values
  here; the tag stands for a view's identity.
*/
module Views {

  /** UIView: identity tag, frame width and subviews. */
  datatype View = View(tag: int, width: real, subviews: seq<View>)

  /**
    The sum of a list of counts. Kept apart from the real-valued
    `Sums.Sum`, so that lengths and offsets stay natural numbers and
    slice bounds need no conversions from reals.
  */
  function SumNat(a: seq<nat>): nat
  {
    if |a| == 0 then 0 else a[0] + SumNat(a[1..])
  }

  function Flatten<T>(ss: seq<seq<T>>): seq<T>
  {
    if |ss| == 0 then [] else ss[0] + Flatten(ss[1..])
  }

  function Lengths<T>(ss: seq<seq<T>>): (r: seq<nat>)
    ensures |r| == |ss| && forall i :: 0 <= i < |ss| ==> r[i] == |ss[i]|
  {
    seq(|ss|, i requires 0 <= i < |ss| => |ss[i]|)
  }

  /** The recursive subviews of each of `v`'s subviews, in subview order. */
  function SubtreeLists(v: View): (r: seq<seq<View>>)
    ensures |r| == |v.subviews|
    ensures forall i :: 0 <= i < |r| ==> r[i] == RecursiveSubviews(v.subviews[i])
    decreases v, 0
  {
    seq(|v.subviews|, i requires 0 <= i < |v.subviews| => RecursiveSubviews(v.subviews[i]))
  }

  /** `recursiveSubviews()`: the subviews, then each subview's recursive subviews. */
  function RecursiveSubviews(v: View): seq<View>
    decreases v, 1
  {
    v.subviews + Flatten(SubtreeLists(v))
  }

  /** Reference definition: x is a subview of v, or of one of v's descendants. */
  ghost predicate IsDescendant(x: View, v: View)
    decreases v
  {
    exists i :: 0 <= i < |v.subviews| && (x == v.subviews[i] || IsDescendant(x, v.subviews[i]))
  }

  /** For each subview: itself plus the views below it. */
  function CountTerms(v: View): (r: seq<nat>)
    ensures |r| == |v.subviews|
    ensures forall i :: 0 <= i < |r| ==> r[i] == 1 + DescendantCount(v.subviews[i])
    decreases v, 0
  {
    seq(|v.subviews|, i requires 0 <= i < |v.subviews| => 1 + DescendantCount(v.subviews[i]))
  }

  /** Reference definition: the number of views strictly below v. */
  function DescendantCount(v: View): nat
    decreases v, 1
  {
    SumNat(CountTerms(v))
  }

  /** The descendant count of each subview. */
  function ChildCounts(v: View): (r: seq<nat>)
    ensures |r| == |v.subviews|
    ensures forall i :: 0 <= i < |r| ==> r[i] == DescendantCount(v.subviews[i])
  {
    seq(|v.subviews|, i requires 0 <= i < |v.subviews| => DescendantCount(v.subviews[i]))
  }

  lemma {:induction false} FlattenLength<T>(ss: seq<seq<T>>)
    ensures |Flatten(ss)| == SumNat(Lengths(ss))
  {
    if |ss| > 0 {
      assert Lengths(ss)[1..] == Lengths(ss[1..]);
      FlattenLength(ss[1..]);
    }
  }

  /** A slice of b is the same slice of a + b shifted by |a|. */
  lemma SliceOfAppend<T>(a: seq<T>, b: seq<T>, lo: int, hi: int)
    requires 0 <= lo <= hi <= |b|
    ensures (a + b)[|a| + lo .. |a| + hi] == b[lo..hi]
  {
  }

  /** List i of ss sits in Flatten(ss) right after the lists before it. */
  lemma {:induction false} FlattenSlice<T>(ss: seq<seq<T>>, i: int)
    requires 0 <= i < |ss|
    ensures var o := SumNat(Lengths(ss)[..i]);
            o + |ss[i]| <= |Flatten(ss)| && Flatten(ss)[o .. o + |ss[i]|] == ss[i]
    decreases i
  {
    FlattenLength(ss[1..]);
    if i == 0 {
      assert Lengths(ss)[..0] == [];
    } else {
      var tail := ss[1..];
      FlattenSlice(tail, i - 1);
      var o' := SumNat(Lengths(tail)[..i - 1]);
      assert Lengths(ss)[..i] == [|ss[0]|] + Lengths(tail)[..i - 1];
      assert SumNat(Lengths(ss)[..i]) == |ss[0]| + o';
      assert tail[i - 1] == ss[i];
      SliceOfAppend(ss[0], Flatten(tail), o', o' + |ss[i]|);
    }
  }

  lemma {:induction false} FlattenMember<T>(ss: seq<seq<T>>, x: T)
    ensures x in Flatten(ss) <==> exists i :: 0 <= i < |ss| && x in ss[i]
  {
    if |ss| > 0 {
      FlattenMember(ss[1..], x);
      if x in Flatten(ss[1..]) {
        var j :| 0 <= j < |ss[1..]| && x in ss[1..][j];
        assert x in ss[j + 1];
      }
      if exists i :: 0 <= i < |ss| && x in ss[i] {
        var i :| 0 <= i < |ss| && x in ss[i];
        if i > 0 {
          assert x in ss[1..][i - 1];
        }
      }
    }
  }

  lemma {:induction false} SumNatShift(a: seq<nat>, b: seq<nat>)
    requires |a| == |b|
    requires forall i :: 0 <= i < |a| ==> a[i] == 1 + b[i]
    ensures SumNat(a) == |a| + SumNat(b)
  {
    if |a| > 0 {
      SumNatShift(a[1..], b[1..]);
    }
  }

  lemma {:induction false} SumNatElement(a: seq<nat>, i: int)
    requires 0 <= i < |a|
    ensures a[i] <= SumNat(a)
  {
    if i > 0 {
      SumNatElement(a[1..], i - 1);
    }
  }

  /** The result has one entry per descendant. */
  lemma {:induction false} RecursiveSubviewsCount(v: View)
    ensures |RecursiveSubviews(v)| == DescendantCount(v)
    decreases v
  {
    var subs := v.subviews;
    var lists := SubtreeLists(v);
    forall i | 0 <= i < |subs|
      ensures |lists[i]| == DescendantCount(subs[i])
    {
      RecursiveSubviewsCount(subs[i]);
    }
    FlattenLength(lists);
    assert Lengths(lists) == ChildCounts(v);
    SumNatShift(CountTerms(v), ChildCounts(v));
  }

  /**
    The direct subviews come first; after them, subview i's own recursive
    subviews follow those of the subviews before it.
  */
  lemma {:induction false} RecursiveSubviewsOrder(v: View, i: int)
    requires 0 <= i < |v.subviews|
    ensures RecursiveSubviews(v)[..|v.subviews|] == v.subviews
    ensures var o := |v.subviews| + SumNat(ChildCounts(v)[..i]);
            o + DescendantCount(v.subviews[i]) <= |RecursiveSubviews(v)| &&
            RecursiveSubviews(v)[o .. o + DescendantCount(v.subviews[i])] == RecursiveSubviews(v.subviews[i])
  {
    var lists := SubtreeLists(v);
    forall j | 0 <= j < |v.subviews|
      ensures |lists[j]| == DescendantCount(v.subviews[j])
    {
      RecursiveSubviewsCount(v.subviews[j]);
    }
    assert Lengths(lists) == ChildCounts(v);
    FlattenSlice(lists, i);
    var o', n := SumNat(ChildCounts(v)[..i]), DescendantCount(v.subviews[i]);
    assert RecursiveSubviews(v) == v.subviews + Flatten(lists);
    SliceOfAppend(v.subviews, Flatten(lists), o', o' + n);
  }

  /** A view appears in the result exactly when it lies below v. */
  lemma {:induction false} RecursiveSubviewsMembers(v: View, x: View)
    ensures x in RecursiveSubviews(v) <==> IsDescendant(x, v)
    decreases v
  {
    var subs := v.subviews;
    var lists := SubtreeLists(v);
    FlattenMember(lists, x);
    forall i | 0 <= i < |subs|
      ensures x in lists[i] <==> IsDescendant(x, subs[i])
    {
      RecursiveSubviewsMembers(subs[i], x);
    }
    if x in RecursiveSubviews(v) {
      if x !in subs {
        var i :| 0 <= i < |lists| && x in lists[i];
        assert IsDescendant(x, subs[i]);
      } else {
        var i :| 0 <= i < |subs| && subs[i] == x;
      }
    }
    if IsDescendant(x, v) {
      var i :| 0 <= i < |subs| && (x == subs[i] || IsDescendant(x, subs[i]));
      if x != subs[i] {
        assert x in lists[i];
      }
    }
  }

  /** Every descendant has strictly fewer descendants than the view above it. */
  lemma {:induction false} DescendantIsSmaller(x: View, v: View)
    requires IsDescendant(x, v)
    ensures DescendantCount(x) < DescendantCount(v)
    decreases v
  {
    var subs := v.subviews;
    var i :| 0 <= i < |subs| && (x == subs[i] || IsDescendant(x, subs[i]));
    if x != subs[i] {
      DescendantIsSmaller(x, subs[i]);
    }
    SumNatElement(CountTerms(v), i);
  }

  /** The receiver is never among its own recursive subviews. */
  lemma ReceiverExcluded(v: View)
    ensures v !in RecursiveSubviews(v)
  {
    RecursiveSubviewsMembers(v, v);
    if IsDescendant(v, v) {
      DescendantIsSmaller(v, v);
    }
  }

}
