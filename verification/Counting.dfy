/** Counting and mapping over sequences, up to order. */
module Counting {
  function CountIf<T>(xs: seq<T>, p: T -> bool): nat {
    if xs == [] then 0
    else CountIf(xs[..|xs| - 1], p) + (if p(xs[|xs| - 1]) then 1 else 0)
  }

  function MapSeq<A, B>(xs: seq<A>, f: A -> B): (ys: seq<B>)
    ensures |ys| == |xs|
    ensures forall i :: 0 <= i < |xs| ==> ys[i] == f(xs[i])
  {
    seq(|xs|, i requires 0 <= i < |xs| => f(xs[i]))
  }

  lemma {:induction false} CountIfSplit<T>(a: seq<T>, b: seq<T>, p: T -> bool)
    ensures CountIf(a + b, p) == CountIf(a, p) + CountIf(b, p)
  {
    if b == [] {
      assert a + b == a;
    } else {
      var n := |b| - 1;
      assert (a + b)[..|a + b| - 1] == a + b[..n];
      CountIfSplit(a, b[..n], p);
    }
  }

  /** A permutation of a sequence ending in `x`, split around an `x`. */
  lemma SplitAround<T>(a: seq<T>, b: seq<T>) returns (l: seq<T>, r: seq<T>)
    requires a != [] && multiset(a) == multiset(b)
    ensures b == l + [a[|a| - 1]] + r && multiset(l + r) == multiset(a[..|a| - 1])
  {
    var n := |a| - 1;
    var x := a[n];
    assert a == a[..n] + [x];
    assert x in multiset(b);
    var i :| 0 <= i < |b| && b[i] == x;
    l, r := b[..i], b[i + 1..];
    assert b == l + [x] + r;
    assert multiset(l + [x] + r) == multiset(l + r) + multiset{x};
    assert multiset(a[..n] + [x]) == multiset(a[..n]) + multiset{x};
    assert multiset(l + r) == multiset(b) - multiset{x};
    assert multiset(a[..n]) == multiset(a) - multiset{x};
  }

  lemma {:induction false} CountIfPermuted<T>(a: seq<T>, b: seq<T>, p: T -> bool)
    requires multiset(a) == multiset(b)
    ensures CountIf(a, p) == CountIf(b, p)
  {
    if a == [] {
      assert |b| == |multiset(b)| == 0;
    } else {
      var l, r := SplitAround(a, b);
      var x := a[|a| - 1];
      CountIfPermuted(a[..|a| - 1], l + r, p);
      CountIfSplit(l, r, p);
      CountIfSplit(l + [x], r, p);
      assert (l + [x])[..|l|] == l;
    }
  }

  lemma {:induction false} CountIfIsAll<T>(xs: seq<T>, p: T -> bool)
    ensures CountIf(xs, p) <= |xs|
    ensures CountIf(xs, p) == |xs| <==> forall i :: 0 <= i < |xs| ==> p(xs[i])
  {
    if xs != [] {
      var n := |xs| - 1;
      CountIfIsAll(xs[..n], p);
      assert forall i :: 0 <= i < n ==> xs[..n][i] == xs[i];
    }
  }

  lemma {:induction false} MapSeqPermuted<A, B>(a: seq<A>, b: seq<A>, f: A -> B)
    requires multiset(a) == multiset(b)
    ensures multiset(MapSeq(a, f)) == multiset(MapSeq(b, f))
  {
    if a == [] {
      assert |b| == |multiset(b)| == 0;
    } else {
      var l, r := SplitAround(a, b);
      var x := a[|a| - 1];
      MapSeqPermuted(a[..|a| - 1], l + r, f);
      assert MapSeq(a, f) == MapSeq(a[..|a| - 1], f) + [f(x)];
      assert MapSeq(l + r, f) == MapSeq(l, f) + MapSeq(r, f);
      assert MapSeq(b, f) == MapSeq(l, f) + [f(x)] + MapSeq(r, f);
    }
  }
}
