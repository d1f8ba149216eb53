// Sums of numbers picked in some order, as scores and their bounds are added up.
module Sums {

  predicate InRange(order: seq<nat>, n: nat) {
    forall k :: 0 <= k < |order| ==> order[k] < n
  }

  function SumOver(v: seq<real>, order: seq<nat>): real
    requires InRange(order, |v|)
  {
    if order == [] then 0.0 else SumOver(v, order[..|order| - 1]) + v[order[|order| - 1]]
  }

  function Indices(n: nat): seq<nat> {
    seq(n, k requires 0 <= k => k)
  }

  lemma SumAppend(v: seq<real>, order: seq<nat>, k: nat)
    requires k < |v| && InRange(order, |v|)
    ensures InRange(order + [k], |v|)
    ensures SumOver(v, order + [k]) == SumOver(v, order) + v[k]
  {
    assert (order + [k])[..|order|] == order;
  }

  lemma SumNone(v: seq<real>)
    ensures SumOver(v, []) == 0.0
  {
  }

  lemma {:induction false} SumConcat(v: seq<real>, x: seq<nat>, y: seq<nat>)
    requires InRange(x, |v|) && InRange(y, |v|)
    ensures InRange(x + y, |v|)
    ensures SumOver(v, x + y) == SumOver(v, x) + SumOver(v, y)
    decreases |y|
  {
    if y == [] {
      assert x + y == x;
    } else {
      var init := y[..|y| - 1];
      SumConcat(v, x, init);
      assert x + y == (x + init) + [y[|y| - 1]];
      SumAppend(v, x + init, y[|y| - 1]);
    }
  }

  lemma {:induction false} SumBounded(v: seq<real>, w: seq<real>, order: seq<nat>)
    requires |v| == |w| && InRange(order, |v|)
    requires forall k :: 0 <= k < |order| ==> v[order[k]] <= w[order[k]]
    ensures SumOver(v, order) <= SumOver(w, order)
    decreases |order|
  {
    if order != [] {
      SumBounded(v, w, order[..|order| - 1]);
    }
  }

  lemma {:induction false} SumNonNegative(v: seq<real>, order: seq<nat>)
    requires InRange(order, |v|) && forall k :: 0 <= k < |order| ==> v[order[k]] >= 0.0
    ensures SumOver(v, order) >= 0.0
    decreases |order|
  {
    if order != [] {
      SumNonNegative(v, order[..|order| - 1]);
    }
  }

  lemma {:induction false} SumZero(v: seq<real>, order: seq<nat>)
    requires InRange(order, |v|) && forall k :: 0 <= k < |order| ==> v[order[k]] == 0.0
    ensures SumOver(v, order) == 0.0
    decreases |order|
  {
    if order != [] {
      SumZero(v, order[..|order| - 1]);
    }
  }

  lemma WithoutOne(y: seq<nat>, i: nat)
    requires i < |y|
    ensures multiset(y[..i] + y[i + 1..]) == multiset(y) - multiset{y[i]}
  {
    assert y == y[..i] + [y[i]] + y[i + 1..];
  }

  lemma SumWithoutOne(v: seq<real>, y: seq<nat>, i: nat)
    requires i < |y| && InRange(y, |v|)
    ensures InRange(y[..i] + y[i + 1..], |v|)
    ensures SumOver(v, y) == SumOver(v, y[..i] + y[i + 1..]) + v[y[i]]
  {
    hide SumOver;
    var front, back := y[..i], y[i + 1..];
    assert y == (front + [y[i]]) + back;
    SumConcat(v, front, back);
    SumConcat(v, front + [y[i]], back);
    SumAppend(v, front, y[i]);
  }

  // The order does not matter.
  lemma {:induction false} SumPermuted(v: seq<real>, x: seq<nat>, y: seq<nat>)
    requires multiset(x) == multiset(y)
    requires InRange(x, |v|) && InRange(y, |v|)
    ensures SumOver(v, x) == SumOver(v, y)
    decreases |x|
  {
    hide SumOver;
    assert |x| == |multiset(x)| == |multiset(y)| == |y|;
    if x == [] {
      assert y == x;
    } else {
      var last := |x| - 1;
      var i := IndexOf(y, x[last]);
      var init, others := x[..last] + x[last + 1..], y[..i] + y[i + 1..];
      WithoutOne(x, last);
      WithoutOne(y, i);
      SumWithoutOne(v, x, last);
      SumWithoutOne(v, y, i);
      SumPermuted(v, init, others);
    }
  }

  lemma IndexOf(y: seq<nat>, e: nat) returns (i: nat)
    requires e in multiset(y)
    ensures i < |y| && y[i] == e
  {
    i :| 0 <= i < |y| && y[i] == e;
  }
}
