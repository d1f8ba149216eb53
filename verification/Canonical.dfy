// Normal form is canonical: operations that act alike are the same operation.
module Canonical {
  import opened Ops
  import opened Merge

  function Kind(c: Comp): nat {
    match c
    case Retain(_) => 0
    case Insert(_) => 1
    case Delete(_) => 2
  }

  // A document of n copies of one unit, with its own first unit.
  function Fill(first: Unit, u: Unit, n: nat): (doc: Text)
    ensures |doc| == n && forall k :: 0 <= k < n ==> doc[k] == if k == 0 then first else u
  {
    seq(n, k => if k == 0 then first else u)
  }

  function Other(u: Unit): (v: Unit)
    ensures v != u
  {
    if u == 0 then 1 else 0
  }

  lemma NormalTail(o: Op, n: nat)
    requires Normal(o) && o != [] && n <= Len(o[0])
    ensures Normal(Consume(o, n))
    ensures n == Len(o[0]) && |o| > 1 ==> MayFollow(o[0], Consume(o, n)[0])
  {
    var r := Consume(o, n);
    if n == Len(o[0]) {
      forall k | 0 <= k < |r| - 1 ensures MayFollow(r[k], r[k + 1]) {
        assert MayFollow(o[k + 1], o[k + 1 + 1]);
      }
      if |o| > 1 {
        assert MayFollow(o[0], o[0 + 1]);
      }
    } else {
      forall k | 0 <= k < |r| - 1 ensures MayFollow(r[k], r[k + 1]) {
        assert MayFollow(o[k], o[k + 1]);
      }
    }
  }

  // The first unit an operation that starts with a delete puts out, if any, is
  // a kept one.
  lemma DeleteFirst(o: Op, doc: Text)
    requires Normal(o) && o != [] && o[0].Delete? && |doc| == BaseLen(o)
    ensures Run(o, doc) == [] || (o[0].n < |doc| && Run(o, doc)[0] == doc[o[0].n])
  {
    NormalTail(o, o[0].n);
    var tail := o[1..];
    if tail != [] {
      assert tail[0].Retain?;
      assert Run(tail, doc[o[0].n..])[0] == doc[o[0].n..][0];
    }
  }

  lemma ConsumeDiffer(a: Op, b: Op, n: nat)
    requires Normal(a) && Normal(b) && a != [] && b != [] && a != b
    requires Kind(a[0]) == Kind(b[0])
    requires n == Min(Len(a[0]), Len(b[0]))
    requires a[0].Insert? ==> a[0].ins[..n] == b[0].ins[..n]
    ensures Consume(a, n) != Consume(b, n)
  {
    NormalTail(a, n);
    NormalTail(b, n);
    if Len(a[0]) == n && Len(b[0]) == n {
      if a[0].Insert? {
        assert a[0].ins[..n] == a[0].ins && b[0].ins[..n] == b[0].ins;
      }
      assert a[0] == b[0];
      assert a == [a[0]] + a[1..] && b == [b[0]] + b[1..];
    } else if Len(a[0]) == n {
      assert Kind(Consume(b, n)[0]) == Kind(b[0]);
    } else {
      assert Kind(Consume(a, n)[0]) == Kind(a[0]);
    }
  }

  // Operations whose first inserts differ part inside them.
  lemma DifferentText(a: Op, b: Op, n: nat) returns (doc: Text)
    requires a != [] && b != [] && a[0].Insert? && b[0].Insert?
    requires n <= |a[0].ins| && n <= |b[0].ins| && a[0].ins[..n] != b[0].ins[..n] && BaseLen(a) == BaseLen(b)
    ensures |doc| == BaseLen(a) && Run(a, doc) != Run(b, doc)
  {
    doc := Fill(0, 0, BaseLen(a));
    var k :| 0 <= k < n && a[0].ins[..n][k] != b[0].ins[..n][k];
    assert Run(a, doc)[k] == a[0].ins[k] && Run(b, doc)[k] == b[0].ins[k];
  }

  // What parts the rests parts the whole operations.
  lemma AfterCommonStart(a: Op, b: Op, n: nat, rest: Text) returns (doc: Text)
    requires a != [] && b != [] && Kind(a[0]) == Kind(b[0]) && n <= Len(a[0]) && n <= Len(b[0])
    requires a[0].Insert? ==> a[0].ins[..n] == b[0].ins[..n]
    requires BaseLen(a) == BaseLen(b) && |rest| == BaseLen(Consume(a, n)) == BaseLen(Consume(b, n))
    requires Run(Consume(a, n), rest) != Run(Consume(b, n), rest)
    ensures |doc| == BaseLen(a) && Run(a, doc) != Run(b, doc)
  {
    hide Run, BaseLen;
    ConsumeLengths(a, n);
    ConsumeLengths(b, n);
    doc := if a[0].Insert? then rest else Fill(0, 0, n) + rest;
    RunConsume(a, n, doc);
    RunConsume(b, n, doc);
    if !a[0].Insert? {
      assert doc[n..] == rest;
    }
    if !a[0].Delete? {
      CancelPrefix(if a[0].Retain? then doc[..n] else a[0].ins[..n], Run(Consume(a, n), rest), Run(Consume(b, n), rest));
    }
  }

  lemma RetainAndInsert(a: Op, b: Op) returns (doc: Text)
    requires Normal(a) && Normal(b) && BaseLen(a) == BaseLen(b)
    requires a != [] && b != [] && a[0].Retain? && b[0].Insert?
    ensures |doc| == BaseLen(a) && Run(a, doc) != Run(b, doc)
  {
    doc := Fill(Other(b[0].ins[0]), 0, BaseLen(a));
    assert Run(a, doc)[0] == doc[0] && Run(b, doc)[0] == b[0].ins[0];
  }

  lemma RetainAndDelete(a: Op, b: Op) returns (doc: Text)
    requires Normal(a) && Normal(b) && BaseLen(a) == BaseLen(b)
    requires a != [] && b != [] && a[0].Retain? && b[0].Delete?
    ensures |doc| == BaseLen(a) && Run(a, doc) != Run(b, doc)
  {
    doc := Fill(0, 1, BaseLen(a));
    assert Run(a, doc)[0] == doc[0];
    DeleteFirst(b, doc);
  }

  lemma InsertAndDelete(a: Op, b: Op) returns (doc: Text)
    requires Normal(a) && Normal(b) && BaseLen(a) == BaseLen(b)
    requires a != [] && b != [] && a[0].Insert? && b[0].Delete?
    ensures |doc| == BaseLen(a) && Run(a, doc) != Run(b, doc)
  {
    var u := Other(a[0].ins[0]);
    doc := Fill(u, u, BaseLen(a));
    assert Run(a, doc)[0] == a[0].ins[0];
    DeleteFirst(b, doc);
  }

  // Two different normal operations part on some document.
  lemma {:induction false} Distinguish(a: Op, b: Op) returns (doc: Text)
    requires Normal(a) && Normal(b) && BaseLen(a) == BaseLen(b) && a != b
    ensures |doc| == BaseLen(a) && Run(a, doc) != Run(b, doc)
    decreases |a| + |b|, if a == [] || (b != [] && Kind(a[0]) <= Kind(b[0])) then 0 else 1
  {
    if a == [] {
      doc := [];
      assert b[0].Insert?;
    } else if b == [] || Kind(a[0]) > Kind(b[0]) {
      doc := Distinguish(b, a);
    } else {
      hide Run, BaseLen, MayFollow;
      if Kind(a[0]) < Kind(b[0]) {
        if a[0].Insert? {
          doc := InsertAndDelete(a, b);
        } else if b[0].Insert? {
          doc := RetainAndInsert(a, b);
        } else {
          doc := RetainAndDelete(a, b);
        }
      } else {
        var n := Min(Len(a[0]), Len(b[0]));
        if a[0].Insert? && a[0].ins[..n] != b[0].ins[..n] {
          doc := DifferentText(a, b, n);
        } else {
          ConsumeDiffer(a, b, n);
          NormalTail(a, n);
          NormalTail(b, n);
          ConsumeLengths(a, n);
          ConsumeLengths(b, n);
          var rest := Distinguish(Consume(a, n), Consume(b, n));
          doc := AfterCommonStart(a, b, n, rest);
        }
      }
    }
  }

  lemma CancelPrefix(p: Text, x: Text, y: Text)
    requires x != y
    ensures p + x != p + y
  {
    assert (p + x)[|p|..] == x && (p + y)[|p|..] == y;
  }

  // Equal edits have one representation.
  lemma NormalFormUnique(a: Op, b: Op)
    requires Normal(a) && Normal(b) && BaseLen(a) == BaseLen(b)
    ensures a == b <==> forall doc: Text :: |doc| == BaseLen(a) ==> Run(a, doc) == Run(b, doc)
  {
    if a != b {
      var doc := Distinguish(a, b);
      assert |doc| == BaseLen(a) && Run(a, doc) != Run(b, doc);
    }
  }

  // Composition is associative on the operations themselves, not only on what
  // they do.
  lemma ComposeAssociative(a: Op, b: Op, c: Op)
    requires Positive(a) && Positive(b) && Positive(c)
    requires TargetLen(a) == BaseLen(b) && TargetLen(b) == BaseLen(c)
    ensures Composed(Composed(a, b), c) == Composed(a, Composed(b, c))
  {
    var ab, bc := Composed(a, b), Composed(b, c);
    CanonSound(ComposeSteps(a, b));
    CanonSound(ComposeSteps(b, c));
    ComposeLengths(a, b);
    ComposeLengths(b, c);
    CanonSound(ComposeSteps(ab, c));
    CanonSound(ComposeSteps(a, bc));
    ComposeLengths(ab, c);
    ComposeLengths(a, bc);
    forall doc: Text | |doc| == BaseLen(a)
      ensures Run(Composed(ab, c), doc) == Run(Composed(a, bc), doc)
    {
      RunLength(a, doc);
      ComposeLaw(ab, c, doc);
      ComposeLaw(a, b, doc);
      ComposeLaw(a, bc, doc);
      ComposeLaw(b, c, Run(a, doc));
    }
    NormalFormUnique(Composed(ab, c), Composed(a, bc));
  }
}
