// Compose and Transform as recursive functions over what is left of each
// operation, and the laws they exist for.
module Merge {
  import opened Results
  import opened Ops

  function Min(a: nat, b: nat): nat {
    if a < b then a else b
  }

  // A component with its first n units consumed.
  function Rest(c: Comp, n: nat): Comp
    requires n <= Len(c)
  {
    match c
    case Retain(m) => Retain(m - n)
    case Delete(m) => Delete(m - n)
    case Insert(s) => Insert(s[n..])
  }

  // The components left once n units of the first one are consumed.
  function Consume(o: Op, n: nat): Op
    requires o != [] && n <= Len(o[0])
  {
    if n == Len(o[0]) then o[1..] else [Rest(o[0], n)] + o[1..]
  }

  /******* Compose *******/

  // The components Compose hands to its builder, in order.
  function ComposeSteps(a: Op, b: Op): Op
    decreases |a| + |b|
  {
    if a != [] && a[0].Delete? then [a[0]] + ComposeSteps(a[1..], b)
    else if b != [] && b[0].Insert? then [b[0]] + ComposeSteps(a, b[1..])
    else if a == [] || b == [] then []
    else
      var n := Min(Len(a[0]), Len(b[0]));
      var rest := ComposeSteps(Consume(a, n), Consume(b, n));
      if a[0].Retain? then
        (if b[0].Retain? then [Retain(n)] + rest else [Delete(n)] + rest)
      else if b[0].Retain? then [Insert(a[0].ins[..n])] + rest
      else rest
  }

  function Composed(a: Op, b: Op): Op {
    Canon(ComposeSteps(a, b))
  }

  /******* Transform *******/

  // The components Transform hands to its two builders, in order.
  function TransformSteps(a: Op, b: Op): (r: (Op, Op))
    decreases |a| + |b|
  {
    if a != [] && a[0].Insert? then
      var (x, y) := TransformSteps(a[1..], b);
      ([a[0]] + x, [Retain(|a[0].ins|)] + y)
    else if b != [] && b[0].Insert? then
      var (x, y) := TransformSteps(a, b[1..]);
      ([Retain(|b[0].ins|)] + x, [b[0]] + y)
    else if a == [] || b == [] then ([], [])
    else
      var n := Min(Len(a[0]), Len(b[0]));
      var (x, y) := TransformSteps(Consume(a, n), Consume(b, n));
      if a[0].Retain? && b[0].Retain? then ([Retain(n)] + x, [Retain(n)] + y)
      else if b[0].Retain? then ([Delete(n)] + x, y)
      else if a[0].Retain? then (x, [Delete(n)] + y)
      else (x, y)
  }

  function Transformed(a: Op, b: Op): (Op, Op) {
    var (x, y) := TransformSteps(a, b);
    (Canon(x), Canon(y))
  }

  // a rebased over b.
  function Left(a: Op, b: Op): Op {
    Transformed(a, b).0
  }

  // b rebased over a.
  function Right(a: Op, b: Op): Op {
    Transformed(a, b).1
  }

  /******* Consuming a prefix *******/

  lemma ConsumePositive(o: Op, n: nat)
    requires o != [] && n <= Len(o[0]) && Positive(o)
    ensures Positive(Consume(o, n))
  {
  }

  lemma ConsumeLengths(o: Op, n: nat)
    requires o != [] && n <= Len(o[0])
    ensures o[0].Insert? ==> BaseLen(Consume(o, n)) == BaseLen(o) && TargetLen(Consume(o, n)) == TargetLen(o) - n
    ensures o[0].Retain? ==> BaseLen(Consume(o, n)) == BaseLen(o) - n && TargetLen(Consume(o, n)) == TargetLen(o) - n
    ensures o[0].Delete? ==> BaseLen(Consume(o, n)) == BaseLen(o) - n && TargetLen(Consume(o, n)) == TargetLen(o)
  {
    if n < Len(o[0]) {
      assert Consume(o, n)[1..] == o[1..];
    }
  }

  // What the consumed prefix produced, followed by what the rest produces.
  lemma RunConsume(o: Op, n: nat, doc: Text)
    requires o != [] && n <= Len(o[0]) && |doc| == BaseLen(o)
    ensures o[0].Retain? ==> Run(o, doc) == doc[..n] + Run(Consume(o, n), doc[n..])
    ensures o[0].Delete? ==> Run(o, doc) == Run(Consume(o, n), doc[n..])
    ensures o[0].Insert? ==> Run(o, doc) == o[0].ins[..n] + Run(Consume(o, n), doc)
  {
    if n == Len(o[0]) {
      if o[0].Insert? {
        assert o[0].ins[..n] == o[0].ins;
      }
    } else {
      assert Consume(o, n)[1..] == o[1..];
      match o[0]
      case Retain(m) => RunConsumeRetain(o, n, doc);
      case Delete(m) => assert doc[n..][m - n..] == doc[m..];
      case Insert(s) => RunConsumeInsert(o, n, doc);
    }
  }

  lemma RunConsumeRetain(o: Op, n: nat, doc: Text)
    requires o != [] && o[0].Retain? && n < o[0].n && |doc| == BaseLen(o)
    ensures Run(o, doc) == doc[..n] + Run(Consume(o, n), doc[n..])
  {
    hide Run;
    var m, rest := o[0].n, o[1..];
    assert o == [o[0]] + rest;
    assert Consume(o, n) == [Retain(m - n)] + rest;
    Cons(o[0], rest, doc);
    Cons(Retain(m - n), rest, doc[n..]);
    var more := Run(rest, doc[m..]);
    TakeInTwo(doc, n, m, more);
    assert Run(Consume(o, n), doc[n..]) == doc[n..][..m - n] + more;
  }

  lemma RunConsumeInsert(o: Op, n: nat, doc: Text)
    requires o != [] && o[0].Insert? && n < |o[0].ins| && |doc| == BaseLen(o)
    ensures Run(o, doc) == o[0].ins[..n] + Run(Consume(o, n), doc)
  {
    hide Run;
    var s, rest := o[0].ins, o[1..];
    assert o == [o[0]] + rest;
    assert Consume(o, n) == [Insert(s[n..])] + rest;
    Cons(o[0], rest, doc);
    Cons(Insert(s[n..]), rest, doc);
    assert s == s[..n] + s[n..];
    ConcatAssoc(s[..n], s[n..], Run(rest, doc));
  }

  /******* Composition law *******/

  lemma {:induction false} ComposeLengths(a: Op, b: Op)
    requires Positive(a) && Positive(b) && TargetLen(a) == BaseLen(b)
    ensures BaseLen(ComposeSteps(a, b)) == BaseLen(a)
    ensures TargetLen(ComposeSteps(a, b)) == TargetLen(b)
    decreases |a| + |b|
  {
    var r := ComposeSteps(a, b);
    if a != [] && a[0].Delete? {
      ComposeLengths(a[1..], b);
      assert r[1..] == ComposeSteps(a[1..], b);
    } else if b != [] && b[0].Insert? {
      ComposeLengths(a, b[1..]);
      assert r[1..] == ComposeSteps(a, b[1..]);
    } else if a == [] || b == [] {
      BothDone(a, b);
    } else {
      var n := Min(Len(a[0]), Len(b[0]));
      var rest := ComposeSteps(Consume(a, n), Consume(b, n));
      ConsumePositive(a, n);
      ConsumePositive(b, n);
      ConsumeLengths(a, n);
      ConsumeLengths(b, n);
      ComposeLengths(Consume(a, n), Consume(b, n));
      assert r == rest || r[1..] == rest;
    }
  }

  // With nothing to insert on the right and nothing to delete on the left,
  // matching lengths make both sides end together.
  lemma BothDone(a: Op, b: Op)
    requires Positive(a) && Positive(b)
    requires a == [] || b == []
    requires a != [] ==> TargetOf(a[0]) > 0
    requires b != [] ==> BaseOf(b[0]) > 0
    requires TargetLen(a) == BaseLen(b)
    ensures a == [] && b == []
  {
  }

  lemma {:induction false} ComposeStepsLaw(a: Op, b: Op, doc: Text)
    requires Positive(a) && Positive(b) && TargetLen(a) == BaseLen(b) && |doc| == BaseLen(a)
    ensures Run(ComposeSteps(a, b), doc) == Run(b, Run(a, doc))
    decreases |a| + |b|
  {
    var r := ComposeSteps(a, b);
    RunLength(a, doc);
    if a != [] && a[0].Delete? {
      ComposeStepsLaw(a[1..], b, doc[a[0].n..]);
      assert r[1..] == ComposeSteps(a[1..], b);
    } else if b != [] && b[0].Insert? {
      ComposeStepsLaw(a, b[1..], doc);
      assert r[1..] == ComposeSteps(a, b[1..]);
    } else if a == [] || b == [] {
      BothDone(a, b);
    } else {
      var n := Min(Len(a[0]), Len(b[0]));
      var a', b' := Consume(a, n), Consume(b, n);
      var rest := ComposeSteps(a', b');
      ConsumePositive(a, n);
      ConsumePositive(b, n);
      ConsumeLengths(a, n);
      ConsumeLengths(b, n);
      var doc' := if a[0].Retain? then doc[n..] else doc;
      RunConsume(a, n, doc);
      RunConsume(b, n, Run(a, doc));
      assert Run(a, doc)[n..] == Run(a', doc');
      ComposeStepsLaw(a', b', doc');
      assert r == rest || r[1..] == rest;
    }
  }

  // One operation that does what a and then b do.
  lemma ComposeLaw(a: Op, b: Op, doc: Text)
    requires Positive(a) && Positive(b) && TargetLen(a) == BaseLen(b) && |doc| == BaseLen(a)
    ensures Normal(Composed(a, b))
    ensures BaseLen(Composed(a, b)) == BaseLen(a) && TargetLen(Composed(a, b)) == TargetLen(b)
    ensures Run(Composed(a, b), doc) == Run(b, Run(a, doc))
  {
    CanonSound(ComposeSteps(a, b));
    ComposeLengths(a, b);
    ComposeStepsLaw(a, b, doc);
  }

  /******* The diamond *******/

  lemma {:induction false} TransformLengths(a: Op, b: Op)
    requires Positive(a) && Positive(b) && BaseLen(a) == BaseLen(b)
    ensures var steps := TransformSteps(a, b);
      && BaseLen(steps.0) == TargetLen(b)
      && BaseLen(steps.1) == TargetLen(a)
      && TargetLen(steps.0) == TargetLen(steps.1)
    decreases |a| + |b|, 1
  {
    var (x, y) := TransformSteps(a, b);
    if a != [] && a[0].Insert? {
      TransformLengths(a[1..], b);
      assert (x[1..], y[1..]) == TransformSteps(a[1..], b);
    } else if b != [] && b[0].Insert? {
      TransformLengths(a, b[1..]);
      assert (x[1..], y[1..]) == TransformSteps(a, b[1..]);
    } else if a == [] || b == [] {
      BothEnd(a, b);
    } else {
      TransformLengthsBoth(a, b);
    }
  }

  lemma {:induction false} TransformLengthsBoth(a: Op, b: Op)
    requires Positive(a) && Positive(b) && BaseLen(a) == BaseLen(b)
    requires a != [] && b != [] && !a[0].Insert? && !b[0].Insert?
    ensures var steps := TransformSteps(a, b);
      && BaseLen(steps.0) == TargetLen(b)
      && BaseLen(steps.1) == TargetLen(a)
      && TargetLen(steps.0) == TargetLen(steps.1)
    decreases |a| + |b|, 0
  {
    hide BaseLen, TargetLen;
    var n := Min(Len(a[0]), Len(b[0]));
    ConsumePositive(a, n);
    ConsumePositive(b, n);
    ConsumeLengths(a, n);
    ConsumeLengths(b, n);
    TransformLengths(Consume(a, n), Consume(b, n));
    var rest := TransformSteps(Consume(a, n), Consume(b, n));
    LenFront(if a[0].Retain? then Retain(n) else Delete(n), rest.0);
    LenFront(if b[0].Retain? then Retain(n) else Delete(n), rest.1);
  }

  // Equal base lengths leave no remainder on one side alone.
  lemma BothEnd(a: Op, b: Op)
    requires Positive(a) && Positive(b)
    requires a == [] || b == []
    requires a != [] ==> BaseOf(a[0]) > 0
    requires b != [] ==> BaseOf(b[0]) > 0
    requires BaseLen(a) == BaseLen(b)
    ensures a == [] && b == []
  {
  }

  lemma {:induction false} TransformStepsDiamond(a: Op, b: Op, doc: Text)
    requires Positive(a) && Positive(b) && BaseLen(a) == BaseLen(b) == |doc|
    ensures Run(TransformSteps(a, b).1, Run(a, doc)) == Run(TransformSteps(a, b).0, Run(b, doc))
    decreases |a| + |b|
  {
    var (x, y) := TransformSteps(a, b);
    TransformLengths(a, b);
    RunLength(a, doc);
    RunLength(b, doc);
    if a != [] && a[0].Insert? {
      TransformStepsDiamond(a[1..], b, doc);
      assert (x[1..], y[1..]) == TransformSteps(a[1..], b);
      assert Run(a, doc)[|a[0].ins|..] == Run(a[1..], doc);
    } else if b != [] && b[0].Insert? {
      TransformStepsDiamond(a, b[1..], doc);
      assert (x[1..], y[1..]) == TransformSteps(a, b[1..]);
      assert Run(b, doc)[|b[0].ins|..] == Run(b[1..], doc);
    } else if a == [] || b == [] {
      BothEnd(a, b);
    } else {
      var n := Min(Len(a[0]), Len(b[0]));
      var a', b' := Consume(a, n), Consume(b, n);
      var rest := TransformSteps(a', b');
      ConsumePositive(a, n);
      ConsumePositive(b, n);
      ConsumeLengths(a, n);
      ConsumeLengths(b, n);
      RunConsume(a, n, doc);
      RunConsume(b, n, doc);
      TransformStepsDiamond(a', b', doc[n..]);
      assert x == rest.0 || x[1..] == rest.0;
      assert y == rest.1 || y[1..] == rest.1;
      if a[0].Retain? {
        assert Run(a, doc)[n..] == Run(a', doc[n..]);
      }
      if b[0].Retain? {
        assert Run(b, doc)[n..] == Run(b', doc[n..]);
      }
    }
  }

  // Two concurrent operations reach one document in either order.
  lemma Diamond(a: Op, b: Op, doc: Text)
    requires Positive(a) && Positive(b) && BaseLen(a) == BaseLen(b) == |doc|
    ensures Normal(Left(a, b)) && Normal(Right(a, b))
    ensures BaseLen(Left(a, b)) == TargetLen(b) && BaseLen(Right(a, b)) == TargetLen(a)
    ensures TargetLen(Left(a, b)) == TargetLen(Right(a, b))
    ensures Run(Right(a, b), Run(a, doc)) == Run(Left(a, b), Run(b, doc))
  {
    var (x, y) := TransformSteps(a, b);
    CanonSound(x);
    CanonSound(y);
    TransformLengths(a, b);
    TransformStepsDiamond(a, b, doc);
    RunLength(a, doc);
    RunLength(b, doc);
  }

  /******* Every way out of the two loops *******/

  datatype OpError = BaseLengthMismatch | ComposeMismatch | TransformMismatch

  // The loop of Compose with both of its ways out, whatever is on its two sides.
  function ComposeLoop(a: Op, b: Op): Result<Op, OpError>
    decreases |a| + |b|
  {
    if a != [] && a[0].Delete? then Then([a[0]], ComposeLoop(a[1..], b))
    else if b != [] && b[0].Insert? then Then([b[0]], ComposeLoop(a, b[1..]))
    else if a == [] && b == [] then Ok([])
    else if a == [] || b == [] then Err(ComposeMismatch)
    else
      var n := Min(Len(a[0]), Len(b[0]));
      var rest := ComposeLoop(Consume(a, n), Consume(b, n));
      if a[0].Retain? then Then(if b[0].Retain? then [Retain(n)] else [Delete(n)], rest)
      else Then(if b[0].Retain? then [Insert(a[0].ins[..n])] else [], rest)
  }

  function Then(c: Op, rest: Result<Op, OpError>): Result<Op, OpError> {
    if rest.Ok? then Ok(c + rest.value) else rest
  }

  // The loop of Transform, likewise.
  function TransformLoop(a: Op, b: Op): Result<(Op, Op), OpError>
    decreases |a| + |b|
  {
    if a != [] && a[0].Insert? then ThenBoth([a[0]], [Retain(|a[0].ins|)], TransformLoop(a[1..], b))
    else if b != [] && b[0].Insert? then ThenBoth([Retain(|b[0].ins|)], [b[0]], TransformLoop(a, b[1..]))
    else if a == [] && b == [] then Ok(([], []))
    else if a == [] || b == [] then Err(TransformMismatch)
    else
      var n := Min(Len(a[0]), Len(b[0]));
      var rest := TransformLoop(Consume(a, n), Consume(b, n));
      if a[0].Retain? && b[0].Retain? then ThenBoth([Retain(n)], [Retain(n)], rest)
      else if b[0].Retain? then ThenBoth([Delete(n)], [], rest)
      else if a[0].Retain? then ThenBoth([], [Delete(n)], rest)
      else rest
  }

  function ThenBoth(c: Op, d: Op, rest: Result<(Op, Op), OpError>): Result<(Op, Op), OpError> {
    if rest.Ok? then Ok((c + rest.value.0, d + rest.value.1)) else rest
  }

  // The loop of Compose ends in its error exactly when the lengths disagree, so
  // behind the check of the lengths it never does.
  lemma {:induction false} ComposeFailsExactly(a: Op, b: Op)
    requires Positive(a) && Positive(b)
    ensures ComposeLoop(a, b) == if TargetLen(a) == BaseLen(b) then Ok(ComposeSteps(a, b)) else Err(ComposeMismatch)
    decreases |a| + |b|
  {
    if a != [] && a[0].Delete? {
      ComposeFailsExactly(a[1..], b);
    } else if b != [] && b[0].Insert? {
      ComposeFailsExactly(a, b[1..]);
    } else if a != [] && b != [] {
      var n := Min(Len(a[0]), Len(b[0]));
      ConsumePositive(a, n);
      ConsumePositive(b, n);
      ConsumeLengths(a, n);
      ConsumeLengths(b, n);
      ComposeFailsExactly(Consume(a, n), Consume(b, n));
      var rest := ComposeSteps(Consume(a, n), Consume(b, n));
      assert [] + rest == rest;
    }
  }

  lemma {:induction false} TransformFailsExactly(a: Op, b: Op)
    requires Positive(a) && Positive(b)
    ensures TransformLoop(a, b) == if BaseLen(a) == BaseLen(b) then Ok(TransformSteps(a, b)) else Err(TransformMismatch)
    decreases |a| + |b|
  {
    if a != [] && a[0].Insert? {
      TransformFailsExactly(a[1..], b);
    } else if b != [] && b[0].Insert? {
      TransformFailsExactly(a, b[1..]);
    } else if a != [] && b != [] {
      var n := Min(Len(a[0]), Len(b[0]));
      ConsumePositive(a, n);
      ConsumePositive(b, n);
      ConsumeLengths(a, n);
      ConsumeLengths(b, n);
      TransformFailsExactly(Consume(a, n), Consume(b, n));
      var rest := TransformSteps(Consume(a, n), Consume(b, n));
      assert [] + rest.0 == rest.0 && [] + rest.1 == rest.1;
    }
  }
}
