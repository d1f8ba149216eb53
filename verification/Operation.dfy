// Operations as the program handles them: builders that grow in place, cursors
// that consume components piece by piece, and the loops over both. Each loop is
// proved to compute the function in Ops, Merge, Characters or Anchors that
// gives it its meaning.
module OperationCode {
  import opened Results
  import opened Ops
  import opened Merge
  import opened Characters
  import opened Anchors

  // One component of a walk: what it adds to out, and what is left to do.
  lemma RunStep(comps: Op, k: nat, out: Text, doc: Text, position: nat)
    requires k < |comps| && position + BaseLen(comps[k..]) == |doc|
    ensures var c := comps[k];
      var next := position + BaseOf(c);
      && next + BaseLen(comps[k + 1..]) == |doc|
      && out + Run(comps[k..], doc[position..])
         == (if c.Retain? then out + doc[position..next]
             else if c.Insert? then out + c.ins
             else out) + Run(comps[k + 1..], doc[next..])
  {
    hide Run;
    var c := comps[k];
    assert comps[k..] == [c] + comps[k + 1..];
    Cons(c, comps[k + 1..], doc[position..]);
    assert doc[position..][BaseOf(c)..] == doc[position + BaseOf(c)..];
    assert doc[position..][..BaseOf(c)] == doc[position..position + BaseOf(c)];
    var more := Run(comps[k + 1..], doc[position + BaseOf(c)..]);
    if c.Insert? {
      assert out + (c.ins + more) == (out + c.ins) + more;
    } else if c.Retain? {
      assert out + (doc[position..position + c.n] + more) == (out + doc[position..position + c.n]) + more;
    }
  }

  lemma RunEmpty(doc: Text)
    ensures Run([], doc) == []
  {
  }

  class Operation {
    var comps: seq<Comp>
    var baseLen: nat
    var targetLen: nat

    ghost predicate Valid()
      reads this
    {
      && Normal(comps)
      && baseLen == BaseLen(comps)
      && targetLen == TargetLen(comps)
    }

    lemma Facts()
      requires Valid()
      ensures Normal(comps) && baseLen == BaseLen(comps) && targetLen == TargetLen(comps)
    {
    }

    constructor ()
      ensures Valid() && comps == []
    {
      comps, baseLen, targetLen := [], 0, 0;
    }

    // The operation a decoded or committed list of components stands for.
    constructor Of(comps: Op)
      requires Normal(comps)
      ensures Valid() && this.comps == comps
    {
      this.comps, baseLen, targetLen := comps, BaseLen(comps), TargetLen(comps);
    }

    method Retain(n: int)
      requires Valid()
      modifies this
      ensures Valid()
      ensures comps == if n <= 0 then old(comps) else PushRetain(old(comps), n)
    {
      if n <= 0 {
        return;
      }
      PushMeaning(comps, Comp.Retain(n));
      LenConcat(comps, [Comp.Retain(n)]);
      LenSingle(Comp.Retain(n));
      PushNormal(comps, Comp.Retain(n));
      baseLen, targetLen := baseLen + n, targetLen + n;
      var last := |comps| - 1;
      if last >= 0 && comps[last].Retain? {
        comps := comps[last := Comp.Retain(comps[last].n + n)];
        return;
      }
      comps := comps + [Comp.Retain(n)];
    }

    method Delete(n: int)
      requires Valid()
      modifies this
      ensures Valid()
      ensures comps == if n <= 0 then old(comps) else PushDelete(old(comps), n)
    {
      if n <= 0 {
        return;
      }
      PushMeaning(comps, Comp.Delete(n));
      LenConcat(comps, [Comp.Delete(n)]);
      LenSingle(Comp.Delete(n));
      PushNormal(comps, Comp.Delete(n));
      baseLen := baseLen + n;
      var last := |comps| - 1;
      if last >= 0 && comps[last].Delete? {
        comps := comps[last := Comp.Delete(comps[last].n + n)];
        return;
      }
      comps := comps + [Comp.Delete(n)];
    }

    method Insert(text: Text)
      requires Valid()
      modifies this
      ensures Valid()
      ensures comps == PushInsert(old(comps), text)
    {
      if |text| == 0 {
        return;
      }
      PushMeaning(comps, Comp.Insert(text));
      LenConcat(comps, [Comp.Insert(text)]);
      LenSingle(Comp.Insert(text));
      PushNormal(comps, Comp.Insert(text));
      targetLen := targetLen + |text|;
      var last := |comps| - 1;
      if last >= 0 && comps[last].Insert? {
        comps := comps[last := Comp.Insert(comps[last].ins + text)];
      } else if last >= 0 && comps[last].Delete? {
        if last >= 1 && comps[last - 1].Insert? {
          comps := comps[last - 1 := Comp.Insert(comps[last - 1].ins + text)];
        } else {
          comps := comps + [comps[last]];
          comps := comps[last := Comp.Insert(text)];
          assert comps == PushInsert(old(comps), text);
        }
      } else {
        comps := comps + [Comp.Insert(text)];
      }
    }

    // The new document, or an error when the lengths do not match.
    method Apply(doc: Text) returns (r: Result<Text, OpError>)
      requires Valid()
      ensures r == if |doc| == BaseLen(comps) then Ok(Run(comps, doc)) else Err(BaseLengthMismatch)
    {
      hide Run, BaseLen, Normal;
      if |doc| != baseLen {
        return Err(BaseLengthMismatch);
      }
      var out, position: nat := [], 0;
      assert comps[0..] == comps && doc[0..] == doc;
      for k := 0 to |comps|
        invariant position + BaseLen(comps[k..]) == |doc|
        invariant out + Run(comps[k..], doc[position..]) == Run(comps, doc)
      {
        RunStep(comps, k, out, doc, position);
        var c := comps[k];
        if c.Retain? {
          out := out + doc[position..position + c.n];
          position := position + c.n;
        } else if c.Insert? {
          out := out + c.ins;
        } else {
          position := position + c.n;
        }
      }
      assert comps[|comps|..] == [];
      RunEmpty(doc[position..]);
      assert out + [] == out;
      r := Ok(out);
    }

    // Carries a position of the base document to the target document.
    method MapPosition(p: nat, after: bool) returns (mapped: nat)
      requires Positive(comps)
      ensures mapped == MapPos(comps, p, after)
    {
      var moved: int, index: nat := p, 0;
      for k := 0 to |comps|
        invariant index <= p
        invariant moved - (p - index) + MapPos(comps[k..], p - index, after) == MapPos(comps, p, after)
      {
        assert comps[k..][0] == comps[k] && comps[k..][1..] == comps[k + 1..];
        var c := comps[k];
        if c.Retain? {
          index := index + c.n;
        } else if c.Insert? {
          if index < p || (index == p && after) {
            moved := moved + |c.ins|;
          }
        } else {
          if index < p {
            moved := moved - (if c.n < p - index then c.n else p - index);
          }
          index := index + c.n;
        }
        if index > p {
          // Later components cannot move p any more.
          mapped := moved;
          return;
        }
      }
      mapped := moved;
    }

    method MapSpan(start: nat, end: nat) returns (r: Range)
      requires Positive(comps)
      ensures r == MapRange(comps, start, end)
    {
      var touched, index: nat := false, 0;
      for k := 0 to |comps|
        invariant (touched || Touched(comps[k..], start - index, end - index)) == Touched(comps, start, end)
      {
        assert comps[k..][0] == comps[k] && comps[k..][1..] == comps[k + 1..];
        var c := comps[k];
        if c.Retain? {
          index := index + c.n;
        } else if c.Insert? {
          if index > start && index < end {
            touched := true;
          }
        } else {
          var deleteEnd := index + c.n;
          if start == end {
            if index < start && deleteEnd > start {
              touched := true;
            }
          } else if index < end && deleteEnd > start {
            touched := true;
          }
          index := deleteEnd;
        }
      }
      assert !Touched(comps[|comps|..], start - index, end - index);
      if touched {
        var s := MapPosition(start, false);
        var e := MapPosition(end, true);
        return Range(s, e, true);
      }
      var mappedStart := MapPosition(start, true);
      var mappedEnd := MapPosition(end, false);
      if mappedEnd < mappedStart {
        mappedEnd := mappedStart;
      }
      r := Range(mappedStart, mappedEnd, false);
    }

    method Check(doc: Text) returns (r: TextCheck)
      ensures r == CheckText(comps, doc)
    {
      var position: nat := 0;
      for k := 0 to |comps|
        invariant CheckFrom(comps[k..], doc, position) == CheckText(comps, doc)
      {
        assert comps[k..][0] == comps[k] && comps[k..][1..] == comps[k + 1..];
        var c := comps[k];
        if c.Retain? {
          position := position + c.n;
        } else if c.Insert? {
          if InsidePair(doc, position) {
            return InsertsInsidePair;
          }
          var hasReturn := ContainsReturn(c.ins);
          if hasReturn {
            return InsertsCarriageReturn;
          }
        } else {
          if InsidePair(doc, position) || InsidePair(doc, position + c.n) {
            return DeletesHalfPair;
          }
          position := position + c.n;
        }
      }
      r := TextOk;
    }

    method Authors(attr: seq<AuthorId>, author: AuthorId) returns (out: seq<AuthorId>)
      requires Valid() && |attr| == baseLen
      ensures out == RunAuthors(comps, attr, author)
    {
      out := [];
      var position: nat := 0;
      for k := 0 to |comps|
        invariant position + BaseLen(comps[k..]) == |attr|
        invariant out + RunAuthors(comps[k..], attr[position..], author) == RunAuthors(comps, attr, author)
      {
        assert comps[k..][0] == comps[k] && comps[k..][1..] == comps[k + 1..];
        var c := comps[k];
        DropTwice(attr, position, BaseOf(c));
        ghost var rest := RunAuthors(comps[k + 1..], attr[position + BaseOf(c)..], author);
        if c.Retain? {
          assert attr[position..][..c.n] == attr[position..position + c.n];
          ConcatAssoc(out, attr[position..position + c.n], rest);
          out := out + attr[position..position + c.n];
          position := position + c.n;
        } else if c.Insert? {
          ConcatAssoc(out, Copies(|c.ins|, author), rest);
          out := AppendCopies(out, author, |c.ins|);
        } else {
          position := position + c.n;
        }
      }
      assert comps[|comps|..] == [];
      assert out + [] == out;
    }
  }

  method AppendCopies(out: seq<AuthorId>, author: AuthorId, n: nat) returns (r: seq<AuthorId>)
    ensures r == out + Copies(n, author)
  {
    r := out;
    for j := 0 to n
      invariant r == out + Copies(j, author)
    {
      r := r + [author];
    }
  }

  method ContainsReturn(s: Text) returns (found: bool)
    ensures found <==> CarriageReturn in s
  {
    for k := 0 to |s|
      invariant CarriageReturn !in s[..k]
    {
      if s[k] == CarriageReturn {
        return true;
      }
    }
    found := false;
  }

  // Walks an operation's components, consuming part of one at a time.
  class Cursor {
    const comps: seq<Comp>
    var index: nat
    var used: nat

    ghost predicate Valid()
      reads this
    {
      && Positive(comps)
      && index <= |comps|
      && (if index < |comps| then used < Len(comps[index]) else used == 0)
    }

    // The components not consumed yet.
    ghost function Left(): Op
      requires Valid()
      reads this
    {
      if index == |comps| then [] else Consume(comps[index..], used)
    }

    constructor (comps: seq<Comp>)
      requires Positive(comps)
      ensures Valid() && this.comps == comps && Left() == comps
    {
      this.comps := comps;
      index, used := 0, 0;
      new;
      if comps != [] {
        assert comps[0..] == comps;
        assert Rest(comps[0], 0) == comps[0];
        assert [comps[0]] + comps[1..] == comps;
      }
    }

    predicate Done()
      requires Valid()
      reads this
      ensures Done() <==> Left() == []
    {
      index >= |comps|
    }

    function Peek(): Comp
      requires Valid() && !Done()
      reads this
    {
      comps[index]
    }

    // Units left in the component the cursor is in.
    function Remaining(): (n: nat)
      requires Valid() && !Done()
      reads this
      ensures n == Len(Left()[0]) > 0
    {
      Len(comps[index]) - used
    }

    lemma KindOfFirst()
      requires Valid() && !Done()
      ensures Left() != [] && Left()[0].Insert? == Peek().Insert?
      ensures Left()[0].Retain? == Peek().Retain? && Left()[0].Delete? == Peek().Delete?
    {
    }

    lemma TextAhead(n: nat)
      requires Valid() && !Done() && n <= Remaining() && Peek().Insert?
      ensures index < |comps| && used + n <= |comps[index].ins|
      ensures Left()[0].Insert? && Left()[0].ins[..n] == comps[index].ins[used..used + n]
    {
    }

    // Moves on by n units within one component. For an insert, text is what was
    // passed over.
    method TakeUnits(n: nat) returns (text: Text)
      requires Valid() && !Done() && 0 < n <= Remaining()
      modifies this
      ensures Valid()
      ensures Left() == Consume(old(Left()), n)
      ensures text == if old(Left())[0].Insert? then old(Left())[0].ins[..n] else []
    {
      hide Positive;
      var current := comps[index];
      text := if current.Insert? then current.ins[used..used + n] else [];
      RestTwice(current, used, n);
      ConsumeTwice(comps[index..], used, n);
      NextPositive(comps, index);
      used := used + n;
      if Len(comps[index]) - used == 0 {
        index := index + 1;
        used := 0;
        ConsumeNone(comps[index..]);
      }
    }
  }

  // Consuming part of a component and then more of it.
  lemma RestTwice(c: Comp, used: nat, n: nat)
    requires used + n <= Len(c)
    ensures Rest(Rest(c, used), n) == Rest(c, used + n)
    ensures c.Insert? ==> Rest(c, used).ins[..n] == c.ins[used..used + n]
  {
  }

  lemma ConsumeTwice(o: Op, used: nat, n: nat)
    requires o != [] && used + n <= Len(o[0]) && used < Len(o[0])
    ensures Consume(o, used) != [] && Consume(o, used)[0] == Rest(o[0], used)
    ensures Consume(Consume(o, used), n) == Consume(o, used + n)
  {
    RestTwice(o[0], used, n);
    assert Consume(o, used)[1..] == o[1..];
  }

  lemma ConsumeNone(o: Op)
    requires Positive(o)
    ensures o != [] ==> Consume(o, 0) == o
  {
    if o != [] {
      assert [o[0]] + o[1..] == o;
    }
  }

  lemma NextPositive(o: Op, index: nat)
    requires Positive(o) && index < |o|
    ensures Positive(o[index..]) && Positive(o[index + 1..]) && Len(o[index]) > 0
    ensures o[index..][0] == o[index] && o[index..][1..] == o[index + 1..]
    ensures index + 1 < |o| ==> Len(o[index + 1]) > 0
  {
  }

  /******* One turn of the loops below, on what is left of each side *******/

  lemma BuildersStart(a: Op, b: Op)
    requires Normal(a) && Normal(b)
    ensures Positive(a) && Positive(b)
    ensures PushAll([], ComposeSteps(a, b)) == Composed(a, b)
    ensures PushAll([], TransformSteps(a, b).0) == Merge.Left(a, b)
    ensures PushAll([], TransformSteps(a, b).1) == Merge.Right(a, b)
  {
  }

  lemma BuildersEnd(out: Op, p: Op, q: Op)
    ensures PushAll(out, ComposeSteps([], [])) == out
    ensures PushAll(p, TransformSteps([], []).0) == p && PushAll(q, TransformSteps([], []).1) == q
  {
  }

  lemma OneSideLeft(x: Op, y: Op)
    requires Positive(x) && Positive(y) && (x == [] || y == [])
    requires
      || (TargetLen(x) == BaseLen(y) && (x != [] ==> !x[0].Delete?) && (y != [] ==> !y[0].Insert?))
      || (BaseLen(x) == BaseLen(y) && (x != [] ==> !x[0].Insert?) && (y != [] ==> !y[0].Insert?))
    ensures x == y == []
  {
  }

  lemma ComposeTakesDelete(out: Op, x: Op, y: Op)
    requires x != [] && x[0].Delete?
    requires Positive(x)
    ensures PushAll(out, ComposeSteps(x, y)) == PushAll(Push(out, x[0]), ComposeSteps(Consume(x, Len(x[0])), y))
    ensures TargetLen(Consume(x, Len(x[0]))) == TargetLen(x)
    ensures Positive(Consume(x, Len(x[0])))
    ensures |Consume(x, Len(x[0]))| < |x|
  {
    assert ComposeSteps(x, y)[1..] == ComposeSteps(x[1..], y);
  }

  lemma ComposeTakesInsert(out: Op, x: Op, y: Op)
    requires (x != [] ==> !x[0].Delete?) && y != [] && y[0].Insert?
    requires Positive(y)
    ensures PushAll(out, ComposeSteps(x, y)) == PushAll(Push(out, y[0]), ComposeSteps(x, Consume(y, Len(y[0]))))
    ensures BaseLen(Consume(y, Len(y[0]))) == BaseLen(y)
    ensures Positive(Consume(y, Len(y[0])))
    ensures |Consume(y, Len(y[0]))| < |y|
  {
    assert ComposeSteps(x, y)[1..] == ComposeSteps(x, y[1..]);
  }

  // What both sides taking n units adds to the result.
  function ComposePair(c: Comp, d: Comp, n: nat): (r: Comp)
    requires n <= Len(c) && n <= Len(d) && !c.Delete? && !d.Insert?
    ensures Len(r) == if c.Insert? && d.Delete? then 0 else n
  {
    if c.Retain? then (if d.Retain? then Retain(n) else Delete(n))
    else if c.Insert? && d.Retain? then Insert(c.ins[..n])
    else Insert([])
  }

  lemma ComposeTakesBoth(out: Op, x: Op, y: Op, n: nat)
    requires Positive(x) && Positive(y) && x != [] && y != [] && !x[0].Delete? && !y[0].Insert?
    requires n == Min(Len(x[0]), Len(y[0])) && TargetLen(x) == BaseLen(y)
    ensures PushAll(out, ComposeSteps(x, y))
         == PushAll(if x[0].Insert? && y[0].Delete? then out else Push(out, ComposePair(x[0], y[0], n)),
                    ComposeSteps(Consume(x, n), Consume(y, n)))
    ensures Positive(Consume(x, n)) && Positive(Consume(y, n))
    ensures TargetLen(Consume(x, n)) == BaseLen(Consume(y, n))
    ensures |Consume(x, n)| + |Consume(y, n)| < |x| + |y|
  {
    ConsumePositive(x, n);
    ConsumePositive(y, n);
    ConsumeLengths(x, n);
    ConsumeLengths(y, n);
    var rest := ComposeSteps(Consume(x, n), Consume(y, n));
    assert ComposeSteps(x, y) == rest || ComposeSteps(x, y)[1..] == rest;
  }

  lemma TransformTakesLeft(p: Op, q: Op, x: Op, y: Op)
    requires x != [] && x[0].Insert?
    requires Positive(x)
    ensures PushAll(p, TransformSteps(x, y).0)
         == PushAll(Push(p, x[0]), TransformSteps(Consume(x, Len(x[0])), y).0)
    ensures PushAll(q, TransformSteps(x, y).1)
         == PushAll(PushRetain(q, |x[0].ins|), TransformSteps(Consume(x, Len(x[0])), y).1)
    ensures BaseLen(Consume(x, Len(x[0]))) == BaseLen(x)
    ensures Positive(Consume(x, Len(x[0])))
    ensures |Consume(x, Len(x[0]))| < |x|
  {
    var (s, t) := TransformSteps(x, y);
    assert (s[1..], t[1..]) == TransformSteps(x[1..], y);
  }

  lemma TransformTakesRight(p: Op, q: Op, x: Op, y: Op)
    requires (x != [] ==> !x[0].Insert?) && y != [] && y[0].Insert?
    requires Positive(y)
    ensures PushAll(p, TransformSteps(x, y).0)
         == PushAll(PushRetain(p, |y[0].ins|), TransformSteps(x, Consume(y, Len(y[0]))).0)
    ensures PushAll(q, TransformSteps(x, y).1)
         == PushAll(Push(q, y[0]), TransformSteps(x, Consume(y, Len(y[0]))).1)
    ensures BaseLen(Consume(y, Len(y[0]))) == BaseLen(y)
    ensures Positive(Consume(y, Len(y[0])))
    ensures |Consume(y, Len(y[0]))| < |y|
  {
    var (s, t) := TransformSteps(x, y);
    assert (s[1..], t[1..]) == TransformSteps(x, y[1..]);
  }

  lemma TransformTakesBoth(p: Op, q: Op, x: Op, y: Op, n: nat)
    requires Positive(x) && Positive(y) && x != [] && y != [] && !x[0].Insert? && !y[0].Insert?
    requires n == Min(Len(x[0]), Len(y[0])) && BaseLen(x) == BaseLen(y)
    ensures var s, t := TransformSteps(Consume(x, n), Consume(y, n)).0, TransformSteps(Consume(x, n), Consume(y, n)).1;
      && PushAll(p, TransformSteps(x, y).0) == PushAll(if y[0].Delete? then p else Push(p, if x[0].Retain? then Retain(n) else Delete(n)), s)
      && PushAll(q, TransformSteps(x, y).1) == PushAll(if x[0].Delete? then q else Push(q, if y[0].Retain? then Retain(n) else Delete(n)), t)
    ensures Positive(Consume(x, n)) && Positive(Consume(y, n))
    ensures BaseLen(Consume(x, n)) == BaseLen(Consume(y, n))
    ensures |Consume(x, n)| + |Consume(y, n)| < |x| + |y|
  {
    ConsumePositive(x, n);
    ConsumePositive(y, n);
    ConsumeLengths(x, n);
    ConsumeLengths(y, n);
    var rest := TransformSteps(Consume(x, n), Consume(y, n));
    var (s, t) := TransformSteps(x, y);
    assert s == rest.0 || s[1..] == rest.0;
    assert t == rest.1 || t[1..] == rest.1;
  }

  // The turn of Compose's loop that consumes units on both sides.
  method ComposeBoth(out: Operation, left: Cursor, right: Cursor)
    requires out.Valid() && left.Valid() && right.Valid() && left != right
    requires !left.Done() && !right.Done() && !left.Peek().Delete? && !right.Peek().Insert?
    requires Positive(left.Left()) && Positive(right.Left()) && TargetLen(left.Left()) == BaseLen(right.Left())
    modifies out, left, right
    ensures out.Valid() && left.Valid() && right.Valid()
    ensures Positive(left.Left()) && Positive(right.Left()) && TargetLen(left.Left()) == BaseLen(right.Left())
    ensures PushAll(out.comps, ComposeSteps(left.Left(), right.Left()))
         == PushAll(old(out.comps), ComposeSteps(old(left.Left()), old(right.Left())))
    ensures |left.Left()| + |right.Left()| < |old(left.Left())| + |old(right.Left())|
  {
    hide ComposeSteps, PushAll, BaseLen, TargetLen, Positive, Operation.Valid, Cursor.Left, Consume, PushRetain, PushDelete, PushInsert;
    left.KindOfFirst();
    right.KindOfFirst();
    var n := Min(left.Remaining(), right.Remaining());
    var l, r := left.Peek(), right.Peek();
    ComposeTakesBoth(out.comps, left.Left(), right.Left(), n);
    if l.Retain? && r.Retain? {
      out.Retain(n);
    } else if l.Retain? && r.Delete? {
      out.Delete(n);
    } else if l.Insert? && r.Retain? {
      left.TextAhead(n);
      out.Insert(left.comps[left.index].ins[left.used..left.used + n]);
    }
    // What is left: text of one that the other removes again, which leaves no trace.
    var _ := left.TakeUnits(n);
    var _ := right.TakeUnits(n);
  }

  // Copies an insert into one result and walks the other past it.
  method CopyInsert(from: Cursor, into: Operation, past: Operation)
    requires from.Valid() && into.Valid() && past.Valid() && into != past
    requires !from.Done() && from.Peek().Insert?
    modifies from, into, past
    ensures from.Valid() && into.Valid() && past.Valid()
    ensures from.Left() == Consume(old(from.Left()), Len(old(from.Left())[0]))
    ensures into.comps == PushInsert(old(into.comps), old(from.Left())[0].ins)
    ensures past.comps == PushRetain(old(past.comps), |old(from.Left())[0].ins|)
  {
    from.KindOfFirst();
    var text := from.TakeUnits(from.Remaining());
    assert text == old(from.Left())[0].ins;
    into.Insert(text);
    past.Retain(|text|);
  }

  // The turn of Transform's loop that consumes units on both sides.
  method TransformBoth(aPrime: Operation, bPrime: Operation, left: Cursor, right: Cursor)
    requires aPrime.Valid() && bPrime.Valid() && left.Valid() && right.Valid() && left != right && aPrime != bPrime
    requires !left.Done() && !right.Done() && !left.Peek().Insert? && !right.Peek().Insert?
    requires Positive(left.Left()) && Positive(right.Left()) && BaseLen(left.Left()) == BaseLen(right.Left())
    modifies aPrime, bPrime, left, right
    ensures aPrime.Valid() && bPrime.Valid() && left.Valid() && right.Valid()
    ensures Positive(left.Left()) && Positive(right.Left()) && BaseLen(left.Left()) == BaseLen(right.Left())
    ensures PushAll(aPrime.comps, TransformSteps(left.Left(), right.Left()).0)
         == PushAll(old(aPrime.comps), TransformSteps(old(left.Left()), old(right.Left())).0)
    ensures PushAll(bPrime.comps, TransformSteps(left.Left(), right.Left()).1)
         == PushAll(old(bPrime.comps), TransformSteps(old(left.Left()), old(right.Left())).1)
    ensures |left.Left()| + |right.Left()| < |old(left.Left())| + |old(right.Left())|
  {
    hide TransformSteps, PushAll, BaseLen, Positive, Operation.Valid, Cursor.Left, Consume, PushRetain, PushDelete, PushInsert;
    left.KindOfFirst();
    right.KindOfFirst();
    var n := Min(left.Remaining(), right.Remaining());
    var l, r := left.Peek(), right.Peek();
    TransformTakesBoth(aPrime.comps, bPrime.comps, left.Left(), right.Left(), n);
    if l.Retain? && r.Retain? {
      aPrime.Retain(n);
      bPrime.Retain(n);
    } else if l.Delete? && r.Retain? {
      aPrime.Delete(n);
    } else if l.Retain? && r.Delete? {
      bPrime.Delete(n);
    }
    // What is left: units both remove, which neither has to remove again.
    var _ := left.TakeUnits(n);
    var _ := right.TakeUnits(n);
  }

  // One operation equivalent to a and then b.
  method Compose(a: Operation, b: Operation) returns (r: Result<Operation, OpError>)
    requires a.Valid() && b.Valid()
    ensures r.Ok? <==> TargetLen(a.comps) == BaseLen(b.comps)
    ensures r.Ok? ==> fresh(r.value) && r.value.Valid() && r.value.comps == Composed(a.comps, b.comps)
    ensures r.Err? ==> r.error == ComposeMismatch
  {
    hide ComposeSteps, PushAll, Composed, Canon, Normal, Positive, MayFollow, BaseLen, TargetLen;
    hide Operation.Valid, Cursor.Valid, Cursor.Left, Consume, Rest, PushRetain, PushDelete, PushInsert;
    a.Facts();
    b.Facts();
    BuildersStart(a.comps, b.comps);
    if a.targetLen != b.baseLen {
      return Err(ComposeMismatch);
    }
    var out := new Operation();
    var left := new Cursor(a.comps);
    var right := new Cursor(b.comps);
    while true
      invariant fresh(out) && fresh(left) && fresh(right)
      invariant out.Valid() && left.Valid() && right.Valid()
      invariant Positive(left.Left()) && Positive(right.Left())
      invariant TargetLen(left.Left()) == BaseLen(right.Left())
      invariant PushAll(out.comps, ComposeSteps(left.Left(), right.Left())) == Composed(a.comps, b.comps)
      decreases |left.Left()| + |right.Left()|
    {
      ghost var x, y := left.Left(), right.Left();
      if !left.Done() {
        left.KindOfFirst();
      }
      if !right.Done() {
        right.KindOfFirst();
      }
      if !left.Done() && left.Peek().Delete? {
        ComposeTakesDelete(out.comps, x, y);
        var n := left.Remaining();
        out.Delete(n);
        var _ := left.TakeUnits(n);
        continue;
      }
      if !right.Done() && right.Peek().Insert? {
        ComposeTakesInsert(out.comps, x, y);
        var n := right.Remaining();
        var text := right.TakeUnits(n);
        assert text == y[0].ins;
        out.Insert(text);
        continue;
      }
      if left.Done() && right.Done() {
        BuildersEnd(out.comps, [], []);
        return Ok(out);
      }
      if left.Done() || right.Done() {
        OneSideLeft(x, y);
        assert false;
      }
      ComposeBoth(out, left, right);
    }
  }

  // Each operation rebased over the other.
  method Transform(a: Operation, b: Operation) returns (r: Result<(Operation, Operation), OpError>)
    requires a.Valid() && b.Valid()
    ensures r.Ok? <==> BaseLen(a.comps) == BaseLen(b.comps)
    ensures r.Ok? ==>
      && fresh(r.value.0) && r.value.0.Valid() && r.value.0.comps == Merge.Left(a.comps, b.comps)
      && fresh(r.value.1) && r.value.1.Valid() && r.value.1.comps == Merge.Right(a.comps, b.comps)
    ensures r.Err? ==> r.error == TransformMismatch
  {
    hide TransformSteps, PushAll, Merge.Left, Merge.Right, Transformed, Canon, Normal, Positive, MayFollow, BaseLen, TargetLen;
    hide Operation.Valid, Cursor.Valid, Cursor.Left, Consume, Rest, PushRetain, PushDelete, PushInsert;
    a.Facts();
    b.Facts();
    BuildersStart(a.comps, b.comps);
    if a.baseLen != b.baseLen {
      return Err(TransformMismatch);
    }
    var aPrime := new Operation();
    var bPrime := new Operation();
    var left := new Cursor(a.comps);
    var right := new Cursor(b.comps);
    while true
      invariant fresh(aPrime) && fresh(bPrime) && fresh(left) && fresh(right) && aPrime != bPrime
      invariant aPrime.Valid() && bPrime.Valid() && left.Valid() && right.Valid()
      invariant Positive(left.Left()) && Positive(right.Left())
      invariant BaseLen(left.Left()) == BaseLen(right.Left())
      invariant PushAll(aPrime.comps, TransformSteps(left.Left(), right.Left()).0) == Merge.Left(a.comps, b.comps)
      invariant PushAll(bPrime.comps, TransformSteps(left.Left(), right.Left()).1) == Merge.Right(a.comps, b.comps)
      decreases |left.Left()| + |right.Left()|
    {
      ghost var x, y := left.Left(), right.Left();
      if !left.Done() {
        left.KindOfFirst();
      }
      if !right.Done() {
        right.KindOfFirst();
      }
      if !left.Done() && left.Peek().Insert? {
        TransformTakesLeft(aPrime.comps, bPrime.comps, x, y);
        CopyInsert(left, aPrime, bPrime);
        continue;
      }
      if !right.Done() && right.Peek().Insert? {
        TransformTakesRight(aPrime.comps, bPrime.comps, x, y);
        CopyInsert(right, bPrime, aPrime);
        continue;
      }
      if left.Done() && right.Done() {
        BuildersEnd([], aPrime.comps, bPrime.comps);
        return Ok((aPrime, bPrime));
      }
      if left.Done() || right.Done() {
        OneSideLeft(x, y);
        assert false;
      }
      TransformBoth(aPrime, bPrime, left, right);
    }
  }
}
