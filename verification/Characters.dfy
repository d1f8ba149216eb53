// Surrogate pairs: which texts a browser can hold, which operations keep them
// so, and why that survives rebasing and composing.
module Characters {
  import opened Ops
  import opened Merge

  predicate IsHigh(u: Unit) { 0xd800 <= u <= 0xdbff }

  predicate IsLow(u: Unit) { 0xdc00 <= u <= 0xdfff }

  const CarriageReturn: Unit := 13

  // Well-formed UTF-16: every surrogate is half of a pair (section 3.9 of the
  // Unicode Standard).
  predicate WellFormed(t: Text) {
    && (forall k {:trigger IsHigh(t[k])} :: 0 <= k < |t| && IsHigh(t[k]) ==> k + 1 < |t| && IsLow(t[k + 1]))
    && (forall k {:trigger IsLow(t[k])} :: 0 <= k < |t| && IsLow(t[k]) ==> k > 0 && IsHigh(t[k - 1]))
  }

  predicate InsidePair(doc: Text, p: int) {
    0 < p < |doc| && IsHigh(doc[p - 1]) && IsLow(doc[p])
  }

  lemma WellFormedConcat(x: Text, y: Text)
    requires WellFormed(x)
    ensures WellFormed(x + y) <==> WellFormed(y)
  {
    var t := x + y;
    assert |x| > 0 ==> t[|x| - 1] == x[|x| - 1] && !IsHigh(x[|x| - 1]);
    if WellFormed(t) {
      forall k | 0 <= k < |y| && IsHigh(y[k]) ensures k + 1 < |y| && IsLow(y[k + 1]) {
        assert t[|x| + k] == y[k];
        assert t[|x| + k + 1] == y[k + 1];
      }
      forall k | 0 <= k < |y| && IsLow(y[k]) ensures k > 0 && IsHigh(y[k - 1]) {
        assert t[|x| + k] == y[k];
        if k > 0 {
          assert t[|x| + k - 1] == y[k - 1];
        }
      }
    }
    if WellFormed(y) {
      forall k | 0 <= k < |t| && IsHigh(t[k]) ensures k + 1 < |t| && IsLow(t[k + 1]) {
        if k >= |x| {
          assert t[k] == y[k - |x|] && IsLow(y[k - |x| + 1]);
        }
      }
      forall k | 0 <= k < |t| && IsLow(t[k]) ensures k > 0 && IsHigh(t[k - 1]) {
        if k >= |x| {
          assert t[k] == y[k - |x|] && IsHigh(y[k - |x| - 1]);
        }
      }
    }
  }

  // A position is between characters exactly when the text ahead of it stands
  // on its own, and then so does the text after it.
  lemma BoundarySplits(doc: Text, p: nat)
    requires WellFormed(doc) && p <= |doc|
    ensures !InsidePair(doc, p) <==> WellFormed(doc[..p])
    ensures !InsidePair(doc, p) ==> WellFormed(doc[p..])
  {
    assert doc == doc[..p] + doc[p..];
    if !InsidePair(doc, p) {
      var x := doc[..p];
      forall k | 0 <= k < |x| && IsHigh(x[k]) ensures k + 1 < |x| && IsLow(x[k + 1]) {
        assert IsHigh(doc[k]) && IsLow(doc[k + 1]);
      }
      WellFormedConcat(doc[..p], doc[p..]);
    }
    assert 0 < p ==> doc[..p][p - 1] == doc[p - 1];
  }

  predicate Clean(s: Text) {
    WellFormed(s) && CarriageReturn !in s
  }

  lemma CleanConcat(x: Text, y: Text)
    requires Clean(x)
    ensures Clean(x + y) <==> Clean(y)
  {
    WellFormedConcat(x, y);
  }

  // An operation that works in whole characters: every stretch it keeps or
  // removes, and everything it inserts, stands on its own.
  predicate Safe(o: Op, doc: Text) {
    if o == [] then true
    else
      match o[0]
      case Retain(n) => WellFormed(Take(doc, n)) && Safe(o[1..], Skip(doc, n))
      case Delete(n) => WellFormed(Take(doc, n)) && Safe(o[1..], Skip(doc, n))
      case Insert(s) => Clean(s) && Safe(o[1..], doc)
  }

  /******* The server's check *******/

  datatype TextCheck = TextOk | InsertsInsidePair | InsertsCarriageReturn | DeletesHalfPair

  // checkText from component o[0] on, at the given position of the document.
  function CheckFrom(o: Op, doc: Text, position: nat): TextCheck {
    if o == [] then TextOk
    else
      match o[0]
      case Retain(n) => CheckFrom(o[1..], doc, position + n)
      case Insert(s) =>
        if InsidePair(doc, position) then InsertsInsidePair
        else if CarriageReturn in s then InsertsCarriageReturn
        else CheckFrom(o[1..], doc, position)
      case Delete(n) =>
        if InsidePair(doc, position) || InsidePair(doc, position + n) then DeletesHalfPair
        else CheckFrom(o[1..], doc, position + n)
  }

  function CheckText(o: Op, doc: Text): TextCheck {
    CheckFrom(o, doc, 0)
  }

  // Decoded inserts are well-formed whoever sent them; JSON text always is.
  predicate InsertsWellFormed(o: Op) {
    forall k :: 0 <= k < |o| && o[k].Insert? ==> WellFormed(o[k].ins)
  }

  // From one boundary, a stretch stands on its own exactly when it ends on
  // another.
  lemma ChunkBoundary(doc: Text, position: nat, n: nat)
    requires WellFormed(doc) && position + n <= |doc| && !InsidePair(doc, position)
    ensures WellFormed(doc[position..][..n]) <==> !InsidePair(doc, position + n)
    ensures doc[position..][n..] == doc[position + n..]
  {
    var chunk := doc[position..][..n];
    assert doc[..position] + chunk == doc[..position + n];
    BoundarySplits(doc, position);
    BoundarySplits(doc, position + n);
    WellFormedConcat(doc[..position], chunk);
  }

  lemma {:induction false} CheckFromSafe(o: Op, doc: Text, position: nat)
    requires Normal(o) && InsertsWellFormed(o) && WellFormed(doc)
    requires position + BaseLen(o) == |doc| && !InsidePair(doc, position)
    ensures CheckFrom(o, doc, position).TextOk? <==> Safe(o, doc[position..])
    decreases |o|
  {
    hide WellFormed, InsidePair, MayFollow;
    if o != [] {
      TailNormal(o);
      assert InsertsWellFormed(o[1..]);
      if o[0].Insert? {
        CheckFromSafe(o[1..], doc, position);
      } else {
        var next := position + o[0].n;
        ChunkBoundary(doc, position, o[0].n);
        if !InsidePair(doc, next) {
          CheckFromSafe(o[1..], doc, next);
        } else if o[0].Retain? {
          SplitRejected(o, doc, next);
        }
      }
    }
  }

  // After a retained stretch that ends inside a pair, the next component edits
  // there and is rejected.
  lemma SplitRejected(o: Op, doc: Text, next: nat)
    requires Normal(o) && o != [] && o[0].Retain?
    requires next + BaseLen(o[1..]) == |doc| && InsidePair(doc, next)
    ensures !CheckFrom(o[1..], doc, next).TextOk?
  {
    assert o[1..] != [];
    assert MayFollow(o[0], o[0 + 1]);
  }

  lemma TailNormal(o: Op)
    requires Normal(o) && o != []
    ensures Normal(o[1..])
  {
    forall k | 0 <= k < |o| - 2 ensures MayFollow(o[1..][k], o[1..][k + 1]) {
      assert MayFollow(o[k + 1], o[k + 1 + 1]);
    }
  }

  // The server accepts an operation's text exactly when it is safe.
  lemma CheckTextIffSafe(o: Op, doc: Text)
    requires Normal(o) && InsertsWellFormed(o) && WellFormed(doc) && |doc| == BaseLen(o)
    ensures CheckText(o, doc).TextOk? <==> Safe(o, doc)
  {
    assert doc[0..] == doc;
    CheckFromSafe(o, doc, 0);
  }

  lemma {:induction false} SafeInserts(o: Op, doc: Text)
    requires Safe(o, doc)
    ensures InsertsWellFormed(o)
  {
    if o != [] {
      SafeInserts(o[1..], if o[0].Insert? then doc else Skip(doc, o[0].n));
      assert forall k :: 1 <= k < |o| ==> o[k] == o[1..][k - 1];
    }
  }

  lemma {:induction false} SafeRun(o: Op, doc: Text)
    requires Safe(o, doc) && |doc| == BaseLen(o)
    ensures WellFormed(doc) && WellFormed(Run(o, doc))
  {
    if o != [] {
      var c := o[0];
      var b := BaseOf(c);
      SafeRun(o[1..], doc[b..]);
      assert doc == doc[..b] + doc[b..];
      WellFormedConcat(doc[..b], doc[b..]);
      match c
      case Retain(n) => WellFormedConcat(doc[..n], Run(o[1..], doc[n..]));
      case Delete(n) =>
      case Insert(s) =>
        assert doc[0..] == doc;
        WellFormedConcat(s, Run(o[1..], doc));
    }
  }

  /******* Builders keep safety *******/

  lemma {:induction false} SafeConcat(x: Op, y: Op, doc: Text)
    requires BaseLen(x) <= |doc|
    ensures Safe(x + y, doc) <==> Safe(x, doc[..BaseLen(x)]) && Safe(y, doc[BaseLen(x)..])
  {
    if x == [] {
      assert x + y == y;
      assert doc[0..] == doc;
    } else {
      assert (x + y)[1..] == x[1..] + y;
      var b := BaseOf(x[0]);
      var tail := doc[b..];
      SafeConcat(x[1..], y, tail);
      assert tail[..BaseLen(x[1..])] == doc[..BaseLen(x)][b..];
      assert tail[BaseLen(x[1..])..] == doc[BaseLen(x)..];
      assert doc[..BaseLen(x)][..b] == doc[..b];
      if x[0].Insert? {
        assert tail == doc;
        assert doc[..BaseLen(x)][0..] == doc[..BaseLen(x)];
      }
    }
  }

  lemma SafeSingle(c: Comp, doc: Text)
    requires |doc| == BaseOf(c)
    ensures Safe([c], doc) <==> if c.Insert? then Clean(c.ins) else WellFormed(doc)
  {
    assert [c][1..] == [];
    assert doc[..|doc|] == doc;
  }

  lemma SafePair(c: Comp, d: Comp, doc: Text)
    requires |doc| == BaseOf(c) + BaseOf(d)
    ensures Safe([c, d], doc) <==> Safe([c], doc[..BaseOf(c)]) && Safe([d], doc[BaseOf(c)..])
  {
    assert [c, d] == [c] + [d];
    LenSingle(c);
    SafeConcat([c], [d], doc);
  }

  // y is safe wherever x is.
  ghost predicate AsSafe(x: Op, y: Op) {
    && BaseLen(x) == BaseLen(y)
    && forall doc: Text :: |doc| == BaseLen(x) && Safe(x, doc) ==> Safe(y, doc)
  }

  lemma AsSafeInContext(pre: Op, x: Op, y: Op, post: Op)
    requires AsSafe(x, y)
    ensures AsSafe(pre + x + post, pre + y + post)
  {
    hide Safe, BaseLen;
    LenConcat(pre, x);
    LenConcat(pre + x, post);
    LenConcat(pre, y);
    LenConcat(pre + y, post);
    forall doc: Text | |doc| == BaseLen(pre + x + post) && Safe(pre + x + post, doc)
      ensures Safe(pre + y + post, doc)
    {
      var m := BaseLen(pre + x);
      SafeConcat(pre + x, post, doc);
      SafeConcat(pre + y, post, doc);
      SafeConcat(pre, x, doc[..m]);
      SafeConcat(pre, y, doc[..m]);
    }
  }

  lemma MergeSafe(c: Comp, d: Comp, m: Op)
    requires Merges(c, d, m)
    ensures AsSafe([c, d], m)
  {
    LenPair(c, d);
    forall doc: Text | |doc| == BaseOf(c) + BaseOf(d) && Safe([c, d], doc)
      ensures Safe(m, doc)
    {
      SafePair(c, d, doc);
      SafeSingle(c, doc[..BaseOf(c)]);
      SafeSingle(d, doc[BaseOf(c)..]);
      if |m| == 1 {
        SafeSingle(m[0], doc);
        assert doc == doc[..BaseOf(c)] + doc[BaseOf(c)..];
        WellFormedConcat(doc[..BaseOf(c)], doc[BaseOf(c)..]);
        if c.Insert? {
          CleanConcat(c.ins, d.ins);
        }
      } else {
        SafePair(d, c, doc);
        assert doc[..BaseOf(c)] == doc == doc[0..];
        SafeSingle(d, doc[..BaseOf(d)]);
        SafeSingle(c, doc[BaseOf(d)..]);
      }
    }
    if |m| == 1 {
      LenSingle(m[0]);
    } else {
      LenPair(d, c);
    }
  }

  lemma MergeLastSafe(o: Op, c: Comp, m: Comp)
    requires |o| > 0 && AsSafe([o[|o| - 1], c], [m])
    ensures AsSafe(o + [c], o[|o| - 1 := m])
  {
    var pre, d := o[..|o| - 1], o[|o| - 1];
    AsSafeInContext(pre, [d, c], [m], []);
    assert pre + [d, c] + [] == o + [c];
    assert pre + [m] + [] == o[|o| - 1 := m];
  }

  lemma SkipEmptySafe(o: Op, c: Comp)
    requires Len(c) == 0
    ensures AsSafe(o + [c], o)
  {
    LenSingle(c);
    LenConcat(o, [c]);
    forall doc: Text | |doc| == BaseLen(o) && Safe(o + [c], doc) ensures Safe(o, doc) {
      SafeConcat(o, [c], doc);
      assert doc[..|doc|] == doc;
    }
  }

  lemma InsertBeforeDeleteSafe(o: Op, c: Comp)
    requires c.Insert? && c.ins != [] && |o| > 0 && o[|o| - 1].Delete?
    ensures AsSafe(o + [c], PushInsert(o, c.ins))
  {
    var last := |o| - 1;
    var pre, d := o[..last], o[last];
    MergeSafe(d, c, [c, d]);
    AsSafeInContext(pre, [d, c], [c, d], []);
    assert pre + [d, c] + [] == o + [c];
    assert pre + [c, d] + [] == pre + [c, d];
    if last >= 1 && o[last - 1].Insert? {
      var head, e := o[..last - 1], o[last - 1];
      var m := Insert(e.ins + c.ins);
      MergeSafe(e, c, [m]);
      AsSafeInContext(head, [e, c], [m], [d]);
      assert head + [e, c] + [d] == pre + [c, d];
      assert head + [m] + [d] == PushInsert(o, c.ins);
    } else {
      assert PushInsert(o, c.ins) == pre + [c, d];
    }
  }

  lemma PushSafe(o: Op, c: Comp)
    ensures AsSafe(o + [c], Push(o, c))
  {
    var last := |o| - 1;
    if Len(c) == 0 {
      SkipEmptySafe(o, c);
    } else if last >= 0 && o[last].Retain? && c.Retain? {
      MergeSafe(o[last], c, [Retain(o[last].n + c.n)]);
      MergeLastSafe(o, c, Retain(o[last].n + c.n));
    } else if last >= 0 && o[last].Delete? && c.Delete? {
      MergeSafe(o[last], c, [Delete(o[last].n + c.n)]);
      MergeLastSafe(o, c, Delete(o[last].n + c.n));
    } else if last >= 0 && o[last].Insert? && c.Insert? {
      MergeSafe(o[last], c, [Insert(o[last].ins + c.ins)]);
      MergeLastSafe(o, c, Insert(o[last].ins + c.ins));
    } else if last >= 0 && o[last].Delete? && c.Insert? {
      InsertBeforeDeleteSafe(o, c);
    }
  }

  lemma {:induction false} PushAllSafe(o: Op, more: Op)
    ensures AsSafe(o + more, PushAll(o, more))
    decreases |more|
  {
    if more == [] {
      assert o + more == o;
    } else {
      var c, rest := more[0], more[1..];
      PushSafe(o, c);
      AsSafeInContext([], o + [c], Push(o, c), rest);
      assert [] + Push(o, c) + rest == Push(o, c) + rest;
      assert [] + (o + [c]) + rest == o + more;
      PushAllSafe(Push(o, c), rest);
    }
  }

  lemma CanonSafe(o: Op, doc: Text)
    requires Safe(o, doc) && |doc| == BaseLen(o)
    ensures Safe(Canon(o), doc)
  {
    PushAllSafe([], o);
    assert [] + o == o;
  }

  /******* Rebasing and composing keep safety *******/

  lemma ConsumeSafe(o: Op, n: nat, doc: Text)
    requires o != [] && n <= Len(o[0]) && |doc| == BaseLen(o) && Safe(o, doc)
    requires o[0].Insert? ==> Clean(o[0].ins[..n])
    requires !o[0].Insert? ==> WellFormed(doc[..n])
    ensures Safe(Consume(o, n), if o[0].Insert? then doc else doc[n..])
  {
    hide WellFormed, Clean;
    if n < Len(o[0]) {
      assert Consume(o, n)[1..] == o[1..];
      if o[0].Insert? {
        assert o[0].ins == o[0].ins[..n] + o[0].ins[n..];
        CleanConcat(o[0].ins[..n], o[0].ins[n..]);
      } else {
        var m := o[0].n;
        CutTwice(doc, n, m);
        WellFormedConcat(doc[..n], doc[n..][..m - n]);
      }
    }
  }

  lemma {:induction false} TransformStepsSafe(a: Op, b: Op, doc: Text)
    requires Positive(a) && Positive(b) && BaseLen(a) == BaseLen(b) == |doc|
    requires Safe(a, doc) && Safe(b, doc)
    ensures Safe(TransformSteps(a, b).0, Run(b, doc)) && Safe(TransformSteps(a, b).1, Run(a, doc))
    decreases |a| + |b|
  {
    var (x, y) := TransformSteps(a, b);
    RunLength(a, doc);
    RunLength(b, doc);
    if a != [] && a[0].Insert? {
      TransformStepsSafe(a[1..], b, doc);
      assert (x[1..], y[1..]) == TransformSteps(a[1..], b);
      var s, out := a[0].ins, Run(a, doc);
      assert out[|s|..] == Run(a[1..], doc) && out[..|s|] == s;
    } else if b != [] && b[0].Insert? {
      TransformStepsSafe(a, b[1..], doc);
      assert (x[1..], y[1..]) == TransformSteps(a, b[1..]);
      var s, out := b[0].ins, Run(b, doc);
      assert out[|s|..] == Run(b[1..], doc) && out[..|s|] == s;
    } else if a == [] || b == [] {
      BothEnd(a, b);
    } else {
      TransformStepsSafeBoth(a, b, doc);
    }
  }

  lemma {:induction false} TransformStepsSafeBoth(a: Op, b: Op, doc: Text)
    requires Positive(a) && Positive(b) && BaseLen(a) == BaseLen(b) == |doc|
    requires Safe(a, doc) && Safe(b, doc)
    requires a != [] && b != [] && !a[0].Insert? && !b[0].Insert?
    ensures Safe(TransformSteps(a, b).0, Run(b, doc)) && Safe(TransformSteps(a, b).1, Run(a, doc))
    decreases |a| + |b|, 0
  {
    hide Run, WellFormed, Safe, BaseLen, TargetLen;
    var n := Min(Len(a[0]), Len(b[0]));
    ConsumePositive(a, n);
    ConsumePositive(b, n);
    ConsumeLengths(a, n);
    ConsumeLengths(b, n);
    var a', b', tail := Consume(a, n), Consume(b, n), doc[n..];
    RunConsume(a, n, doc);
    RunConsume(b, n, doc);
    SafeFirst(if n == Len(a[0]) then a else b, doc);
    ConsumeSafe(a, n, doc);
    ConsumeSafe(b, n, doc);
    TransformStepsSafe(a', b', tail);
    var rest := TransformSteps(a', b');
    if b[0].Retain? {
      SafeFront(if a[0].Retain? then Retain(n) else Delete(n), rest.0, doc[..n], Run(b', tail));
    }
    if a[0].Retain? {
      SafeFront(if b[0].Retain? then Retain(n) else Delete(n), rest.1, doc[..n], Run(a', tail));
    }
  }

  lemma SafeFirst(o: Op, doc: Text)
    requires o != [] && !o[0].Insert? && |doc| == BaseLen(o) && Safe(o, doc)
    ensures WellFormed(doc[..o[0].n])
  {
  }

  lemma SafeFront(c: Comp, rest: Op, front: Text, out: Text)
    requires !c.Insert? && c.n == |front| && WellFormed(front) && Safe(rest, out)
    ensures Safe([c] + rest, front + out)
  {
    assert ([c] + rest)[1..] == rest;
    assert (front + out)[..c.n] == front && (front + out)[c.n..] == out;
  }

  // Rebasing keeps edits in whole characters, on both sides.
  lemma TransformSafe(a: Op, b: Op, doc: Text)
    requires Positive(a) && Positive(b) && BaseLen(a) == BaseLen(b) == |doc|
    requires Safe(a, doc) && Safe(b, doc)
    ensures Safe(Left(a, b), Run(b, doc)) && Safe(Right(a, b), Run(a, doc))
  {
    TransformStepsSafe(a, b, doc);
    TransformLengths(a, b);
    RunLength(a, doc);
    RunLength(b, doc);
    CanonSafe(TransformSteps(a, b).0, Run(b, doc));
    CanonSafe(TransformSteps(a, b).1, Run(a, doc));
  }

  lemma {:induction false} ComposeStepsSafe(a: Op, b: Op, doc: Text)
    requires Positive(a) && Positive(b) && TargetLen(a) == BaseLen(b) && |doc| == BaseLen(a)
    requires Safe(a, doc) && Safe(b, Run(a, doc))
    ensures Safe(ComposeSteps(a, b), doc)
    decreases |a| + |b|
  {
    var r := ComposeSteps(a, b);
    RunLength(a, doc);
    if a != [] && a[0].Delete? {
      ComposeStepsSafe(a[1..], b, doc[a[0].n..]);
      assert r[1..] == ComposeSteps(a[1..], b);
    } else if b != [] && b[0].Insert? {
      ComposeStepsSafe(a, b[1..], doc);
      assert r[1..] == ComposeSteps(a, b[1..]);
    } else if a == [] || b == [] {
      BothDone(a, b);
    } else {
      ComposeStepsSafeBoth(a, b, doc);
    }
  }

  lemma {:induction false} ComposeStepsSafeBoth(a: Op, b: Op, doc: Text)
    requires Positive(a) && Positive(b) && TargetLen(a) == BaseLen(b) && |doc| == BaseLen(a)
    requires Safe(a, doc) && Safe(b, Run(a, doc))
    requires a != [] && b != [] && !a[0].Delete? && !b[0].Insert?
    ensures Safe(ComposeSteps(a, b), doc)
    decreases |a| + |b|, 0
  {
    var n := Min(Len(a[0]), Len(b[0]));
    var a', b' := Consume(a, n), Consume(b, n);
    var out := Run(a, doc);
    var r, rest := ComposeSteps(a, b), ComposeSteps(a', b');
    RunLength(a, doc);
    ConsumePositive(a, n);
    ConsumePositive(b, n);
    ConsumeLengths(a, n);
    ConsumeLengths(b, n);
    RunConsume(a, n, doc);
    var doc' := if a[0].Retain? then doc[n..] else doc;
    assert out[n..] == Run(a', doc');
    if a[0].Insert? {
      var s := a[0].ins;
      assert out[..n] == s[..n];
      if n == |s| {
        assert s[..n] == s;
      }
      assert Clean(s[..n]);
    } else {
      assert out[..n] == doc[..n];
    }
    ConsumeSafe(a, n, doc);
    ConsumeSafe(b, n, out);
    ComposeStepsSafe(a', b', doc');
    assert r == rest || r[1..] == rest;
  }

  // Composing safe edits gives a safe edit.
  lemma ComposeSafe(a: Op, b: Op, doc: Text)
    requires Positive(a) && Positive(b) && TargetLen(a) == BaseLen(b) && |doc| == BaseLen(a)
    requires Safe(a, doc) && Safe(b, Run(a, doc))
    ensures Safe(Composed(a, b), doc)
  {
    ComposeStepsSafe(a, b, doc);
    ComposeLengths(a, b);
    CanonSafe(ComposeSteps(a, b), doc);
  }
}
