// The edit algebra of live documents, as values: what an operation is, what it
// does to a document, and the normal form its builders keep.
module Ops {

  // One UTF-16 code unit. Positions and lengths count units.
  newtype Unit = x: int | 0 <= x < 0x1_0000

  type Text = seq<Unit>

  // One step of a walk over the document.
  datatype Comp = Retain(n: nat) | Delete(n: nat) | Insert(ins: Text)

  type Op = seq<Comp>

  /******* Lengths *******/

  // Units of the old document a component walks over.
  function BaseOf(c: Comp): nat {
    match c
    case Retain(n) => n
    case Delete(n) => n
    case Insert(_) => 0
  }

  // Units of the new document a component produces.
  function TargetOf(c: Comp): nat {
    match c
    case Retain(n) => n
    case Delete(_) => 0
    case Insert(s) => |s|
  }

  function Len(c: Comp): nat {
    match c
    case Retain(n) => n
    case Delete(n) => n
    case Insert(s) => |s|
  }

  function BaseLen(o: Op): nat {
    if o == [] then 0 else BaseOf(o[0]) + BaseLen(o[1..])
  }

  function TargetLen(o: Op): nat {
    if o == [] then 0 else TargetOf(o[0]) + TargetLen(o[1..])
  }

  /******* Meaning *******/

  function Take(doc: Text, n: nat): Text {
    if n <= |doc| then doc[..n] else doc
  }

  function Skip(doc: Text, n: nat): Text {
    if n <= |doc| then doc[n..] else []
  }

  // The document an operation makes out of doc. It means something only when
  // |doc| == BaseLen(o), which is what Apply checks.
  function Run(o: Op, doc: Text): Text {
    if o == [] then []
    else
      match o[0]
      case Retain(n) => Take(doc, n) + Run(o[1..], Skip(doc, n))
      case Delete(n) => Run(o[1..], Skip(doc, n))
      case Insert(s) => s + Run(o[1..], doc)
  }

  predicate IsNoop(o: Op) {
    |o| == 0 || (|o| == 1 && o[0].Retain?)
  }

  /******* Normal form *******/

  predicate Positive(o: Op) {
    forall k :: 0 <= k < |o| ==> Len(o[k]) > 0
  }

  // Neighbours a builder never leaves side by side: two of a kind, or an insert
  // stored after a delete.
  predicate MayFollow(c: Comp, d: Comp) {
    match c
    case Retain(_) => !d.Retain?
    case Delete(_) => d.Retain?
    case Insert(_) => !d.Insert?
  }

  predicate Normal(o: Op) {
    && Positive(o)
    && forall k :: 0 <= k < |o| - 1 ==> MayFollow(o[k], o[k + 1])
  }

  function PushRetain(o: Op, n: nat): Op {
    if n == 0 then o
    else if |o| > 0 && o[|o| - 1].Retain? then o[|o| - 1 := Retain(o[|o| - 1].n + n)]
    else o + [Retain(n)]
  }

  function PushDelete(o: Op, n: nat): Op {
    if n == 0 then o
    else if |o| > 0 && o[|o| - 1].Delete? then o[|o| - 1 := Delete(o[|o| - 1].n + n)]
    else o + [Delete(n)]
  }

  function PushInsert(o: Op, s: Text): Op {
    var last := |o| - 1;
    if s == [] then o
    else if last >= 0 && o[last].Insert? then o[last := Insert(o[last].ins + s)]
    else if last >= 0 && o[last].Delete? then
      if last >= 1 && o[last - 1].Insert? then o[last - 1 := Insert(o[last - 1].ins + s)]
      else o[last := Insert(s)] + [o[last]]
    else o + [Insert(s)]
  }

  function Push(o: Op, c: Comp): Op {
    match c
    case Retain(n) => PushRetain(o, n)
    case Delete(n) => PushDelete(o, n)
    case Insert(s) => PushInsert(o, s)
  }

  function PushAll(o: Op, more: Op): Op
    decreases |more|
  {
    if more == [] then o else PushAll(Push(o, more[0]), more[1..])
  }

  // What the builders make of a list of components.
  function Canon(o: Op): Op {
    PushAll([], o)
  }

  /******* Sequences *******/

  function Copies<T>(n: nat, x: T): seq<T> {
    seq(n, _ => x)
  }

  lemma ConcatAssoc<T>(x: seq<T>, y: seq<T>, z: seq<T>)
    ensures (x + y) + z == x + (y + z)
  {
  }

  lemma SliceAfter<T>(x: seq<T>, y: seq<T>, start: nat, end: nat)
    requires start <= end <= |y|
    ensures (x + y)[|x| + start..|x| + end] == y[start..end]
  {
  }

  lemma DropTwice<T>(s: seq<T>, n: nat, m: nat)
    requires n + m <= |s|
    ensures s[n..][m..] == s[n + m..]
  {
  }

  lemma TakeAcross<T>(x: seq<T>, y: seq<T>, n: nat)
    requires |x| <= n <= |x| + |y|
    ensures (x + y)[..n] == x + y[..n - |x|]
  {
  }

  lemma TakeWithin<T>(x: seq<T>, y: seq<T>, n: nat)
    requires n <= |x|
    ensures (x + y)[..n] == x[..n]
  {
  }

  lemma SliceOfTail<T>(s: seq<T>, n: nat, start: nat, end: nat)
    requires start <= end <= |s| - n
    ensures s[n..][start..end] == s[n + start..n + end]
  {
  }

  // Cutting at two places, in either order.
  lemma CutTwice<T>(s: seq<T>, n: nat, m: nat)
    requires n <= m <= |s|
    ensures s[..m][..n] == s[..n]
    ensures s[..m][n..] == s[n..][..m - n]
    ensures s[n..][m - n..] == s[m..]
    ensures s[..n] + s[n..][..m - n] == s[..m]
  {
  }

  /******* Concatenation *******/

  lemma SliceOfConcat(x: Text, y: Text, start: nat, end: nat)
    requires start <= end <= |x| + |y|
    ensures end <= |x| ==> (x + y)[start..end] == x[start..end]
    ensures |x| <= start ==> (x + y)[start..end] == y[start - |x|..end - |x|]
    ensures start <= |x| <= end ==> (x + y)[start..end] == x[start..] + y[..end - |x|]
  {
  }

  lemma LenFront(c: Comp, rest: Op)
    ensures BaseLen([c] + rest) == BaseOf(c) + BaseLen(rest)
    ensures TargetLen([c] + rest) == TargetOf(c) + TargetLen(rest)
  {
    assert ([c] + rest)[1..] == rest;
  }

  lemma {:induction false} LenConcat(x: Op, y: Op)
    ensures BaseLen(x + y) == BaseLen(x) + BaseLen(y)
    ensures TargetLen(x + y) == TargetLen(x) + TargetLen(y)
  {
    if x == [] {
      assert x + y == y;
    } else {
      assert (x + y)[1..] == x[1..] + y;
      LenConcat(x[1..], y);
    }
  }

  lemma {:induction false} RunConcat(x: Op, y: Op, doc: Text)
    requires BaseLen(x) <= |doc|
    ensures Run(x + y, doc) == Run(x, doc[..BaseLen(x)]) + Run(y, doc[BaseLen(x)..])
    decreases |x|, 1
  {
    if x == [] {
      assert x + y == y;
      assert doc[0..] == doc;
    } else {
      RunConcatStep(x, y, doc);
    }
  }

  lemma {:induction false} RunConcatStep(x: Op, y: Op, doc: Text)
    requires BaseLen(x) <= |doc| && x != []
    ensures Run(x + y, doc) == Run(x, doc[..BaseLen(x)]) + Run(y, doc[BaseLen(x)..])
    decreases |x|, 0
  {
    hide Run;
    var c, rest := x[0], x[1..];
    var b, m := BaseOf(c), BaseLen(x);
    assert x == [c] + rest && x + y == [c] + (rest + y);
    CutTwice(doc, b, m);
    Cons(c, rest + y, doc);
    Cons(c, rest, doc[..m]);
    RunConcat(rest, y, doc[b..]);
    var front := Run(rest, doc[b..][..m - b]);
    if !c.Delete? {
      ConcatAssoc(if c.Retain? then doc[..b] else c.ins, front, Run(y, doc[m..]));
    }
  }

  // An operation produces exactly as many units as it says it does.
  lemma {:induction false} RunLength(o: Op, doc: Text)
    requires |doc| == BaseLen(o)
    ensures |Run(o, doc)| == TargetLen(o)
  {
    if o != [] {
      RunLength(o[1..], Skip(doc, BaseOf(o[0])));
    }
  }

  /******* Builders keep meaning and normal form *******/

  lemma RunSingle(c: Comp, doc: Text)
    requires |doc| == BaseOf(c)
    ensures Run([c], doc) == if c.Retain? then doc else if c.Insert? then c.ins else []
  {
    assert [c][1..] == [];
  }

  lemma LenSingle(c: Comp)
    ensures BaseLen([c]) == BaseOf(c) && TargetLen([c]) == TargetOf(c)
  {
    assert [c][1..] == [];
  }

  // A slice of doc in terms of the parts before and after n.
  lemma SliceAround(doc: Text, n: nat, start: nat, end: nat)
    requires start <= end <= |doc| && n <= |doc|
    ensures end <= n ==> doc[..n][start..end] == doc[start..end]
    ensures n <= start ==> doc[n..][start - n..end - n] == doc[start..end]
    ensures start <= n <= end ==> doc[..n][start..] + doc[n..][..end - n] == doc[start..end]
  {
  }

  lemma TakeInTwo(doc: Text, n: nat, m: nat, more: Text)
    requires n <= m <= |doc|
    ensures doc[n..][m - n..] == doc[m..]
    ensures doc[..n] + (doc[n..][..m - n] + more) == doc[..m] + more
  {
    CutTwice(doc, n, m);
    ConcatAssoc(doc[..n], doc[n..][..m - n], more);
  }

  lemma Cons(c: Comp, rest: Op, doc: Text)
    requires BaseOf(c) <= |doc|
    ensures BaseLen([c] + rest) == BaseOf(c) + BaseLen(rest)
    ensures TargetLen([c] + rest) == TargetOf(c) + TargetLen(rest)
    ensures c.Retain? ==> Run([c] + rest, doc) == doc[..c.n] + Run(rest, doc[c.n..])
    ensures c.Delete? ==> Run([c] + rest, doc) == Run(rest, doc[c.n..])
    ensures c.Insert? ==> Run([c] + rest, doc) == c.ins + Run(rest, doc)
  {
    assert ([c] + rest)[1..] == rest;
  }

  lemma LenPair(c: Comp, d: Comp)
    ensures BaseLen([c, d]) == BaseOf(c) + BaseOf(d) && TargetLen([c, d]) == TargetOf(c) + TargetOf(d)
  {
    assert [c, d] == [c] + [d];
    LenConcat([c], [d]);
    LenSingle(c);
    LenSingle(d);
  }

  lemma RunPair(c: Comp, d: Comp, doc: Text)
    requires |doc| == BaseOf(c) + BaseOf(d)
    ensures Run([c, d], doc) == Run([c], doc[..BaseOf(c)]) + Run([d], doc[BaseOf(c)..])
  {
    assert [c, d] == [c] + [d];
    RunConcat([c], [d], doc);
    LenSingle(c);
  }

  // Two lists of components that say the same thing.
  ghost predicate SameMeaning(x: Op, y: Op) {
    && BaseLen(x) == BaseLen(y)
    && TargetLen(x) == TargetLen(y)
    && forall doc: Text :: |doc| == BaseLen(x) ==> Run(x, doc) == Run(y, doc)
  }

  lemma SameMeaningInContext(pre: Op, x: Op, y: Op, post: Op)
    requires SameMeaning(x, y)
    ensures SameMeaning(pre + x + post, pre + y + post)
  {
    hide Run, BaseLen, TargetLen;
    LenConcat(pre, x);
    LenConcat(pre + x, post);
    LenConcat(pre, y);
    LenConcat(pre + y, post);
    forall doc: Text | |doc| == BaseLen(pre + x + post)
      ensures Run(pre + x + post, doc) == Run(pre + y + post, doc)
    {
      var m := BaseLen(pre + x);
      RunConcat(pre + x, post, doc);
      RunConcat(pre + y, post, doc);
      RunConcat(pre, x, doc[..m]);
      RunConcat(pre, y, doc[..m]);
      assert Run(x, doc[..m][BaseLen(pre)..]) == Run(y, doc[..m][BaseLen(pre)..]);
    }
  }

  // What the builders make of neighbours c and d: they merge two of one kind, and
  // store an insert before a delete.
  predicate Merges(c: Comp, d: Comp, m: Op) {
    || (c.Retain? && d.Retain? && m == [Retain(c.n + d.n)])
    || (c.Delete? && d.Delete? && m == [Delete(c.n + d.n)])
    || (c.Insert? && d.Insert? && m == [Insert(c.ins + d.ins)])
    || (c.Delete? && d.Insert? && m == [d, c])
  }

  lemma MergeMeaning(c: Comp, d: Comp, m: Op)
    requires Merges(c, d, m)
    ensures SameMeaning([c, d], m)
  {
    LenPair(c, d);
    forall doc: Text | |doc| == BaseOf(c) + BaseOf(d)
      ensures Run([c, d], doc) == Run(m, doc)
    {
      RunPair(c, d, doc);
      RunSingle(c, doc[..BaseOf(c)]);
      RunSingle(d, doc[BaseOf(c)..]);
      if |m| == 1 {
        RunSingle(m[0], doc);
      } else {
        RunPair(d, c, doc);
        RunSingle(d, doc[..BaseOf(d)]);
        RunSingle(c, doc[BaseOf(d)..]);
      }
    }
    if |m| == 1 {
      LenSingle(m[0]);
    } else {
      LenPair(d, c);
    }
  }

  // Replacing the last two components by m is sound when m says the same.
  lemma ReplaceTail(pre: Op, c: Comp, d: Comp, m: Op, post: Op)
    requires SameMeaning([c, d], m)
    ensures SameMeaning(pre + m + post, pre + [c] + [d] + post)
  {
    assert pre + [c, d] == pre + [c] + [d];
    SameMeaningInContext(pre, [c, d], m, post);
  }

  lemma MergeLast(o: Op, c: Comp, m: Comp)
    requires |o| > 0 && SameMeaning([o[|o| - 1], c], [m])
    ensures SameMeaning(o[|o| - 1 := m], o + [c])
  {
    var pre, d := o[..|o| - 1], o[|o| - 1];
    ReplaceTail(pre, d, c, [m], []);
    assert pre + [m] + [] == o[|o| - 1 := m];
    assert pre + [d] + [c] + [] == o + [c];
  }

  lemma SkipEmpty(o: Op, c: Comp)
    requires Len(c) == 0
    ensures SameMeaning(o, o + [c])
  {
    LenSingle(c);
    LenConcat(o, [c]);
    forall doc: Text | |doc| == BaseLen(o) ensures Run(o + [c], doc) == Run(o, doc) {
      RunConcat(o, [c], doc);
      assert doc[..|doc|] == doc;
      RunSingle(c, []);
    }
  }

  lemma SameMeaningTransitive(x: Op, y: Op, z: Op)
    requires SameMeaning(x, y) && SameMeaning(y, z)
    ensures SameMeaning(x, z)
  {
  }

  lemma SwapDeleteInsert(pre: Op, d: Comp, c: Comp)
    requires d.Delete? && c.Insert?
    ensures SameMeaning(pre + [c, d], pre + [d] + [c])
  {
    MergeMeaning(d, c, [c, d]);
    ReplaceTail(pre, d, c, [c, d], []);
    assert pre + [d] + [c] + [] == pre + [d] + [c];
    assert pre + [c, d] + [] == pre + [c, d];
  }

  lemma MergeInserts(head: Op, e: Comp, c: Comp, d: Comp)
    requires e.Insert? && c.Insert?
    ensures SameMeaning(head + [Insert(e.ins + c.ins)] + [d], head + [e] + [c, d])
  {
    MergeMeaning(e, c, [Insert(e.ins + c.ins)]);
    ReplaceTail(head, e, c, [Insert(e.ins + c.ins)], [d]);
    assert head + [e] + [c] + [d] == head + [e] + [c, d];
  }

  lemma InsertBeforeDelete(o: Op, c: Comp)
    requires c.Insert? && c.ins != [] && |o| > 0 && o[|o| - 1].Delete?
    ensures SameMeaning(PushInsert(o, c.ins), o + [c])
  {
    hide SameMeaning;
    var last := |o| - 1;
    var pre, d := o[..last], o[last];
    SwapDeleteInsert(pre, d, c);
    assert pre + [d] == o;
    if last >= 1 && o[last - 1].Insert? {
      var head, e := o[..last - 1], o[last - 1];
      MergeInserts(head, e, c, d);
      assert head + [e] == pre;
      assert head + [Insert(e.ins + c.ins)] + [d] == PushInsert(o, c.ins);
      SameMeaningTransitive(PushInsert(o, c.ins), pre + [c, d], o + [c]);
    } else {
      assert PushInsert(o, c.ins) == pre + [c, d];
    }
  }

  lemma PushMeaning(o: Op, c: Comp)
    ensures SameMeaning(Push(o, c), o + [c])
  {
    var last := |o| - 1;
    if Len(c) == 0 {
      SkipEmpty(o, c);
    } else if last >= 0 && o[last].Retain? && c.Retain? {
      MergeMeaning(o[last], c, [Retain(o[last].n + c.n)]);
      MergeLast(o, c, Retain(o[last].n + c.n));
    } else if last >= 0 && o[last].Delete? && c.Delete? {
      MergeMeaning(o[last], c, [Delete(o[last].n + c.n)]);
      MergeLast(o, c, Delete(o[last].n + c.n));
    } else if last >= 0 && o[last].Insert? && c.Insert? {
      MergeMeaning(o[last], c, [Insert(o[last].ins + c.ins)]);
      MergeLast(o, c, Insert(o[last].ins + c.ins));
    } else if last >= 0 && o[last].Delete? && c.Insert? {
      InsertBeforeDelete(o, c);
    }
  }

  lemma {:induction false} PushAllMeaning(o: Op, more: Op)
    ensures SameMeaning(PushAll(o, more), o + more)
    decreases |more|
  {
    if more == [] {
      assert o + more == o;
    } else {
      var c, rest := more[0], more[1..];
      PushMeaning(o, c);
      SameMeaningInContext([], Push(o, c), o + [c], rest);
      assert [] + Push(o, c) + rest == Push(o, c) + rest;
      assert [] + (o + [c]) + rest == o + more;
      PushAllMeaning(Push(o, c), rest);
    }
  }

  lemma PushNormal(o: Op, c: Comp)
    requires Normal(o)
    ensures Normal(Push(o, c))
  {
    match c
    case Insert(s) => PushInsertNormal(o, s);
    case _ =>
  }

  lemma PushInsertNormal(o: Op, s: Text)
    requires Normal(o)
    ensures Normal(PushInsert(o, s))
  {
  }

  lemma {:induction false} PushAllNormal(o: Op, more: Op)
    requires Normal(o)
    ensures Normal(PushAll(o, more))
    decreases |more|
  {
    if more != [] {
      PushNormal(o, more[0]);
      PushAllNormal(Push(o, more[0]), more[1..]);
    }
  }

  // Building from any components gives a normal operation with their meaning.
  lemma CanonSound(o: Op)
    ensures Normal(Canon(o)) && SameMeaning(Canon(o), o)
  {
    PushAllNormal([], o);
    PushAllMeaning([], o);
    assert [] + o == o;
  }

  lemma {:induction false} PushAllIdentity(o: Op, more: Op)
    requires Normal(o + more)
    ensures PushAll(o, more) == o + more
    decreases |more|
  {
    if more == [] {
      assert o + more == o;
    } else {
      var whole := o + more;
      assert whole[|o|] == more[0] && Len(more[0]) > 0;
      if |o| > 0 {
        assert whole[|o| - 1] == o[|o| - 1];
        assert MayFollow(whole[|o| - 1], whole[|o| - 1 + 1]);
      }
      assert Push(o, more[0]) == o + [more[0]];
      assert (o + [more[0]]) + more[1..] == whole;
      PushAllIdentity(o + [more[0]], more[1..]);
    }
  }

  // Reading a normal operation back from its components, as the wire format
  // does, gives the same operation.
  lemma CanonFixpoint(o: Op)
    requires Normal(o)
    ensures Canon(o) == o
  {
    assert [] + o == o;
    PushAllIdentity([], o);
  }
}
