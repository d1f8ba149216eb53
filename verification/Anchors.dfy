// Positions and ranges carried through operations, and authorship carried with
// the text.
module Anchors {
  import opened Ops
  import opened Characters

  /******* Positions *******/

  // Where position p of the base document ends up. after decides between the
  // two sides of text inserted exactly at p.
  function MapPos(o: Op, p: nat, after: bool): nat {
    if o == [] then p
    else
      match o[0]
      case Retain(n) => if p < n then p else n + MapPos(o[1..], p - n, after)
      case Insert(s) => MapPos(o[1..], p, after) + if p > 0 || after then |s| else 0
      case Delete(n) => if p < n then 0 else MapPos(o[1..], p - n, after)
  }

  lemma {:induction false} MapPosZero(o: Op)
    requires Positive(o)
    ensures MapPos(o, 0, false) == 0
  {
    if o != [] && o[0].Insert? {
      MapPosZero(o[1..]);
    }
  }

  lemma {:induction false} MapPosInBounds(o: Op, p: nat, after: bool)
    requires p <= BaseLen(o)
    ensures MapPos(o, p, after) <= TargetLen(o)
  {
    if o != [] {
      match o[0]
      case Retain(n) => if p >= n { MapPosInBounds(o[1..], p - n, after); }
      case Insert(s) => MapPosInBounds(o[1..], p, after);
      case Delete(n) => if p >= n { MapPosInBounds(o[1..], p - n, after); }
    }
  }

  // Order is kept, whatever side each position takes, unless both are one
  // position and the first goes after what the second stays in front of.
  lemma {:induction false} MapPosMonotone(o: Op, p: nat, q: nat, afterP: bool, afterQ: bool)
    requires Positive(o) && p <= q && (p == q ==> !afterP || afterQ)
    ensures MapPos(o, p, afterP) <= MapPos(o, q, afterQ)
  {
    if o != [] {
      var rest := o[1..];
      assert Positive(rest);
      if o[0].Insert? {
        MapPosMonotone(rest, p, q, afterP, afterQ);
      } else if p >= o[0].n {
        MapPosMonotone(rest, p - o[0].n, q - o[0].n, afterP, afterQ);
      }
    }
  }

  // A prefix of x + y that reaches past x stands on its own when its part in y
  // does.
  lemma PrefixWellFormed(x: Text, y: Text, q: nat)
    requires WellFormed(x) && |x| <= q <= |x| + |y|
    ensures WellFormed((x + y)[..q]) <==> WellFormed(y[..q - |x|])
  {
    SliceOfConcat(x, y, 0, q);
    WellFormedConcat(x, y[..q - |x|]);
  }

  // A position between characters stays between characters.
  lemma {:induction false} MapPosKeepsBoundary(o: Op, doc: Text, p: nat, after: bool)
    requires Positive(o) && Safe(o, doc) && |doc| == BaseLen(o) && p <= |doc|
    requires WellFormed(doc[..p])
    ensures MapPos(o, p, after) <= |Run(o, doc)|
    ensures WellFormed(Run(o, doc)[..MapPos(o, p, after)])
    decreases |o|, 1
  {
    hide WellFormed;
    RunLength(o, doc);
    MapPosInBounds(o, p, after);
    EmptyWellFormed(Run(o, doc));
    if o == [] {
    } else if o[0].Insert? {
      if p == 0 && !after {
        MapPosZero(o[1..]);
      } else {
        MapPosKeepsBoundary(o[1..], doc, p, after);
        PrefixWellFormed(o[0].ins, Run(o[1..], doc), MapPos(o, p, after));
      }
    } else if p < o[0].n {
      PrefixInsideFirst(o, doc, p);
    } else {
      BoundaryPastFirst(o, doc, p, after);
    }
  }

  lemma {:induction false} BoundaryPastFirst(o: Op, doc: Text, p: nat, after: bool)
    requires Positive(o) && Safe(o, doc) && |doc| == BaseLen(o) && p <= |doc|
    requires WellFormed(doc[..p]) && o != [] && !o[0].Insert? && o[0].n <= p
    ensures MapPos(o, p, after) <= |Run(o, doc)|
    ensures WellFormed(Run(o, doc)[..MapPos(o, p, after)])
    decreases |o|, 0
  {
    hide WellFormed, TargetLen;
    PrefixPastFirst(o[0].n, doc, p);
    MapPosKeepsBoundary(o[1..], doc[o[0].n..], p - o[0].n, after);
    if o[0].Retain? {
      PrefixWellFormed(doc[..o[0].n], Run(o[1..], doc[o[0].n..]), MapPos(o, p, after));
    }
  }

  lemma EmptyWellFormed(t: Text)
    ensures WellFormed(t[..0])
  {
  }

  lemma PrefixInsideFirst(o: Op, doc: Text, p: nat)
    requires o != [] && !o[0].Insert? && p < o[0].n <= |doc|
    ensures o[0].Retain? ==> p <= |Run(o, doc)| && Run(o, doc)[..p] == doc[..p]
  {
  }

  lemma PrefixPastFirst(n: nat, doc: Text, p: nat)
    requires n <= p <= |doc| && WellFormed(doc[..n]) && WellFormed(doc[..p])
    ensures WellFormed(doc[n..][..p - n])
  {
    assert doc == doc[..n] + doc[n..];
    PrefixWellFormed(doc[..n], doc[n..], p);
  }

  /******* Ranges *******/

  // Whether the operation edits inside [start, end), measured from o's start.
  // For an empty range that means one delete reaching across it.
  predicate Touched(o: Op, start: int, end: int) {
    if o == [] then false
    else
      match o[0]
      case Retain(n) => Touched(o[1..], start - n, end - n)
      case Insert(_) => (start < 0 < end) || Touched(o[1..], start, end)
      case Delete(n) =>
        || (if start == end then 0 < start < n else 0 < end && start < n)
        || Touched(o[1..], start - n, end - n)
  }

  datatype Range = Range(start: nat, end: nat, touched: bool)

  // Untouched ranges move tightly; touched ones take in text at their edges.
  function MapRange(o: Op, start: nat, end: nat): Range {
    if Touched(o, start, end) then Range(MapPos(o, start, false), MapPos(o, end, true), true)
    else
      var s, e := MapPos(o, start, true), MapPos(o, end, false);
      Range(s, if e < s then s else e, false)
  }

  // The part of an untouched range that starts at or before o's start.
  lemma {:induction false} UntouchedPrefix(o: Op, doc: Text, start: int, end: nat)
    requires Positive(o) && |doc| == BaseLen(o)
    requires start < 0 < end <= |doc| && !Touched(o, start, end)
    ensures MapPos(o, end, false) == end <= |Run(o, doc)|
    ensures Run(o, doc)[..end] == doc[..end]
  {
    assert o[0].Retain?;
    FirstRetain(o, doc, start, end);
    hide Run, BaseLen, Touched;
    var n, rest := o[0].n, o[1..];
    assert Positive(rest);
    var tail := doc[n..];
    if n < end {
      UntouchedPrefix(rest, tail, start - n, end - n);
      CutTwice(doc, n, end);
      TakeAcross(doc[..n], Run(rest, tail), end);
    } else {
      if n == end {
        MapPosZero(rest);
      }
      CutTwice(doc, end, n);
      TakeWithin(doc[..n], Run(rest, tail), end);
    }
  }

  // Between its moved ends, a range nobody edited has its old text and no more.
  lemma {:induction false} UntouchedKeepsText(o: Op, doc: Text, start: nat, end: nat)
    requires Positive(o) && |doc| == BaseLen(o)
    requires start < end <= |doc| && !Touched(o, start, end)
    ensures MapPos(o, start, true) <= MapPos(o, end, false) <= |Run(o, doc)|
    ensures Run(o, doc)[MapPos(o, start, true)..MapPos(o, end, false)] == doc[start..end]
    decreases |o|, 1
  {
    if o[0].Insert? {
      UntouchedKeepsText(o[1..], doc, start, end);
      SliceOfConcat(o[0].ins, Run(o[1..], doc), MapPos(o, start, true), MapPos(o, end, false));
    } else if o[0].n <= start {
      UntouchedPastFirst(o, doc, start, end);
    } else {
      UntouchedFromRetain(o, doc, start, end);
    }
  }

  // One component that ends at or before the range.
  lemma PastFirst(o: Op, doc: Text, start: nat, end: nat)
    requires o != [] && !o[0].Insert? && o[0].n <= start <= end && o[0].n <= |doc|
    ensures var n := o[0].n;
      && Run(o, doc) == (if o[0].Retain? then doc[..n] else []) + Run(o[1..], doc[n..])
      && MapPos(o, start, true) == (if o[0].Retain? then n else 0) + MapPos(o[1..], start - n, true)
      && MapPos(o, end, false) == (if o[0].Retain? then n else 0) + MapPos(o[1..], end - n, false)
      && (Touched(o[1..], start - n, end - n) ==> Touched(o, start, end))
      && BaseLen(o) == n + BaseLen(o[1..])
  {
  }

  // The range starts after what the first component walks over.
  lemma {:induction false} UntouchedPastFirst(o: Op, doc: Text, start: nat, end: nat)
    requires Positive(o) && |doc| == BaseLen(o) && o != [] && !o[0].Insert?
    requires o[0].n <= start < end <= |doc| && !Touched(o, start, end)
    ensures MapPos(o, start, true) <= MapPos(o, end, false) <= |Run(o, doc)|
    ensures Run(o, doc)[MapPos(o, start, true)..MapPos(o, end, false)] == doc[start..end]
    decreases |o|, 0
  {
    hide Run, MapPos, Touched, BaseLen;
    PastFirst(o, doc, start, end);
    var n, tail := o[0].n, doc[o[0].n..];
    UntouchedKeepsText(o[1..], tail, start - n, end - n);
    SliceOfTail(doc, n, start - n, end - n);
    var s, e := MapPos(o[1..], start - n, true), MapPos(o[1..], end - n, false);
    SliceAfter(if o[0].Retain? then doc[..n] else [], Run(o[1..], tail), s, e);
  }

  // The range starts inside the text a first retain keeps.
  lemma UntouchedFromRetain(o: Op, doc: Text, start: nat, end: nat)
    requires Positive(o) && |doc| == BaseLen(o) && o != [] && o[0].Retain?
    requires start < end <= |doc| && start < o[0].n && !Touched(o, start, end)
    ensures MapPos(o, start, true) <= MapPos(o, end, false) <= |Run(o, doc)|
    ensures Run(o, doc)[MapPos(o, start, true)..MapPos(o, end, false)] == doc[start..end]
  {
    hide Run, BaseLen, Touched;
    FirstRetain(o, doc, start, end);
    var n, tail := o[0].n, doc[o[0].n..];
    if n < end {
      UntouchedPrefix(o[1..], tail, start - n, end - n);
    } else if n == end {
      MapPosZero(o[1..]);
    }
    SliceOfConcat(doc[..n], Run(o[1..], tail), start, end);
    SliceAround(doc, n, start, end);
  }

  lemma FirstRetain(o: Op, doc: Text, start: int, end: int)
    requires |doc| == BaseLen(o) && o != [] && o[0].Retain? && !Touched(o, start, end)
    ensures var n, rest := o[0].n, o[1..];
      && Run(o, doc) == doc[..n] + Run(rest, doc[n..])
      && |doc| - n == BaseLen(rest) && !Touched(rest, start - n, end - n)
  {
  }

  // What MapRange promises its callers: the new range lies inside the new
  // document, and an untouched one holds what it held.
  lemma MapRangeSound(o: Op, doc: Text, start: nat, end: nat)
    requires Positive(o) && |doc| == BaseLen(o) && start <= end <= |doc|
    ensures var r := MapRange(o, start, end);
      && r.start <= r.end <= |Run(o, doc)|
      && (!r.touched ==> Run(o, doc)[r.start..r.end] == doc[start..end])
  {
    RunLength(o, doc);
    MapPosInBounds(o, start, true);
    MapPosInBounds(o, start, false);
    MapPosInBounds(o, end, true);
    MapPosInBounds(o, end, false);
    MapPosMonotone(o, start, end, false, true);
    if start == end {
      MapPosMonotone(o, start, end, false, true);
    } else if !Touched(o, start, end) {
      UntouchedKeepsText(o, doc, start, end);
    }
    var r := MapRange(o, start, end);
    if start == end && !r.touched {
      MapPosMonotone(o, end, start, false, true);
      assert Run(o, doc)[r.start..r.end] == [] == doc[start..end];
    }
  }

  // Both ends of a moved range stay between characters.
  lemma MapRangeKeepsBoundary(o: Op, doc: Text, start: nat, end: nat)
    requires Positive(o) && Safe(o, doc) && |doc| == BaseLen(o) && start <= end <= |doc|
    requires WellFormed(doc[..start]) && WellFormed(doc[..end])
    ensures var r := MapRange(o, start, end);
      && r.start <= r.end <= |Run(o, doc)|
      && WellFormed(Run(o, doc)[..r.start]) && WellFormed(Run(o, doc)[..r.end])
  {
    MapRangeSound(o, doc, start, end);
    var touched := Touched(o, start, end);
    MapPosKeepsBoundary(o, doc, start, !touched);
    MapPosKeepsBoundary(o, doc, end, touched);
  }

  // The operation an accepted suggestion becomes.
  function ReplaceOp(length: nat, start: nat, end: nat, text: Text): Op
    requires start <= end <= length
  {
    PushRetain(PushDelete(PushInsert(PushRetain([], start), text), end - start), length - end)
  }

  // The same components before the builders see them.
  function ReplaceSteps(length: nat, start: nat, end: nat, text: Text): Op
    requires start <= end <= length
  {
    [Retain(start)] + ([Insert(text)] + [Delete(end - start), Retain(length - end)])
  }

  // It replaces exactly its range, whatever the range and text.
  lemma ReplaceOpSound(doc: Text, start: nat, end: nat, text: Text)
    requires start <= end <= |doc|
    ensures var o := ReplaceOp(|doc|, start, end, text);
      && Normal(o) && BaseLen(o) == |doc| && TargetLen(o) == |doc| - (end - start) + |text|
      && Run(o, doc) == doc[..start] + text + doc[end..]
  {
    ReplaceOpIsCanon(|doc|, start, end, text);
    CanonSound(ReplaceSteps(|doc|, start, end, text));
    ReplaceStepsRun(doc, start, end, text);
  }

  lemma ReplaceOpIsCanon(length: nat, start: nat, end: nat, text: Text)
    requires start <= end <= length
    ensures ReplaceOp(length, start, end, text) == Canon(ReplaceSteps(length, start, end, text))
  {
    var steps := ReplaceSteps(length, start, end, text);
    assert steps[1..] == [Insert(text), Delete(end - start), Retain(length - end)];
    assert steps[1..][1..] == [Delete(end - start), Retain(length - end)];
    assert steps[1..][1..][1..] == [Retain(length - end)];
    assert steps[1..][1..][1..][1..] == [];
    var o1 := PushRetain([], start);
    var o2 := PushInsert(o1, text);
    var o3 := PushDelete(o2, end - start);
    assert PushAll(o3, [Retain(length - end)]) == PushRetain(o3, length - end);
    assert PushAll(o2, steps[1..][1..]) == PushRetain(o3, length - end);
    assert PushAll(o1, steps[1..]) == PushRetain(o3, length - end);
  }

  lemma ReplaceStepsRun(doc: Text, start: nat, end: nat, text: Text)
    requires start <= end <= |doc|
    ensures var steps := ReplaceSteps(|doc|, start, end, text);
      && BaseLen(steps) == |doc| && TargetLen(steps) == |doc| - (end - start) + |text|
      && Run(steps, doc) == doc[..start] + text + doc[end..]
  {
    var dk := [Delete(end - start), Retain(|doc| - end)];
    LenPair(Delete(end - start), Retain(|doc| - end));
    RunCutAndKeep(doc[start..], end - start);
    assert doc[start..][end - start..] == doc[end..];
    ConsRetainInsert(doc, start, text, dk);
  }

  lemma ConsRetainInsert(doc: Text, start: nat, text: Text, rest: Op)
    requires start <= |doc|
    ensures var o := [Retain(start)] + ([Insert(text)] + rest);
      && BaseLen(o) == start + BaseLen(rest) && TargetLen(o) == start + |text| + TargetLen(rest)
      && Run(o, doc) == doc[..start] + text + Run(rest, doc[start..])
  {
    Cons(Insert(text), rest, doc[start..]);
    Cons(Retain(start), [Insert(text)] + rest, doc);
  }

  lemma RunCutAndKeep(doc: Text, n: nat)
    requires n <= |doc|
    ensures Run([Delete(n), Retain(|doc| - n)], doc) == doc[n..]
  {
    var d, k := Delete(n), Retain(|doc| - n);
    RunPair(d, k, doc);
    RunSingle(d, doc[..n]);
    RunSingle(k, doc[n..]);
  }

  lemma ReplaceStepsSafe(doc: Text, start: nat, end: nat, text: Text)
    requires start <= end <= |doc| && WellFormed(doc) && Clean(text)
    requires WellFormed(doc[..start]) && WellFormed(doc[..end])
    ensures Safe(ReplaceSteps(|doc|, start, end, text), doc)
  {
    hide Safe, WellFormed;
    var r, i, d, k := Retain(start), Insert(text), Delete(end - start), Retain(|doc| - end);
    var tail, dk := doc[start..], [d, k];
    assert doc == doc[..start] + tail;
    PrefixWellFormed(doc[..start], tail, end);
    SafeCutAndKeep(doc, start, end);
    SafeCons(i, dk, tail);
    SafeCons(r, [i] + dk, doc);
  }

  lemma SafeCons(c: Comp, rest: Op, doc: Text)
    requires BaseOf(c) <= |doc|
    ensures !c.Insert? ==> (Safe([c] + rest, doc) <==> WellFormed(doc[..c.n]) && Safe(rest, doc[c.n..]))
    ensures c.Insert? ==> (Safe([c] + rest, doc) <==> Clean(c.ins) && Safe(rest, doc))
  {
    assert ([c] + rest)[1..] == rest;
  }

  lemma SafeCutAndKeep(doc: Text, start: nat, end: nat)
    requires start <= end <= |doc| && WellFormed(doc)
    requires WellFormed(doc[..end]) && WellFormed(doc[start..][..end - start])
    ensures Safe([Delete(end - start), Retain(|doc| - end)], doc[start..])
  {
    var tail := doc[start..];
    SafePair(Delete(end - start), Retain(|doc| - end), tail);
    SafeSingle(Delete(end - start), tail[..end - start]);
    SafeSingle(Retain(|doc| - end), tail[end - start..]);
    assert tail[end - start..] == doc[end..];
    assert doc == doc[..end] + doc[end..];
    WellFormedConcat(doc[..end], doc[end..]);
  }

  // Replacing whole characters by clean text is safe.
  lemma ReplaceOpSafe(doc: Text, start: nat, end: nat, text: Text)
    requires start <= end <= |doc| && WellFormed(doc) && Clean(text)
    requires WellFormed(doc[..start]) && WellFormed(doc[..end])
    ensures Safe(ReplaceOp(|doc|, start, end, text), doc)
  {
    ReplaceOpIsCanon(|doc|, start, end, text);
    ReplaceStepsRun(doc, start, end, text);
    ReplaceStepsSafe(doc, start, end, text);
    CanonSafe(ReplaceSteps(|doc|, start, end, text), doc);
  }

  /******* Authorship *******/

  type AuthorId = nat

  // Authorship of every unit after the operation.
  function RunAuthors(o: Op, attr: seq<AuthorId>, author: AuthorId): seq<AuthorId> {
    if o == [] then []
    else
      match o[0]
      case Retain(n) =>
        (if n <= |attr| then attr[..n] + RunAuthors(o[1..], attr[n..], author)
         else attr + RunAuthors(o[1..], [], author))
      case Insert(s) => Copies(|s|, author) + RunAuthors(o[1..], attr, author)
      case Delete(n) => RunAuthors(o[1..], if n <= |attr| then attr[n..] else [], author)
  }
}
