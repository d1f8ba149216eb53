// From a browser's before and after texts to the operation between them.
module Diff {
  import opened Results
  import opened Ops
  import opened Characters
  import opened Anchors
  import opened OperationCode

  // The first prefix and the last suffix units are kept.
  ghost predicate Kept(before: Text, after: Text, prefix: int, suffix: int) {
    && 0 <= prefix && 0 <= suffix
    && prefix + suffix <= |before| && prefix + suffix <= |after|
    && before[..prefix] == after[..prefix]
    && before[|before| - suffix..] == after[|after| - suffix..]
  }

  lemma GrowPrefix(before: Text, after: Text, prefix: nat)
    requires Kept(before, after, prefix, 0) && prefix < |before| && prefix < |after|
    requires before[prefix] == after[prefix]
    ensures Kept(before, after, prefix + 1, 0)
  {
    assert before[..prefix + 1] == before[..prefix] + [before[prefix]];
    assert after[..prefix + 1] == after[..prefix] + [after[prefix]];
  }

  lemma GrowSuffix(before: Text, after: Text, prefix: nat, suffix: nat)
    requires Kept(before, after, prefix, suffix)
    requires prefix + suffix < |before| && prefix + suffix < |after|
    requires before[|before| - 1 - suffix] == after[|after| - 1 - suffix]
    ensures Kept(before, after, prefix, suffix + 1)
  {
    var b, a := |before| - suffix, |after| - suffix;
    assert before[b - 1..] == [before[b - 1]] + before[b..];
    assert after[a - 1..] == [after[a - 1]] + after[a..];
  }

  // Kept stretches may shrink by a unit on either side.
  lemma Shrink(before: Text, after: Text, prefix: nat, suffix: nat, p: nat, s: nat)
    requires Kept(before, after, prefix, suffix) && p <= prefix && s <= suffix
    ensures Kept(before, after, p, s)
  {
    assert before[..p] == before[..prefix][..p] && after[..p] == after[..prefix][..p];
    assert before[|before| - s..] == before[|before| - suffix..][suffix - s..];
    assert after[|after| - s..] == after[|after| - suffix..][suffix - s..];
  }

  // An insertion among equal characters may slide left by one.
  lemma Slide(before: Text, after: Text, prefix: nat, suffix: nat)
    requires Kept(before, after, prefix, suffix) && prefix + suffix == |before| && prefix > 0
    requires after[prefix - 1] == after[prefix - 1 + (|after| - |before|)]
    ensures Kept(before, after, prefix - 1, suffix + 1)
  {
    Shrink(before, after, prefix, suffix, prefix - 1, suffix);
    assert before[prefix - 1] == before[..prefix][prefix - 1] == after[..prefix][prefix - 1];
    GrowSuffix(before, after, prefix - 1, suffix);
  }

  // A place in both texts with the same unit in front of it.
  lemma SamePrefixEnd(before: Text, after: Text, prefix: nat, suffix: nat)
    requires Kept(before, after, prefix, suffix)
    ensures prefix > 0 ==> before[prefix - 1] == after[prefix - 1]
    ensures suffix > 0 ==> before[|before| - suffix] == after[|after| - suffix]
  {
    if prefix > 0 {
      assert before[prefix - 1] == before[..prefix][prefix - 1] == after[..prefix][prefix - 1] == after[prefix - 1];
    }
    if suffix > 0 {
      assert before[|before| - suffix] == before[|before| - suffix..][0];
      assert after[|after| - suffix] == after[|after| - suffix..][0];
    }
  }

  // What lies between two places that split no pair stands on its own.
  lemma CleanBetween(after: Text, p: nat, e: nat)
    requires Clean(after) && p <= e <= |after| && WellFormed(after[..p]) && WellFormed(after[..e])
    ensures Clean(after[p..e])
  {
    hide WellFormed;
    assert after[..e] == after[..p] + after[p..e];
    WellFormedConcat(after[..p], after[p..e]);
  }

  // Cut where no pair is split, the replaced stretch is safe to replace.
  lemma CutsAreSafe(before: Text, after: Text, prefix: nat, suffix: nat)
    requires Kept(before, after, prefix, suffix)
    requires WellFormed(before) && Clean(after)
    requires prefix > 0 ==> !IsHigh(after[prefix - 1])
    requires suffix > 0 ==> !IsLow(after[|after| - suffix])
    ensures WellFormed(before[..prefix]) && WellFormed(before[..|before| - suffix])
    ensures Clean(after[prefix..|after| - suffix])
  {
    var e := |after| - suffix;
    SamePrefixEnd(before, after, prefix, suffix);
    hide WellFormed;
    BoundarySplits(before, prefix);
    BoundarySplits(before, |before| - suffix);
    BoundarySplits(after, prefix);
    BoundarySplits(after, e);
    CleanBetween(after, prefix, e);
  }

  // Shortens the common ends by a unit where they would cut a character in two.
  method WholeCharacters(before: Text, after: Text, p: nat, s: nat) returns (prefix: nat, suffix: nat)
    requires Kept(before, after, p, s)
    ensures Kept(before, after, prefix, suffix) && prefix + suffix <= |before| && prefix + suffix <= |after|
    ensures prefix == TrimmedPrefix(after, p) && suffix == TrimmedSuffix(after, s)
    ensures WellFormed(after) ==> WholeCut(after, prefix, suffix)
  {
    hide WellFormed;
    prefix, suffix := p, s;
    if prefix > 0 && IsHigh(after[prefix - 1]) {
      NoHighPair(after, prefix - 1);
      Shrink(before, after, prefix, suffix, prefix - 1, suffix);
      prefix := prefix - 1;
    }
    if suffix > 0 && IsLow(after[|after| - suffix]) {
      NoLowPair(after, |after| - suffix);
      Shrink(before, after, prefix, suffix, prefix, suffix - 1);
      suffix := suffix - 1;
    }
  }

  function TrimmedPrefix(after: Text, p: nat): nat
    requires p <= |after|
  {
    if p > 0 && IsHigh(after[p - 1]) then p - 1 else p
  }

  function TrimmedSuffix(after: Text, s: nat): nat
    requires s <= |after|
  {
    if s > 0 && IsLow(after[|after| - s]) then s - 1 else s
  }

  // The kept ends leave nothing between them that both texts share: they use up the
  // shorter text, or the texts differ right behind the one and in front of the
  // other.
  predicate Largest(before: Text, after: Text, p: nat, s: nat)
    requires p + s <= |before| && p + s <= |after|
  {
    || p + s == |before| || p + s == |after|
    || (before[p] != after[p] && before[|before| - 1 - s] != after[|after| - 1 - s])
  }

  // The common ends, as long as they go.
  method CommonEnds(before: Text, after: Text) returns (prefix: nat, suffix: nat)
    ensures Kept(before, after, prefix, suffix) && prefix + suffix <= |before| && prefix + suffix <= |after|
    ensures Largest(before, after, prefix, suffix)
    ensures prefix < |before| && prefix < |after| ==> before[prefix] != after[prefix]
  {
    hide Kept;
    KeptNothing(before, after);
    KeptBounds(before, after);
    var limit := if |before| < |after| then |before| else |after|;
    prefix := 0;
    while prefix < limit && before[prefix] == after[prefix]
      invariant prefix <= limit && Kept(before, after, prefix, 0)
    {
      GrowPrefix(before, after, prefix);
      prefix := prefix + 1;
    }
    suffix := 0;
    while suffix < limit - prefix && before[|before| - 1 - suffix] == after[|after| - 1 - suffix]
      invariant prefix + suffix <= limit && Kept(before, after, prefix, suffix)
    {
      GrowSuffix(before, after, prefix, suffix);
      suffix := suffix + 1;
    }
  }

  // Putting text in at q, and nothing else, gives the new text.
  ghost predicate InsertsAt(before: Text, after: Text, q: int) {
    0 <= q <= |before| <= |after| && Kept(before, after, q, |before| - q)
  }

  lemma NotEarlier(before: Text, after: Text, q: int, prefix: nat)
    requires InsertsAt(before, after, q) && q < prefix <= |before| <= |after| && before[..prefix] == after[..prefix]
    ensures after[prefix - 1] == after[prefix - 1 + (|after| - |before|)]
  {
    var k := prefix - 1;
    assert before[k] == before[..prefix][k] == after[..prefix][k] == after[k];
    assert before[q..][k - q] == before[k];
    assert after[|after| - (|before| - q)..][k - q] == after[k + (|after| - |before|)];
  }

  // Text was only added. Among equal neighbours its place is open, so it goes as
  // near to the caret as they permit.
  method NearCaret(before: Text, after: Text, p: nat, s: nat, caret: int) returns (prefix: nat, suffix: nat)
    requires Kept(before, after, p, s) && p + s == |before| <= |after|
    requires p < |before| ==> before[p] != after[p]
    ensures Kept(before, after, prefix, suffix) && prefix + suffix == |before|
    ensures InsertsAt(before, after, caret - (|after| - |before|)) ==> prefix == caret - (|after| - |before|)
  {
    hide Kept;
    var inserted := |after| - |before|;
    ghost var q := caret - inserted;
    prefix, suffix := p, s;
    if InsertsAt(before, after, q) {
      LastPlace(before, after, q, p);
    }
    while prefix > 0 && prefix + inserted > caret && after[prefix - 1] == after[prefix - 1 + inserted]
      invariant Kept(before, after, prefix, suffix) && prefix + suffix == |before|
      invariant InsertsAt(before, after, q) ==> q <= prefix
      decreases prefix
    {
      Slide(before, after, prefix, suffix);
      prefix, suffix := prefix - 1, suffix + 1;
    }
    if InsertsAt(before, after, q) && q < prefix {
      KeptPrefix(before, after, prefix, suffix);
      NotEarlier(before, after, q, prefix);
    }
  }

  lemma KeptPrefix(before: Text, after: Text, prefix: nat, suffix: nat)
    requires Kept(before, after, prefix, suffix)
    ensures prefix <= |before| && prefix <= |after| && before[..prefix] == after[..prefix]
  {
  }

  // No place lies behind the end of the common prefix.
  lemma LastPlace(before: Text, after: Text, q: int, p: nat)
    requires InsertsAt(before, after, q) && p <= |before| <= |after| && (p < |before| ==> before[p] != after[p])
    ensures q <= p
  {
    assert forall k :: 0 <= k < q ==> before[k] == before[..q][k] == after[..q][k] == after[k];
  }

  // Where text was only added, the common ends use up the old text.
  lemma OnlyAdded(before: Text, after: Text, q: int, p: nat, s: nat)
    requires InsertsAt(before, after, q) && q <= p && p + s <= |before| && Largest(before, after, p, s)
    ensures p + s == |before|
  {
    var tail := before[q..];
    assert tail == after[|after| - (|before| - q)..];
    assert forall k :: q <= k < |before| ==> before[k] == tail[k - q] == after[k + (|after| - |before|)];
  }

  // The edit between two texts. It leaves the common ends alone, as far as they go
  // and whole characters allow; where text was only added and that may have
  // happened at the caret, it did.
  method FromDiff(before: Text, after: Text, caret: Option<int>) returns (op: Operation, ghost p: nat, ghost s: nat)
    ensures fresh(op) && op.Valid()
    ensures BaseLen(op.comps) == |before| && Run(op.comps, before) == after
    ensures WellFormed(before) && Clean(after) ==> Safe(op.comps, before)
    ensures Kept(before, after, p, s) && p + s <= |before| && p + s <= |after| && Largest(before, after, p, s)
    ensures var prefix, suffix := TrimmedPrefix(after, p), TrimmedSuffix(after, s);
      op.comps == ReplaceOp(|before|, prefix, |before| - suffix, after[prefix..|after| - suffix])
    ensures caret.Some? && InsertsAt(before, after, caret.value - (|after| - |before|)) ==>
      p == caret.value - (|after| - |before|)
  {
    hide Kept, Run, BaseLen, Safe, WellFormed, WholeCut, Operation.Valid, ReplaceOp, PushRetain, PushInsert, PushDelete;
    KeptBounds(before, after);
    var prefix, suffix := CommonEnds(before, after);
    if caret.Some? {
      OnlyAddedHere(before, after, caret.value - (|after| - |before|), prefix, suffix);
    }
    if caret.Some? && prefix + suffix == |before| {
      prefix, suffix := NearCaret(before, after, prefix, suffix, caret.value);
    }
    p, s := prefix, suffix;
    prefix, suffix := WholeCharacters(before, after, prefix, suffix);
    op := Replacement(|before|, prefix, suffix, after[prefix..|after| - suffix]);
    ReplacesMiddle(before, after, prefix, suffix, op.comps);
  }

  // The operation that keeps the ends and puts text between them.
  method Replacement(length: nat, prefix: nat, suffix: nat, text: Text) returns (op: Operation)
    requires prefix + suffix <= length
    ensures fresh(op) && op.Valid() && op.comps == ReplaceOp(length, prefix, length - suffix, text)
  {
    hide Operation.Valid, ReplaceOp, PushRetain, PushInsert, PushDelete;
    ReplaceOpBuilt(length, prefix, length - suffix, text);
    op := new Operation();
    op.Retain(prefix);
    op.Insert(text);
    op.Delete(length - prefix - suffix);
    op.Retain(suffix);
  }

  lemma OnlyAddedHere(before: Text, after: Text, q: int, p: nat, s: nat)
    requires p + s <= |before| && p + s <= |after| && Largest(before, after, p, s)
    requires p < |before| && p < |after| ==> before[p] != after[p]
    ensures InsertsAt(before, after, q) ==> p + s == |before|
  {
    hide Kept;
    if InsertsAt(before, after, q) {
      LastPlace(before, after, q, p);
      OnlyAdded(before, after, q, p, s);
    }
  }

  // Neither cut falls inside a pair.
  predicate WholeCut(after: Text, prefix: nat, suffix: nat)
    requires prefix + suffix <= |after|
  {
    && (prefix > 0 ==> !IsHigh(after[prefix - 1]))
    && (suffix > 0 ==> !IsLow(after[|after| - suffix]))
  }

  lemma KeptNothing(before: Text, after: Text)
    ensures Kept(before, after, 0, 0)
  {
  }

  lemma KeptBounds(before: Text, after: Text)
    ensures forall p, s :: Kept(before, after, p, s) ==>
      0 <= p && 0 <= s && p + s <= |before| && p + s <= |after|
  {
  }

  lemma NoHighPair(t: Text, k: nat)
    requires k < |t| && IsHigh(t[k])
    ensures WellFormed(t) && k > 0 ==> !IsHigh(t[k - 1])
  {
  }

  lemma NoLowPair(t: Text, k: nat)
    requires k < |t| && IsLow(t[k])
    ensures WellFormed(t) && k + 1 < |t| ==> !IsLow(t[k + 1])
  {
  }

  lemma ReplacesMiddle(before: Text, after: Text, prefix: nat, suffix: nat, o: Op)
    requires Kept(before, after, prefix, suffix)
    requires o == ReplaceOp(|before|, prefix, |before| - suffix, after[prefix..|after| - suffix])
    ensures BaseLen(o) == |before| && Run(o, before) == after
    ensures WellFormed(before) && Clean(after) && WholeCut(after, prefix, suffix) ==> Safe(o, before)
  {
    hide WellFormed, Safe, Run, BaseLen, ReplaceOp;
    if WellFormed(before) && Clean(after) && WholeCut(after, prefix, suffix) {
      CutsAreSafe(before, after, prefix, suffix);
      ReplaceOpSafe(before, prefix, |before| - suffix, after[prefix..|after| - suffix]);
    }
    ReplacesMiddleText(before, after, prefix, suffix);
  }

  lemma ReplacesMiddleText(before: Text, after: Text, prefix: nat, suffix: nat)
    requires Kept(before, after, prefix, suffix)
    ensures var o := ReplaceOp(|before|, prefix, |before| - suffix, after[prefix..|after| - suffix]);
      BaseLen(o) == |before| && Run(o, before) == after
  {
    hide ReplaceOp, Run, BaseLen, TargetLen, Normal;
    ReplaceOpSound(before, prefix, |before| - suffix, after[prefix..|after| - suffix]);
    assert after == after[..prefix] + after[prefix..|after| - suffix] + after[|after| - suffix..];
  }

  lemma ReplaceOpBuilt(length: nat, start: nat, end: nat, text: Text)
    requires start <= end <= length
    ensures ReplaceOp(length, start, end, text)
      == PushRetain(PushDelete(PushInsert(PushRetain([], start), text), end - start), length - end)
    ensures forall o: Op :: PushRetain(o, 0) == o && PushDelete(o, 0) == o
  {
  }
}
