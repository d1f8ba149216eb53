// The JSON form of operations: positive numbers retain, negative ones delete,
// strings insert.
module Wire {
  import opened Results
  import opened Ops
  import opened Characters

  datatype Part = Number(n: int) | Chars(s: Text)

  datatype DecodeError = TooManyComponents | EmptyInsert | ComponentTooLarge | ZeroComponent

  const MaxOpComponents := 20_000
  const MaxComponentLength := 0x4000_0000

  const Replacement: Unit := 0xfffd

  // What becomes of UTF-16 units on their way through JSON text: a surrogate
  // without its partner is replaced.
  function Repair(t: Text): (r: Text)
    ensures |r| == |t|
  {
    if t == [] then []
    else if IsHigh(t[0]) && |t| > 1 && IsLow(t[1]) then t[..2] + Repair(t[2..])
    else if IsHigh(t[0]) || IsLow(t[0]) then [Replacement] + Repair(t[1..])
    else [t[0]] + Repair(t[1..])
  }

  lemma {:induction false} RepairFixesExactly(t: Text)
    ensures WellFormed(Repair(t))
    ensures Repair(t) == t <==> WellFormed(t)
  {
    if t != [] {
      var n := if IsHigh(t[0]) && |t| > 1 && IsLow(t[1]) then 2 else 1;
      RepairFixesExactly(t[n..]);
      RepairParts(t, n);
      RepairJoins(t, n);
    }
  }

  // The first character, or half of one, and the rest are repaired apart.
  lemma RepairParts(t: Text, n: nat)
    requires t != [] && n == if IsHigh(t[0]) && |t| > 1 && IsLow(t[1]) then 2 else 1
    ensures Repair(t) == Repair(t)[..n] + Repair(t[n..])
    ensures WellFormed(Repair(t)[..n])
    ensures Repair(t)[..n] == t[..n] <==> WellFormed(t[..n])
  {
    var head := if n == 2 then t[..2] else if IsHigh(t[0]) || IsLow(t[0]) then [Replacement] else [t[0]];
    RepairHead(t, n, head);
    hide Repair;
    assert Repair(t)[..n] == head && Repair(t)[n..] == Repair(t[n..]);
    OneCharacter(t, n, head);
  }

  lemma RepairHead(t: Text, n: nat, head: Text)
    requires t != [] && n == if IsHigh(t[0]) && |t| > 1 && IsLow(t[1]) then 2 else 1
    requires head == if n == 2 then t[..2] else if IsHigh(t[0]) || IsLow(t[0]) then [Replacement] else [t[0]]
    ensures Repair(t) == head + Repair(t[n..]) && |head| == n
  {
  }

  lemma OneCharacter(t: Text, n: nat, head: Text)
    requires t != [] && n == if IsHigh(t[0]) && |t| > 1 && IsLow(t[1]) then 2 else 1
    requires head == if n == 2 then t[..2] else if IsHigh(t[0]) || IsLow(t[0]) then [Replacement] else [t[0]]
    ensures WellFormed(head) && (head == t[..n] <==> WellFormed(t[..n]))
  {
    assert n == 1 ==> t[..1] == [t[0]];
  }

  lemma RepairJoins(t: Text, n: nat)
    requires n <= |t| && Repair(t) == Repair(t)[..n] + Repair(t[n..])
    requires n == if t != [] && IsHigh(t[0]) && |t| > 1 && IsLow(t[1]) then 2 else 1
    requires WellFormed(Repair(t)[..n]) && WellFormed(Repair(t[n..]))
    requires Repair(t)[..n] == t[..n] <==> WellFormed(t[..n])
    requires Repair(t[n..]) == t[n..] <==> WellFormed(t[n..])
    ensures WellFormed(Repair(t))
    ensures Repair(t) == t <==> WellFormed(t)
  {
    hide Repair;
    assert t == t[..n] + t[n..];
    WellFormedConcat(Repair(t)[..n], Repair(t[n..]));
    if WellFormed(t) {
      FirstWhole(t, n);
    }
    if WellFormed(t[..n]) {
      WellFormedConcat(t[..n], t[n..]);
    }
    if Repair(t) == t {
      assert Repair(t)[..n] == t[..n] && Repair(t)[n..] == t[n..];
    }
  }

  // In well-formed text the first character is whole.
  lemma FirstWhole(t: Text, n: nat)
    requires n <= |t| && WellFormed(t)
    requires n == if t != [] && IsHigh(t[0]) && |t| > 1 && IsLow(t[1]) then 2 else 1
    ensures WellFormed(t[..n])
  {
  }

  function EncodePart(c: Comp): Part {
    match c
    case Retain(n) => Number(n)
    case Delete(n) => Number(0 - n)
    case Insert(s) => Chars(Repair(s))
  }

  function Encode(o: Op): seq<Part> {
    seq(|o|, k requires 0 <= k < |o| => EncodePart(o[k]))
  }

  function PartError(p: Part): Option<DecodeError> {
    match p
    case Chars(s) => if s == [] then Some(EmptyInsert) else None
    case Number(n) =>
      if n > MaxComponentLength || n < -MaxComponentLength then Some(ComponentTooLarge)
      else if n == 0 then Some(ZeroComponent)
      else None
  }

  function PartComp(p: Part): Comp
    requires PartError(p).None?
  {
    match p
    case Chars(s) => Insert(s)
    case Number(n) => if n > 0 then Retain(n) else Delete(-n)
  }

  // Builds the operation part by part, stopping at the first bad one.
  function DecodeFrom(o: Op, parts: seq<Part>): Result<Op, DecodeError>
    decreases |parts|
  {
    if parts == [] then Ok(o)
    else if PartError(parts[0]).Some? then Err(PartError(parts[0]).value)
    else DecodeFrom(Push(o, PartComp(parts[0])), parts[1..])
  }

  function Decode(parts: seq<Part>): Result<Op, DecodeError> {
    if |parts| > MaxOpComponents then Err(TooManyComponents) else DecodeFrom([], parts)
  }

  lemma {:induction false} DecodeFromNormal(o: Op, parts: seq<Part>)
    requires Normal(o)
    ensures DecodeFrom(o, parts).Ok? ==> Normal(DecodeFrom(o, parts).value)
    decreases |parts|
  {
    if parts != [] && PartError(parts[0]).None? {
      PushNormal(o, PartComp(parts[0]));
      DecodeFromNormal(Push(o, PartComp(parts[0])), parts[1..]);
    }
  }

  // Whatever a peer sends, a decoded operation is in normal form.
  lemma DecodedIsNormal(parts: seq<Part>)
    ensures Decode(parts).Ok? ==> Normal(Decode(parts).value)
  {
    DecodeFromNormal([], parts);
  }

  lemma {:induction false} DecodeFromComps(o: Op, comps: Op, parts: seq<Part>)
    requires |parts| == |comps|
    requires forall k :: 0 <= k < |comps| ==> PartError(parts[k]).None? && PartComp(parts[k]) == comps[k]
    ensures DecodeFrom(o, parts) == Ok(PushAll(o, comps))
    decreases |parts|
  {
    if parts != [] {
      DecodeFromComps(Push(o, comps[0]), comps[1..], parts[1..]);
    }
  }

  predicate Fits(o: Op) {
    && |o| <= MaxOpComponents
    && forall k :: 0 <= k < |o| ==> o[k].Insert? || o[k].n <= MaxComponentLength
  }

  // An operation within the size limits survives the wire exactly when its
  // inserts hold whole characters.
  lemma WireRoundTrip(o: Op)
    requires Normal(o) && Fits(o)
    ensures Decode(Encode(o)) == Ok(o) <==> InsertsWellFormed(o)
  {
    var repaired: Op := seq(|o|, k requires 0 <= k < |o| => if o[k].Insert? then Insert(Repair(o[k].ins)) else o[k]);
    assert Normal(repaired) by {
      forall k | 0 <= k < |o| - 1 ensures MayFollow(repaired[k], repaired[k + 1]) {
        assert MayFollow(o[k], o[k + 1]);
      }
    }
    DecodeFromComps([], repaired, Encode(o));
    CanonFixpoint(repaired);
    assert Decode(Encode(o)) == Ok(repaired);
    forall k | 0 <= k < |o| && o[k].Insert?
      ensures repaired[k] == o[k] <==> WellFormed(o[k].ins)
    {
      RepairFixesExactly(o[k].ins);
    }
    if InsertsWellFormed(o) {
      assert repaired == o;
    }
    if repaired == o {
      forall k | 0 <= k < |o| && o[k].Insert? ensures WellFormed(o[k].ins) {
        assert repaired[k] == o[k];
      }
    }
  }

  // Half a character does not survive: it is replaced on its way.
  lemma LoneSurrogateChanges(o: Op)
    requires o == [Insert([0xd800])]
    ensures Normal(o) && Fits(o)
    ensures Decode(Encode(o)) == Ok([Insert([Replacement])])
  {
    var half: Text := [0xd800];
    assert half[1..] == [];
    assert Repair(half) == [Replacement] + Repair([]) == [Replacement];
    var parts := Encode(o);
    assert parts == [Chars([Replacement])] && parts[1..] == [];
    DecodeFromComps([], [Insert([Replacement])], parts);
    assert PushAll([], [Insert([Replacement])]) == [Insert([Replacement])] by {
      CanonFixpoint([Insert([Replacement])]);
    }
  }
}
