// The time-series codec: timestamps as differences of differences, values as
// changed bits, all arithmetic in 64 bits.
module Codec {
  import opened Results
  import opened Varint

  // bits are the 64 bits of a floating-point value.
  datatype Sample = Sample(timestamp: int, bits: nat)

  predicate SampleOk(s: Sample) {
    IsInt64(s.timestamp) && IsUint64(s.bits)
  }

  predicate SamplesOk(s: seq<Sample>) {
    forall k :: 0 <= k < |s| ==> SampleOk(s[k])
  }

  /******* 64-bit arithmetic *******/

  // The 64-bit number that x wraps around to.
  function Wrap(x: int): (w: int)
    ensures IsInt64(w)
  {
    (x + TwoTo63) % TwoTo64 - TwoTo63
  }

  lemma WrapPeriodic(x: int, k: int)
    ensures Wrap(x + k * TwoTo64) == Wrap(x)
  {
  }

  // Adding back a wrapped difference gives the number it came from.
  lemma WrapBack(x: int, y: int)
    requires IsInt64(x)
    ensures Wrap(y + Wrap(x - y)) == x
  {
    var d := x - y;
    var k := (d + TwoTo63) / TwoTo64;
    assert Wrap(d) == d - k * TwoTo64;
    WrapPeriodic(x, -k);
  }

  function Xor(a: nat, b: nat): nat {
    if a == 0 && b == 0 then 0 else (a + b) % 2 + 2 * Xor(a / 2, b / 2)
  }

  lemma {:induction false} XorBack(a: nat, b: nat)
    ensures Xor(Xor(a, b), b) == a
  {
    hide Xor;
    XorStep(a, b);
    var x := Xor(a, b);
    XorStep(x, b);
    if a != 0 || b != 0 {
      XorBack(a / 2, b / 2);
      assert x / 2 == Xor(a / 2, b / 2);
    }
  }

  lemma XorStep(a: nat, b: nat)
    ensures Xor(a, b) == (a + b) % 2 + 2 * Xor(a / 2, b / 2)
  {
  }

  function Power2(k: nat): nat {
    if k == 0 then 1 else 2 * Power2(k - 1)
  }

  lemma {:induction false} XorBounded(a: nat, b: nat, k: nat)
    requires a < Power2(k) && b < Power2(k)
    ensures Xor(a, b) < Power2(k)
  {
    if k > 0 {
      XorBounded(a / 2, b / 2, k - 1);
    }
  }

  lemma Xor64(a: nat, b: nat)
    requires IsUint64(a) && IsUint64(b)
    ensures IsUint64(Xor(a, b)) && Xor(Xor(a, b), b) == a
  {
    hide Xor, Power2;
    XorBack(a, b);
    Power64();
    XorBounded(a, b, 64);
  }

  lemma Power16()
    ensures Power2(16) == 0x1_0000
  {
    assert Power2(4) == 16;
    PowerAdd(4, 4);
    PowerAdd(8, 8);
  }

  lemma Power64()
    ensures Power2(64) == TwoTo64
  {
    hide Power2;
    Power16();
    PowerAdd(16, 16);
    PowerAdd(32, 32);
  }

  lemma {:induction false} PowerAdd(j: nat, k: nat)
    ensures Power2(j + k) == Power2(j) * Power2(k)
  {
    if j > 0 {
      PowerAdd(j - 1, k);
    }
  }

  /******* The samples that are kept *******/

  ghost function Of(s: seq<Sample>, t: int): seq<Sample> {
    if s == [] then []
    else Of(s[..|s| - 1], t) + if s[|s| - 1].timestamp == t then [s[|s| - 1]] else []
  }

  ghost predicate Ascending(s: seq<Sample>) {
    forall j, k :: 0 <= j < k < |s| ==> s[j].timestamp <= s[k].timestamp
  }

  ghost predicate Strict(s: seq<Sample>) {
    forall j, k :: 0 <= j < k < |s| ==> s[j].timestamp < s[k].timestamp
  }

  // Ordered by time, samples of one time in the order they came.
  ghost predicate StablySorted(s: seq<Sample>, input: seq<Sample>) {
    Ascending(s) && forall t :: Of(s, t) == Of(input, t)
  }

  ghost function LastOf(s: seq<Sample>, t: int): seq<Sample> {
    if Of(s, t) == [] then [] else [Of(s, t)[|Of(s, t)| - 1]]
  }

  // In order of time, and of each time the sample that came last.
  ghost predicate IsLatest(s: seq<Sample>, input: seq<Sample>) {
    Strict(s) && forall t :: Of(s, t) == LastOf(input, t)
  }

  lemma {:induction false} OfConcat(x: seq<Sample>, y: seq<Sample>, t: int)
    ensures Of(x + y, t) == Of(x, t) + Of(y, t)
    decreases |y|
  {
    if y == [] {
      assert x + y == x;
    } else {
      var init := y[..|y| - 1];
      OfConcat(x, init, t);
      assert (x + y)[..|x + y| - 1] == x + init;
    }
  }

  lemma {:induction false} OfNone(s: seq<Sample>, t: int)
    requires forall k :: 0 <= k < |s| ==> s[k].timestamp != t
    ensures Of(s, t) == []
  {
    if s != [] {
      OfNone(s[..|s| - 1], t);
    }
  }

  lemma NoneOf(t: int)
    ensures Of([], t) == [] && LastOf([], t) == []
  {
  }

  lemma OfOne(s: Sample, t: int)
    ensures Of([s], t) == if s.timestamp == t then [s] else []
  {
    assert [s][..0] == [];
  }

  // Puts a sample after those of its own time and before later ones.
  method InsertStably(s: seq<Sample>, x: Sample) returns (r: seq<Sample>)
    requires Ascending(s) && SamplesOk(s) && SampleOk(x)
    ensures Ascending(r) && SamplesOk(r) && |r| == |s| + 1
    ensures forall t :: Of(r, t) == Of(s + [x], t)
  {
    hide Of;
    var place: nat := |s|;
    while place > 0 && s[place - 1].timestamp > x.timestamp
      invariant place <= |s| && forall k :: place <= k < |s| ==> s[k].timestamp > x.timestamp
    {
      place := place - 1;
    }
    forall t ensures Of(s[..place] + [x] + s[place..], t) == Of(s + [x], t) {
      InsertedAt(s, place, x, t);
    }
    r := s[..place] + [x] + s[place..];
  }

  lemma InsertedAt(s: seq<Sample>, place: nat, x: Sample, t: int)
    requires place <= |s| && forall k :: place <= k < |s| ==> s[k].timestamp > x.timestamp
    ensures Of(s[..place] + [x] + s[place..], t) == Of(s + [x], t)
  {
    hide Of;
    InsertedOf(s[..place], x, s[place..], t);
    assert s[..place] + s[place..] == s;
  }

  lemma InsertedOf(front: seq<Sample>, x: Sample, back: seq<Sample>, t: int)
    requires forall k :: 0 <= k < |back| ==> back[k].timestamp > x.timestamp
    ensures Of(front + [x] + back, t) == Of(front + back + [x], t)
  {
    hide Of;
    OfConcat(front + [x], back, t);
    OfConcat(front, [x], t);
    OfConcat(front + back, [x], t);
    OfConcat(front, back, t);
    OfOne(x, t);
    if t == x.timestamp {
      OfNone(back, t);
    }
  }

  method SortStably(input: seq<Sample>) returns (s: seq<Sample>)
    requires SamplesOk(input)
    ensures StablySorted(s, input) && SamplesOk(s) && |s| == |input|
  {
    hide Of;
    s := [];
    for k := 0 to |input|
      invariant Ascending(s) && SamplesOk(s) && |s| == k && forall t :: Of(s, t) == Of(input[..k], t)
    {
      ghost var before := s;
      s := InsertStably(s, input[k]);
      forall t ensures Of(s, t) == Of(input[..k + 1], t) {
        assert Of(s, t) == Of(before + [input[k]], t);
        assert input[..k + 1] == input[..k] + [input[k]];
        OfConcat(before, [input[k]], t);
        OfConcat(input[..k], [input[k]], t);
      }
    }
    assert input[..|input|] == input;
  }

  // Keeps the last of each run of one time, writing over what was already read.
  method KeepLast(sorted: seq<Sample>) returns (kept: seq<Sample>)
    requires Ascending(sorted) && SamplesOk(sorted)
    ensures IsLatest(kept, sorted) && SamplesOk(kept) && |kept| <= |sorted| && (sorted != [] ==> kept != [])
  {
    hide Of, LastOf;
    kept := [];
    assert sorted[..0] == [];
    forall t ensures Of([], t) == LastOf([], t) {
      NoneOf(t);
    }
    for k := 0 to |sorted|
      invariant Strict(kept) && SamplesOk(kept) && |kept| <= k
      invariant k > 0 ==> kept != [] && kept[|kept| - 1] == sorted[k - 1]
      invariant forall t :: Of(kept, t) == LastOf(sorted[..k], t)
    {
      var sample := sorted[k];
      ghost var before := kept;
      assert sorted[..k + 1] == sorted[..k] + [sample];
      if |kept| > 0 && kept[|kept| - 1].timestamp == sample.timestamp {
        kept := kept[|kept| - 1 := sample];
        assert kept == before[..|before| - 1] + [sample] && before == before[..|before| - 1] + [before[|before| - 1]];
        forall t ensures Of(kept, t) == LastOf(sorted[..k + 1], t) {
          KeepStep(before[..|before| - 1], before[|before| - 1], sample, sorted[..k], t);
        }
      } else {
        kept := kept + [sample];
        forall t ensures Of(kept, t) == LastOf(sorted[..k + 1], t) {
          KeepMore(before, sample, sorted[..k], t);
        }
      }
    }
    assert sorted[..|sorted|] == sorted;
  }

  lemma KeepMore(kept: seq<Sample>, sample: Sample, done: seq<Sample>, t: int)
    requires Strict(kept + [sample]) && Of(kept, t) == LastOf(done, t)
    ensures Of(kept + [sample], t) == LastOf(done + [sample], t)
  {
    hide Of;
    OfConcat(kept, [sample], t);
    OfConcat(done, [sample], t);
    OfOne(sample, t);
    if t == sample.timestamp {
      assert forall k :: 0 <= k < |kept| ==> (kept + [sample])[k] == kept[k] && kept[k].timestamp < (kept + [sample])[|kept|].timestamp;
      OfNone(kept, t);
    }
  }

  lemma KeepStep(front: seq<Sample>, last: Sample, sample: Sample, done: seq<Sample>, t: int)
    requires Strict(front + [last]) && last.timestamp == sample.timestamp && Of(front + [last], t) == LastOf(done, t)
    ensures Of(front + [sample], t) == LastOf(done + [sample], t)
  {
    hide Of;
    OfConcat(front, [last], t);
    OfConcat(front, [sample], t);
    OfConcat(done, [sample], t);
    OfOne(last, t);
    OfOne(sample, t);
    if t == sample.timestamp {
      assert forall k :: 0 <= k < |front| ==> (front + [last])[k] == front[k] && front[k].timestamp < (front + [last])[|front|].timestamp;
      OfNone(front, t);
    }
  }

  /******* The encoding *******/

  // Samples from k on, given the difference and bits before them.
  function EncodedFrom(s: seq<Sample>, k: nat, delta: int): seq<Byte>
    requires 0 < k <= |s|
    decreases |s| - k
  {
    if k == |s| then []
    else
      var next := Wrap(s[k].timestamp - s[k - 1].timestamp);
      PutVarint(Wrap(next - delta)) + (PutUvarint(Xor(s[k].bits, s[k - 1].bits)) + EncodedFrom(s, k + 1, next))
  }

  function Encoded(s: seq<Sample>): seq<Byte> {
    if s == [] then [0]
    else PutUvarint(|s|) + (PutVarint(s[0].timestamp) + (PutUvarint(s[0].bits) + EncodedFrom(s, 1, 0)))
  }

  // Sorts, keeps the last sample of each time, and writes it all down.
  method EncodeSamples(input: seq<Sample>) returns (result: seq<Byte>, ghost latest: seq<Sample>)
    requires SamplesOk(input)
    ensures IsLatest(latest, input) && SamplesOk(latest) && |latest| <= |input| && result == Encoded(latest)
  {
    hide PutUvarint, PutVarint, Wrap, Xor, Of, Encoded, EncodedFrom;
    latest := [];
    EncodedNone();
    if |input| == 0 {
      NoneLatest();
      return [0], [];
    }
    var sorted := SortStably(input);
    var samples := KeepLast(sorted);
    latest := samples;
    LatestOfSorted(samples, sorted, input);
    result := PutUvarint(|samples|);
    result := result + PutVarint(samples[0].timestamp);
    var previousBits := samples[0].bits;
    result := result + PutUvarint(previousBits);
    HeadOf(samples);
    if |samples| == 1 {
      EncodedEnd(samples, 0);
      assert result + [] == result;
      return;
    }
    var previousDelta := Wrap(samples[1].timestamp - samples[0].timestamp);
    FirstDelta(samples, result);
    result := result + PutVarint(previousDelta);
    var bits := samples[1].bits;
    result := result + PutUvarint(Xor(bits, previousBits));
    previousBits := bits;
    for index := 2 to |samples|
      invariant previousBits == samples[index - 1].bits
      invariant result + EncodedFrom(samples, index, previousDelta) == Encoded(samples)
    {
      var delta := Wrap(samples[index].timestamp - samples[index - 1].timestamp);
      EncodedNext(samples, index, previousDelta, result);
      result := result + PutVarint(Wrap(delta - previousDelta));
      bits := samples[index].bits;
      result := result + PutUvarint(Xor(bits, previousBits));
      previousDelta, previousBits := delta, bits;
    }
    EncodedEnd(samples, previousDelta);
    assert result + [] == result;
  }

  lemma NoneLatest()
    ensures IsLatest([], [])
  {
  }

  lemma LatestOfSorted(x: seq<Sample>, sorted: seq<Sample>, input: seq<Sample>)
    requires IsLatest(x, sorted) && StablySorted(sorted, input)
    ensures IsLatest(x, input)
  {
    hide Of;
  }

  lemma EncodedNone()
    ensures Encoded([]) == [0]
  {
  }

  lemma EncodedEnd(s: seq<Sample>, delta: int)
    requires s != []
    ensures EncodedFrom(s, |s|, delta) == []
  {
  }

  // What is written so far, and one more sample.
  lemma EncodedNext(s: seq<Sample>, k: nat, delta: int, head: seq<Byte>)
    requires 0 < k < |s|
    ensures var next := Wrap(s[k].timestamp - s[k - 1].timestamp);
      head + EncodedFrom(s, k, delta)
        == head + PutVarint(Wrap(next - delta)) + PutUvarint(Xor(s[k].bits, s[k - 1].bits)) + EncodedFrom(s, k + 1, next)
  {
    hide PutUvarint, PutVarint, Xor, Wrap;
    var next := Wrap(s[k].timestamp - s[k - 1].timestamp);
    MoveIn(head, PutVarint(Wrap(next - delta)), PutUvarint(Xor(s[k].bits, s[k - 1].bits)), EncodedFrom(s, k + 1, next));
  }

  lemma MoveIn(a: seq<Byte>, b: seq<Byte>, c: seq<Byte>, d: seq<Byte>)
    ensures a + (b + (c + d)) == a + b + c + d
  {
  }

  lemma HeadOf(s: seq<Sample>)
    requires s != []
    ensures Encoded(s) == PutUvarint(|s|) + PutVarint(s[0].timestamp) + PutUvarint(s[0].bits) + EncodedFrom(s, 1, 0)
  {
    hide PutUvarint, EncodedFrom;
    MoveIn(PutUvarint(|s|), PutVarint(s[0].timestamp), PutUvarint(s[0].bits), EncodedFrom(s, 1, 0));
  }

  // The first difference is stored as it is: the one before it counts as zero.
  lemma FirstDelta(s: seq<Sample>, head: seq<Byte>)
    requires |s| > 1 && Encoded(s) == head + EncodedFrom(s, 1, 0)
    ensures var d := Wrap(s[1].timestamp - s[0].timestamp);
      Encoded(s) == head + PutVarint(d) + PutUvarint(Xor(s[1].bits, s[0].bits)) + EncodedFrom(s, 2, d)
  {
    hide PutUvarint, PutVarint, Xor, Encoded, EncodedFrom;
    assert Wrap(Wrap(s[1].timestamp - s[0].timestamp) - 0) == Wrap(s[1].timestamp - s[0].timestamp);
    EncodedNext(s, 1, 0, head);
  }

  /******* The decoding *******/

  datatype DecodeError = InvalidCount | InvalidTimestamp | InvalidValue | InvalidFirstDelta | InvalidDeltaOfDelta | InvalidXor

  // n more samples after last, in what follows.
  function DecodedFrom(b: seq<Byte>, n: nat, last: Sample, delta: int): Result<seq<Sample>, DecodeError>
    decreases n
  {
    if n == 0 then Ok([])
    else
      var (change, read) := ReadVarint(b);
      if read <= 0 || read > |b| then Err(InvalidDeltaOfDelta)
      else
        var (xor, more) := ReadUvarint(b[read..]);
        if more <= 0 || more > |b| - read then Err(InvalidXor)
        else
          var next := Wrap(delta + change);
          var s := Sample(Wrap(last.timestamp + next), Xor(last.bits, xor));
          var rest := DecodedFrom(b[read..][more..], n - 1, s, next);
          if rest.Err? then rest else Ok([s] + rest.value)
  }

  function Decoded(b: seq<Byte>): Result<seq<Sample>, DecodeError> {
    var (count, n0) := ReadUvarint(b);
    if n0 <= 0 || n0 > |b| then Err(InvalidCount)
    else if count == 0 then Ok([])
    else
      var b1 := b[n0..];
      var (timestamp, n1) := ReadVarint(b1);
      if n1 <= 0 || n1 > |b1| then Err(InvalidTimestamp)
      else
        var b2 := b1[n1..];
        var (bits, n2) := ReadUvarint(b2);
        if n2 <= 0 || n2 > |b2| then Err(InvalidValue)
        else
          var first := Sample(timestamp, bits);
          var rest := DecodedFrom(b2[n2..], count - 1, first, 0);
          if count > 1 && ReadVarint(b2[n2..]).1 <= 0 then Err(InvalidFirstDelta)
          else if rest.Err? then rest
          else Ok([first] + rest.value)
  }

  lemma DecodedNone(b: seq<Byte>, last: Sample, delta: int)
    ensures DecodedFrom(b, 0, last, delta) == Ok([])
  {
  }

  // One turn of the loop below.
  lemma DecodedStep(b: seq<Byte>, n: nat, last: Sample, delta: int)
    requires n > 0
    ensures ReadVarint(b).1 <= |b|
    ensures ReadVarint(b).1 <= 0 ==> DecodedFrom(b, n, last, delta) == Err(InvalidDeltaOfDelta)
    ensures ReadVarint(b).1 > 0 ==> ReadUvarint(b[ReadVarint(b).1..]).1 <= |b| - ReadVarint(b).1
    ensures ReadVarint(b).1 > 0 && ReadUvarint(b[ReadVarint(b).1..]).1 <= 0 ==> DecodedFrom(b, n, last, delta) == Err(InvalidXor)
    ensures ReadVarint(b).1 > 0 && ReadUvarint(b[ReadVarint(b).1..]).1 > 0 ==>
      var read := ReadVarint(b).1;
      var more := ReadUvarint(b[read..]).1;
      var next := Wrap(delta + ReadVarint(b).0);
      var s := Sample(Wrap(last.timestamp + next), Xor(last.bits, ReadUvarint(b[read..]).0));
      var rest := DecodedFrom(b[read..][more..], n - 1, s, next);
      DecodedFrom(b, n, last, delta) == if rest.Err? then rest else Ok([s] + rest.value)
  {
    hide Wrap, Xor, Uvarint, ReadVarint, ReadUvarint;
    ReadsWithin(b);
    if ReadVarint(b).1 > 0 {
      ReadsWithin(b[ReadVarint(b).1..]);
    }
  }

  lemma DecodedHead(b: seq<Byte>, count: nat, timestamp: int, bits: nat, n0: int, n1: int, n2: int)
    requires 0 < n0 <= |b| && ReadUvarint(b) == (count, n0) && count > 0
    requires 0 < n1 <= |b| - n0 && ReadVarint(b[n0..]) == (timestamp, n1)
    requires 0 < n2 <= |b| - n0 - n1 && ReadUvarint(b[n0..][n1..]) == (bits, n2)
    ensures var first := Sample(timestamp, bits);
      var rest := DecodedFrom(b[n0..][n1..][n2..], count - 1, first, 0);
      Decoded(b) == if count > 1 && ReadVarint(b[n0..][n1..][n2..]).1 <= 0 then Err(InvalidFirstDelta)
                    else if rest.Err? then rest else Ok([first] + rest.value)
  {
    hide Uvarint, DecodedFrom;
  }

  lemma PutBetween(x: seq<Sample>, s: Sample, y: seq<Sample>)
    ensures x + ([s] + y) == (x + [s]) + y
  {
  }

  method DecodeSamples(input: seq<Byte>) returns (r: Result<seq<Sample>, DecodeError>)
    ensures r == Decoded(input)
  {
    hide Uvarint, Wrap, Xor, DecodedFrom, ReadVarint, ReadUvarint;
    var encoded := input;
    ReadsWithin(encoded);
    var (count, read) := ReadUvarint(encoded);
    if read <= 0 {
      return Err(InvalidCount);
    }
    encoded := encoded[read..];
    if count == 0 {
      return Ok([]);
    }
    ReadsWithin(encoded);
    var (timestamp, read1) := ReadVarint(encoded);
    if read1 <= 0 {
      return Err(InvalidTimestamp);
    }
    encoded := encoded[read1..];
    ReadsWithin(encoded);
    var (bits, read2) := ReadUvarint(encoded);
    if read2 <= 0 {
      return Err(InvalidValue);
    }
    encoded := encoded[read2..];
    DecodedHead(input, count, timestamp, bits, read, read1, read2);
    var result := [Sample(timestamp, bits)];
    // The first difference is read like the later ones: the one before it is
    // zero.
    var delta := 0;
    for index := 1 to count
      invariant |result| == index
      invariant var rest := DecodedFrom(encoded, count - index, Sample(timestamp, bits), delta);
        Decoded(input) == if index == 1 < count && ReadVarint(encoded).1 <= 0 then Err(InvalidFirstDelta)
                          else if rest.Err? then rest else Ok(result + rest.value)
    {
      DecodedStep(encoded, count - index, Sample(timestamp, bits), delta);
      var (change, n) := ReadVarint(encoded);
      if n <= 0 {
        return Err(if index == 1 then InvalidFirstDelta else InvalidDeltaOfDelta);
      }
      ghost var before := encoded;
      encoded := encoded[n..];
      var (xor, more) := ReadUvarint(encoded);
      if more <= 0 {
        return Err(InvalidXor);
      }
      encoded := encoded[more..];
      delta := Wrap(delta + change);
      timestamp := Wrap(timestamp + delta);
      bits := Xor(bits, xor);
      ghost var rest := DecodedFrom(encoded, count - index - 1, Sample(timestamp, bits), delta);
      if rest.Ok? {
        PutBetween(result, Sample(timestamp, bits), rest.value);
      }
      result := result + [Sample(timestamp, bits)];
    }
    DecodedNone(encoded, Sample(timestamp, bits), delta);
    assert result + [] == result;
    r := Ok(result);
  }

  lemma ReadsWithin(b: seq<Byte>)
    ensures ReadUvarint(b).1 <= |b| && ReadVarint(b).1 <= |b|
  {
    UvarintReads(b, 0);
  }

  /******* The round trip *******/

  lemma XorOther(a: nat, b: nat)
    requires IsUint64(a) && IsUint64(b)
    ensures IsUint64(Xor(a, b)) && Xor(b, Xor(a, b)) == a
  {
    Xor64(a, b);
    XorCommutes(b, Xor(a, b));
  }

  lemma {:induction false} XorCommutes(a: nat, b: nat)
    ensures Xor(a, b) == Xor(b, a)
  {
    if a != 0 || b != 0 {
      XorCommutes(a / 2, b / 2);
    }
  }

  lemma {:induction false} DecodesFrom(s: seq<Sample>, k: nat, delta: int)
    requires SamplesOk(s) && 0 < k <= |s|
    ensures DecodedFrom(EncodedFrom(s, k, delta), |s| - k, s[k - 1], delta) == Ok(s[k..])
    decreases |s| - k
  {
    hide Wrap, Xor, Uvarint, PutUvarint, PutVarint, ReadVarint, ReadUvarint, DecodedFrom, EncodedFrom;
    if k == |s| {
      EncodedEnd(s, delta);
      DecodedNone([], s[k - 1], delta);
      assert s[|s|..] == [];
    } else {
      var next := Wrap(s[k].timestamp - s[k - 1].timestamp);
      var change, xor := Wrap(next - delta), Xor(s[k].bits, s[k - 1].bits);
      var rest := EncodedFrom(s, k + 1, next);
      EncodedStep(s, k, delta);
      XorOther(s[k].bits, s[k - 1].bits);
      VarintRoundTrip(change, PutUvarint(xor) + rest);
      UnsignedRoundTrip(xor, rest);
      WrapBack(next, delta);
      WrapBack(s[k].timestamp, s[k - 1].timestamp);
      DecodedStep(EncodedFrom(s, k, delta), |s| - k, s[k - 1], delta);
      PutNotEmpty(change, xor);
      DecodesFrom(s, k + 1, next);
      assert [s[k]] + s[k + 1..] == s[k..];
    }
  }

  lemma EncodedStep(s: seq<Sample>, k: nat, delta: int)
    requires 0 < k < |s|
    ensures var next := Wrap(s[k].timestamp - s[k - 1].timestamp);
      EncodedFrom(s, k, delta) == PutVarint(Wrap(next - delta)) + (PutUvarint(Xor(s[k].bits, s[k - 1].bits)) + EncodedFrom(s, k + 1, next))
  {
    hide PutUvarint, PutVarint, Xor, Wrap;
  }

  lemma PutNotEmpty(x: int, n: nat)
    ensures PutVarint(x) != [] && PutUvarint(n) != []
  {
  }

  // Decoding what was encoded gives the samples back, also where timestamps and
  // their differences wrap around.
  lemma DecodesEncoded(s: seq<Sample>)
    requires SamplesOk(s) && IsUint64(|s|)
    ensures Decoded(Encoded(s)) == Ok(s)
  {
    hide Uvarint, PutUvarint, Wrap, Xor, DecodedFrom, EncodedFrom;
    if s == [] {
      UnsignedRoundTrip(0, []);
      SmallNumber(0);
      assert PutUvarint(0) + [] == [0];
    } else {
      var r2 := EncodedFrom(s, 1, 0);
      var r1 := PutUvarint(s[0].bits) + r2;
      var r0 := PutVarint(s[0].timestamp) + r1;
      UnsignedRoundTrip(|s|, r0);
      VarintRoundTrip(s[0].timestamp, r1);
      UnsignedRoundTrip(s[0].bits, r2);
      DecodesFrom(s, 1, 0);
      if |s| > 1 {
        DecodedStep(r2, |s| - 1, s[0], 0);
      }
      assert [s[0]] + s[1..] == s;
    }
  }

  lemma SmallNumber(n: nat)
    requires n < 128
    ensures PutUvarint(n) == [n]
  {
  }

  // There is only one list of latest samples.
  lemma {:induction false} LatestUnique(x: seq<Sample>, y: seq<Sample>, input: seq<Sample>, k: nat)
    requires IsLatest(x, input) && IsLatest(y, input)
    ensures k <= |x| ==> k <= |y| && x[..k] == y[..k]
  {
    hide Of;
    if 0 < k <= |x| {
      LatestUnique(x, y, input, k - 1);
      NextLatest(x, y, input, k - 1);
      assert x[..k] == x[..k - 1] + [x[k - 1]];
    }
  }

  lemma NextLatest(x: seq<Sample>, y: seq<Sample>, input: seq<Sample>, k: nat)
    requires IsLatest(x, input) && IsLatest(y, input) && k < |x| && k <= |y| && x[..k] == y[..k]
    ensures k < |y| && x[k] == y[k]
  {
    hide Of;
    assert forall h :: 0 <= h < k ==> x[h] == x[..k][h] == y[..k][h] == y[h];
    var i := Holds(x, k, y, input);
    var j := Holds(y, k, x, input);
  }

  // A sample of one list is in the other.
  lemma Holds(x: seq<Sample>, k: nat, y: seq<Sample>, input: seq<Sample>) returns (i: nat)
    requires IsLatest(x, input) && IsLatest(y, input) && k < |x|
    ensures i < |y| && y[i] == x[k]
  {
    hide Of;
    var t := x[k].timestamp;
    assert x == x[..k] + [x[k]] + x[k + 1..];
    OfConcat(x[..k] + [x[k]], x[k + 1..], t);
    OfConcat(x[..k], [x[k]], t);
    OfOne(x[k], t);
    OfNone(x[..k], t);
    OfNone(x[k + 1..], t);
    assert Of(y, t) == [x[k]];
    i := FoundIn(y, t);
  }

  lemma {:induction false} FoundIn(s: seq<Sample>, t: int) returns (i: nat)
    requires Of(s, t) != []
    ensures i < |s| && s[i] in Of(s, t)
  {
    if s[|s| - 1].timestamp == t {
      i := |s| - 1;
      assert Of(s, t)[|Of(s, t)| - 1] == s[i];
    } else {
      i := FoundIn(s[..|s| - 1], t);
    }
  }
}
