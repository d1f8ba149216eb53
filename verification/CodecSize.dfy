// How many bytes samples take: two each, as long as they come evenly and their
// values hardly change.
module CodecSize {
  import opened Varint
  import opened Codec

  function Power128(k: nat): nat { if k == 0 then 1 else 128 * Power128(k - 1) }

  // A number takes as few bytes as hold its digits of seven bits.
  lemma {:induction false} FewestBytes(n: nat, k: nat)
    requires k > 0
    ensures |PutUvarint(n)| <= k <==> n < Power128(k)
    decreases k
  {
    if k == 1 {
      assert Power128(1) == 128;
    } else if n < 128 {
      AtLeast128(k);
    } else {
      FewestBytes(n / 128, k - 1);
    }
  }

  lemma {:induction false} AtLeast128(k: nat)
    requires k > 0
    ensures Power128(k) >= 128
  {
    if k > 1 {
      AtLeast128(k - 1);
    }
  }

  lemma OneByte(n: nat)
    ensures |PutUvarint(n)| == 1 <==> n < 128
  {
    FewestBytes(n, 1);
    assert Power128(1) == 128;
  }

  // How much longer sample k took to come than the one before it.
  function Change(s: seq<Sample>, k: nat): int
    requires 0 < k < |s|
  {
    Wrap(Wrap(s[k].timestamp - s[k - 1].timestamp) - Before(s, k))
  }

  function Before(s: seq<Sample>, k: nat): int
    requires 0 < k <= |s|
  {
    if k == 1 then 0 else Wrap(s[k - 1].timestamp - s[k - 2].timestamp)
  }

  predicate Even(s: seq<Sample>, k: nat)
    requires 0 < k < |s|
  {
    -64 <= Change(s, k) < 64 && Xor(s[k].bits, s[k - 1].bits) < 128
  }

  predicate EvenFrom(s: seq<Sample>, k: nat)
    requires k > 0
  {
    forall j :: k <= j < |s| ==> Even(s, j)
  }

  lemma SampleSize(s: seq<Sample>, k: nat)
    requires 0 < k < |s|
    ensures var size := |PutVarint(Change(s, k))| + |PutUvarint(Xor(s[k].bits, s[k - 1].bits))|;
      size >= 2 && (size == 2 <==> Even(s, k))
  {
    hide PutUvarint, Xor, Change;
    OneByte(ZigZag(Change(s, k)));
    OneByte(Xor(s[k].bits, s[k - 1].bits));
  }

  lemma SizeNext(s: seq<Sample>, k: nat)
    requires 0 < k < |s|
    ensures |EncodedFrom(s, k, Before(s, k))|
         == |PutVarint(Change(s, k))| + |PutUvarint(Xor(s[k].bits, s[k - 1].bits))| + |EncodedFrom(s, k + 1, Before(s, k + 1))|
  {
    hide PutUvarint, PutVarint, Xor, Wrap;
  }

  lemma {:induction false} SizeFrom(s: seq<Sample>, k: nat)
    requires 0 < k <= |s|
    ensures var size := |EncodedFrom(s, k, Before(s, k))|;
      size >= 2 * (|s| - k) && (size == 2 * (|s| - k) <==> EvenFrom(s, k))
    decreases |s| - k
  {
    hide PutUvarint, PutVarint, Xor, Wrap, Even, EvenFrom, Change, Before, EncodedFrom;
    EvenNext(s, k);
    if k < |s| {
      SizeFrom(s, k + 1);
      SizeNext(s, k);
      SampleSize(s, k);
    } else {
      NothingLeft(s, Before(s, k));
    }
  }

  lemma EvenNext(s: seq<Sample>, k: nat)
    requires 0 < k <= |s|
    ensures EvenFrom(s, k) <==> k == |s| || (Even(s, k) && EvenFrom(s, k + 1))
  {
    hide Even;
  }

  lemma NothingLeft(s: seq<Sample>, delta: int)
    requires s != []
    ensures EncodedFrom(s, |s|, delta) == []
  {
  }

  // What is written before the second sample.
  function HeadSize(s: seq<Sample>): nat
    requires s != []
  {
    |PutUvarint(|s|)| + |PutVarint(s[0].timestamp)| + |PutUvarint(s[0].bits)|
  }

  // After the first, samples take two bytes each at least, and exactly two if and
  // only if every interval is within about 64 of the one before it and every value
  // differs from the one before it in the last seven bits at most.
  lemma TwoBytesEach(s: seq<Sample>)
    requires s != []
    ensures |Encoded(s)| >= HeadSize(s) + 2 * (|s| - 1)
    ensures |Encoded(s)| == HeadSize(s) + 2 * (|s| - 1) <==> EvenFrom(s, 1)
  {
    hide PutUvarint, PutVarint, Even, EncodedFrom;
    SizeFrom(s, 1);
  }

  // A metric read at a fixed interval that never changes.
  lemma SteadyTakesTwo(s: seq<Sample>, k: nat, step: int)
    requires 2 <= k < |s| && IsInt64(step)
    requires s[k].timestamp - s[k - 1].timestamp == step == s[k - 1].timestamp - s[k - 2].timestamp && s[k].bits == s[k - 1].bits
    ensures Even(s, k)
  {
    hide Xor;
    XorSame(s[k].bits);
  }

  lemma {:induction false} XorSame(a: nat)
    ensures Xor(a, a) == 0
  {
    if a != 0 {
      XorSame(a / 2);
    }
  }
}
