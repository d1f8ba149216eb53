// Variable-length integers: seven bits a byte, least significant first.
module Varint {

  type Byte = x: int | 0 <= x < 256

  const TwoTo63 := 0x8000_0000_0000_0000
  const TwoTo64 := 0x1_0000_0000_0000_0000
  const MaxVarintLen := 10

  predicate IsInt64(x: int) {
    -TwoTo63 <= x < TwoTo63
  }

  predicate IsUint64(x: int) {
    0 <= x < TwoTo64
  }

  function PutUvarint(n: nat): (b: seq<Byte>)
    ensures b != []
  {
    if n < 128 then [n] else [n % 128 + 128] + PutUvarint(n / 128)
  }

  // The number buf starts with, and how many bytes it takes. The count is not
  // positive when buf ends too early or the number exceeds 64 bits. i counts the
  // bytes already read.
  function Uvarint(buf: seq<Byte>, i: nat): (r: (nat, int))
    decreases |buf|
  {
    if buf == [] then (0, 0)
    else if i == MaxVarintLen then (0, -(i + 1))
    else if buf[0] < 128 then
      if i == MaxVarintLen - 1 && buf[0] > 1 then (0, -(i + 1)) else (buf[0], i + 1)
    else
      var (high, n) := Uvarint(buf[1..], i + 1);
      if n <= 0 then (0, n) else (buf[0] - 128 + 128 * high, n)
  }

  lemma {:induction false} UvarintReads(buf: seq<Byte>, i: nat)
    ensures Uvarint(buf, i).1 <= i + |buf|
    ensures Uvarint(buf, i).1 > 0 ==> Uvarint(buf, i).1 > i
    decreases |buf|
  {
    if buf != [] && i != MaxVarintLen && buf[0] >= 128 {
      UvarintReads(buf[1..], i + 1);
    }
  }

  // How large a number may be whose first i bytes of ten are taken.
  function Room(i: nat): nat {
    if i == 0 then TwoTo64 else (Room(i - 1) + 127) / 128
  }

  lemma RoomNine()
    ensures Room(9) == 2
  {
    assert Room(3) == 0x8_0000_0000_00;
    assert Room(6) == 0x400_000;
  }

  lemma RoomNext(n: nat, i: nat)
    requires n < Room(i)
    ensures n / 128 < Room(i + 1)
  {
  }

  // Every 64-bit number is read back, whatever follows it.
  lemma {:induction false} UvarintRoundTrip(n: nat, i: nat, rest: seq<Byte>)
    requires i <= 9 && n < Room(i)
    ensures Uvarint(PutUvarint(n) + rest, i) == (n, i + |PutUvarint(n)|)
    decreases n
  {
    hide Room;
    RoomNine();
    if n < 128 {
      assert (PutUvarint(n) + rest)[0] == n;
    } else {
      var tail := PutUvarint(n / 128);
      assert (PutUvarint(n) + rest)[1..] == tail + rest;
      RoomNext(n, i);
      UvarintRoundTrip(n / 128, i + 1, rest);
    }
  }

  // Signed numbers alternate: 0, -1, 1, -2, and so on.
  function ZigZag(x: int): nat {
    if x >= 0 then 2 * x else -2 * x - 1
  }

  function UnZigZag(n: nat): int {
    if n % 2 == 0 then n / 2 else -(n / 2) - 1
  }

  function PutVarint(x: int): seq<Byte> {
    PutUvarint(ZigZag(x))
  }

  function ReadVarint(buf: seq<Byte>): (int, int) {
    var (n, read) := Uvarint(buf, 0);
    (UnZigZag(n), read)
  }

  function ReadUvarint(buf: seq<Byte>): (nat, int) {
    Uvarint(buf, 0)
  }

  lemma VarintRoundTrip(x: int, rest: seq<Byte>)
    requires IsInt64(x)
    ensures ReadVarint(PutVarint(x) + rest) == (x, |PutVarint(x)|)
    ensures (PutVarint(x) + rest)[|PutVarint(x)|..] == rest
  {
    assert Room(0) == TwoTo64;
    UvarintRoundTrip(ZigZag(x), 0, rest);
  }

  lemma UnsignedRoundTrip(n: nat, rest: seq<Byte>)
    requires IsUint64(n)
    ensures ReadUvarint(PutUvarint(n) + rest) == (n, |PutUvarint(n)|)
    ensures (PutUvarint(n) + rest)[|PutUvarint(n)|..] == rest
  {
    assert Room(0) == TwoTo64;
    UvarintRoundTrip(n, 0, rest);
  }
}
