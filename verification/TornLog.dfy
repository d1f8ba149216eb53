// Files of records, one a line, each with a checksum. A crash may leave the last
// line unfinished; nothing else may be wrong.
module TornLog {
  import opened Results
  import opened Varint

  const Newline: Byte := 10
  const Space: Byte := 32
  const CrcWidth := 8

  type Bytes = seq<Byte>

  /******* Hexadecimal *******/

  function Digit(d: nat): Byte
    requires d < 16
  {
    if d < 10 then 48 + d else 87 + d
  }

  function DigitValue(b: Byte): Option<nat> {
    if 48 <= b <= 57 then Some(b - 48)
    else if 97 <= b <= 102 then Some(b - 87)
    else if 65 <= b <= 70 then Some(b - 55)
    else None
  }

  // The last width digits of n, most significant first.
  function Hex(n: nat, width: nat): (h: Bytes)
    ensures |h| == width
    ensures forall k :: 0 <= k < width ==> h[k] != Newline
  {
    if width == 0 then [] else Hex(n / 16, width - 1) + [Digit(n % 16)]
  }

  function ParseHex(b: Bytes): Option<nat> {
    if b == [] then Some(0)
    else
      var high, low := ParseHex(b[..|b| - 1]), DigitValue(b[|b| - 1]);
      if high.None? || low.None? then None else Some(16 * high.value + low.value)
  }

  function Power16(k: nat): nat {
    if k == 0 then 1 else 16 * Power16(k - 1)
  }

  lemma {:induction false} HexRoundTrip(n: nat, width: nat)
    requires n < Power16(width)
    ensures ParseHex(Hex(n, width)) == Some(n)
  {
    if width > 0 {
      HexRoundTrip(n / 16, width - 1);
      var h := Hex(n, width);
      assert h[..width - 1] == Hex(n / 16, width - 1) && h[width - 1] == Digit(n % 16);
    }
  }

  /******* Lines *******/

  // The checksum is any function into 32 bits.
  ghost predicate IsCrc(crc: Bytes -> nat) {
    forall b :: crc(b) < 0x1_0000_0000
  }

  predicate Loggable(payload: Bytes) {
    payload != [] && Newline !in payload
  }

  function Line(crc: Bytes -> nat, payload: Bytes): Bytes {
    Hex(crc(payload), CrcWidth) + [Space] + payload + [Newline]
  }

  function Lines(crc: Bytes -> nat, records: seq<Bytes>): Bytes {
    if records == [] then [] else Line(crc, records[0]) + Lines(crc, records[1..])
  }

  function CheckLine(crc: Bytes -> nat, line: Bytes): Option<Bytes> {
    if |line| < CrcWidth + 2 || line[CrcWidth] != Space then None
    else
      var want := ParseHex(line[..CrcWidth]);
      if want.None? || crc(line[CrcWidth + 1..]) != want.value then None
      else Some(line[CrcWidth + 1..])
  }

  lemma LineChecks(crc: Bytes -> nat, payload: Bytes)
    requires IsCrc(crc) && Loggable(payload)
    ensures var line := Line(crc, payload);
      && |line| > CrcWidth + 2 && line[|line| - 1] == Newline && Newline !in line[..|line| - 1]
      && CheckLine(crc, line[..|line| - 1]) == Some(payload)
  {
    hide Hex, ParseHex;
    var h, line := Hex(crc(payload), CrcWidth), Line(crc, payload);
    HexWide(crc(payload));
    var body := line[..|line| - 1];
    assert body == h + [Space] + payload;
    assert body[..CrcWidth] == h && body[CrcWidth] == Space && body[CrcWidth + 1..] == payload;
  }

  lemma HexWide(n: nat)
    requires n < 0x1_0000_0000
    ensures ParseHex(Hex(n, CrcWidth)) == Some(n)
  {
    hide Hex, ParseHex;
    assert Power16(4) == 0x1_0000;
    assert Power16(8) == 0x1_0000_0000;
    HexRoundTrip(n, CrcWidth);
  }

  /******* Reading *******/

  datatype Contents = Contents(records: seq<Bytes>, offset: nat)

  // The line at this offset is bad, and complete.
  datatype Corruption = Corrupt(at: nat)

  // Where the first line ends.
  function LineEnd(b: Bytes): (n: nat)
    ensures n <= |b|
    ensures forall k :: 0 <= k < n ==> b[k] != Newline
    ensures n < |b| ==> b[n] == Newline
  {
    if b == [] || b[0] == Newline then 0
    else
      var rest := LineEnd(b[1..]);
      assert forall k :: 0 < k < 1 + rest ==> b[k] == b[1..][k - 1];
      1 + rest
  }

  // The valid records of a file and where they end.
  function ReadFrom(crc: Bytes -> nat, b: Bytes, offset: nat): Result<Contents, Corruption>
    decreases |b|
  {
    var n := LineEnd(b);
    if n == |b| then Ok(Contents([], offset))
    else
      var payload := CheckLine(crc, b[..n]);
      if payload.None? then
        (if n + 1 == |b| then Ok(Contents([], offset)) else Err(Corrupt(offset)))
      else
        var rest := ReadFrom(crc, b[n + 1..], offset + n + 1);
        if rest.Err? then rest else Ok(Contents([payload.value] + rest.value.records, rest.value.offset))
  }

  function Read(crc: Bytes -> nat, file: Bytes): Result<Contents, Corruption> {
    ReadFrom(crc, file, 0)
  }

  // One line of a file.
  lemma ReadStep(crc: Bytes -> nat, b: Bytes, offset: nat)
    ensures LineEnd(b) == |b| ==> ReadFrom(crc, b, offset) == Ok(Contents([], offset))
    ensures LineEnd(b) < |b| && CheckLine(crc, b[..LineEnd(b)]).None? ==>
      ReadFrom(crc, b, offset) == if LineEnd(b) + 1 == |b| then Ok(Contents([], offset)) else Err(Corrupt(offset))
    ensures LineEnd(b) < |b| && CheckLine(crc, b[..LineEnd(b)]).Some? ==>
      var payload := CheckLine(crc, b[..LineEnd(b)]).value;
      var rest := ReadFrom(crc, b[LineEnd(b) + 1..], offset + LineEnd(b) + 1);
      ReadFrom(crc, b, offset) == if rest.Err? then rest else Ok(Contents([payload] + rest.value.records, rest.value.offset))
  {
    hide CheckLine, LineEnd;
  }

  lemma LineEndAt(line: Bytes, rest: Bytes)
    requires line != [] && line[|line| - 1] == Newline && Newline !in line[..|line| - 1]
    ensures LineEnd(line + rest) == |line| - 1
  {
    var b, n := line + rest, LineEnd(line + rest);
    assert b[|line| - 1] == Newline;
    assert forall k :: 0 <= k < |line| - 1 ==> b[k] == line[..|line| - 1][k];
  }

  lemma LineEndNone(tail: Bytes)
    requires Newline !in tail
    ensures LineEnd(tail) == |tail|
  {
  }

  // A file of whole lines and an unfinished one reads as the whole lines.
  lemma {:induction false} ReadLines(crc: Bytes -> nat, records: seq<Bytes>, tail: Bytes, offset: nat)
    requires IsCrc(crc) && (forall k :: 0 <= k < |records| ==> Loggable(records[k])) && Newline !in tail
    ensures ReadFrom(crc, Lines(crc, records) + tail, offset) == Ok(Contents(records, offset + |Lines(crc, records)|))
    decreases |records|
  {
    hide Line, LineEnd, ReadFrom, Lines;
    LinesParts(crc, records);
    if records == [] {
      assert [] + tail == tail;
      LineEndNone(tail);
      ReadStep(crc, tail, offset);
    } else {
      var line, more := Line(crc, records[0]), Lines(crc, records[1..]);
      ReadLine(crc, records[0], more + tail, offset);
      ReadLines(crc, records[1..], tail, offset + |line|);
      assert (line + more) + tail == line + (more + tail);
      assert [records[0]] + records[1..] == records;
    }
  }

  lemma LinesParts(crc: Bytes -> nat, records: seq<Bytes>)
    ensures Lines(crc, records) == if records == [] then [] else Line(crc, records[0]) + Lines(crc, records[1..])
  {
  }

  lemma ReadLine(crc: Bytes -> nat, payload: Bytes, rest: Bytes, offset: nat)
    requires IsCrc(crc) && Loggable(payload)
    ensures var line := Line(crc, payload); var r := ReadFrom(crc, rest, offset + |line|);
      ReadFrom(crc, line + rest, offset) == if r.Err? then r else Ok(Contents([payload] + r.value.records, r.value.offset))
  {
    hide Line, CheckLine, LineEnd, ReadFrom;
    var line := Line(crc, payload);
    LineChecks(crc, payload);
    LineEndAt(line, rest);
    Skipped(line, rest);
    ReadStep(crc, line + rest, offset);
  }

  lemma Skipped(line: Bytes, rest: Bytes)
    requires line != []
    ensures (line + rest)[..|line| - 1] == line[..|line| - 1] && (line + rest)[|line| - 1 + 1..] == rest
  {
  }

  lemma {:induction false} LinesConcat(crc: Bytes -> nat, x: seq<Bytes>, y: seq<Bytes>)
    ensures Lines(crc, x + y) == Lines(crc, x) + Lines(crc, y)
    decreases |x|
  {
    hide Line;
    if x == [] {
      assert x + y == y;
    } else {
      assert (x + y)[1..] == x[1..] + y;
      LinesConcat(crc, x[1..], y);
    }
  }

  // How many lines lie within the first n bytes.
  function WholeLines(crc: Bytes -> nat, records: seq<Bytes>, n: nat): (k: nat)
    ensures k <= |records|
  {
    if records == [] || n < |Line(crc, records[0])| then 0
    else 1 + WholeLines(crc, records[1..], n - |Line(crc, records[0])|)
  }

  // Any first part of a file is whole lines and part of the next.
  lemma {:induction false} CutAnywhere(crc: Bytes -> nat, records: seq<Bytes>, n: nat) returns (tail: Bytes)
    requires IsCrc(crc) && (forall k :: 0 <= k < |records| ==> Loggable(records[k])) && n <= |Lines(crc, records)|
    ensures var k := WholeLines(crc, records, n);
      && Lines(crc, records)[..n] == Lines(crc, records[..k]) + tail && Newline !in tail
      && (k < |records| ==> |tail| < |Line(crc, records[k])|)
      && (k == |records| ==> tail == [])
  {
    hide Line;
    if records == [] {
      tail := [];
    } else {
      var line, more := Line(crc, records[0]), Lines(crc, records[1..]);
      if n < |line| {
        LineChecks(crc, records[0]);
        tail := line[..n];
        assert Lines(crc, records)[..n] == tail;
        assert forall b :: b in tail ==> b in line[..|line| - 1];
        assert records[..0] == [];
        assert Lines(crc, []) + tail == tail;
      } else {
        tail := CutAnywhere(crc, records[1..], n - |line|);
        var k := WholeLines(crc, records[1..], n - |line|);
        assert records[..k + 1][1..] == records[1..][..k];
        assert Lines(crc, records)[..n] == line + more[..n - |line|];
      }
    }
  }

  // However much of the file survives, reading yields exactly the records whose
  // whole line is there and where they end, and never reports corruption.
  lemma TornRead(crc: Bytes -> nat, records: seq<Bytes>, n: nat)
    requires IsCrc(crc) && (forall k :: 0 <= k < |records| ==> Loggable(records[k])) && n <= |Lines(crc, records)|
    ensures var k := WholeLines(crc, records, n);
      Read(crc, Lines(crc, records)[..n]) == Ok(Contents(records[..k], |Lines(crc, records[..k])|))
  {
    hide Line, ReadFrom;
    var k := WholeLines(crc, records, n);
    var tail := CutAnywhere(crc, records, n);
    ReadLines(crc, records[..k], tail, 0);
  }

  // Cutting the torn tail off and appending gives a file of both.
  lemma TornThenAppend(crc: Bytes -> nat, records: seq<Bytes>, n: nat, more: seq<Bytes>)
    requires IsCrc(crc) && (forall k :: 0 <= k < |records| ==> Loggable(records[k])) && n <= |Lines(crc, records)|
    requires forall k :: 0 <= k < |more| ==> Loggable(more[k])
    ensures var file := Lines(crc, records)[..n]; var k := WholeLines(crc, records, n);
      && Read(crc, file).Ok? && Read(crc, file).value.offset <= |file|
      && Read(crc, file[..Read(crc, file).value.offset] + Lines(crc, more))
         == Ok(Contents(records[..k] + more, |Lines(crc, records[..k] + more)|))
  {
    hide Line, ReadFrom;
    var k, file := WholeLines(crc, records, n), Lines(crc, records)[..n];
    var tail := CutAnywhere(crc, records, n);
    TornRead(crc, records, n);
    assert file[..|Lines(crc, records[..k])|] == Lines(crc, records[..k]);
    LinesConcat(crc, records[..k], more);
    ReadLines(crc, records[..k] + more, [], 0);
    assert Lines(crc, records[..k] + more) + [] == Lines(crc, records[..k] + more);
  }

  ghost predicate ReadSoFar(crc: Bytes -> nat, file: Bytes, records: seq<Bytes>, offset: nat) {
    && offset <= |file|
    && var rest := ReadFrom(crc, file[offset..], offset);
       Read(crc, file) == if rest.Err? then rest else Ok(Contents(records + rest.value.records, rest.value.offset))
  }

  lemma ReadStarts(crc: Bytes -> nat, file: Bytes)
    ensures ReadSoFar(crc, file, [], 0)
  {
    hide ReadFrom;
    assert file[0..] == file;
    assert Read(crc, file).Ok? ==> [] + Read(crc, file).value.records == Read(crc, file).value.records;
  }

  lemma ReadMore(crc: Bytes -> nat, file: Bytes, records: seq<Bytes>, offset: nat)
    requires ReadSoFar(crc, file, records, offset)
    ensures var b := file[offset..]; var n := LineEnd(b);
      && (n == |b| ==> Read(crc, file) == Ok(Contents(records, offset)))
      && (n < |b| && CheckLine(crc, b[..n]).None? ==>
            Read(crc, file) == if n + 1 == |b| then Ok(Contents(records, offset)) else Err(Corrupt(offset)))
      && (n < |b| && CheckLine(crc, b[..n]).Some? ==> ReadSoFar(crc, file, records + [CheckLine(crc, b[..n]).value], offset + n + 1))
  {
    hide ReadFrom, CheckLine, LineEnd, Read;
    var b := file[offset..];
    var n := LineEnd(b);
    ReadStep(crc, b, offset);
    assert records + [] == records;
    if n < |b| && CheckLine(crc, b[..n]).Some? {
      var payload := CheckLine(crc, b[..n]).value;
      var rest := ReadFrom(crc, b[n + 1..], offset + n + 1);
      assert file[offset + n + 1..] == b[n + 1..];
      if rest.Ok? {
        assert records + ([payload] + rest.value.records) == records + [payload] + rest.value.records;
      }
    }
  }

  // Reads a file line by line.
  method ReadRecords(crc: Bytes -> nat, file: Bytes) returns (r: Result<Contents, Corruption>)
    ensures r == Read(crc, file)
  {
    hide CheckLine, LineEnd, Read, ReadSoFar;
    var records: seq<Bytes>, offset: nat := [], 0;
    ReadStarts(crc, file);
    while true
      invariant offset <= |file| && ReadSoFar(crc, file, records, offset)
      decreases |file| - offset
    {
      ReadMore(crc, file, records, offset);
      var b := file[offset..];
      var n := LineEnd(b);
      if n == |b| {
        return Ok(Contents(records, offset));
      }
      var payload := CheckLine(crc, b[..n]);
      if payload.None? {
        if n + 1 == |b| {
          return Ok(Contents(records, offset));
        }
        return Err(Corrupt(offset));
      }
      records := records + [payload.value];
      offset := offset + n + 1;
    }
  }

  /******* The log of one document *******/

  // An open log. size is how much of the file is known to be durable.
  class FileLog {
    const crc: Bytes -> nat
    var file: Bytes
    var size: nat

    ghost predicate Valid()
      reads this
    {
      size <= |file|
    }

    constructor (crc: Bytes -> nat, file: Bytes, valid: nat)
      requires valid <= |file|
      ensures Valid() && this.crc == crc && this.file == file[..valid] && size == valid
    {
      this.crc, this.file, size := crc, file[..valid], valid;
    }

    // Writes records with one write. The write may stop short or fail to become
    // durable, and taking it back may fail too: written, synced and truncated say
    // how it went.
    method Append(records: seq<Bytes>, written: nat, synced: bool, truncated: bool) returns (ok: bool)
      requires Valid()
      requires synced ==> written >= |Lines(crc, records)|
      modifies this`file, this`size
      ensures Valid()
      ensures ok <==> records == [] || ((forall k :: 0 <= k < |records| ==> Newline !in records[k]) && synced)
      ensures ok ==> file == old(file) + Lines(crc, records) && size == old(size) + |Lines(crc, records)|
      ensures !ok ==> size == old(size)
      ensures !ok && (exists k :: 0 <= k < |records| && Newline in records[k]) ==> file == old(file)
      ensures !ok && (forall k :: 0 <= k < |records| ==> Newline !in records[k]) ==>
        if truncated then file == old(file)[..size]
        else exists n :: 0 <= n <= |Lines(crc, records)| && file == old(file) + Lines(crc, records)[..n]
    {
      hide Line;
      if |records| == 0 {
        assert file + Lines(crc, records) == file;
        return true;
      }
      var buffer: Bytes := [];
      for k := 0 to |records|
        invariant buffer + Lines(crc, records[k..]) == Lines(crc, records)
        invariant forall j :: 0 <= j < k ==> Newline !in records[j]
      {
        if Newline in records[k] {
          return false;
        }
        assert records[k..][0] == records[k] && records[k..][1..] == records[k + 1..];
        assert buffer + (Line(crc, records[k]) + Lines(crc, records[k + 1..])) == buffer + Line(crc, records[k]) + Lines(crc, records[k + 1..]);
        buffer := buffer + Line(crc, records[k]);
      }
      assert records[|records|..] == [] && buffer == Lines(crc, records);
      var part := if written < |buffer| then written else |buffer|;
      file := file + buffer[..part];
      if !synced {
        if truncated {
          file := file[..size];
        }
        return false;
      }
      assert buffer[..part] == buffer;
      size := size + |buffer|;
      ok := true;
    }
  }

  // Opens a log: its valid records, with a torn tail cut off.
  method OpenFileLog(crc: Bytes -> nat, file: Bytes) returns (r: Result<(FileLog, seq<Bytes>), Corruption>)
    ensures r.Ok? <==> Read(crc, file).Ok?
    ensures r.Ok? ==>
      && fresh(r.value.0) && r.value.0.Valid() && r.value.0.crc == crc && r.value.0.size == |r.value.0.file|
      && r.value.1 == Read(crc, file).value.records
      && Read(crc, file).value.offset <= |file| && r.value.0.file == file[..Read(crc, file).value.offset]
  {
    hide ReadFrom;
    var read := ReadRecords(crc, file);
    if read.Err? {
      return Err(read.error);
    }
    OffsetWithin(crc, file, 0);
    var log := new FileLog(crc, file, read.value.offset);
    r := Ok((log, read.value.records));
  }

  lemma {:induction false} OffsetWithin(crc: Bytes -> nat, b: Bytes, offset: nat)
    ensures var r := ReadFrom(crc, b, offset); r.Ok? ==> offset <= r.value.offset <= offset + |b|
    decreases |b|
  {
    hide CheckLine;
    var n := LineEnd(b);
    if n < |b| && CheckLine(crc, b[..n]).Some? {
      OffsetWithin(crc, b[n + 1..], offset + n + 1);
    }
  }
}
