// What a log file must look like to be read: whole lines that carry their own
// checksum, and at most one bad line at the very end.
module LogDamage {
  import opened Results
  import opened TornLog

  // A whole line with this payload and a number in front of it that is the
  // payload's checksum.
  ghost predicate Signed(crc: Bytes -> nat, line: Bytes, payload: Bytes) {
    && payload != [] && Newline !in payload
    && exists sum: Bytes :: SignedBy(crc, line, payload, sum)
  }

  ghost predicate SignedBy(crc: Bytes -> nat, line: Bytes, payload: Bytes, sum: Bytes) {
    |sum| == CrcWidth && Newline !in sum && ParseHex(sum) == Some(crc(payload)) && line == sum + [Space] + payload + [Newline]
  }

  ghost predicate Unsigned(crc: Bytes -> nat, line: Bytes) {
    forall payload :: !Signed(crc, line, payload)
  }

  ghost predicate WholeLine(line: Bytes) {
    line != [] && line[|line| - 1] == Newline && Newline !in line[..|line| - 1]
  }

  // Whole lines signed for these records, one after the other.
  ghost predicate SignedLines(crc: Bytes -> nat, b: Bytes, records: seq<Bytes>)
    decreases |records|
  {
    if records == [] then b == []
    else exists n: nat :: n <= |b| && Signed(crc, b[..n], records[0]) && SignedLines(crc, b[n..], records[1..])
  }

  ghost predicate AllSigned(crc: Bytes -> nat, b: Bytes) {
    exists records :: SignedLines(crc, b, records)
  }

  // What a crash may leave behind: part of a line, or a line that is not signed.
  ghost predicate Unfinished(crc: Bytes -> nat, tail: Bytes) {
    Newline !in tail || (WholeLine(tail) && Unsigned(crc, tail))
  }

  // A whole line that is not signed, with something behind it.
  ghost predicate Damaged(crc: Bytes -> nat, tail: Bytes) {
    exists n: nat :: n < |tail| && WholeLine(tail[..n]) && Unsigned(crc, tail[..n])
  }

  /******* One line *******/

  lemma NoNewlineInDigits(sum: Bytes)
    requires ParseHex(sum).Some?
    ensures Newline !in sum
  {
    if sum != [] {
      NoNewlineInDigits(sum[..|sum| - 1]);
      assert sum == sum[..|sum| - 1] + [sum[|sum| - 1]];
    }
  }

  lemma CheckedIsSigned(crc: Bytes -> nat, line: Bytes)
    requires WholeLine(line) && CheckLine(crc, line[..|line| - 1]).Some?
    ensures Signed(crc, line, CheckLine(crc, line[..|line| - 1]).value)
  {
    hide ParseHex;
    var body := line[..|line| - 1];
    var sum, payload := body[..CrcWidth], body[CrcWidth + 1..];
    NoNewlineInDigits(sum);
    assert body == sum + [Space] + payload;
    assert line == body + [Newline];
    assert forall b :: b in payload ==> b in body;
    assert SignedBy(crc, line, payload, sum);
  }

  lemma SignedIsChecked(crc: Bytes -> nat, line: Bytes, payload: Bytes)
    requires Signed(crc, line, payload)
    ensures WholeLine(line) && CheckLine(crc, line[..|line| - 1]) == Some(payload)
  {
    hide ParseHex;
    var sum: Bytes :| SignedBy(crc, line, payload, sum);
    var body := line[..|line| - 1];
    assert body == sum + [Space] + payload;
    assert body[..CrcWidth] == sum && body[CrcWidth] == Space && body[CrcWidth + 1..] == payload;
  }

  // Where the first line ends decides what the rest is.
  lemma FirstLine(b: Bytes)
    ensures var n := LineEnd(b);
      && (n == |b| <==> Newline !in b)
      && (n < |b| ==> WholeLine(b[..n + 1]) && b[..n + 1][..n] == b[..n])
    ensures forall n: nat :: 0 < n <= |b| && WholeLine(b[..n]) ==> LineEnd(b) == n - 1
  {
    hide WholeLine;
    var n := LineEnd(b);
    if n < |b| {
      assert b[n] in b;
      EndsWhole(b, n);
    }
    forall m: nat | 0 < m <= |b| && WholeLine(b[..m]) ensures n == m - 1 {
      OnlyEnd(b, m);
    }
  }

  lemma EndsWhole(b: Bytes, n: nat)
    requires n < |b| && b[n] == Newline && forall k :: 0 <= k < n ==> b[k] != Newline
    ensures WholeLine(b[..n + 1]) && b[..n + 1][..n] == b[..n]
  {
    assert b[..n + 1][..n] == b[..n];
  }

  lemma OnlyEnd(b: Bytes, m: nat)
    requires 0 < m <= |b| && WholeLine(b[..m])
    ensures LineEnd(b) == m - 1
  {
    assert b[..m][m - 1] == b[m - 1];
    assert forall k :: 0 <= k < m - 1 ==> b[..m][..m - 1][k] == b[k];
  }

  // Only the first line of a file decides whether all of it is signed.
  lemma SignedFirst(crc: Bytes -> nat, b: Bytes, record: Bytes, records: seq<Bytes>)
    ensures SignedLines(crc, b, [record] + records) <==>
      && LineEnd(b) < |b| && CheckLine(crc, b[..LineEnd(b)]) == Some(record)
      && SignedLines(crc, b[LineEnd(b) + 1..], records)
  {
    hide LineEnd, CheckLine, Signed;
    FirstLine(b);
    var n := LineEnd(b);
    assert ([record] + records)[1..] == records;
    if SignedLines(crc, b, [record] + records) {
      var m: nat :| m <= |b| && Signed(crc, b[..m], record) && SignedLines(crc, b[m..], records);
      SignedIsChecked(crc, b[..m], record);
      assert m == n + 1;
    }
    if n < |b| && CheckLine(crc, b[..n]) == Some(record) && SignedLines(crc, b[n + 1..], records) {
      CheckedIsSigned(crc, b[..n + 1]);
    }
  }

  lemma BadLine(crc: Bytes -> nat, b: Bytes)
    requires LineEnd(b) < |b|
    ensures CheckLine(crc, b[..LineEnd(b)]).None? <==> Unsigned(crc, b[..LineEnd(b) + 1])
  {
    hide LineEnd, CheckLine, Signed;
    FirstLine(b);
    var line := b[..LineEnd(b) + 1];
    if CheckLine(crc, b[..LineEnd(b)]).Some? {
      CheckedIsSigned(crc, line);
    } else {
      forall payload ensures !Signed(crc, line, payload) {
        if Signed(crc, line, payload) {
          SignedIsChecked(crc, line, payload);
        }
      }
    }
  }

  lemma Tails(crc: Bytes -> nat, b: Bytes)
    ensures Unfinished(crc, b) <==> LineEnd(b) == |b| || (LineEnd(b) + 1 == |b| && CheckLine(crc, b[..LineEnd(b)]).None?)
    ensures Damaged(crc, b) <==> LineEnd(b) + 1 < |b| && CheckLine(crc, b[..LineEnd(b)]).None?
  {
    hide LineEnd, CheckLine, Signed;
    FirstLine(b);
    var n := LineEnd(b);
    assert b[..|b|] == b;
    if n < |b| {
      BadLine(crc, b);
    }
    if Damaged(crc, b) {
      var m: nat :| m < |b| && WholeLine(b[..m]) && Unsigned(crc, b[..m]);
      assert m == n + 1;
    }
  }

  /******* Whole files *******/

  lemma {:induction false} ReadsFrom(crc: Bytes -> nat, b: Bytes, offset: nat, records: seq<Bytes>, end: nat)
    requires end <= |b|
    ensures ReadFrom(crc, b, offset) == Ok(Contents(records, offset + end)) <==> SignedLines(crc, b[..end], records) && Unfinished(crc, b[end..])
    decreases |b|
  {
    hide LineEnd, CheckLine, ReadFrom, Unfinished, SignedLines;
    var n := LineEnd(b);
    if records == [] {
      NothingRead(crc, b, offset, end);
    } else if n < end {
      ReadsFrom(crc, b[n + 1..], offset + n + 1, records[1..], end - n - 1);
      ReadsOn(crc, b, offset, records, end);
    } else {
      ReadsLess(crc, b, offset, records, end);
    }
  }

  lemma ReadsOn(crc: Bytes -> nat, b: Bytes, offset: nat, records: seq<Bytes>, end: nat)
    requires LineEnd(b) < end <= |b| && records != []
    requires var n := LineEnd(b);
      ReadFrom(crc, b[n + 1..], offset + n + 1) == Ok(Contents(records[1..], offset + end))
      <==> SignedLines(crc, b[n + 1..][..end - n - 1], records[1..]) && Unfinished(crc, b[n + 1..][end - n - 1..])
    ensures ReadFrom(crc, b, offset) == Ok(Contents(records, offset + end)) <==> SignedLines(crc, b[..end], records) && Unfinished(crc, b[end..])
  {
    hide LineEnd, CheckLine, ReadFrom, Unfinished, SignedLines;
    assert records == [records[0]] + records[1..];
    ReadStep(crc, b, offset);
    SignedFirst(crc, b[..end], records[0], records[1..]);
    CutAfter(b, end);
    var n := LineEnd(b);
    if CheckLine(crc, b[..n]).Some? {
      Prepended(CheckLine(crc, b[..n]).value, records);
    }
  }

  lemma Prepended(record: Bytes, records: seq<Bytes>)
    requires records != []
    ensures forall more: seq<Bytes> :: [record] + more == records <==> record == records[0] && more == records[1..]
  {
    forall more: seq<Bytes> ensures [record] + more == records <==> record == records[0] && more == records[1..] {
      assert records == [records[0]] + records[1..];
      assert ([record] + more)[1..] == more && ([record] + more)[0] == record;
    }
  }

  lemma ReadsLess(crc: Bytes -> nat, b: Bytes, offset: nat, records: seq<Bytes>, end: nat)
    requires end <= |b| && end <= LineEnd(b) && records != []
    ensures ReadFrom(crc, b, offset) != Ok(Contents(records, offset + end)) && !SignedLines(crc, b[..end], records)
  {
    hide LineEnd, CheckLine, ReadFrom, Unfinished, SignedLines;
    assert records == [records[0]] + records[1..];
    ReadStep(crc, b, offset);
    SignedFirst(crc, b[..end], records[0], records[1..]);
    CutBefore(b, end);
    var n := LineEnd(b);
    if n < |b| && CheckLine(crc, b[..n]).Some? {
      EndsLater(crc, b[n + 1..], offset + n + 1);
    }
  }

  lemma NothingRead(crc: Bytes -> nat, b: Bytes, offset: nat, end: nat)
    requires end <= |b|
    ensures ReadFrom(crc, b, offset) == Ok(Contents([], offset + end)) <==> SignedLines(crc, b[..end], []) && Unfinished(crc, b[end..])
  {
    hide LineEnd, CheckLine, Signed, ReadFrom, Unfinished, Damaged;
    ReadStep(crc, b, offset);
    Tails(crc, b);
    if end == 0 {
      assert b[0..] == b && b[..0] == [];
    } else {
      assert b[..end] != [];
    }
  }

  lemma CutAfter(b: Bytes, end: nat)
    requires LineEnd(b) < end <= |b|
    ensures var n := LineEnd(b);
      && LineEnd(b[..end]) == n && b[..end][..n] == b[..n]
      && b[..end][n + 1..] == b[n + 1..][..end - n - 1] && b[n + 1..][end - n - 1..] == b[end..]
  {
    hide LineEnd, WholeLine;
    FirstLine(b);
    CutTwice(b, LineEnd(b) + 1, end);
    OnlyEnd(b[..end], LineEnd(b) + 1);
  }

  lemma CutTwice(b: Bytes, n: nat, end: nat)
    requires 0 < n <= end <= |b|
    ensures b[..end][..n] == b[..n] && b[..end][..n - 1] == b[..n - 1]
    ensures b[..end][n..] == b[n..][..end - n] && b[n..][end - n..] == b[end..]
  {
  }

  lemma CutBefore(b: Bytes, end: nat)
    requires end <= LineEnd(b)
    ensures LineEnd(b[..end]) == end
  {
    hide LineEnd;
    FirstLine(b);
    FirstLine(b[..end]);
    assert forall k :: 0 <= k < end ==> b[..end][k] == b[k];
  }

  lemma EndsLater(crc: Bytes -> nat, b: Bytes, offset: nat)
    ensures ReadFrom(crc, b, offset).Ok? ==> offset <= ReadFrom(crc, b, offset).value.offset <= offset + |b|
    decreases |b|
  {
    hide LineEnd, CheckLine;
    if LineEnd(b) < |b| {
      EndsLater(crc, b[LineEnd(b) + 1..], offset + LineEnd(b) + 1);
    }
  }

  // A file reads as these records up to this offset exactly if it holds one signed
  // line for each of them up to there and only what a crash may leave behind it.
  lemma ReadExactly(crc: Bytes -> nat, file: Bytes, records: seq<Bytes>, offset: nat)
    requires offset <= |file|
    ensures Read(crc, file) == Ok(Contents(records, offset)) <==> SignedLines(crc, file[..offset], records) && Unfinished(crc, file[offset..])
  {
    hide ReadFrom, SignedLines, Unfinished;
    ReadsFrom(crc, file, 0, records, offset);
  }

  // It is corrupt at an offset exactly if signed lines reach up to there and a
  // damaged one follows that is not the last.
  lemma CorruptExactly(crc: Bytes -> nat, file: Bytes, at: nat)
    requires at <= |file|
    ensures Read(crc, file) == Err(Corrupt(at)) <==> AllSigned(crc, file[..at]) && Damaged(crc, file[at..])
  {
    hide ReadFrom, AllSigned, Damaged;
    CorruptFrom(crc, file, 0, at);
  }

  lemma AllSignedStep(crc: Bytes -> nat, b: Bytes)
    ensures AllSigned(crc, b) <==>
      b == [] || (LineEnd(b) < |b| && CheckLine(crc, b[..LineEnd(b)]).Some? && AllSigned(crc, b[LineEnd(b) + 1..]))
  {
    hide LineEnd, CheckLine, SignedLines;
    NoLines(crc, b);
    if b != [] && AllSigned(crc, b) {
      var records :| SignedLines(crc, b, records);
      assert records != [] && records == [records[0]] + records[1..];
      SignedFirst(crc, b, records[0], records[1..]);
    }
    if LineEnd(b) < |b| && CheckLine(crc, b[..LineEnd(b)]).Some? && AllSigned(crc, b[LineEnd(b) + 1..]) {
      var records :| SignedLines(crc, b[LineEnd(b) + 1..], records);
      var record := CheckLine(crc, b[..LineEnd(b)]).value;
      SignedFirst(crc, b, record, records);
      assert SignedLines(crc, b, [record] + records);
    }
  }

  lemma NoLines(crc: Bytes -> nat, b: Bytes)
    ensures SignedLines(crc, b, []) <==> b == []
  {
  }

  lemma {:induction false} CorruptFrom(crc: Bytes -> nat, b: Bytes, offset: nat, at: nat)
    requires at <= |b|
    ensures ReadFrom(crc, b, offset) == Err(Corrupt(offset + at)) <==> AllSigned(crc, b[..at]) && Damaged(crc, b[at..])
    decreases |b|
  {
    hide LineEnd, CheckLine, ReadFrom, Damaged, AllSigned;
    ReadStep(crc, b, offset);
    Tails(crc, b);
    AllSignedStep(crc, b[..at]);
    var n := LineEnd(b);
    if at == 0 {
      assert b[0..] == b && b[..0] == [];
      if n < |b| && CheckLine(crc, b[..n]).Some? {
        CorruptLater(crc, b[n + 1..], offset + n + 1);
      }
    } else if n < at {
      CutAfter(b, at);
      CorruptFrom(crc, b[n + 1..], offset + n + 1, at - n - 1);
    } else {
      CutBefore(b, at);
      if n < |b| && CheckLine(crc, b[..n]).Some? {
        CorruptLater(crc, b[n + 1..], offset + n + 1);
      }
    }
  }

  lemma CorruptLater(crc: Bytes -> nat, b: Bytes, offset: nat)
    ensures ReadFrom(crc, b, offset).Err? ==> offset <= ReadFrom(crc, b, offset).error.at
    decreases |b|
  {
    hide LineEnd, CheckLine;
    if LineEnd(b) < |b| {
      CorruptLater(crc, b[LineEnd(b) + 1..], offset + LineEnd(b) + 1);
    }
  }
}
