// A document's committed operations in order, and operations carried across
// them.
module History {
  import opened Results
  import opened Ops
  import opened Merge
  import opened Characters

  // Names an operation: ids are unique for one client only.
  datatype OpKey = OpKey(client: nat, id: nat)

  // A committed operation. Accepted suggestions have no key.
  datatype Commit = Commit(op: Op, author: nat, key: Option<OpKey>)

  /******* Playing a history *******/

  function Play(doc: Text, later: seq<Commit>): Text
    decreases |later|
  {
    if later == [] then doc else Play(Run(later[0].op, doc), later[1..])
  }

  // The document after the first rev commits.
  function TextAt(h: seq<Commit>, rev: nat): Text
    requires rev <= |h|
  {
    Play([], h[..rev])
  }

  // An operation a browser can make on doc.
  ghost predicate ValidOn(o: Op, doc: Text) {
    Normal(o) && BaseLen(o) == |doc| && Safe(o, doc)
  }

  ghost predicate Chain(doc: Text, later: seq<Commit>)
    decreases |later|
  {
    later == [] || (ValidOn(later[0].op, doc) && Chain(Run(later[0].op, doc), later[1..]))
  }

  lemma {:induction false} PlayConcat(doc: Text, x: seq<Commit>, y: seq<Commit>)
    ensures Play(doc, x + y) == Play(Play(doc, x), y)
    ensures Chain(doc, x + y) <==> Chain(doc, x) && Chain(Play(doc, x), y)
    decreases |x|
  {
    if x == [] {
      assert x + y == y;
    } else {
      assert (x + y)[1..] == x[1..] + y;
      PlayConcat(Run(x[0].op, doc), x[1..], y);
    }
  }

  lemma PlayOne(doc: Text, c: Commit)
    ensures Play(doc, [c]) == Run(c.op, doc)
    ensures Chain(doc, [c]) <==> ValidOn(c.op, doc)
  {
    assert [c][1..] == [];
  }

  // One more commit moves the text forward by its operation.
  lemma TextStep(h: seq<Commit>, rev: nat)
    requires rev < |h| && Chain([], h)
    ensures TextAt(h, rev + 1) == Run(h[rev].op, TextAt(h, rev))
    ensures ValidOn(h[rev].op, TextAt(h, rev))
  {
    hide Run, Safe, Normal, BaseLen, Merge.Left, Merge.Right;
    assert h[..rev + 1] == h[..rev] + [h[rev]];
    assert h == h[..rev + 1] + h[rev + 1..];
    PlayConcat([], h[..rev + 1], h[rev + 1..]);
    PlayConcat([], h[..rev], [h[rev]]);
    PlayOne(TextAt(h, rev), h[rev]);
  }

  lemma TextBetween(h: seq<Commit>, from: nat, to: nat)
    requires from <= to <= |h| && Chain([], h)
    ensures Chain(TextAt(h, from), h[from..to])
    ensures TextAt(h, to) == Play(TextAt(h, from), h[from..to])
  {
    hide Run, Safe, Normal, BaseLen, Merge.Left, Merge.Right;
    assert h[..to] == h[..from] + h[from..to];
    assert h == h[..to] + h[to..];
    PlayConcat([], h[..to], h[to..]);
    PlayConcat([], h[..from], h[from..to]);
  }

  // A longer history agrees on the revisions both have.
  lemma TextOfPrefix(h: seq<Commit>, longer: seq<Commit>, rev: nat)
    requires h <= longer && rev <= |h|
    ensures TextAt(longer, rev) == TextAt(h, rev)
  {
    assert longer[..rev] == h[..rev];
  }

  lemma {:induction false} ChainWellFormed(doc: Text, later: seq<Commit>)
    requires Chain(doc, later) && WellFormed(doc)
    ensures WellFormed(Play(doc, later))
    decreases |later|
  {
    if later != [] {
      SafeRun(later[0].op, doc);
      ChainWellFormed(Run(later[0].op, doc), later[1..]);
    }
  }

  /******* Catching up *******/

  // o carried across everything committed later.
  function CatchUp(o: Op, later: seq<Commit>): Op
    decreases |later|
  {
    if later == [] then o else CatchUp(Left(o, later[0].op), later[1..])
  }

  // The same commits carried across o: what someone who made o first sees.
  function Rebased(later: seq<Commit>, o: Op): seq<Commit>
    decreases |later|
  {
    if later == [] then []
    else [later[0].(op := Right(o, later[0].op))] + Rebased(later[1..], Left(o, later[0].op))
  }

  // What one rebase costs: the components of both sides, at every step.
  function CatchUpWork(o: Op, later: seq<Commit>): nat
    decreases |later|
  {
    if later == [] then 0
    else |o| + |later[0].op| + CatchUpWork(Left(o, later[0].op), later[1..])
  }

  lemma {:induction false} CatchUpConcat(o: Op, x: seq<Commit>, y: seq<Commit>)
    ensures CatchUp(o, x + y) == CatchUp(CatchUp(o, x), y)
    decreases |x|
  {
    if x == [] {
      assert x + y == y;
    } else {
      assert (x + y)[1..] == x[1..] + y;
      CatchUpConcat(Left(o, x[0].op), x[1..], y);
    }
  }

  // Carried from one revision to a second and on to a third.
  lemma CatchUpVia(o: Op, h: seq<Commit>, from: nat, via: nat, to: nat)
    requires from <= via <= to <= |h|
    ensures CatchUp(o, h[from..to]) == CatchUp(CatchUp(o, h[from..via]), h[via..to])
  {
    hide Run, Safe, Normal, BaseLen, Merge.Left, Merge.Right;
    assert h[from..to] == h[from..via] + h[via..to];
    CatchUpConcat(o, h[from..via], h[via..to]);
  }

  lemma CatchUpOne(o: Op, c: Commit)
    ensures CatchUp(o, [c]) == Left(o, c.op)
  {
    assert [c][1..] == [];
  }

  // Rebasing one step keeps an operation usable.
  lemma LeftValid(a: Op, b: Op, doc: Text)
    requires ValidOn(a, doc) && ValidOn(b, doc)
    ensures ValidOn(Left(a, b), Run(b, doc)) && ValidOn(Right(a, b), Run(a, doc))
    ensures Run(Right(a, b), Run(a, doc)) == Run(Left(a, b), Run(b, doc))
  {
    hide Run, Safe, BaseLen, Merge.Left, Merge.Right;
    Diamond(a, b, doc);
    TransformSafe(a, b, doc);
    RunLength(a, doc);
    RunLength(b, doc);
  }

  lemma {:induction false} CatchUpValid(o: Op, doc: Text, later: seq<Commit>)
    requires ValidOn(o, doc) && Chain(doc, later)
    ensures ValidOn(CatchUp(o, later), Play(doc, later))
    decreases |later|
  {
    if later != [] {
      LeftValid(o, later[0].op, doc);
      CatchUpValid(Left(o, later[0].op), Run(later[0].op, doc), later[1..]);
    }
  }

  // A safe edit still passes the server's check after any safe commits.
  lemma CatchUpPasses(o: Op, doc: Text, later: seq<Commit>)
    requires ValidOn(o, doc) && Chain(doc, later) && WellFormed(doc)
    ensures CheckText(CatchUp(o, later), Play(doc, later)).TextOk?
  {
    hide Safe, Run, WellFormed, Chain, Play, CatchUp, CheckText;
    CatchUpValid(o, doc, later);
    ChainWellFormed(doc, later);
    SafeInserts(CatchUp(o, later), Play(doc, later));
    CheckTextIffSafe(CatchUp(o, later), Play(doc, later));
  }

  // The diamond over any stretch of history: committing later and then the
  // caught-up operation gives what making o first and then the rebased commits
  // gives.
  lemma {:induction false} CatchUpDiamond(o: Op, doc: Text, later: seq<Commit>)
    requires ValidOn(o, doc) && Chain(doc, later)
    ensures ValidOn(CatchUp(o, later), Play(doc, later))
    ensures Chain(Run(o, doc), Rebased(later, o))
    ensures Run(CatchUp(o, later), Play(doc, later)) == Play(Run(o, doc), Rebased(later, o))
    decreases |later|
  {
    if later != [] {
      var b := later[0].op;
      LeftValid(o, b, doc);
      CatchUpDiamond(Left(o, b), Run(b, doc), later[1..]);
      var r := Rebased(later, o);
      assert r[1..] == Rebased(later[1..], Left(o, b));
    }
  }

  /******* Keys *******/

  // The revision a key was committed at, counting from 1; 0 if it never was.
  function RevisionOf(h: seq<Commit>, key: OpKey): (rev: nat)
    ensures rev <= |h|
    ensures rev > 0 ==> h[rev - 1].key == Some(key)
    ensures rev == 0 ==> forall k :: 0 <= k < |h| ==> h[k].key != Some(key)
  {
    if h == [] then 0
    else if h[|h| - 1].key == Some(key) then |h|
    else RevisionOf(h[..|h| - 1], key)
  }

  // No key is committed twice.
  ghost predicate KeysDistinct(h: seq<Commit>) {
    forall j, k :: 0 <= j < k < |h| && h[j].key.Some? ==> h[j].key != h[k].key
  }
}
