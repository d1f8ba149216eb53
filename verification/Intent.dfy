// What an operation does to each unit and each gap of its base document, apart
// from how its components say it. In these terms a pair of concurrent operations
// has one merge, and a moved position or range has one meaning.
module Intent {
  import opened Ops
  import opened Merge
  import opened Anchors

  // The text put into gap g, which lies in front of unit g.
  function Inserts(o: Op, g: nat): Text {
    if o == [] then []
    else
      match o[0]
      case Retain(n) => if g < n then [] else Inserts(o[1..], g - n)
      case Delete(n) => if g < n then [] else Inserts(o[1..], g - n)
      case Insert(s) => (if g == 0 then s else []) + Inserts(o[1..], g)
  }

  predicate Removes(o: Op, k: nat) {
    if o == [] then false
    else
      match o[0]
      case Retain(n) => k >= n && Removes(o[1..], k - n)
      case Delete(n) => k < n || Removes(o[1..], k - n)
      case Insert(_) => Removes(o[1..], k)
  }

  // Both edits at gap k: the text of a, then the text of b.
  function Gap(a: Op, b: Op, k: nat): Text {
    Inserts(a, k) + Inserts(b, k)
  }

  // Gap k and unit k, which stays unless either operation removes it.
  function At(a: Op, b: Op, doc: Text, k: nat): Text
    requires k < |doc|
  {
    if Removes(a, k) || Removes(b, k) then Gap(a, b, k) else Gap(a, b, k) + [doc[k]]
  }

  // Both edits of doc at once, from gap i to gap j.
  function Both(a: Op, b: Op, doc: Text, i: nat, j: nat): Text
    requires i <= j <= |doc|
    decreases j - i
  {
    if i == j then Gap(a, b, i) else At(a, b, doc, i) + Both(a, b, doc, i + 1, j)
  }

  // One edit alone.
  function Edited(o: Op, doc: Text, i: nat, j: nat): Text
    requires i <= j <= |doc|
  {
    Both(o, [], doc, i, j)
  }

  lemma BothNext(a: Op, b: Op, doc: Text, i: nat, j: nat)
    requires i < j <= |doc|
    ensures Both(a, b, doc, i, j) == At(a, b, doc, i) + Both(a, b, doc, i + 1, j)
  {
  }

  lemma BothLast(a: Op, b: Op, doc: Text, i: nat)
    requires i <= |doc|
    ensures Both(a, b, doc, i, i) == Gap(a, b, i)
  {
  }

  lemma AtUnit(a: Op, b: Op, doc: Text, k: nat)
    requires k < |doc|
    ensures At(a, b, doc, k) == Gap(a, b, k) + if Removes(a, k) || Removes(b, k) then [] else [doc[k]]
  {
  }

  lemma GapRight(a: Op, b: Op, k: nat)
    requires Inserts(a, k) == []
    ensures Gap(a, b, k) == Inserts(b, k)
  {
  }

  /******* Walking both operations at once *******/

  // The first n units of o dropped, with nothing put in front of them.
  ghost predicate Follows(o: Op, rest: Op, n: nat) {
    forall g: nat :: Inserts(o, n + g) == Inserts(rest, g) && Removes(o, n + g) == Removes(rest, g)
  }

  lemma {:induction false} Shift(a: Op, b: Op, a': Op, b': Op, doc: Text, n: nat, i: nat, j: nat)
    requires n <= i <= j <= |doc| && Follows(a, a', n) && Follows(b, b', n)
    ensures Both(a, b, doc, i, j) == Both(a', b', doc[n..], i - n, j - n)
    decreases j - i
  {
    hide Inserts, Removes, Both, At;
    var k := i - n;
    assert Inserts(a, n + k) == Inserts(a', k) && Inserts(b, n + k) == Inserts(b', k);
    assert Gap(a, b, i) == Gap(a', b', k);
    if i < j {
      assert Removes(a, n + k) == Removes(a', k) && Removes(b, n + k) == Removes(b', k);
      assert doc[i] == doc[n..][k];
      AtUnit(a, b, doc, i);
      AtUnit(a', b', doc[n..], k);
      BothNext(a, b, doc, i, j);
      BothNext(a', b', doc[n..], k, j - n);
      Shift(a, b, a', b', doc, n, i + 1, j);
    } else {
      BothLast(a, b, doc, i);
      BothLast(a', b', doc[n..], k);
    }
  }

  ghost predicate Quiet(a: Op, b: Op, gone: bool, n: nat) {
    forall g: nat :: g < n ==>
      && Inserts(a, g) == [] && Inserts(b, g) == []
      && (Removes(a, g) || Removes(b, g)) == gone
  }

  // Units i to n with no text among them, kept or dropped together.
  lemma {:induction false} Front(a: Op, b: Op, doc: Text, gone: bool, i: nat, n: nat, j: nat)
    requires i <= n <= j <= |doc| && Quiet(a, b, gone, n)
    ensures Both(a, b, doc, i, j) == (if gone then [] else doc[i..n]) + Both(a, b, doc, n, j)
    decreases n - i
  {
    hide Inserts, Removes, Both, At;
    if i < n {
      Front(a, b, doc, gone, i + 1, n, j);
      assert Inserts(a, i) == [] && Inserts(b, i) == [];
      BothNext(a, b, doc, i, j);
      AtUnit(a, b, doc, i);
      assert Gap(a, b, i) == [];
      if !gone {
        assert At(a, b, doc, i) == [doc[i]];
        ConcatAssoc([doc[i]], doc[i + 1..n], Both(a, b, doc, n, j));
        assert [doc[i]] + doc[i + 1..n] == doc[i..n];
      }
    }
  }

  lemma ConsumeFollows(o: Op, n: nat)
    requires o != [] && !o[0].Insert? && n <= Len(o[0])
    ensures Follows(o, Consume(o, n), n)
    ensures forall g: nat :: g < n ==> Inserts(o, g) == [] && Removes(o, g) == o[0].Delete?
  {
    var rest := Consume(o, n);
    if n < Len(o[0]) {
      assert rest[1..] == o[1..];
    }
    forall g: nat ensures Inserts(o, n + g) == Inserts(rest, g) && Removes(o, n + g) == Removes(rest, g) {
      assert n + g < Len(o[0]) || n + g - Len(o[0]) == g - (Len(o[0]) - n);
    }
  }

  // The gap o starts with holds the text of a first insert.
  lemma FirstGap(o: Op, k: nat)
    requires o != [] && o[0].Insert?
    ensures Inserts(o, k) == if k == 0 then o[0].ins + Inserts(o[1..], k) else Inserts(o[1..], k)
    ensures Removes(o, k) == Removes(o[1..], k)
  {
  }

  // A first insert of a, in front of everything else.
  lemma LeftText(a: Op, b: Op, doc: Text)
    requires a != [] && a[0].Insert?
    ensures Both(a, b, doc, 0, |doc|) == a[0].ins + Both(a[1..], b, doc, 0, |doc|)
  {
    hide Inserts, Removes;
    FirstGap(a, 0);
    ConcatAssoc(a[0].ins, Inserts(a[1..], 0), Inserts(b, 0));
    if doc != [] {
      AfterFront(a, b, doc, 1);
      var rest := Both(a, b, doc, 1, |doc|);
      assert At(a, b, doc, 0) == a[0].ins + At(a[1..], b, doc, 0);
      ConcatAssoc(a[0].ins, At(a[1..], b, doc, 0), rest);
    }
  }

  // A first insert of b, where a has no text.
  lemma RightText(a: Op, b: Op, doc: Text)
    requires b != [] && b[0].Insert? && Inserts(a, 0) == []
    ensures Both(a, b, doc, 0, |doc|) == b[0].ins + Both(a, b[1..], doc, 0, |doc|)
  {
    hide Inserts, Removes, Gap, At;
    FirstGap(b, 0);
    GapRight(a, b, 0);
    GapRight(a, b[1..], 0);
    if doc != [] {
      hide Both;
      BothNext(a, b, doc, 0, |doc|);
      BothNext(a, b[1..], doc, 0, |doc|);
      AfterFront(b, a, doc, 1);
      AtUnit(a, b, doc, 0);
      AtUnit(a, b[1..], doc, 0);
      ConcatAssoc(b[0].ins, Gap(a, b[1..], 0), if Removes(a, 0) || Removes(b, 0) then [] else [doc[0]]);
      ConcatAssoc(b[0].ins, At(a, b[1..], doc, 0), Both(a, b[1..], doc, 1, |doc|));
    }
  }

  lemma {:induction false} AfterFront(a: Op, b: Op, doc: Text, i: nat)
    requires a != [] && a[0].Insert? && 0 < i <= |doc|
    ensures Both(a, b, doc, i, |doc|) == Both(a[1..], b, doc, i, |doc|)
    ensures Both(b, a, doc, i, |doc|) == Both(b, a[1..], doc, i, |doc|)
    decreases |doc| - i
  {
    hide Inserts, Removes;
    FirstGap(a, i);
    if i < |doc| {
      AfterFront(a, b, doc, i + 1);
    }
  }

  lemma NothingInFront(o: Op)
    requires Positive(o) && (o == [] || !o[0].Insert?)
    ensures Inserts(o, 0) == []
  {
  }

  // Transform is a merge: whichever operation runs first, the second, rebased,
  // adds the rest of both edits and nothing else.
  lemma {:induction false} TransformStepsMerge(a: Op, b: Op, doc: Text)
    requires Positive(a) && Positive(b) && BaseLen(a) == BaseLen(b) == |doc|
    ensures Run(TransformSteps(a, b).1, Run(a, doc)) == Both(a, b, doc, 0, |doc|)
    decreases |a| + |b|
  {
    var y := TransformSteps(a, b).1;
    RunLength(a, doc);
    if a != [] && a[0].Insert? {
      TransformStepsMerge(a[1..], b, doc);
      LeftText(a, b, doc);
      assert y[1..] == TransformSteps(a[1..], b).1;
      assert Run(a, doc)[|a[0].ins|..] == Run(a[1..], doc);
    } else if b != [] && b[0].Insert? {
      TransformStepsMerge(a, b[1..], doc);
      NothingInFront(a);
      RightText(a, b, doc);
      assert y[1..] == TransformSteps(a, b[1..]).1;
    } else if a == [] || b == [] {
      BothEnd(a, b);
    } else {
      MergeBoth(a, b, doc);
    }
  }

  lemma {:induction false} MergeBoth(a: Op, b: Op, doc: Text)
    requires Positive(a) && Positive(b) && BaseLen(a) == BaseLen(b) == |doc|
    requires a != [] && b != [] && !a[0].Insert? && !b[0].Insert?
    ensures Run(TransformSteps(a, b).1, Run(a, doc)) == Both(a, b, doc, 0, |doc|)
    decreases |a| + |b|, 0
  {
    hide Inserts, Removes, Both, Run;
    var n := Min(Len(a[0]), Len(b[0]));
    var a', b' := Consume(a, n), Consume(b, n);
    ConsumePositive(a, n);
    ConsumePositive(b, n);
    ConsumeLengths(a, n);
    ConsumeLengths(b, n);
    ConsumeFollows(a, n);
    ConsumeFollows(b, n);
    Front(a, b, doc, a[0].Delete? || b[0].Delete?, 0, n, |doc|);
    Shift(a, b, a', b', doc, n, n, |doc|);
    TransformStepsMerge(a', b', doc[n..]);
    RunConsume(a, n, doc);
    var out := Run(a', doc[n..]);
    var rest := TransformSteps(a', b').1;
    if a[0].Retain? {
      assert Run(a, doc) == doc[..n] + out;
      assert (doc[..n] + out)[n..] == out && (doc[..n] + out)[..n] == doc[..n];
      Cons(if b[0].Retain? then Retain(n) else Delete(n), rest, Run(a, doc));
    }
  }

  // Both orders of two concurrent operations reach the document that holds both
  // edits, the left one's text first where they meet.
  lemma TransformMerges(a: Op, b: Op, doc: Text)
    requires Positive(a) && Positive(b) && BaseLen(a) == BaseLen(b) == |doc|
    ensures Run(Right(a, b), Run(a, doc)) == Both(a, b, doc, 0, |doc|)
    ensures Run(Left(a, b), Run(b, doc)) == Both(a, b, doc, 0, |doc|)
  {
    hide Run, Both;
    TransformLengths(a, b);
    RunLength(a, doc);
    CanonSound(TransformSteps(a, b).1);
    TransformStepsMerge(a, b, doc);
    Diamond(a, b, doc);
  }

  /******* One operation *******/

  // Editing past a first component that puts in nothing.
  lemma EditedPast(o: Op, doc: Text)
    requires o != [] && !o[0].Insert? && |doc| == BaseLen(o)
    ensures Edited(o, doc, 0, |doc|)
      == (if o[0].Retain? then doc[..o[0].n] else []) + Edited(o[1..], doc[o[0].n..], 0, |doc| - o[0].n)
  {
    hide Both, Inserts, Removes;
    var n := o[0].n;
    ConsumeFollows(o, n);
    Nothing();
    Front(o, [], doc, o[0].Delete?, 0, n, |doc|);
    Shift(o, [], o[1..], [], doc, n, n, |doc|);
  }

  // Running an operation is editing its base document from end to end.
  lemma {:induction false} RunEdits(o: Op, doc: Text)
    requires Positive(o) && |doc| == BaseLen(o)
    ensures Run(o, doc) == Edited(o, doc, 0, |doc|)
    decreases |o|
  {
    hide Both, Edited, Inserts, Removes, Run;
    if o == [] {
      EditNothing();
    } else {
      assert o == [o[0]] + o[1..];
      Cons(o[0], o[1..], doc);
      if o[0].Insert? {
        LeftTextAlone(o, doc);
        RunEdits(o[1..], doc);
      } else {
        EditedPast(o, doc);
        RunEdits(o[1..], doc[o[0].n..]);
      }
    }
  }

  lemma EditNothing()
    ensures Run([], []) == Edited([], [], 0, 0)
  {
  }

  lemma LeftTextAlone(o: Op, doc: Text)
    requires o != [] && o[0].Insert?
    ensures Edited(o, doc, 0, |doc|) == o[0].ins + Edited(o[1..], doc, 0, |doc|)
  {
    LeftText(o, [], doc);
  }

  lemma Nothing()
    ensures forall g: nat :: Inserts([], g) == [] && !Removes([], g)
  {
  }

  // Everything in front of gap p of the edited document.
  function Head(o: Op, doc: Text, p: nat): Text
    requires p <= |doc|
  {
    if p == 0 then [] else Head(o, doc, p - 1) + At(o, [], doc, p - 1)
  }

  lemma {:induction false} HeadThen(o: Op, doc: Text, p: nat, j: nat)
    requires p <= j <= |doc|
    ensures Head(o, doc, p) + Edited(o, doc, p, j) == Head(o, doc, j) + Gap(o, [], j)
    decreases j - p
  {
    hide At, Gap;
    if p < j {
      HeadThen(o, doc, p + 1, j);
      ConcatAssoc(Head(o, doc, p), At(o, [], doc, p), Edited(o, doc, p + 1, j));
    }
  }

  lemma {:induction false} HeadGrows(o: Op, doc: Text, p: nat, j: nat)
    requires p <= j <= |doc|
    ensures Head(o, doc, p) + Gap(o, [], p) <= Head(o, doc, j) + Gap(o, [], j)
    decreases j - p
  {
    hide Inserts, Removes, Gap, At;
    if p < j {
      HeadGrows(o, doc, p, j - 1);
      AtUnit(o, [], doc, j - 1);
      var stays := if Removes(o, j - 1) || Removes([], j - 1) then [] else [doc[j - 1]];
      ConcatAssoc(Head(o, doc, j - 1), Gap(o, [], j - 1), stays);
    }
  }

  // How many units of the edited document lie in front of gap p.
  function Before(o: Op, p: nat): nat {
    if p == 0 then 0
    else Before(o, p - 1) + |Inserts(o, p - 1)| + if Removes(o, p - 1) then 0 else 1
  }

  lemma GapLeft(o: Op, k: nat)
    ensures Gap(o, [], k) == Inserts(o, k)
  {
  }

  lemma {:induction false} HeadLength(o: Op, doc: Text, p: nat)
    requires p <= |doc|
    ensures |Head(o, doc, p)| == Before(o, p)
  {
    if p > 0 {
      HeadLength(o, doc, p - 1);
      GapLeft(o, p - 1);
      Nothing();
    }
  }

  lemma {:induction false} BeforeFront(o: Op, p: nat)
    requires o != [] && o[0].Insert?
    ensures Before(o, p) == Before(o[1..], p) + if p > 0 then |o[0].ins| else 0
  {
    hide Inserts, Removes;
    if p > 0 {
      BeforeFront(o, p - 1);
      FirstGap(o, p - 1);
    }
  }

  lemma {:induction false} BeforeWithin(o: Op, p: nat)
    requires o != [] && !o[0].Insert? && p <= o[0].n
    ensures Before(o, p) == if o[0].Retain? then p else 0
  {
    if p > 0 {
      BeforeWithin(o, p - 1);
      ConsumeFollows(o, o[0].n);
    }
  }

  lemma {:induction false} BeforePast(o: Op, p: nat)
    requires o != [] && !o[0].Insert? && o[0].n <= p
    ensures Before(o, p) == Before(o, o[0].n) + Before(o[1..], p - o[0].n)
  {
    hide Inserts, Removes;
    var n := o[0].n;
    if n < p {
      BeforePast(o, p - 1);
      ConsumeFollows(o, n);
      assert Inserts(o, n + (p - 1 - n)) == Inserts(o[1..], p - 1 - n);
      assert Removes(o, n + (p - 1 - n)) == Removes(o[1..], p - 1 - n);
    }
  }

  lemma {:induction false} BeforeNothing(p: nat)
    ensures Before([], p) == p
  {
    if p > 0 {
      BeforeNothing(p - 1);
    }
  }

  // A moved position counts the units in front of it, and with after also the
  // text put exactly there.
  lemma {:induction false} MapPosCounts(o: Op, p: nat, after: bool)
    ensures MapPos(o, p, after) == Before(o, p) + if after then |Inserts(o, p)| else 0
  {
    hide Before;
    if o == [] {
      BeforeNothing(p);
    } else if o[0].Insert? {
      MapPosCounts(o[1..], p, after);
      BeforeFront(o, p);
      FirstGap(o, p);
    } else if p < o[0].n {
      BeforeWithin(o, p);
    } else {
      MapPosCounts(o[1..], p - o[0].n, after);
      BeforePast(o, p);
      BeforeWithin(o, o[0].n);
    }
  }

  /******* Authorship *******/

  lemma {:induction false} AuthorsLength(o: Op, attr: seq<AuthorId>, author: AuthorId)
    requires |attr| == BaseLen(o)
    ensures |RunAuthors(o, attr, author)| == TargetLen(o)
  {
    if o != [] {
      AuthorsLength(o[1..], attr[BaseOf(o[0])..], author);
    }
  }

  // A unit that stays, found behind the text put in front of it.
  lemma {:induction false} KeptUnit(o: Op, doc: Text, attr: seq<AuthorId>, author: AuthorId, k: nat)
    requires |doc| == |attr| == BaseLen(o) && k < |doc| && !Removes(o, k)
    ensures var p := MapPos(o, k, true);
      && p < |Run(o, doc)| == |RunAuthors(o, attr, author)|
      && Run(o, doc)[p] == doc[k] && RunAuthors(o, attr, author)[p] == attr[k]
  {
    hide Run, RunAuthors;
    RunLength(o, doc);
    AuthorsLength(o, attr, author);
    Split(o, doc, attr, author);
    if o[0].Insert? {
      KeptUnit(o[1..], doc, attr, author, k);
    } else if k >= o[0].n {
      KeptUnit(o[1..], doc[o[0].n..], attr[o[0].n..], author, k - o[0].n);
    }
  }

  // Unit i of the text put into gap g.
  lemma {:induction false} InsertedUnit(o: Op, doc: Text, attr: seq<AuthorId>, author: AuthorId, g: nat, i: nat)
    requires Positive(o) && |doc| == |attr| == BaseLen(o) && g <= |doc| && i < |Inserts(o, g)|
    ensures var p := MapPos(o, g, false) + i;
      && p < |Run(o, doc)| == |RunAuthors(o, attr, author)|
      && Run(o, doc)[p] == Inserts(o, g)[i] && RunAuthors(o, attr, author)[p] == author
    decreases |o|, 1
  {
    if o[0].Insert? {
      InsertedFirst(o, doc, attr, author, g, i);
    } else {
      InsertedLater(o, doc, attr, author, g, i);
    }
  }

  lemma {:induction false} InsertedFirst(o: Op, doc: Text, attr: seq<AuthorId>, author: AuthorId, g: nat, i: nat)
    requires Positive(o) && |doc| == |attr| == BaseLen(o) && g <= |doc| && o != [] && o[0].Insert? && i < |Inserts(o, g)|
    ensures var p := MapPos(o, g, false) + i;
      && p < |Run(o, doc)| == |RunAuthors(o, attr, author)|
      && Run(o, doc)[p] == Inserts(o, g)[i] && RunAuthors(o, attr, author)[p] == author
    decreases |o|, 0
  {
    hide Run, RunAuthors, Inserts, Positive;
    var s, rest := o[0].ins, o[1..];
    RunLength(o, doc);
    AuthorsLength(o, attr, author);
    FirstGap(o, g);
    RestPositive(o);
    MapPosZero(rest);
    Split(o, doc, attr, author);
    if g > 0 {
      InsertedUnit(rest, doc, attr, author, g, i);
    } else if i >= |s| {
      InsertedUnit(rest, doc, attr, author, g, i - |s|);
    }
  }

  lemma {:induction false} InsertedLater(o: Op, doc: Text, attr: seq<AuthorId>, author: AuthorId, g: nat, i: nat)
    requires Positive(o) && |doc| == |attr| == BaseLen(o) && g <= |doc| && o != [] && !o[0].Insert? && i < |Inserts(o, g)|
    ensures var p := MapPos(o, g, false) + i;
      && p < |Run(o, doc)| == |RunAuthors(o, attr, author)|
      && Run(o, doc)[p] == Inserts(o, g)[i] && RunAuthors(o, attr, author)[p] == author
    decreases |o|, 0
  {
    hide Run, RunAuthors, Inserts, Removes, Positive;
    var n, rest := o[0].n, o[1..];
    RunLength(o, doc);
    AuthorsLength(o, attr, author);
    ConsumeFollows(o, n);
    assert Inserts(o, n + (g - n)) == Inserts(rest, g - n);
    RestPositive(o);
    Split(o, doc, attr, author);
    InsertedUnit(rest, doc[n..], attr[n..], author, g - n, i);
  }

  lemma RestPositive(o: Op)
    requires Positive(o) && o != []
    ensures Positive(o[1..])
  {
  }

  // What the first component gives, then what the others do.
  lemma Split(o: Op, doc: Text, attr: seq<AuthorId>, author: AuthorId)
    requires o != [] && |doc| == |attr| == BaseLen(o)
    ensures var n := BaseOf(o[0]); BaseLen(o[1..]) == |doc| - n
    ensures var n, rest := BaseOf(o[0]), o[1..];
      Run(o, doc) == (if o[0].Retain? then doc[..n] else if o[0].Insert? then o[0].ins else []) + Run(rest, doc[n..])
    ensures var n, rest := BaseOf(o[0]), o[1..];
      RunAuthors(o, attr, author)
        == (if o[0].Retain? then attr[..n] else if o[0].Insert? then Copies(|o[0].ins|, author) else [])
           + RunAuthors(rest, attr[n..], author)
  {
  }

  // Unit p after the operation, with its author.
  ghost predicate Has(o: Op, doc: Text, attr: seq<AuthorId>, author: AuthorId, p: nat, unit: Unit, writer: AuthorId) {
    && p < |Run(o, doc)| && Run(o, doc)[p] == unit
    && p < |RunAuthors(o, attr, author)| && RunAuthors(o, attr, author)[p] == writer
  }

  lemma KeptAt(o: Op, doc: Text, attr: seq<AuthorId>, author: AuthorId, k: nat)
    requires |doc| == |attr| == BaseLen(o) && k < |doc| && !Removes(o, k)
    ensures Has(o, doc, attr, author, Before(o, k) + |Inserts(o, k)|, doc[k], attr[k])
  {
    hide Run, RunAuthors, MapPos, Before, Inserts, Removes, BaseLen;
    MapPosCounts(o, k, true);
    KeptUnit(o, doc, attr, author, k);
  }

  lemma InsertedAt(o: Op, doc: Text, attr: seq<AuthorId>, author: AuthorId, g: nat, i: nat)
    requires Positive(o) && |doc| == |attr| == BaseLen(o) && g <= |doc| && i < |Inserts(o, g)|
    ensures Has(o, doc, attr, author, Before(o, g) + i, Inserts(o, g)[i], author)
  {
    hide Run, RunAuthors, MapPos, Before, Inserts, Removes, BaseLen, Positive;
    MapPosCounts(o, g, false);
    InsertedUnit(o, doc, attr, author, g, i);
  }

  // Unit p of the edited document stayed, or was put into some gap.
  ghost predicate ComesFrom(o: Op, p: nat) {
    || (exists k: nat :: k < BaseLen(o) && !Removes(o, k) && p == Before(o, k) + |Inserts(o, k)|)
    || (exists g: nat :: g <= BaseLen(o) && Before(o, g) <= p < Before(o, g) + |Inserts(o, g)|)
  }

  lemma {:induction false} EveryUnit(o: Op, p: nat)
    requires p < TargetLen(o)
    ensures ComesFrom(o, p)
  {
    hide Inserts, Removes;
    match o[0]
    case Insert(s) =>
      FirstGap(o, 0);
      if p >= |s| {
        EveryUnit(o[1..], p - |s|);
        ComesThroughText(o, p - |s|);
      } else {
        assert Before(o, 0) <= p < Before(o, 0) + |Inserts(o, 0)|;
      }
    case Retain(n) =>
      if p < n {
        ConsumeFollows(o, n);
        BeforeWithin(o, p);
        assert !Removes(o, p) && p == Before(o, p) + |Inserts(o, p)|;
      } else {
        EveryUnit(o[1..], p - n);
        ComesPast(o, p - n);
      }
    case Delete(n) =>
      EveryUnit(o[1..], p);
      ComesPast(o, p);
  }

  lemma ComesThroughText(o: Op, p: nat)
    requires o != [] && o[0].Insert? && ComesFrom(o[1..], p)
    ensures ComesFrom(o, p + |o[0].ins|)
  {
    hide Removes, Inserts;
    var rest, q := o[1..], p + |o[0].ins|;
    if k: nat :| k < BaseLen(rest) && !Removes(rest, k) && p == Before(rest, k) + |Inserts(rest, k)| {
      FirstGap(o, k);
      BeforeFront(o, k);
      assert q == Before(o, k) + |Inserts(o, k)|;
    } else {
      var g: nat :| g <= BaseLen(rest) && Before(rest, g) <= p < Before(rest, g) + |Inserts(rest, g)|;
      FirstGap(o, g);
      BeforeFront(o, g);
      assert Before(o, g) <= q < Before(o, g) + |Inserts(o, g)|;
    }
  }

  lemma ComesPast(o: Op, p: nat)
    requires o != [] && !o[0].Insert? && ComesFrom(o[1..], p)
    ensures ComesFrom(o, if o[0].Retain? then o[0].n + p else p)
  {
    hide Removes, Inserts, Before;
    var n, rest, q := o[0].n, o[1..], if o[0].Retain? then o[0].n + p else p;
    ConsumeFollows(o, n);
    BeforeWithin(o, n);
    if k: nat :| k < BaseLen(rest) && !Removes(rest, k) && p == Before(rest, k) + |Inserts(rest, k)| {
      BeforePast(o, n + k);
      assert Removes(o, n + k) == Removes(rest, k) && Inserts(o, n + k) == Inserts(rest, k);
      assert q == Before(o, n + k) + |Inserts(o, n + k)|;
    } else {
      var g: nat :| g <= BaseLen(rest) && Before(rest, g) <= p < Before(rest, g) + |Inserts(rest, g)|;
      BeforePast(o, n + g);
      assert Inserts(o, n + g) == Inserts(rest, g);
      assert Before(o, n + g) <= q < Before(o, n + g) + |Inserts(o, n + g)|;
    }
  }

  // Authorship moves with the text: a unit that stays keeps its author, each unit
  // put in is the editor's, and there are no other units.
  lemma AuthorsFollowText(o: Op, doc: Text, attr: seq<AuthorId>, author: AuthorId)
    requires Positive(o) && |doc| == |attr| == BaseLen(o)
    ensures |RunAuthors(o, attr, author)| == |Run(o, doc)|
    ensures forall k: nat :: k < |doc| && !Removes(o, k) ==>
      Has(o, doc, attr, author, Before(o, k) + |Inserts(o, k)|, doc[k], attr[k])
    ensures forall g: nat, i: nat :: g <= |doc| && i < |Inserts(o, g)| ==>
      Has(o, doc, attr, author, Before(o, g) + i, Inserts(o, g)[i], author)
    ensures forall p: nat :: p < |Run(o, doc)| ==> ComesFrom(o, p)
  {
    hide *;
    RunLength(o, doc);
    AuthorsLength(o, attr, author);
    forall k: nat | k < |doc| && !Removes(o, k)
      ensures Has(o, doc, attr, author, Before(o, k) + |Inserts(o, k)|, doc[k], attr[k])
    {
      KeptAt(o, doc, attr, author, k);
    }
    forall g: nat, i: nat | g <= |doc| && i < |Inserts(o, g)|
      ensures Has(o, doc, attr, author, Before(o, g) + i, Inserts(o, g)[i], author)
    {
      InsertedAt(o, doc, attr, author, g, i);
    }
    forall p: nat | p < |Run(o, doc)| ensures ComesFrom(o, p) {
      EveryUnit(o, p);
    }
  }

  /******* Ranges *******/

  // The edited document begins with everything up to gap p, its text included.
  lemma EditedSplit(o: Op, doc: Text, p: nat)
    requires Positive(o) && |doc| == BaseLen(o) && p <= |doc|
    ensures Head(o, doc, p) + Gap(o, [], p) <= Run(o, doc)
  {
    hide Run, Inserts, Both;
    RunEdits(o, doc);
    HeadThen(o, doc, 0, |doc|);
    assert [] + Edited(o, doc, 0, |doc|) == Edited(o, doc, 0, |doc|);
    HeadGrows(o, doc, p, |doc|);
  }

  // A moved range holds exactly what the operation made of it: all the text put
  // inside or at its edges when it is touched, what it held before when not.
  lemma MapRangeHolds(o: Op, doc: Text, start: nat, end: nat)
    requires Positive(o) && |doc| == BaseLen(o) && start <= end <= |doc|
    ensures var r := MapRange(o, start, end);
      && r.start <= r.end <= |Run(o, doc)|
      && Run(o, doc)[r.start..r.end] == if r.touched then Edited(o, doc, start, end) else doc[start..end]
  {
    hide Run, MapPos, Both, Inserts, Before;
    MapRangeSound(o, doc, start, end);
    if Touched(o, start, end) {
      MapPosCounts(o, start, false);
      MapPosCounts(o, end, true);
      HeadLength(o, doc, start);
      HeadLength(o, doc, end);
      GapLeft(o, end);
      HeadThen(o, doc, start, end);
      EditedSplit(o, doc, end);
      var head := Head(o, doc, start) + Edited(o, doc, start, end);
      assert head[|Head(o, doc, start)|..] == Edited(o, doc, start, end);
    }
  }

  // A unit of the range is removed, or text goes strictly inside it.
  ghost predicate EditsInside(o: Op, start: int, end: int) {
    || (exists k: nat :: start <= k < end && Removes(o, k))
    || (exists g: nat :: start < g < end && Inserts(o, g) != [])
  }

  lemma InsideInsert(o: Op, start: int, end: int)
    requires o != [] && o[0].Insert? && o[0].ins != []
    ensures EditsInside(o, start, end) <==> (start < 0 < end || EditsInside(o[1..], start, end))
  {
    hide Inserts, Removes;
    forall k: nat ensures Removes(o, k) == Removes(o[1..], k) {
      FirstGap(o, k);
    }
    forall g: nat ensures Inserts(o, g) == if g == 0 then o[0].ins + Inserts(o[1..], g) else Inserts(o[1..], g) {
      FirstGap(o, g);
    }
    if start < 0 < end {
      assert Inserts(o, 0) != [];
    }
  }

  lemma InsidePast(o: Op, start: int, end: int)
    requires o != [] && !o[0].Insert? && o[0].n > 0 && start < end
    ensures var n := o[0].n;
      EditsInside(o, start, end) <==>
        ((o[0].Delete? && 0 < end && start < n) || EditsInside(o[1..], start - n, end - n))
  {
    hide Inserts, Removes;
    var n, rest := o[0].n, o[1..];
    ConsumeFollows(o, n);
    if EditsInside(o, start, end) {
      if k: nat :| start <= k < end && Removes(o, k) {
        assert k >= n ==> Removes(o, n + (k - n)) == Removes(rest, k - n);
      } else {
        var g: nat :| start < g < end && Inserts(o, g) != [];
        assert Inserts(o, n + (g - n)) == Inserts(rest, g - n);
      }
    }
    if EditsInside(rest, start - n, end - n) {
      if k: nat :| start - n <= k < end - n && Removes(rest, k) {
        assert Removes(o, n + k);
      } else {
        var g: nat :| start - n < g < end - n && Inserts(rest, g) != [];
        assert Inserts(o, n + g) != [];
      }
    }
    if o[0].Delete? && 0 < end && start < n {
      assert Removes(o, if start < 0 then 0 else start);
    }
  }

  lemma {:induction false} TouchedInside(o: Op, start: int, end: int)
    requires Positive(o) && start < end
    ensures Touched(o, start, end) <==> EditsInside(o, start, end)
  {
    if o == [] {
      Nothing();
    } else if o[0].Insert? {
      hide EditsInside;
      InsideInsert(o, start, end);
      TouchedInside(o[1..], start, end);
    } else {
      hide EditsInside;
      InsidePast(o, start, end);
      TouchedInside(o[1..], start - o[0].n, end - o[0].n);
    }
  }

  lemma {:induction false} NotTouchedBefore(o: Op, p: int)
    requires p <= 0
    ensures !Touched(o, p, p)
  {
    if o != [] {
      NotTouchedBefore(o[1..], if o[0].Insert? then p else p - o[0].n);
    }
  }

  lemma {:induction false} TouchedPoint(o: Op, p: nat)
    requires Normal(o)
    ensures Touched(o, p, p) <==> 0 < p && Removes(o, p - 1) && Removes(o, p)
  {
    if o != [] {
      assert o[1..] != [] ==> MayFollow(o[0], o[1]);
      if o[0].Insert? {
        TouchedPoint(o[1..], p);
      } else if p <= o[0].n {
        NotTouchedBefore(o[1..], p - o[0].n);
      } else {
        TouchedPoint(o[1..], p - o[0].n);
      }
    }
  }

  // Which ranges count as touched: one with a unit removed or text put strictly
  // inside, and an empty one when the units on both its sides are removed.
  lemma TouchedMeans(o: Op, start: nat, end: nat)
    requires Normal(o) && start <= end
    ensures MapRange(o, start, end).touched <==>
      if start < end then EditsInside(o, start, end)
      else 0 < start && Removes(o, start - 1) && Removes(o, start)
  {
    if start < end {
      TouchedInside(o, start, end);
    } else {
      TouchedPoint(o, start);
    }
  }
}
