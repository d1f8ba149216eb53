# Live documents, search, consensus and storage

A model of the parts of the repository whose correctness is hard to see, with
proofs. `dafny verify dfyconfig.toml` checks everything.

## What is modelled

**Live documents.** `Ops`, `Merge`, `Canonical` and `Intent` are the edit algebra:
operations as lists of retain, delete and insert components over UTF-16 units, their
builders, `Compose` and `Transform`. `Characters` says when an operation works in
whole characters, `Anchors` moves positions, ranges and authorship, `Wire` reads and
writes operations, `Diff` turns a browser edit into one. `OperationCode` holds the
operations and cursors as the source has them, mutable objects and loops, proved
against that algebra. `History` and `Document` are the server's state as a value,
`DocStateCode` and `SessionCode` the objects that change it, `Client` and
`CollabClientCode` the same for the browser. `LiveSystem` puts one server and any
number of clients together as a state machine: local edits, connections that carry
messages in order and may be given up at any time, messages read late from a
connection nobody listens to, batches that become durable before they are released,
failed appends and restarts, agents that read and propose, and people who accept and
reject. `Convergence`, `ClientSteps`, `ServerSteps` and `Runs` prove what holds in
every reachable state. `Pending` says that nothing typed is lost, `Settling` that
agreement is always within reach, `Suggestions` and `Authorship` that the log tells
what became of each suggestion and who wrote each unit.

**Consensus.** `RaftLog`, `RaftNode` and `Cluster` model the key-value cluster:
messages may be lost, repeated and reordered, nodes restart with their metadata and
log. `KvNodeCode` holds the handlers as the source has them. The invariant is in
`RaftInvariant`; `RaftSteps`, `RaftVotes`, `RaftLeaders` and `RaftReplication` show
that each kind of step keeps it, `RaftSafety` draws the conclusions, `RaftProgress`
that the cluster can always go on.

**Search.** `Documents` defines, for a plain map of documents, what a search has to
answer. `IndexState` and `SearchIndex` are the index, with slots, tombstones,
compaction and impact frontiers; `Scoring`, `MaxScore`, `Ranking` and `Pruning` the
bounds, cursors, heap and the two scoring loops; `Searching` the search itself;
`Relevance` says what the formula favours; `SearchSnapshot` and `Varint` its file
format.

**Media queue.** `Jobs` defines which job may be leased next by a scan,
`LeaseIndexCode` does it with two heaps. `TornLog` is the checksummed line framing
that the queue and the documents share, `LogDamage` says which files can be read.
`QueueStore` and `QueueRecovery` are the snapshot and journal over runs with failing
writes and crashes, `QueueUpkeep` how they recover and how long the journal gets,
`MediaQueueCode` the queue's operations, `Leases` what runs of them keep and
`JobFates` what becomes of each job.

**Experiments and time series.** `Attribution`, `AttributionRuns` and
`ExperimentEngine` model event-time attribution with expiry; `AttributionMeaning` says
what the totals count, in terms of the events alone, and `AttributionUpkeep` what
expiry leaves. `Codec` is the compressed sample blocks, `CodecSize` how many bytes
they take.

Where one operation appears both as a function and as a method, the method is the
code and the function its specification; the theorems are about the function.

## What the code does not promise

- Leaders can lower their own commit index: two proposals that finish out of order
  do it without any restart (`RaftSafety.CommitIndexCanFall`), and
  `RaftSafety.CommitIndexFalls` gives all the steps that can. What was applied or
  answered stays regardless.
- A subject that was exposed, expired and is exposed again counts twice
  (`AttributionRuns.SubjectCanCountTwice`). Aggregates equal those of an engine that
  never forgets a subject exactly when the stream has no such exposure
  (`AttributionRuns.ExpiryIsExact`).
- A job can be leased more often than its maximum (`Leases.AttemptsCanExceed`),
  exactly when the worker of its last attempt lets the lease end without a word and
  somebody asks for a lease (`Leases.AttemptsExceedExactly`).
- A Create that cannot be written takes an older job of the same id with it; it
  leaves no trace exactly when its id is new (`QueueRecovery.UndoneExactly`).
- An operation whose inserted text is not well-formed UTF-16 changes when it is
  sent (`Wire.LoneSurrogateChanges`): the wire format is a round trip exactly for
  the well-formed ones (`Wire.WireRoundTrip`).

## Model

| member | source | states |
|---|---|---|
| Ops.CanonSound | internal/collab/ot.go:61-112 | Building from any components gives a normal operation with the same lengths and the same effect on every document. |
| Ops.CanonFixpoint | internal/collab/ot.go:90-112 | A normal operation built again from its own components is unchanged, component for component. |
| Ops.RunLength | internal/collab/ot.go:120-139 | On a document of its base length an operation produces exactly its target length, which the loop allocates. |
| OperationCode.Operation.Retain | internal/collab/ot.go:61-74 | The builder keeps both lengths and the normal form, and merges with a last retain; nothing happens for n at or below zero. |
| OperationCode.Operation.Delete | internal/collab/ot.go:76-88 | Same for deletes. |
| OperationCode.Operation.Insert | internal/collab/ot.go:90-112 | Same for inserts, which are stored in front of a last delete. |
| OperationCode.Operation.Apply | internal/collab/ot.go:120-139 | Fails exactly on documents of another length, and otherwise returns the operation's result. |
| OperationCode.Cursor.TakeUnits | internal/collab/ot.go:166-180 | Taking units leaves exactly the rest of the operation and returns the covered inserted text. |
| OperationCode.Compose | internal/collab/ot.go:182-218 | Fails exactly when the lengths disagree, never in its loop, and gives the composition. |
| OperationCode.Transform | internal/collab/ot.go:220-264 | Fails exactly when the base lengths differ, never at the return inside its loop, and gives both rebased operations. |
| Merge.ComposeLaw | internal/collab/ot.go:182-218 | The composition is normal and does to every document what a and then b do. |
| Merge.TransformLengths | internal/collab/ot.go:220-264 | Each rebased operation starts where the other one ends, and both end at one length. |
| Merge.ComposeFailsExactly | internal/collab/ot.go:182-218 | For all operations, the loop of Compose ends in its inner error exactly when the lengths disagree, and otherwise gives the steps that are composed; behind the first check it never fails. |
| Merge.TransformFailsExactly | internal/collab/ot.go:220-264 | The same for Transform: its inner error return is reached exactly for unequal base lengths, so never behind the first check. |
| Merge.Diamond | internal/collab/ot.go:220-264 | For all operations on one base: either may run first, the other one rebased follows, and every document ends up the same; both rebased operations are normal. |
| Intent.TransformMerges | internal/collab/ot.go:220-264 | The common result holds both edits and no more: every gap has a's text and then b's, and a unit stays exactly when neither removes it. |
| Intent.RunEdits | internal/collab/ot.go:120-139 | Applying one operation leaves, gap by gap, its inserted text and the units it does not remove. |
| Canonical.NormalFormUnique | internal/collab/ot.go:90-112 | Two normal operations of one base length are identical exactly when they act alike on all documents. |
| Canonical.Distinguish | internal/collab/ot.go:90-112 | For two different normal operations, a document they treat differently. |
| Canonical.ComposeAssociative | internal/collab/ot.go:182-218 | Composing three operations gives the same components in either order of composing. |
| OperationCode.Operation.MapPosition | internal/collab/ot.go:266-291 | The loop computes the moved position. |
| Intent.MapPosCounts | internal/collab/ot.go:266-291 | A moved position is the number of units now in front of it, and with afterInsert also the text put exactly there. |
| Anchors.MapPosInBounds | internal/collab/ot.go:266-291 | A position of the base document stays inside the new one. |
| Anchors.MapPosMonotone | internal/collab/ot.go:266-291 | Positions keep their order whatever side of an insert each takes, except one position that is asked for both behind and in front of the text put there. |
| Anchors.MapPosKeepsBoundary | internal/collab/ot.go:266-291 | Through a character-safe operation, a position between characters stays between characters. |
| OperationCode.Operation.MapSpan | internal/collab/ot.go:293-336 | The loop computes the moved range and whether it was touched. |
| Intent.TouchedMeans | internal/collab/ot.go:293-327 | A range is touched exactly when a unit of it is removed or text goes strictly inside; an empty one when the units on both sides go. |
| Intent.MapRangeHolds | internal/collab/ot.go:293-336 | A touched range holds exactly what the edit made of it with the text at its edges, an untouched one exactly what it held. |
| Anchors.UntouchedKeepsText | internal/collab/ot.go:293-336 | The tight mapping of an untouched range encloses exactly its old text. |
| Anchors.MapRangeKeepsBoundary | internal/collab/ot.go:293-336 | Both ends of a moved range stay between characters. |
| Wire.RepairFixesExactly | internal/collab/ot.go:117-118 | Decoding text for the wire gives well-formed text, and changes it exactly when it was not well-formed. |
| Wire.DecodedIsNormal | internal/collab/ot.go:379-420 | Whatever the wire form, an accepted one is read as a normal operation. |
| Wire.WireRoundTrip | internal/collab/ot.go:357-420 | Reading what was written gives the operation back, if and only if its inserts are well-formed. |
| Wire.LoneSurrogateChanges | internal/collab/ot.go:357-420 | An insert of half a character is one that does not come back. |
| Anchors.ReplaceOpSound | internal/collab/ot.go:422-426 | The operation is normal, fits the document and replaces exactly the range. |
| Anchors.ReplaceOpSafe | internal/collab/ot.go:422-426 | Replacing a range between characters by text without half characters and carriage returns is character-safe. |
| OperationCode.Operation.Check | internal/collab/ot.go:437-467 | The loop reports the first violation. |
| Characters.CheckTextIffSafe | internal/collab/ot.go:437-467 | On a well-formed document the check passes exactly the operations that keep, remove and insert whole characters. |
| Characters.SafeRun | internal/collab/ot.go:437-467 | A safe operation turns well-formed text into well-formed text. |
| Characters.TransformSafe | internal/collab/ot.go:220-264 | Rebasing safe operations over each other gives safe operations. |
| Characters.ComposeSafe | internal/collab/ot.go:182-218 | Composing safe operations gives a safe operation. |
| Diff.FromDiff | internal/atlas/ui/ot.js:178-205 | The operation turns the old text into the new one, keeps as much at both ends as the texts have in common, puts an insertion at the caret if it fits there, and is character-safe when both texts are. |
| Diff.CommonEnds | internal/atlas/ui/ot.js:182-186 | The ends that are kept match, do not overlap and cannot be any longer. |
| Diff.NearCaret | internal/atlas/ui/ot.js:187-192 | An insertion slides to the caret whenever the same text results from inserting there. |
| Diff.WholeCharacters | internal/atlas/ui/ot.js:194-198 | The common ends still match after they are moved off the middle of a pair. |
| DocStateCode.DocState.Apply | internal/collab/state.go:150-196 | A record changes the state as specified, or fails and leaves it untouched. |
| DocStateCode.DocState.ApplyOp | internal/collab/state.go:198-253 | Same for an operation record: text, authorship, history, dedup table and every open anchor move together. |
| Document.ApplyKeepsDocOk | internal/collab/state.go:150-253 | Every record the server writes keeps the document consistent: history replays to the text, keys are distinct, the table is exact, pending anchors enclose their text. |
| Document.SuggestionsMoved | internal/collab/state.go:237-251 | Through every commit each open anchor stays inside the text on character boundaries, and one that is still pending still encloses exactly its original text. |
| OperationCode.Operation.Authors | internal/collab/state.go:255-274 | The loop computes the new authorship. |
| Intent.AuthorsFollowText | internal/collab/state.go:255-274 | Each unit that is not removed keeps its author at its new place, each unit put in is the editor's, and every unit of the result is one of these. |
| DocStateCode.ReplayLog | internal/collab/state.go:276-289 | Rebuilding from a log gives the replayed state or its first error. |
| Document.ReplayAppend | internal/collab/state.go:276-289 | Replaying one record more is applying it to the replayed state, so a log grows with the live state. |
| Document.ReplayPrefix | internal/collab/state.go:276-289 | Every prefix of a log that replays also replays, to a prefix of the history. |
| DocStateCode.DocState.LengthAtRev | internal/collab/state.go:291-298 | Reads a length off the history. |
| Document.LengthAtSound | internal/collab/state.go:291-298 | That length is the length of the text at that revision. |
| DocStateCode.DocState.CatchUp | internal/collab/state.go:300-325 | Carries an operation to the present, or fails on a bad revision, a bad length or too much work; what it returns is normal. |
| History.CatchUpValid | internal/collab/state.go:300-325 | A valid operation stays valid, and character-safe, through any stretch of history. |
| History.CatchUpPasses | internal/collab/session.go:580-592 | An edit made in whole characters at any old revision passes the server's check after catching up. |
| History.CatchUpDiamond | internal/collab/state.go:300-325 | The diamond over any stretch of history: the operation and then the rebased history, or the history and then the caught-up operation, give one text. |
| DocStateCode.DocState.MapRangeFrom | internal/collab/state.go:327-351 | Carries a range to the present, with both of its errors. |
| Document.RangeFromSound | internal/collab/state.go:327-351 | From any past revision: the range is inside the text, on character boundaries, and untouched means it holds what it held then. |
| Document.RangeThroughSound | internal/collab/state.go:327-351 | The same from any text over any later commits. |
| DocStateCode.DocState.Spans | internal/collab/state.go:353-370 | Runs of authorship that spell out every unit's author, with neighbours of different authors and no empty run. |
| SessionCode.BuildReplace | internal/collab/session.go:688-692 | Builds the operation of an accept. |
| SessionCode.OpenSession | internal/collab/session.go:179-189 | Opens exactly when the log replays, in the replayed state and with the next suggestion number. |
| SessionCode.Session.Commit | internal/collab/session.go:372-387 | A record is applied and queued for the log together, or neither. |
| SessionCode.Session.HandleMessage | internal/collab/session.go:435-464 | One message changes the whole server as specified, and nothing before the hello is accepted. |
| SessionCode.Session.HandleHello | internal/collab/session.go:487-535 | A known revision is answered with the commits after it, anything else with the whole text. |
| SessionCode.Session.HandleOp | internal/collab/session.go:569-600 | A resend is ignored, a refusal resets the sender, everything else commits and is announced. |
| SessionCode.Session.AfterOp | internal/collab/session.go:602-649 | The origin gets its acknowledgement, everybody else the operation, each exactly one message. |
| SessionCode.Session.HandleResolve | internal/collab/session.go:673-719 | Accepting and rejecting suggestions, with the errors. |
| SessionCode.Session.BeginRead | internal/collab/agent.go:166-183 | Records what an agent was shown, or refuses a range outside the text or inside a pair. |
| SessionCode.Session.Propose | internal/collab/agent.go:202-231 | Asks for a retry exactly when the text was touched and an attempt is left, with the revision and where that text is now; otherwise posts the suggestion there. |
| SessionCode.Session.Finish | internal/collab/session.go:234-259 | Messages are released only when the append worked; otherwise every connection is cut off with what it already had. |
| SessionCode.ServerLeavesClients | internal/collab/session.go:435-464 | What the server does depends on no client's state. |
| Document.AcceptSound | internal/collab/session.go:680-701 | An accept of a pending suggestion replaces exactly the text the agent read, or puts its text directly after it, and is valid and character-safe, so it needs no check. |
| CollabClientCode.CollabClient.ApplyLocalEdit | internal/atlas/ui/collab.js:203-216 | A local edit becomes outstanding and is sent, or is composed into the buffer. |
| CollabClientCode.CollabClient.Acknowledge | internal/atlas/ui/collab.js:284-304 | The outstanding operation is dropped and the buffer sent, or sync is lost on a wrong revision. |
| CollabClientCode.CollabClient.FoldServerOp | internal/atlas/ui/collab.js:306-326 | A server operation is rebased past what is pending, or recognised as the client's own. |
| CollabClientCode.CollabClient.Handle | internal/atlas/ui/collab.js:333-410 | One message changes the whole client as specified. |
| CollabClientCode.CollabClient.HandleInit | internal/atlas/ui/collab.js:340-378 | The answer to a hello: full text, or missed operations and a resend of what is still pending. |
| Client.ApplyLocalCore | internal/atlas/ui/collab.js:203-216 | A local edit keeps the client in step with the history and all its copies in flight. |
| Client.ServerOpCore | internal/atlas/ui/collab.js:306-326 | So does the next commit, whether it is the client's own or another's. |
| Client.AcknowledgedIsCommitted | internal/atlas/ui/collab.js:284-304 | When the next commit carries the outstanding key, the rebased outstanding operation is that commit, component for component. |
| Client.CopyCommits | internal/collab/session.go:574-600 | Whatever copy of an uncommitted operation the server reads, and however late, it makes the same valid operation of it. |
| Runs.StepKeeps | internal/collab/session.go:236-719 | Each step of the system keeps the invariant: server, log, connections and clients. |
| Runs.ReachableOk | internal/collab/session.go:236-719 | So it holds after every run. |
| Runs.ClientsInStep | internal/atlas/ui/collab.js:205-326 | In every reachable state no client has lost sync, its revision is durable, and its text is the server's text at that revision with outstanding and then buffer applied; with nothing pending at the newest revision it has exactly the server's text. |
| Runs.SettledClientsAgree | internal/atlas/ui/collab.js:187-200 | A connected client whose queues are empty is at the newest revision with nothing pending and the server's text. |
| Settling.AgreementInReach | internal/collab/session.go:234-649 | From every reachable state there is a run of deliveries alone after which every client has the server's text and nothing pending, and no commit is gone. |
| Pending.NothingTypedIsLost | internal/atlas/ui/collab.js:205-216 | Whatever anybody types, after any further run in which that client does not lose sync the edit is still pending or it is committed and on disk, also over reconnects and crashes. |
| Pending.StepAccounted | internal/collab/session.go:509-535 | One step, such as the answer to a hello, takes no edit that is outstanding or in the buffer away unless it is committed. |
| Pending.OutOfSyncOnlyIf | internal/atlas/ui/collab.js:276-304 | In every reachable state a client loses sync exactly when the server refuses it or a message was too large to send. |
| Runs.ExactlyOnce | internal/collab/session.go:574-580 | However often operations are resent, each client's operation id occurs at most once in the history. |
| Runs.IgnoredResendIsKnown | internal/collab/session.go:574-580 | When the server ignores a resend, the client has processed that commit or the message about it is on the way to its connection. |
| Runs.AcknowledgementAgrees | internal/atlas/ui/collab.js:284-317 | Every acknowledgement names the next revision, and what the server committed there is the client's rebased outstanding operation. |
| Runs.OnlySizeRefuses | internal/collab/session.go:569-600 | In every reachable state a new edit from a live connection commits, carried to the present, unless it is over a size or work limit; then nothing changes. |
| Runs.DurableBeforeVisible | internal/collab/session.go:234-259 | Every message released to a connection agrees with the history in the durable log alone. |
| Runs.ReplayEqualsLive | internal/collab/state.go:276-289 | Replaying the log and the open batch succeeds and rebuilds the live state: text, authorship, dedup table, suggestions and anchors. |
| Runs.PendingNeverDrifts | internal/collab/session.go:680-701 | In every reachable state the text is well-formed and each pending suggestion's range is on character boundaries and holds exactly what its agent read. |
| Runs.ProposedAnchor | internal/collab/agent.go:202-231 | However many operations committed since an agent read, an untouched range holds exactly what it was shown. |
| Suggestions.SettledOnce | internal/collab/state.go:229-274 | In every reachable state each suggestion is accepted or resolved by at most one record of the log, is Accepted, Rejected or Dismissed exactly when there is that record, and is open otherwise. |
| Suggestions.StaleExactly | internal/collab/state.go:237-251 | Along every log of a reachable state an edit makes a pending suggestion stale exactly if it removes a unit of its range or puts text strictly inside (or, of an empty range, removes the units on both sides), and the moved range encloses what the edit left there. |
| Suggestions.TouchedExactly | internal/collab/state.go:335-351 | A range carried over any commits counts as touched exactly if one of them removes a unit of it or puts text strictly inside, wherever the range is by then. |
| Suggestions.AcceptWorks | internal/collab/session.go:680-701 | In every reachable state accepting a pending suggestion puts its text in place of, or right behind, what the agent read and marks it Accepted, unless the document would get too long; any other accept changes nothing. |
| Suggestions.RejectWorks | internal/collab/session.go:702-718 | Rejecting settles exactly the open suggestions, a stale one as Dismissed, and leaves the text alone. |
| Suggestions.ProposeWorks | internal/collab/agent.go:202-231 | In every reachable state a draft is posted over the text it was made for, stale if that was touched, or sent back without a change while attempts are left. |
| Suggestions.BeginReadWorks | internal/collab/agent.go:166-183 | A read of a range between characters at any past revision succeeds and records the text now there. |
| Authorship.EachUnitItsWriter | internal/collab/state.go:198-223 | In every reachable state each unit carries the author of the record in the log that put it in. |
| TornLog.HexRoundTrip | internal/collab/oplog.go:115-128 | A checksum printed with leading zeros reads back. |
| TornLog.LineChecks | internal/collab/oplog.go:115-161 | A written line has one newline, at its end, and passes its check with its payload. |
| TornLog.CutAnywhere | internal/collab/oplog.go:84-113 | A file cut at any byte is its whole lines and less than one more line. |
| TornLog.TornRead | internal/collab/oplog.go:84-113 | Reading any byte prefix of a log gives exactly the records whose lines are whole, and where they end, never a corruption error. |
| LogDamage.ReadExactly | internal/collab/oplog.go:84-128 | Any file reads as these records up to this offset if and only if up to there it is one whole line with the right checksum for each, and behind it at most part of a line or one bad line. |
| LogDamage.CorruptExactly | internal/collab/oplog.go:84-128 | Reading reports corruption at an offset if and only if lines with the right checksum reach up to there and a bad whole line follows with more behind it. |
| TornLog.TornThenAppend | internal/collab/oplog.go:41-161 | Cutting there and appending gives a file that reads as both sequences. |
| TornLog.ReadRecords | internal/collab/oplog.go:84-113 | The reading loop, with its corruption error. |
| TornLog.FileLog.Append | internal/collab/oplog.go:130-161 | Succeeds exactly when no record holds a newline and the write is durable; a refused one changes nothing, a failed one leaves a prefix of the new lines, or cuts the file back to what was durable. |
| TornLog.OpenFileLog | internal/collab/oplog.go:41-82 | Opens exactly the readable files and cuts off a torn tail. |
| KvNodeCode.NewNode | engineering-labs/quorum-kv/internal/kv/raft.go:79-102 | Opens exactly when the log reaches the stored commit index, as a follower with its stored term, vote and log and everything committed applied. |
| KvNodeCode.KvNode.StartElectionLocked | engineering-labs/quorum-kv/internal/kv/raft.go:165-180 | A leader does nothing; others start a new term with their own vote. |
| KvNodeCode.KvNode.CountVotes | engineering-labs/quorum-kv/internal/kv/raft.go:192-217 | With a majority before any newer term, a node that is still candidate of that term becomes leader and any other stays what it was; otherwise the first newer term makes it a follower. |
| KvNodeCode.KvNode.HandleRequestVote | engineering-labs/quorum-kv/internal/kv/raft.go:219-237 | The vote and the new state as specified. |
| KvNodeCode.KvNode.HandleAppendEntries | engineering-labs/quorum-kv/internal/kv/raft.go:239-285 | The answer, the log, the commit index and what is applied, as specified. |
| KvNodeCode.KvNode.FirstWithTerm | engineering-labs/quorum-kv/internal/kv/raft.go:253-260 | The search for the conflict index. |
| KvNodeCode.KvNode.TakeEntries | engineering-labs/quorum-kv/internal/kv/raft.go:262-273 | Entries that agree stay, the first that does not replaces the rest. |
| KvNodeCode.KvNode.ProposeLocked | engineering-labs/quorum-kv/internal/kv/raft.go:287-300 | Only a leader appends, at the end of its log and in its term. |
| KvNodeCode.KvNode.ConcludeLocked | engineering-labs/quorum-kv/internal/kv/raft.go:318-329 | Commits and applies only if the node still leads the term it proposed in. |
| KvNodeCode.KvNode.ReplicateToPeer | engineering-labs/quorum-kv/internal/kv/raft.go:331-366 | The repair loop ends; it succeeds exactly on a peer of no newer term, which then holds the whole log of the leader. |
| KvNodeCode.KvNode.ApplyCommittedLocked | engineering-labs/quorum-kv/internal/kv/raft.go:421-426 | Applies the committed entries in order, each once; the stored data stays what all applied commands together make. |
| KvNodeCode.KvNode.BecomeFollowerLocked | engineering-labs/quorum-kv/internal/kv/raft.go:428-437 | A newer term clears the vote, the same term keeps it. |
| RaftLog.SpliceKeepsOrTakes | engineering-labs/quorum-kv/internal/kv/raft.go:262-273 | Of two logs that match, taking entries of one gives the longer log if one extends the other, else the sender's. |
| RaftLog.FirstOfTermFinds | engineering-labs/quorum-kv/internal/kv/raft.go:253-260 | The conflict index is the first of its term, and the entry before it is older. |
| RaftNode.ConflictLowers | engineering-labs/quorum-kv/internal/kv/raft.go:242-260 | A refusal in the leader's own term leaves the log alone and names an index above zero and below the leader's next, so repair always makes progress; what it skips is not in the follower's log, or is exactly the follower's run of the term that did not match. |
| RaftReplication.TakesOrKeeps | engineering-labs/quorum-kv/internal/kv/raft.go:262-273 | In every good state a follower that accepts holds what was sent, and its log is either unchanged or what was sent. |
| RaftReplication.AppliedSurvives | engineering-labs/quorum-kv/internal/kv/raft.go:262-284 | Taking entries never changes an entry the follower has applied. |
| RaftVotes.UpToDateHas | engineering-labs/quorum-kv/internal/kv/raft.go:225-231 | A candidate that passes the up-to-date test against a holder of an entry also holds it, or an elected node in between lacked it. |
| RaftInvariant.ChosenInElected | engineering-labs/quorum-kv/internal/kv/raft.go:165-329 | Whatever a quorum acknowledged in one term is in the log of every node elected in a later term. |
| RaftSafety.StepKeeps | engineering-labs/quorum-kv/internal/kv/raft.go:165-437 | Each step of the cluster keeps the invariant. |
| RaftSafety.ReachableOk | engineering-labs/quorum-kv/internal/kv/raft.go:165-437 | So it holds after every run. |
| RaftSafety.ElectionSafety | engineering-labs/quorum-kv/internal/kv/raft.go:165-237 | No term has two leaders, not even at different times of a run. |
| RaftSafety.LogMatching | engineering-labs/quorum-kv/internal/kv/raft.go:239-285 | Logs with equal terms at one index agree up to there. |
| RaftSafety.CommitWithinSent | engineering-labs/quorum-kv/internal/kv/raft.go:279-283 | Every request ever sent carries a commit index within what it sends, so taking the smaller of it and the last index commits no unmatched entry. |
| RaftSafety.LeaderCompleteness | engineering-labs/quorum-kv/internal/kv/raft.go:287-329 | Once a proposal succeeded, every leader of that or a later term, at any later time, has that entry and everything before it. |
| RaftSafety.StateMachineSafety | engineering-labs/quorum-kv/internal/kv/raft.go:421-426 | No two commands are ever applied at one index, by whatever nodes, across restarts. |
| RaftSafety.AnsweredIsApplied | engineering-labs/quorum-kv/internal/kv/raft.go:287-329 | What is ever applied at the index of a successful proposal is that proposal's command. |
| RaftSafety.MachinesAgree | engineering-labs/quorum-kv/internal/kv/raft.go:421-426 | Of two state machines one has applied a prefix of what the other has. |
| RaftSafety.RestartIsAccepted | engineering-labs/quorum-kv/internal/kv/raft.go:79-102 | No commit index exceeds what was applied or the log, so a node can always restart. |
| RaftSafety.CommitIndexFalls | engineering-labs/quorum-kv/internal/kv/raft.go:318-328 | A commit index falls exactly at a restart or when a proposal finishes after a later one. |
| RaftSafety.CommitIndexCanFall | engineering-labs/quorum-kv/internal/kv/raft.go:318-328 | A run that shows it without a restart. |
| RaftProgress.ClusterGoesOn | engineering-labs/quorum-kv/internal/kv/raft.go:165-329 | From every reachable state a node whose log is at least as up to date as each log of a quorum can be elected with its log unchanged, and then have any command applied by every node of that quorum. |
| RaftProgress.CanLead | engineering-labs/quorum-kv/internal/kv/raft.go:165-237 | The election half: there is a continuation in which every node of the quorum grants its vote. |
| RaftProgress.CanApply | engineering-labs/quorum-kv/internal/kv/raft.go:239-329 | The replication half: there is one in which each follower takes, commits and applies the leader's log. |
| SearchIndex.Frequencies | internal/search/index.go:93-102 | Counts each word of a document and its length. |
| SearchIndex.Index.Upsert | internal/search/index.go:104-134 | The index stands for the same map with this document put in, however slots, tombstones and compaction work out, and is left with less than 64 tombstones, or less than a quarter of its documents. |
| SearchIndex.Index.Retire | internal/search/index.go:136-156 | The index stands for the map without that document. |
| SearchIndex.Index.Compact | internal/search/index.go:158-200 | The index stands for the same map and holds no tombstone. |
| SearchIndex.Index.CompactPostings | internal/search/index.go:171-184 | Written over entries already read, a posting list keeps exactly its live entries, renumbered in order, and a frontier that dominates them. |
| SearchIndex.Index.MoveDocs | internal/search/index.go:185-199 | Moving documents down in place overwrites nothing unread. |
| IndexState.RetireOk | internal/search/index.go:136-156 | Tombstoning keeps the whole representation: sorted lists, live counts, length sum, tombstone count, frontiers. |
| IndexState.AddOk | internal/search/index.go:104-134 | So does adding a document at a new slot. |
| IndexState.CompactOk | internal/search/index.go:158-200 | So does compaction, and the contents stay. |
| Scoring.AddImpact | internal/search/index.go:202-242 | The frontier stays a strict frontier within its size, dominates the new posting and everything it dominated, also when it has to merge. |
| Scoring.ContributionGrows | internal/search/index.go:244-257 | A score grows with the frequency and falls with the length. |
| Scoring.Bound | internal/search/index.go:244-257 | The bound is the largest contribution of the frontier, and no smaller than zero. |
| Scoring.BoundCovers | internal/search/index.go:202-257 | That bound covers every posting the frontier dominates. |
| MaxScore.Seek | internal/search/index.go:280-307 | Galloping stops at the first posting at or past the target, skipping only smaller ones. |
| Ranking.BestUnique | internal/search/index.go:320-372 | There is one best set of a given size. |
| Ranking.TopK.Offer | internal/search/index.go:331-372 | The heap holds the best of everything offered; the root's score never falls once it is full. |
| Ranking.TopK.SiftUp | internal/search/index.go:342-353 | Restores the heap with the same hits. |
| Ranking.TopK.SiftDown | internal/search/index.go:357-372 | Restores the heap with the same hits. |
| Pruning.ExactScore | internal/search/index.go:514-531 | The score computed from cursors is the document's score. |
| Pruning.Competitive | internal/search/index.go:485-512 | A document given up on scores strictly below the threshold; for any other, every cursor stands on it. |
| Pruning.TooLow | internal/search/index.go:494-510 | What is summed so far plus the bounds of the rest, with the slack, covers the score. |
| Pruning.Advance | internal/search/index.go:477-481 | No cursor moves past a match that is still to come. |
| Pruning.ScorePruned | internal/search/index.go:429-483 | The pruned loop leaves in the heap exactly the best of all live matches. |
| Pruning.ScoreExhaustive | internal/search/index.go:533-560 | So does the exhaustive loop. |
| Searching.Search | internal/search/index.go:374-427 | For every index, query and limit the answer is the one the map of documents calls for: the best matches by descending score and then id, with exact scores and titles. |
| Searching.SearchResultUnique | internal/search/index.go:374-427 | There is only one such answer, so pruning, slots and history cannot show. |
| Relevance.RarerWeighsMore | internal/search/index.go:409-410 | For an increasing logarithm a term that fewer documents hold weighs strictly more. |
| Relevance.AverageOccurrence | internal/search/index.go:519-531 | One occurrence in a document of average length counts exactly the weight of the term. |
| Relevance.OccurrencesSaturate | internal/search/index.go:519-531 | Each further occurrence adds something, and all together stay below 2.2 times the weight. |
| Searching.SortHits | internal/search/index.go:420-421 | The hits in ranking order. |
| SearchSnapshot.PostingsRoundTrip | internal/search/snapshot.go:59-140 | Reading a delta-encoded posting list gives it back. |
| SearchSnapshot.DecodePostings | internal/search/snapshot.go:122-143 | The decoding loop with its errors. |
| SearchSnapshot.WriteSnapshot | internal/search/snapshot.go:23-79 | The snapshot describes exactly the documents the index stands for. |
| SearchSnapshot.ReadSnapshot | internal/search/snapshot.go:81-150 | Reading a snapshot that describes a map of documents gives a valid index that stands for it. |
| Jobs.ScanUnique | internal/video/index.go:103-126 | The scan's answer is unique: the first in lease order of the jobs due, or none. |
| LeaseIndexCode.JobHeap.Up | internal/video/index.go:142-171 | Moving an entry up restores the heap, keeps its entries and their positions. |
| LeaseIndexCode.JobHeap.Down | internal/video/index.go:142-171 | Same downwards, with whether it moved. |
| LeaseIndexCode.JobHeap.Remove | internal/video/index.go:95-101 | Removing any position keeps heap and positions and takes exactly that entry. |
| LeaseIndexCode.JobHeap.FirstIsLeast | internal/video/index.go:128-140 | The root comes before every other entry. |
| LeaseIndexCode.LeaseIndex.Update | internal/video/index.go:62-85 | A job is filed exactly once with its due time if it can ever be leased, else not at all. |
| LeaseIndexCode.LeaseIndex.Remove | internal/video/index.go:87-93 | The job is no longer filed; nothing else changes. |
| LeaseIndexCode.LeaseIndex.Next | internal/video/index.go:103-126 | For any clock, also one that went back, the answer is the scan's, and what is filed does not change. |
| Leases.LeaseIsExclusive | internal/video/queue.go:206-301 | Until its lease ends, a leased job is changed only by its owner: no run of creates, leases, heartbeats, completions, failures and replays by others, at any clock readings before that, touches it. |
| Leases.LeaseOutlivesCrashes | internal/video/queue.go:206-387 | An acknowledged lease stays its owner's also when writes fail and the process stops and opens the queue again any number of times. |
| Leases.AttemptsExceedExactly | internal/video/queue.go:206-275 | Over every run, a job has more attempts than its maximum if and only if its last lease ended unreported and a request for a lease got it once more; no job waits in the queue with its attempts used up. |
| Leases.AttemptsCanExceed | internal/video/queue.go:206-226 | A run in which that happens: one attempt, a lease that ends, another lease. |
| JobFates.FailuresRetry | internal/video/queue.go:257-275 | Over every run from an empty queue a job is Dead only with its attempts used up and becomes Dead exactly when its owner gives up the last one; after any other failure nobody holds it and it is due again after a wait that doubles each time. |
| JobFates.RetriedAfterFailure | internal/video/queue.go:257-275 | From then on a request for a lease finds a job, this one or one that comes before it. |
| JobFates.StateChanges | internal/video/queue.go:206-290 | What one request can make of a job's state, both directions: Dead, Completed, and back from Dead only by a replay. |
| JobFates.CompletedExactly | internal/video/queue.go:243-255 | Over every run a job is Completed exactly when its owner finished it at some point. |
| JobFates.AttemptsAreLeases | internal/video/queue.go:206-226 | A job's attempts are the leases it got since it was created or last replayed. |
| JobFates.OldestFirst | internal/video/index.go:103-133 | Over every run no job is leased while one created earlier is due. |
| JobFates.CreatedWhenQueued | internal/video/queue.go:161-186 | A job's time of creation and its number of attempts are those of the request that queued it, five if it asked for none. |
| MediaQueueCode.MediaQueue.CommitLocked | internal/video/queue.go:303-319 | Memory, files and answer after one change, with the lease index in step whether or not the change was written. |
| MediaQueueCode.MediaQueue.AppendLocked | internal/video/queue.go:321-348 | One journal line, with what a failure leaves. |
| MediaQueueCode.MediaQueue.SnapshotLocked | internal/video/queue.go:350-387 | A snapshot and an emptied journal, with what each failure leaves. |
| MediaQueueCode.MediaQueue.Create | internal/video/queue.go:161-186 | One job for each idempotency key; when it could not be written, its id and key are forgotten. |
| MediaQueueCode.MediaQueue.Lease | internal/video/queue.go:206-226 | Leases exactly the job a scan finds, or reports that there is none. |
| MediaQueueCode.MediaQueue.Heartbeat | internal/video/queue.go:228-241 | Only the owner of a running lease extends it. |
| MediaQueueCode.MediaQueue.Complete | internal/video/queue.go:243-255 | Only the owner of a running lease completes the job. |
| MediaQueueCode.MediaQueue.Fail | internal/video/queue.go:257-275 | A failed job is queued again after its delay, or dead when its attempts are used up. |
| MediaQueueCode.MediaQueue.ReplayDead | internal/video/queue.go:277-290 | Only a dead job is queued again, from the start. |
| MediaQueueCode.MediaQueue.OwnedLocked | internal/video/queue.go:292-301 | The two errors of reporting on a job. |
| MediaQueueCode.ReplayJournal | internal/video/queue.go:440-484 | Replays exactly the records newer than the snapshot, or fails on one that cannot be read. |
| MediaQueueCode.OpenQueue | internal/video/queue.go:111-146 | Opens as specified for every content of the files, with all jobs filed. |
| QueueRecovery.OpensAs | internal/video/queue.go:389-484 | A journal of whole lines and part of one opens as its whole lines, which is also what stays in the file. |
| QueueRecovery.ChangeWrites | internal/video/queue.go:303-387 | What one change leaves in memory and files, for every way its writes can fail. |
| QueueRecovery.StepKeeps | internal/video/queue.go:111-484 | Each change, failure, crash and reopening keeps files and memory recoverable. |
| QueueRecovery.CrashRecovery | internal/video/queue.go:111-146 | After any run, opening never reports corruption and brings back the last acknowledged store or one attempted since. |
| QueueRecovery.AcknowledgedIsDurable | internal/video/queue.go:303-319 | Right after an acknowledged change, opening brings back exactly memory. |
| QueueUpkeep.JournalStaysShort | internal/video/queue.go:303-319 | Over any run, with whatever failures, the journal never holds more records than the minimum for compaction, or than one more than the jobs opening brings back. |
| QueueUpkeep.GoodWritesSucceed | internal/video/queue.go:303-387 | In every reachable state, whatever failed before, a change whose writes work is acknowledged and brings files and memory in step again. |
| QueueRecovery.FailedCreateUndone | internal/video/queue.go:179-184 | In runs that create jobs under new ids, a Create that could not be written leaves jobs and keys as they were. |
| QueueRecovery.UndoneExactly | internal/video/queue.go:179-184 | Taking back a failed Create restores the store if and only if its job id was new. |
| QueueRecovery.KeysNameJobs | internal/video/queue.go:161-186 | In every reachable state each idempotency key names a job, in memory and in the snapshot. |
| Attribution.RepeatsDoNotCount | internal/experiments/engine.go:475-492 | A stream gives the same aggregates and subjects as the stream with repeated event ids removed. |
| Attribution.InsertHolds | internal/experiments/engine.go:558 | Keeping exposure times in order loses and invents none. |
| AttributionRuns.AttributionConserved | internal/experiments/engine.go:475-551 | After every stream the aggregates are the sum over the live subjects plus the sum over all subjects dropped so far, as they were when they went. |
| AttributionRuns.FrozenStands | internal/experiments/engine.go:553-628 | For every stream and everything that arrives after it: what a subject contributed when it was first dropped with an exposure is what all its accepted events contribute, so nothing later could have changed it. |
| AttributionRuns.ExpiryIsExact | internal/experiments/engine.go:613-628 | Aggregates equal those of an engine that keeps every subject if and only if the stream has no accepted exposure of a subject that was exposed before and that the engine had dropped. |
| AttributionRuns.SubjectCanCountTwice | internal/experiments/engine.go:516-536 | For every configuration, a stream in which one subject counts twice. |
| AttributionRuns.ExpireConserved | internal/experiments/engine.go:613-628 | Expiry lowers the live sum by exactly the sum over the subjects it drops. |
| AttributionMeaning.TotalsMean | internal/experiments/engine.go:553-611 | For every stream an engine that keeps every subject reports for each arm how many subjects have an accepted exposure, how many of these an accepted outcome in the window after the earliest one, and what those outcomes add up to. |
| AttributionMeaning.AggregatesMean | internal/experiments/engine.go:479-628 | The engine itself reports the same for every stream without an exposure of a subject it had dropped after an earlier one. |
| AttributionMeaning.ContributeMeans | internal/experiments/engine.go:553-568 | One subject's contribution, in terms of its accepted events. |
| AttributionMeaning.TakenMeans | internal/experiments/engine.go:479-506 | An event is accepted exactly when its id is new, it is meant for this experiment as configured, and it is no later than allowed behind every event accepted before. |
| AttributionMeaning.CountersMean | internal/experiments/engine.go:479-506 | Every event is counted exactly once, as accepted, repeated, rejected or late; accepted and repeated events are counted as what they were. |
| AttributionUpkeep.OutcomesConserved | internal/experiments/engine.go:613-628 | Over every stream each accepted outcome is with a live subject or went with a dropped one, and the unmatched ones are those that went with subjects never exposed. |
| AttributionUpkeep.NobodyLingers | internal/experiments/engine.go:613-628 | With every 256th accepted event each subject that is kept has an accepted event the watermark is at most one window past. |
| ExperimentEngine.CalculateContribution | internal/experiments/engine.go:553-568 | Conversions and value inside the window of the first exposure. |
| ExperimentEngine.ExperimentState.Apply | internal/experiments/engine.go:475-551 | One event, with its receipt: repeated, rejected, late or accepted. |
| ExperimentEngine.ExperimentState.Extend | internal/experiments/engine.go:516-533 | Adds an event to a subject and keeps its times in order. |
| ExperimentEngine.ExperimentState.Expire | internal/experiments/engine.go:613-628 | Drops exactly the subjects the watermark has passed. |
| Codec.EncodeSamples | internal/tsdb/codec.go:18-54 | Encodes the sorted samples with the last value of each timestamp, whatever the order and repeats of the input. |
| Codec.DecodeSamples | internal/tsdb/codec.go:56-110 | The decoding loop with its errors. |
| Codec.DecodesEncoded | internal/tsdb/codec.go:18-110 | Decoding gives back every list of samples, also where differences and their differences wrap modulo 2^64. |
| Codec.LatestUnique | internal/tsdb/codec.go:22-32 | There is one ascending list of the last values, so the round trip determines the samples. |
| CodecSize.TwoBytesEach | internal/tsdb/codec.go:18-54 | After the first, samples take at least two bytes each, and exactly two if and only if each interval is within about 64 of the one before it and each value differs from the one before it in the last seven bits at most. |
| CodecSize.SteadyTakesTwo | internal/tsdb/codec.go:36-50 | Samples at a fixed interval whose value stays the same are such a case. |
| Codec.Xor64 | internal/tsdb/codec.go:36-50 | Exclusive or with the previous value is undone by itself and stays in 64 bits. |
| Varint.VarintRoundTrip | internal/tsdb/codec.go:118-122 | A signed 64-bit number reads back and leaves the rest alone. |
| Varint.UnsignedRoundTrip | internal/tsdb/codec.go:112-116 | Same for an unsigned one. |
| CodecSize.FewestBytes | internal/tsdb/codec.go:112-122 | A number takes no more bytes than hold its digits of seven bits. |

## Left out

- Runs.ClientsInStep: carets, presence, peers, titles, a client's list of suggestions and the epoch of a hello are not modelled; a client whose epoch is refused reloads like any other without a known revision. Operation ids are per-client counters.
- Runs.ProposedAnchor: the retry loop of `Invoke`, its budget and what an agent does with the text are not modelled; a draft is any text without half characters and carriage returns.
- SessionCode.Session.HandleMessage: ping, cursor and title messages are not modelled.
- SessionCode.Session.HandleHello: every hello names a user and a client, so its refusals for missing names are not modelled; a refused epoch is a hello without a known revision.
- SessionCode.Session.HandleOp: every operation message has its fields, so the refusal for missing ones or an over-long id is not modelled.
- SessionCode.Session.AfterOp: moved carets and agent ranges and the messages about suggestions are not modelled.
- SessionCode.Session.HandleResolve: the messages about suggestions are not modelled.
- SessionCode.Session.BeginRead: presence, running agents and the surroundings an agent is shown are not modelled.
- CollabClientCode.CollabClient.Acknowledge: suggestion anchors and the reported caret are not modelled.
- CollabClientCode.CollabClient.FoldServerOp: the same, and other users' carets.
- CollabClientCode.CollabClient.Handle: presence, cursor, title and suggestion messages are not modelled.
- CollabClientCode.CollabClient.HandleInit: peers, suggestions and title in the answer are not modelled.
- Session threads, timers, reconnect delays and the WebSocket: a step handles one message, a killed connection is one nobody reads any more.
- JSON, gob, gzip and text encodings: records, messages and snapshots are values with an exact round trip; names, colours and user ids are not cleaned.
- Wire.DecodedIsNormal: the wire form is the parsed array; errors of JSON itself are not modelled.
- RaftSafety.LeaderCompleteness: disk writes are assumed to succeed, as the source needs; linearizable reads, expiry of keys, snapshots of the map, timeouts and the number of retries are not modelled.
- KvNodeCode.KvNode.ReplicateToPeer: the peer answers every request of one repair; in runs of the cluster each request and answer may be lost, repeated or late. It asks for well-shaped, matching logs, which `RaftSafety.ReachableOk` and `RaftSafety.LogMatching` give in every run.
- Searching.Search: scores are real numbers, so rounding is not modelled; the slack factor is. The logarithm is any function that is positive beyond 1. The words of a query are given, since the tokenizer is not modelled.
- SearchIndex.Index.Upsert: at most 2^32 - 2 slots, where the source would wrap.
- SearchSnapshot.WriteSnapshot: documents of at most 2^32 - 1 words; the same for the other 32-bit fields.
- SearchIndex.Index: entries of the term dictionary are values in a map, not pointers.
- LeaseIndexCode.LeaseIndex: an entry is found in its heap by id and position, not by pointer.
- MediaQueueCode.MediaQueue.Create: the idempotency keys must name jobs, as `QueueRecovery.KeysNameJobs` shows they do. A closed queue is not modelled.
- QueueRecovery.CrashRecovery: a crash of the process, after any write; rename is atomic, and loss of power with reordered writes is not modelled. Runs create jobs under new ids.
- AttributionRuns.AttributionConserved: lag and latency samples, snapshots, statistics and the hash that assigns arms are not modelled; times and values are numbers, and an experiment's log is not.
- ExperimentEngine.ExperimentState.Apply: lag samples and history snapshots are not modelled.
- Block files of the time-series store, its retention and queries over several blocks.
- HTTP handlers, command lines, user interface, catalog, importers, agents, streaming and deployment code: no property that needs proof.
