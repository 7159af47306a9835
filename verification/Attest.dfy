/**
 common/attest/attest.go.  SHA-256 over canonical JSON, Ed25519 and RFC 3339 are the fields of
 `Primitives`; what the proofs need of them is stated as predicates and required where it is used.
 Times are nanoseconds.
 */
module Attest {
  import opened Wrappers
  import opened Protocol

  const SECOND: int := 1_000_000_000

  datatype Primitives = Primitives(
    digest: Document -> string,
    sign: (string, Document) -> Option<string>,
    verify: (string, Document, string) -> bool,
    parseTime: string -> Option<int>,
    formatTime: int -> string)

  // ---------- what is assumed of the primitives, where a theorem needs it ----------

  ghost predicate CollisionFree(p: Primitives) {
    forall a, b :: p.digest(a) == p.digest(b) ==> a == b
  }

  /** `priv` is well formed and its signatures verify under `pub`. */
  ghost predicate KeyPair(p: Primitives, pub: string, priv: string) {
    forall d ::
      && p.sign(priv, d).Some?
      && p.sign(priv, d).value != ""
      && p.verify(pub, d, p.sign(priv, d).value)
  }

  function FloorSecond(t: int): int {
    t - t % SECOND
  }

  /** Formatting drops the fraction of a second and parsing reads back the rest. */
  ghost predicate Rfc3339(p: Primitives) {
    forall t :: p.formatTime(t) != "" && p.parseTime(p.formatTime(t)) == Some(FloorSecond(t))
  }

  // ---------- events and checkpoints ----------

  /** The event as hashed: its own hash cleared, and an empty metadata map written like a missing one. */
  function Canonical(e: Event): Event {
    e.(eventHash := "", metadata := if e.metadata == Some(map[]) then None else e.metadata)
  }

  function HashEvent(p: Primitives, e: Event): string {
    p.digest(EventDoc(Canonical(e)))
  }

  function HashCheckpoint(p: Primitives, c: Checkpoint): string {
    p.digest(CheckpointDoc(c))
  }

  function CheckpointBody(c: Checkpoint): Document {
    CheckpointDoc(c.(signature := ""))
  }

  function SignCheckpoint(p: Primitives, c: Checkpoint, priv: string): Option<Checkpoint> {
    match p.sign(priv, CheckpointBody(c))
    case Some(sig) => Some(c.(signature := sig))
    case None => None
  }

  predicate VerifyCheckpoint(p: Primitives, c: Checkpoint, pub: string) {
    p.verify(pub, CheckpointBody(c), c.signature)
  }

  // ---------- the hash chain ----------

  function LastHash(events: seq<Event>, base: string): string {
    if events == [] then base else events[|events| - 1].eventHash
  }

  /** Event i of a log that continues a log of `baseIndex` events whose last hash is `base`. */
  ghost predicate Link(p: Primitives, pepID: string, events: seq<Event>, base: string, baseIndex: nat, i: nat)
    requires i < |events|
  {
    && events[i].pepID == pepID
    && events[i].index == baseIndex + i + 1
    && events[i].prevHash == (if i == 0 then base else events[i - 1].eventHash)
    && events[i].eventHash == HashEvent(p, events[i])
  }

  ghost predicate Chained(p: Primitives, pepID: string, events: seq<Event>, base: string, baseIndex: nat) {
    forall i :: 0 <= i < |events| ==> Link(p, pepID, events, base, baseIndex, i)
  }

  ghost predicate VersionOne(events: seq<Event>) {
    forall i :: 0 <= i < |events| ==> events[i].version == 1
  }

  predicate HasTime(p: Primitives, s: string) {
    s != "" && p.parseTime(s).Some?
  }

  ghost predicate Timed(p: Primitives, events: seq<Event>) {
    forall i :: 0 <= i < |events| ==> HasTime(p, events[i].timestamp)
  }

  // The three facts a checkpoint chain continues from, zero for a PEP without one.

  function BaseHash(previous: Option<Checkpoint>): string {
    match previous case None => "" case Some(c) => c.lastEventHash
  }

  function BaseIndex(previous: Option<Checkpoint>): nat {
    match previous case None => 0 case Some(c) => c.lastEventIndex
  }

  function BaseEpoch(previous: Option<Checkpoint>): nat {
    match previous case None => 0 case Some(c) => c.epoch
  }

  function BaseCheckpointHash(p: Primitives, previous: Option<Checkpoint>): string {
    match previous case None => "" case Some(c) => HashCheckpoint(p, c)
  }

  /** A submitted delta that continues `previous` and is summarised by a checkpoint signed under `pub`. */
  ghost predicate ValidEvidence(p: Primitives, ev: Evidence, pepID: string, pub: string, previous: Option<Checkpoint>) {
    var c := ev.checkpoint;
    && c.version == 1
    && c.pepID == pepID
    && ev.previousCheckpointHash == c.previousCheckpointHash == BaseCheckpointHash(p, previous)
    && Chained(p, pepID, ev.events, BaseHash(previous), BaseIndex(previous))
    && VersionOne(ev.events)
    && c.lastEventHash == LastHash(ev.events, BaseHash(previous))
    && c.lastEventIndex == BaseIndex(previous) + |ev.events|
    && c.eventCount == |ev.events|
    && c.epoch == BaseEpoch(previous) + 1
    && HasTime(p, c.createdAt)
    && Timed(p, ev.events)
    && VerifyCheckpoint(p, c, pub)
  }

  datatype HistoryError =
    | CheckpointIdentity
    | PreviousHashMismatch
    | UnexpectedPreviousHash
    | BrokenAt(offset: nat)
    | NotSummarised
    | CountMismatch
    | UnexpectedEpoch
    | BadCheckpointTime
    | BadEventTime(offset: nat)
    | BadSignature

  /**
   VerifyHistoryEvidence: accepts exactly the valid deltas and returns the checkpoint's hash.  A chain
   error names the first offending event.
   */
  method VerifyHistoryEvidence(p: Primitives, ev: Evidence, pepID: string, pub: string, previous: Option<Checkpoint>)
    returns (r: Result<string, HistoryError>)
    ensures r.Success? <==> ValidEvidence(p, ev, pepID, pub, previous)
    ensures r.Success? ==> r.value == HashCheckpoint(p, ev.checkpoint)
    ensures r.Failure? && r.error.BrokenAt? ==>
      var i := r.error.offset;
      && i < |ev.events|
      && !(ev.events[i].version == 1 && Link(p, pepID, ev.events, BaseHash(previous), BaseIndex(previous), i))
      && Chained(p, pepID, ev.events[..i], BaseHash(previous), BaseIndex(previous))
  {
    hide HashEvent, HashCheckpoint;
    if ev.checkpoint.version != 1 || ev.checkpoint.pepID != pepID {
      return Failure(CheckpointIdentity);
    }
    if ev.previousCheckpointHash != ev.checkpoint.previousCheckpointHash {
      return Failure(PreviousHashMismatch);
    }
    var expectedPrevious, lastEventHash, lastEventIndex := "", "", 0;
    if previous.Some? {
      expectedPrevious := HashCheckpoint(p, previous.value);
      lastEventHash := previous.value.lastEventHash;
      lastEventIndex := previous.value.lastEventIndex;
    }
    if ev.previousCheckpointHash != expectedPrevious {
      return Failure(UnexpectedPreviousHash);
    }
    for i := 0 to |ev.events|
      invariant lastEventHash == LastHash(ev.events[..i], BaseHash(previous))
      invariant lastEventIndex == BaseIndex(previous) + i
      invariant forall j :: 0 <= j < i ==> Link(p, pepID, ev.events, BaseHash(previous), BaseIndex(previous), j)
      invariant forall j :: 0 <= j < i ==> ev.events[j].version == 1
    {
      var e := ev.events[i];
      var h := HashEvent(p, e);
      if || e.version != 1 || e.pepID != pepID || e.index != lastEventIndex + 1 || e.prevHash != lastEventHash
         || e.eventHash != h
      {
        assert !(e.version == 1 && Link(p, pepID, ev.events, BaseHash(previous), BaseIndex(previous), i));
        assert forall j :: 0 <= j < i ==>
          (Link(p, pepID, ev.events[..i], BaseHash(previous), BaseIndex(previous), j)
           <==> Link(p, pepID, ev.events, BaseHash(previous), BaseIndex(previous), j));
        return Failure(BrokenAt(i));
      }
      lastEventHash, lastEventIndex := h, e.index;
    }
    assert ev.events[..|ev.events|] == ev.events;
    if ev.checkpoint.lastEventHash != lastEventHash || ev.checkpoint.lastEventIndex != lastEventIndex {
      return Failure(NotSummarised);
    }
    if ev.checkpoint.eventCount != |ev.events| {
      return Failure(CountMismatch);
    }
    if previous.None? {
      if ev.checkpoint.epoch != 1 {
        return Failure(UnexpectedEpoch);
      }
    } else if ev.checkpoint.epoch != previous.value.epoch + 1 {
      return Failure(UnexpectedEpoch);
    }
    if ev.checkpoint.createdAt == "" || p.parseTime(ev.checkpoint.createdAt).None? {
      return Failure(BadCheckpointTime);
    }
    for i := 0 to |ev.events|
      invariant forall j :: 0 <= j < i ==> HasTime(p, ev.events[j].timestamp)
    {
      if ev.events[i].timestamp == "" || p.parseTime(ev.events[i].timestamp).None? {
        return Failure(BadEventTime(i));
      }
    }
    if !VerifyCheckpoint(p, ev.checkpoint, pub) {
      return Failure(BadSignature);
    }
    return Success(HashCheckpoint(p, ev.checkpoint));
  }

  // ---------- an accepted checkpoint determines the history behind it ----------

  /** Equal but for an empty metadata map on one side and a missing one on the other. */
  ghost predicate SameEvent(a: Event, b: Event) {
    Canonical(a) == Canonical(b) && a.eventHash == b.eventHash
  }

  ghost predicate SameEvents(a: seq<Event>, b: seq<Event>) {
    |a| == |b| && forall i :: 0 <= i < |a| ==> SameEvent(a[i], b[i])
  }

  lemma ChainedPrefix(p: Primitives, pepID: string, events: seq<Event>, base: string, baseIndex: nat, n: nat)
    requires Chained(p, pepID, events, base, baseIndex) && n <= |events|
    ensures Chained(p, pepID, events[..n], base, baseIndex)
  {
    forall i | 0 <= i < n ensures Link(p, pepID, events[..n], base, baseIndex, i) {
      assert Link(p, pepID, events, base, baseIndex, i);
    }
  }

  lemma SameEventHash(p: Primitives, a: Event, b: Event)
    requires CollisionFree(p) && HashEvent(p, a) == HashEvent(p, b)
    ensures Canonical(a) == Canonical(b)
  {
    assert EventDoc(Canonical(a)) == EventDoc(Canonical(b));
  }

  lemma SameCheckpointHash(p: Primitives, a: Checkpoint, b: Checkpoint)
    requires CollisionFree(p) && HashCheckpoint(p, a) == HashCheckpoint(p, b)
    ensures a == b
  {
    assert CheckpointDoc(a) == CheckpointDoc(b);
  }

  /** Two chains from one base with one last hash and one last index are the same events. */
  lemma {:induction false} LastHashDeterminesEvents(
    p: Primitives, pepID: string, a: seq<Event>, b: seq<Event>, base: string, baseIndex: nat)
    requires CollisionFree(p)
    requires Chained(p, pepID, a, base, baseIndex) && Chained(p, pepID, b, base, baseIndex)
    requires |a| == |b| && LastHash(a, base) == LastHash(b, base)
    ensures SameEvents(a, b)
    decreases |a|
  {
    hide CollisionFree, HashEvent;
    if a != [] {
      var n := |a| - 1;
      assert Link(p, pepID, a, base, baseIndex, n) && Link(p, pepID, b, base, baseIndex, n);
      SameEventHash(p, a[n], b[n]);
      assert Canonical(a[n]).prevHash == Canonical(b[n]).prevHash;
      ChainedPrefix(p, pepID, a, base, baseIndex, n);
      ChainedPrefix(p, pepID, b, base, baseIndex, n);
      LastHashDeterminesEvents(p, pepID, a[..n], b[..n], base, baseIndex);
      forall i | 0 <= i < |a| ensures SameEvent(a[i], b[i]) {
        if i < n {
          assert a[..n][i] == a[i] && b[..n][i] == b[i];
        }
      }
    }
  }

  /** Two deltas accepted after the same checkpoint that end in the same event hash and index. */
  lemma AcceptedDeltaDetermined(
    p: Primitives, pepID: string, pub: string, previous: Option<Checkpoint>, x: Evidence, y: Evidence)
    requires CollisionFree(p)
    requires ValidEvidence(p, x, pepID, pub, previous) && ValidEvidence(p, y, pepID, pub, previous)
    requires x.checkpoint.lastEventHash == y.checkpoint.lastEventHash
    requires x.checkpoint.lastEventIndex == y.checkpoint.lastEventIndex
    ensures SameEvents(x.events, y.events)
  {
    hide CollisionFree, Chained, SameEvents;
    LastHashDeterminesEvents(p, pepID, x.events, y.events, BaseHash(previous), BaseIndex(previous));
  }

  function LatestCheckpoint(run: seq<Evidence>): Option<Checkpoint> {
    if run == [] then None else Some(run[|run| - 1].checkpoint)
  }

  /** Deltas accepted one after the other from genesis. */
  ghost predicate AcceptedRun(p: Primitives, pepID: string, pub: string, run: seq<Evidence>) {
    forall i :: 0 <= i < |run| ==> ValidEvidence(p, run[i], pepID, pub, LatestCheckpoint(run[..i]))
  }

  lemma {:induction false} RunEpoch(p: Primitives, pepID: string, pub: string, run: seq<Evidence>)
    requires AcceptedRun(p, pepID, pub, run)
    ensures BaseEpoch(LatestCheckpoint(run)) == |run|
    decreases |run|
  {
    if run != [] {
      var n := |run| - 1;
      assert ValidEvidence(p, run[n], pepID, pub, LatestCheckpoint(run[..n]));
      RunPrefix(p, pepID, pub, run, n);
      RunEpoch(p, pepID, pub, run[..n]);
    }
  }

  lemma RunPrefix(p: Primitives, pepID: string, pub: string, run: seq<Evidence>, n: nat)
    requires AcceptedRun(p, pepID, pub, run) && n <= |run|
    ensures AcceptedRun(p, pepID, pub, run[..n])
  {
    forall i | 0 <= i < n ensures ValidEvidence(p, run[..n][i], pepID, pub, LatestCheckpoint(run[..n][..i])) {
      assert run[..n][..i] == run[..i];
      assert ValidEvidence(p, run[i], pepID, pub, LatestCheckpoint(run[..i]));
    }
  }

  ghost predicate SameHistory(x: seq<Evidence>, y: seq<Evidence>) {
    && |x| == |y|
    && forall i :: 0 <= i < |x| ==> x[i].checkpoint == y[i].checkpoint && SameEvents(x[i].events, y[i].events)
  }

  /**
   Two accepted histories that end in the same checkpoint hash agree on every checkpoint and on every
   event since genesis.
   */
  lemma {:induction false} CheckpointDeterminesHistory(
    p: Primitives, pepID: string, pub: string, x: seq<Evidence>, y: seq<Evidence>)
    requires CollisionFree(p)
    requires AcceptedRun(p, pepID, pub, x) && AcceptedRun(p, pepID, pub, y)
    requires x != [] && y != []
    requires HashCheckpoint(p, x[|x| - 1].checkpoint) == HashCheckpoint(p, y[|y| - 1].checkpoint)
    ensures SameHistory(x, y)
    decreases |x|
  {
    hide CollisionFree, HashCheckpoint, ValidEvidence, AcceptedRun, SameHistory;
    RunEpoch(p, pepID, pub, x);
    RunEpoch(p, pepID, pub, y);
    SameCheckpointHash(p, x[|x| - 1].checkpoint, y[|y| - 1].checkpoint);
    var n := |x| - 1;
    if n > 0 {
      SamePrevious(p, pepID, pub, x, y);
      RunPrefix(p, pepID, pub, x, n);
      RunPrefix(p, pepID, pub, y, n);
      CheckpointDeterminesHistory(p, pepID, pub, x[..n], y[..n]);
    } else {
      NoHistory(x[..n], y[..n]);
    }
    LastDeltaDetermined(p, pepID, pub, x, y);
  }

  lemma NoHistory(x: seq<Evidence>, y: seq<Evidence>)
    requires x == y == []
    ensures SameHistory(x, y)
  {
  }

  lemma LastDeltaDetermined(p: Primitives, pepID: string, pub: string, x: seq<Evidence>, y: seq<Evidence>)
    requires CollisionFree(p)
    requires AcceptedRun(p, pepID, pub, x) && AcceptedRun(p, pepID, pub, y)
    requires |x| == |y| && x != []
    requires HashCheckpoint(p, x[|x| - 1].checkpoint) == HashCheckpoint(p, y[|y| - 1].checkpoint)
    requires SameHistory(x[..|x| - 1], y[..|x| - 1])
    ensures SameHistory(x, y)
  {
    hide CollisionFree, HashCheckpoint, ValidEvidence, SameEvents;
    var n := |x| - 1;
    var previous := LatestCheckpoint(x[..n]);
    assert n > 0 ==> x[..n][n - 1].checkpoint == y[..n][n - 1].checkpoint;
    assert previous == LatestCheckpoint(y[..n]);
    SameCheckpointHash(p, x[n].checkpoint, y[n].checkpoint);
    assert ValidEvidence(p, x[n], pepID, pub, previous);
    assert ValidEvidence(p, y[n], pepID, pub, LatestCheckpoint(y[..n]));
    AcceptedDeltaDetermined(p, pepID, pub, previous, x[n], y[n]);
    SameHistoryGrows(x, y);
  }

  lemma SameHistoryGrows(x: seq<Evidence>, y: seq<Evidence>)
    requires |x| == |y| && x != [] && SameHistory(x[..|x| - 1], y[..|x| - 1])
    requires x[|x| - 1].checkpoint == y[|x| - 1].checkpoint
    requires SameEvents(x[|x| - 1].events, y[|x| - 1].events)
    ensures SameHistory(x, y)
  {
    var n := |x| - 1;
    forall i | 0 <= i < |x| ensures x[i].checkpoint == y[i].checkpoint && SameEvents(x[i].events, y[i].events) {
      if i < n {
        assert x[..n][i] == x[i] && y[..n][i] == y[i];
      }
    }
  }

  /** The last deltas of two such histories continue checkpoints of one hash. */
  lemma SamePrevious(p: Primitives, pepID: string, pub: string, x: seq<Evidence>, y: seq<Evidence>)
    requires CollisionFree(p)
    requires AcceptedRun(p, pepID, pub, x) && AcceptedRun(p, pepID, pub, y)
    requires |x| == |y| && |x| > 1
    requires HashCheckpoint(p, x[|x| - 1].checkpoint) == HashCheckpoint(p, y[|y| - 1].checkpoint)
    ensures HashCheckpoint(p, x[|x| - 2].checkpoint) == HashCheckpoint(p, y[|y| - 2].checkpoint)
  {
    hide CollisionFree, HashCheckpoint, ValidEvidence;
    var n := |x| - 1;
    SameCheckpointHash(p, x[n].checkpoint, y[n].checkpoint);
    EvidencePrevious(p, x[n], pepID, pub, LatestCheckpoint(x[..n]));
    EvidencePrevious(p, y[n], pepID, pub, LatestCheckpoint(y[..n]));
  }

  lemma EvidencePrevious(p: Primitives, ev: Evidence, pepID: string, pub: string, previous: Option<Checkpoint>)
    requires ValidEvidence(p, ev, pepID, pub, previous)
    ensures ev.checkpoint.previousCheckpointHash == BaseCheckpointHash(p, previous)
  {
  }

  // ---------- the rules of evidence, spelt out ----------

  /** Event i of a delta that continues a log of `base` events with last hash `before`. */
  ghost predicate InOrder(p: Primitives, pepID: string, events: seq<Event>, before: string, base: nat, i: nat)
    requires i < |events|
  {
    var e := events[i];
    && e.version == 1 && e.pepID == pepID && e.index == base + i + 1
    && e.prevHash == (if i == 0 then before else events[i - 1].eventHash)
    && e.eventHash == p.digest(EventDoc(e.(eventHash := "",
                                           metadata := if e.metadata == Some(map[]) then None else e.metadata)))
    && e.timestamp != "" && p.parseTime(e.timestamp).Some?
  }

  /**
   A delta is valid exactly if its checkpoint names this PEP and the checkpoint before, its events are in order after
   that one, the new checkpoint sums them up under the next epoch, and the PEP signed it.
   */
  lemma ValidExactly(p: Primitives, ev: Evidence, pepID: string, pub: string, previous: Option<Checkpoint>)
    ensures ValidEvidence(p, ev, pepID, pub, previous) <==>
      var c, n := ev.checkpoint, |ev.events|;
      var (hash, before, base, epoch) := match previous
        case None => ("", "", 0, 0)
        case Some(b) => (p.digest(CheckpointDoc(b)), b.lastEventHash, b.lastEventIndex, b.epoch);
      && c.version == 1 && c.pepID == pepID
      && ev.previousCheckpointHash == hash && c.previousCheckpointHash == hash
      && (forall i :: 0 <= i < n ==> InOrder(p, pepID, ev.events, before, base, i))
      && c.lastEventHash == (if n == 0 then before else ev.events[n - 1].eventHash)
      && c.lastEventIndex == base + n && c.eventCount == n && c.epoch == epoch + 1
      && c.createdAt != "" && p.parseTime(c.createdAt).Some?
      && p.verify(pub, CheckpointDoc(c.(signature := "")), c.signature)
  {
    var before, base := BaseHash(previous), BaseIndex(previous);
    OrderIsChain(p, pepID, ev.events, before, base);
    hide Chained, VersionOne, Timed, InOrder;
  }

  lemma OrderIsChain(p: Primitives, pepID: string, events: seq<Event>, before: string, base: nat)
    ensures (forall i :: 0 <= i < |events| ==> InOrder(p, pepID, events, before, base, i))
      <==> Chained(p, pepID, events, before, base) && VersionOne(events) && Timed(p, events)
  {
    if forall i :: 0 <= i < |events| ==> InOrder(p, pepID, events, before, base, i) {
      forall i | 0 <= i < |events|
        ensures Link(p, pepID, events, before, base, i) && events[i].version == 1 && HasTime(p, events[i].timestamp)
      {
        assert InOrder(p, pepID, events, before, base, i);
      }
    }
    if Chained(p, pepID, events, before, base) && VersionOne(events) && Timed(p, events) {
      forall i | 0 <= i < |events| ensures InOrder(p, pepID, events, before, base, i) {
        assert Link(p, pepID, events, before, base, i);
      }
    }
  }
}
