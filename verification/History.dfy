/** pep/history.go: the PEP's append-only, hash-chained event log and the checkpoints built from it. */
module History {
  import opened Wrappers
  import opened Protocol
  import opened Attest

  /** The fields of EnforcementHistory, which are also what a snapshot holds. */
  datatype HistoryState = HistoryState(
    pepID: string,
    events: seq<Event>,
    lastEventHash: string,
    lastIndex: nat,
    acceptedHash: string,
    acceptedIndex: nat,
    acceptedEpoch: nat)

  function EmptyHistory(pepID: string): HistoryState {
    HistoryState(pepID, [], "", 0, "", 0, 0)
  }

  // ---------- what each operation computes ----------

  /** Session facts override metadata entries of the same name. */
  function SessionMetadata(s: Session, meta: Metadata): Metadata {
    var withExpiry := if s.expiresAt != "" then meta["expires_at" := s.expiresAt] else meta;
    if s.aead != "" then withExpiry["aead" := s.aead] else withExpiry
  }

  function EventMetadata(session: Option<Session>, meta: Option<Metadata>): Option<Metadata> {
    var given := if meta.Some? then meta.value else map[];
    var m := if session.Some? then SessionMetadata(session.value, given) else given;
    if m == map[] then None else Some(m)
  }

  function Value(meta: Option<Metadata>, key: string): Option<string> {
    if meta.Some? && key in meta.value then Some(meta.value[key]) else None
  }

  /** What an event records under a key: the session's expiry and cipher suite, or what was given. */
  function Recorded(session: Option<Session>, meta: Option<Metadata>, key: string): Option<string> {
    if session.Some? && key == "expires_at" && session.value.expiresAt != "" then Some(session.value.expiresAt)
    else if session.Some? && key == "aead" && session.value.aead != "" then Some(session.value.aead)
    else Value(meta, key)
  }

  lemma HashOfNonEmpty(p: Primitives, e: Event)
    requires e.metadata != Some(map[]) && e.eventHash == HashEvent(p, e.(eventHash := ""))
    ensures e.eventHash == p.digest(EventDoc(e.(eventHash := "")))
  {
  }

  /** Event i of a log is this PEP's, has the next index, names the hash before, and carries its own. */
  predicate FollowsIn(p: Primitives, pepID: string, events: seq<Event>, i: nat)
    requires i < |events|
  {
    var e := events[i];
    && e.pepID == pepID && e.index == i + 1 && e.eventHash == HashEvent(p, e)
    && e.prevHash == (if i == 0 then "" else events[i - 1].eventHash)
  }

  /** The event AppendEvent adds to a log of `h.lastIndex` events at clock reading `now`. */
  function NewEvent(p: Primitives, h: HistoryState, now: int, eventType: string, session: Option<Session>,
                    meta: Option<Metadata>): Event
  {
    var s := session;
    var e := Event(
      1, h.lastIndex + 1, eventType, h.pepID, p.formatTime(now),
      if s.Some? then s.value.serviceID else "",
      if s.Some? then s.value.clientPubKey else "",
      if s.Some? then s.value.clientOuterIP else "",
      if s.Some? then s.value.clientInnerIP else "",
      if s.Some? then s.value.clientInSPI else "",
      if s.Some? then s.value.pepInSPI else "",
      if s.Some? then s.value.reqID else 0,
      false, "", "", EventMetadata(session, meta), h.lastEventHash, "");
    e.(eventHash := HashEvent(p, e))
  }

  function Append(p: Primitives, h: HistoryState, now: int, eventType: string, session: Option<Session>,
                  meta: Option<Metadata>): HistoryState
  {
    var e := NewEvent(p, h, now, eventType, session, meta);
    h.(events := h.events + [e], lastIndex := e.index, lastEventHash := e.eventHash)
  }

  datatype HistoryFailure =
    | IndexBeyondLog
    | CannotSign
    | AheadOfHistory
    | WrongPEP
    | BrokenChain(offset: nat)
    | SummaryMismatch

  /** The delta since the accepted index under a fresh checkpoint. */
  function Build(p: Primitives, h: HistoryState, priv: string, now: int): Result<Evidence, HistoryFailure> {
    if h.acceptedIndex > |h.events| then Failure(IndexBeyondLog)
    else
      var events := h.events[h.acceptedIndex..];
      var c := Checkpoint(1, h.pepID, h.acceptedEpoch + 1, h.acceptedHash, h.lastIndex, h.lastEventHash,
                          |events|, p.formatTime(now), "");
      match SignCheckpoint(p, c, priv)
      case None => Failure(CannotSign)
      case Some(signed) => Success(Evidence(h.acceptedHash, events, signed))
  }

  function Mark(p: Primitives, h: HistoryState, c: Checkpoint): Result<HistoryState, HistoryFailure> {
    if c.lastEventIndex > h.lastIndex then Failure(AheadOfHistory)
    else Success(h.(acceptedHash := HashCheckpoint(p, c), acceptedIndex := c.lastEventIndex, acceptedEpoch := c.epoch))
  }

  // ---------- the chain invariant ----------

  /** The snapshots Restore accepts: a chain from genesis with a matching summary. */
  ghost predicate ChainInvariant(p: Primitives, h: HistoryState) {
    && Chained(p, h.pepID, h.events, "", 0)
    && h.lastEventHash == LastHash(h.events, "")
    && h.lastIndex == |h.events|
    && h.acceptedIndex <= h.lastIndex
  }

  /** The log is also of the version and timestamp form the Verifier asks for. */
  ghost predicate WellFormed(p: Primitives, h: HistoryState) {
    ChainInvariant(p, h) && VersionOne(h.events) && Timed(p, h.events)
  }

  /** The accepted-checkpoint fields are those of `marked`, which summarises a prefix of the log. */
  ghost predicate Marked(p: Primitives, h: HistoryState, marked: Option<Checkpoint>) {
    && h.acceptedHash == BaseCheckpointHash(p, marked)
    && h.acceptedIndex == BaseIndex(marked)
    && h.acceptedEpoch == BaseEpoch(marked)
    && Summarises(h, marked)
  }

  ghost predicate Summarises(h: HistoryState, c: Option<Checkpoint>) {
    && BaseIndex(c) <= |h.events|
    && BaseHash(c) == LastHash(h.events[..BaseIndex(c)], "")
  }

  class EnforcementHistory {
    const p: Primitives
    const pepID: string
    var events: seq<Event>
    var lastEventHash: string
    var lastIndex: nat
    var lastAcceptedCheckpointHash: string
    var lastAcceptedCheckpointIndex: nat
    var lastAcceptedEpoch: nat

    function State(): HistoryState
      reads this
    {
      HistoryState(pepID, events, lastEventHash, lastIndex, lastAcceptedCheckpointHash,
                   lastAcceptedCheckpointIndex, lastAcceptedEpoch)
    }

    constructor (p: Primitives, pepID: string)
      ensures this.p == p && State() == EmptyHistory(pepID) && ChainInvariant(p, State())
    {
      this.p := p;
      this.pepID := pepID;
      events, lastEventHash, lastIndex := [], "", 0;
      lastAcceptedCheckpointHash, lastAcceptedCheckpointIndex, lastAcceptedEpoch := "", 0, 0;
    }

    method Snapshot() returns (snapshot: HistoryState)
      ensures snapshot == State()
    {
      snapshot := HistoryState(pepID, events, lastEventHash, lastIndex, lastAcceptedCheckpointHash,
                               lastAcceptedCheckpointIndex, lastAcceptedEpoch);
    }

    /** Succeeds on exactly the snapshots of this PEP that satisfy the chain invariant, and then adopts them. */
    method Restore(snapshot: HistoryState) returns (r: Outcome<HistoryFailure>)
      modifies this
      ensures r.Pass? <==> snapshot.pepID == pepID && ChainInvariant(p, snapshot)
      ensures r.Pass? ==>
        && (forall i :: 0 <= i < |snapshot.events| ==> FollowsIn(p, pepID, snapshot.events, i))
        && snapshot.lastEventHash
           == (if snapshot.events == [] then "" else snapshot.events[|snapshot.events| - 1].eventHash)
        && snapshot.lastIndex == |snapshot.events| && snapshot.acceptedIndex <= |snapshot.events|
      ensures State() == if r.Pass? then snapshot else old(State())
    {
      if snapshot.pepID != pepID {
        return Fail(WrongPEP);
      }
      var lastHash, index := "", 0;
      for i := 0 to |snapshot.events|
        invariant lastHash == LastHash(snapshot.events[..i], "") && index == i
        invariant forall j :: 0 <= j < i ==> Link(p, pepID, snapshot.events, "", 0, j)
        invariant State() == old(State())
      {
        var e := snapshot.events[i];
        if e.pepID != pepID || e.index != index + 1 || e.prevHash != lastHash {
          assert !Link(p, pepID, snapshot.events, "", 0, i);
          return Fail(BrokenChain(i));
        }
        var h := HashEvent(p, e);
        if h != e.eventHash {
          assert !Link(p, pepID, snapshot.events, "", 0, i);
          return Fail(BrokenChain(i));
        }
        lastHash, index := h, e.index;
      }
      assert snapshot.events[..|snapshot.events|] == snapshot.events;
      if snapshot.lastEventHash != lastHash || snapshot.lastIndex != index {
        return Fail(SummaryMismatch);
      }
      if snapshot.acceptedIndex > snapshot.lastIndex {
        return Fail(AheadOfHistory);
      }
      forall i | 0 <= i < |snapshot.events|
        ensures FollowsIn(p, pepID, snapshot.events, i)
      {
        assert Link(p, pepID, snapshot.events, "", 0, i);
      }
      events, lastEventHash, lastIndex := snapshot.events, snapshot.lastEventHash, snapshot.lastIndex;
      lastAcceptedCheckpointHash := snapshot.acceptedHash;
      lastAcceptedCheckpointIndex := snapshot.acceptedIndex;
      lastAcceptedEpoch := snapshot.acceptedEpoch;
      r := Pass;
    }

    method AppendEvent(now: int, eventType: string, session: Option<Session>, meta: Option<Metadata>)
      returns (e: Event)
      modifies this
      ensures State() == Append(p, old(State()), now, eventType, session, meta)
      ensures e == NewEvent(p, old(State()), now, eventType, session, meta)
      ensures events == old(events) + [e] && lastIndex == e.index && lastEventHash == e.eventHash
      ensures lastAcceptedCheckpointHash == old(lastAcceptedCheckpointHash)
      ensures lastAcceptedCheckpointIndex == old(lastAcceptedCheckpointIndex)
      ensures lastAcceptedEpoch == old(lastAcceptedEpoch)
      ensures e.version == 1 && e.eventType == eventType && e.pepID == pepID && e.timestamp == p.formatTime(now)
      ensures e.index == old(lastIndex) + 1 && e.prevHash == old(lastEventHash)
      ensures e.eventHash == p.digest(EventDoc(e.(eventHash := "")))
      ensures match session
        case None =>
          && e.serviceID == e.clientPubKey == e.clientOuterIP == e.clientInnerIP == e.clientInSPI == e.pepInSPI == ""
          && e.reqID == 0
        case Some(s) =>
          && e.serviceID == s.serviceID && e.clientPubKey == s.clientPubKey && e.reqID == s.reqID
          && e.clientOuterIP == s.clientOuterIP && e.clientInnerIP == s.clientInnerIP
          && e.clientInSPI == s.clientInSPI && e.pepInSPI == s.pepInSPI
      ensures e.metadata != Some(map[])
      ensures forall key :: Value(e.metadata, key) == Recorded(session, meta, key)
    {
      hide HashEvent;
      var metadata := meta;
      e := Event(1, lastIndex + 1, eventType, pepID, p.formatTime(now), "", "", "", "", "", "", 0,
                 false, "", "", None, lastEventHash, "");
      if session.Some? {
        var s := session.value;
        e := e.(serviceID := s.serviceID, clientPubKey := s.clientPubKey, clientOuterIP := s.clientOuterIP,
                clientInnerIP := s.clientInnerIP, clientInSPI := s.clientInSPI, pepInSPI := s.pepInSPI,
                reqID := s.reqID);
        if metadata.None? {
          metadata := Some(map[]);
        }
        if s.expiresAt != "" {
          metadata := Some(metadata.value["expires_at" := s.expiresAt]);
        }
        if s.aead != "" {
          metadata := Some(metadata.value["aead" := s.aead]);
        }
      }
      assert forall key :: Value(metadata, key) == Recorded(session, meta, key);
      if metadata.Some? && metadata.value == map[] {
        metadata := None;
      }
      assert forall key :: Value(metadata, key) == Recorded(session, meta, key);
      e := e.(metadata := metadata);
      assert e.(eventHash := "") == e;
      e := e.(eventHash := HashEvent(p, e));
      HashOfNonEmpty(p, e);
      events, lastIndex, lastEventHash := events + [e], e.index, e.eventHash;
    }

    /** The next checkpoint, before it is signed. */
    function Unsigned(now: int): Checkpoint
      reads this
    {
      Checkpoint(1, pepID, lastAcceptedEpoch + 1, lastAcceptedCheckpointHash, lastIndex, lastEventHash,
                 |events| - lastAcceptedCheckpointIndex, p.formatTime(now), "")
    }

    method BuildEvidence(priv: string, now: int) returns (r: Result<Evidence, HistoryFailure>)
      ensures r == Build(p, State(), priv, now)
      ensures r.Success? <==>
        && lastAcceptedCheckpointIndex <= |events|
        && p.sign(priv, CheckpointDoc(Unsigned(now))).Some?
      ensures r.Success? ==>
        && r.value.events == events[lastAcceptedCheckpointIndex..]
        && r.value.previousCheckpointHash == lastAcceptedCheckpointHash
        && r.value.checkpoint == Unsigned(now).(signature := p.sign(priv, CheckpointDoc(Unsigned(now))).value)
    {
      var start := lastAcceptedCheckpointIndex;
      if start > |events| {
        return Failure(IndexBeyondLog);
      }
      var delta: seq<Event> := [];
      for i := start to |events|
        invariant delta == events[start..i]
      {
        delta := delta + [events[i]];
      }
      assert events[start..|events|] == events[start..];
      var c := Checkpoint(1, pepID, lastAcceptedEpoch + 1, lastAcceptedCheckpointHash, lastIndex, lastEventHash,
                          |delta|, p.formatTime(now), "");
      var signed := SignCheckpoint(p, c, priv);
      if signed.None? {
        return Failure(CannotSign);
      }
      r := Success(Evidence(lastAcceptedCheckpointHash, delta, signed.value));
    }

    method MarkCheckpointAccepted(c: Checkpoint) returns (r: Outcome<HistoryFailure>)
      modifies this
      ensures r.Pass? <==> Mark(p, old(State()), c).Success?
      ensures State() == if r.Pass? then Mark(p, old(State()), c).value else old(State())
      ensures r.Pass? <==> c.lastEventIndex <= lastIndex
      ensures r.Pass? ==>
        && lastAcceptedCheckpointHash == p.digest(CheckpointDoc(c)) && lastAcceptedCheckpointIndex == c.lastEventIndex
        && lastAcceptedEpoch == c.epoch
      ensures events == old(events) && lastIndex == old(lastIndex) && lastEventHash == old(lastEventHash)
    {
      var checkpointHash := HashCheckpoint(p, c);
      if c.lastEventIndex > lastIndex {
        return Fail(AheadOfHistory);
      }
      lastAcceptedCheckpointHash := checkpointHash;
      lastAcceptedCheckpointIndex := c.lastEventIndex;
      lastAcceptedEpoch := c.epoch;
      r := Pass;
    }
  }

  /** A snapshot of any history that keeps the invariant can be restored, and reproduces the history. */
  method SnapshotRoundTrip(h: EnforcementHistory) returns (copy: EnforcementHistory)
    requires ChainInvariant(h.p, h.State())
    ensures fresh(copy) && copy.State() == h.State() && h.State() == old(h.State())
  {
    var snapshot := h.Snapshot();
    copy := new EnforcementHistory(h.p, h.pepID);
    var r := copy.Restore(snapshot);
    assert r.Pass?;
  }

  // ---------- what appending keeps ----------

  lemma AppendKeepsChain(p: Primitives, h: HistoryState, now: int, eventType: string, session: Option<Session>,
                         meta: Option<Metadata>)
    requires ChainInvariant(p, h)
    ensures ChainInvariant(p, Append(p, h, now, eventType, session, meta))
  {
    var h' := Append(p, h, now, eventType, session, meta);
    var n := |h.events|;
    assert h'.events[n].eventHash == HashEvent(p, h'.events[n]);
    forall i | 0 <= i < n + 1 ensures Link(p, h.pepID, h'.events, "", 0, i) {
      assert i < n ==> Link(p, h.pepID, h.events, "", 0, i);
    }
  }

  lemma AppendKeepsWellFormed(p: Primitives, h: HistoryState, now: int, eventType: string, session: Option<Session>,
                              meta: Option<Metadata>)
    requires Rfc3339(p) && WellFormed(p, h)
    ensures WellFormed(p, Append(p, h, now, eventType, session, meta))
  {
    AppendKeepsChain(p, h, now, eventType, session, meta);
    assert p.formatTime(now) != "" && p.parseTime(p.formatTime(now)).Some?;
  }

  /** A tail of a chain continues the chain from the event before it. */
  lemma ChainTail(p: Primitives, pepID: string, events: seq<Event>, n: nat)
    requires Chained(p, pepID, events, "", 0) && n <= |events|
    ensures Chained(p, pepID, events[n..], LastHash(events[..n], ""), n)
    ensures LastHash(events[n..], LastHash(events[..n], "")) == LastHash(events, "")
  {
    var tail, base := events[n..], LastHash(events[..n], "");
    forall i | 0 <= i < |tail| ensures Link(p, pepID, tail, base, n, i) {
      assert Link(p, pepID, events, "", 0, n + i);
    }
    if n == |events| {
      assert events[..n] == events;
    }
  }

  /** What BuildEvidence builds, the Verifier's chain check accepts against the checkpoint last marked. */
  lemma BuiltEvidenceIsValid(p: Primitives, h: HistoryState, marked: Option<Checkpoint>, pub: string, priv: string,
                             now: int)
    requires Rfc3339(p) && KeyPair(p, pub, priv)
    requires WellFormed(p, h) && Marked(p, h, marked)
    ensures Build(p, h, priv, now).Success?
    ensures ValidEvidence(p, Build(p, h, priv, now).value, h.pepID, pub, marked)
  {
    var n := h.acceptedIndex;
    ChainTail(p, h.pepID, h.events, n);
    assert VerifyCheckpoint(p, Build(p, h, priv, now).value.checkpoint, pub);
    assert p.formatTime(now) != "" && p.parseTime(p.formatTime(now)).Some?;
    forall i | 0 <= i < |h.events[n..]|
      ensures HasTime(p, h.events[n..][i].timestamp) && h.events[n..][i].version == 1
    {
      assert h.events[n..][i] == h.events[n + i];
    }
  }

  // ---------- every reachable history ----------

  /** A history, the checkpoints it has built so far, and the one it marked last. */
  datatype Ledger = Ledger(h: HistoryState, built: seq<Checkpoint>, marked: Option<Checkpoint>)

  datatype LedgerStep =
    | AppendStep(now: int, eventType: string, session: Option<Session>, meta: Option<Metadata>)
    | BuildStep(now: int)
    | MarkStep(i: nat)

  function Advance(p: Primitives, priv: string, l: Ledger, step: LedgerStep): Ledger {
    match step
    case AppendStep(now, eventType, session, meta) => l.(h := Append(p, l.h, now, eventType, session, meta))
    case BuildStep(now) =>
      (match Build(p, l.h, priv, now)
       case Success(ev) => l.(built := l.built + [ev.checkpoint])
       case Failure(_) => l)
    case MarkStep(i) =>
      if i >= |l.built| then l
      else
        match Mark(p, l.h, l.built[i])
        case Success(h) => l.(h := h, marked := Some(l.built[i]))
        case Failure(_) => l
  }

  function Reach(p: Primitives, pepID: string, priv: string, steps: seq<LedgerStep>): Ledger {
    if steps == [] then Ledger(EmptyHistory(pepID), [], None)
    else Advance(p, priv, Reach(p, pepID, priv, steps[..|steps| - 1]), steps[|steps| - 1])
  }

  ghost predicate LedgerInvariant(p: Primitives, pepID: string, l: Ledger) {
    && l.h.pepID == pepID
    && WellFormed(p, l.h)
    && Marked(p, l.h, l.marked)
    && forall i :: 0 <= i < |l.built| ==> Summarises(l.h, Some(l.built[i]))
  }

  lemma AppendKeepsSummary(p: Primitives, h: HistoryState, now: int, eventType: string, session: Option<Session>,
                           meta: Option<Metadata>, c: Option<Checkpoint>)
    requires Summarises(h, c)
    ensures Summarises(Append(p, h, now, eventType, session, meta), c)
  {
    var h' := Append(p, h, now, eventType, session, meta);
    assert h'.events[..BaseIndex(c)] == h.events[..BaseIndex(c)];
  }

  lemma AdvanceKeepsInvariant(p: Primitives, pepID: string, pub: string, priv: string, l: Ledger, step: LedgerStep)
    requires Rfc3339(p) && KeyPair(p, pub, priv) && LedgerInvariant(p, pepID, l)
    ensures LedgerInvariant(p, pepID, Advance(p, priv, l, step))
  {
    match step
    case AppendStep(now, eventType, session, meta) =>
      AppendKeepsWellFormed(p, l.h, now, eventType, session, meta);
      AppendKeepsSummary(p, l.h, now, eventType, session, meta, l.marked);
      forall i | 0 <= i < |l.built|
        ensures Summarises(Append(p, l.h, now, eventType, session, meta), Some(l.built[i]))
      {
        AppendKeepsSummary(p, l.h, now, eventType, session, meta, Some(l.built[i]));
      }
    case BuildStep(now) =>
      BuiltEvidenceIsValid(p, l.h, l.marked, pub, priv, now);
      assert l.h.events[..|l.h.events|] == l.h.events;
    case MarkStep(i) =>
  }

  /**
   Over every history reachable by appending events, building checkpoints and marking any of them as
   accepted: event i carries index i + 1 and links to event i - 1, and what BuildEvidence returns next is
   valid against the checkpoint last marked.
   */
  lemma {:induction false} ReachableHistory(p: Primitives, pepID: string, pub: string, priv: string,
                                            steps: seq<LedgerStep>)
    requires Rfc3339(p) && KeyPair(p, pub, priv)
    ensures var l := Reach(p, pepID, priv, steps);
      && LedgerInvariant(p, pepID, l)
      && (forall now :: Build(p, l.h, priv, now).Success?
                        && ValidEvidence(p, Build(p, l.h, priv, now).value, pepID, pub, l.marked))
  {
    if steps != [] {
      ReachableHistory(p, pepID, pub, priv, steps[..|steps| - 1]);
      AdvanceKeepsInvariant(p, pepID, pub, priv, Reach(p, pepID, priv, steps[..|steps| - 1]), steps[|steps| - 1]);
    }
    var l := Reach(p, pepID, priv, steps);
    forall now
      ensures Build(p, l.h, priv, now).Success?
      ensures ValidEvidence(p, Build(p, l.h, priv, now).value, pepID, pub, l.marked)
    {
      BuiltEvidenceIsValid(p, l.h, l.marked, pub, priv, now);
    }
  }

  /** The links, event by event, of any history that satisfies the invariant. */
  lemma EventLinks(p: Primitives, h: HistoryState, i: nat)
    requires ChainInvariant(p, h) && i < |h.events|
    ensures h.events[i].index == i + 1
    ensures h.events[i].prevHash == (if i == 0 then "" else HashEvent(p, h.events[i - 1]))
  {
    assert Link(p, h.pepID, h.events, "", 0, i);
    assert i > 0 ==> Link(p, h.pepID, h.events, "", 0, i - 1);
  }
}
