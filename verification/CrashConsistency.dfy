/**
 What a PEP state file is worth after a crash.  A file without a transaction marker holds a session table
 that is exactly what its own event log leaves open; a crash inside a transaction leaves a file that the next
 process refuses.
 */
module CrashConsistency {
  import opened Wrappers
  import opened Protocol
  import opened Text
  import opened Attest
  import opened History
  import opened Policy
  import opened OpenSessions
  import opened Pep
  import opened Authority
  import opened SessionTable
  import opened Interruption

  function SessionFacts(s: Session): Tracked {
    Tracked(s.serviceID, s.clientPubKey, s.clientInnerIP, s.clientInSPI, s.pepInSPI, s.reqID, TrimSpace(s.expiresAt),
            "")
  }

  /** A recorded deletion the PEP itself took for successful. */
  function Confirmed(cfg: PepConfig): Event -> bool {
    (e: Event) => e.metadata.Some? && MeetsLocalProfile(cfg, e.metadata.value, "deleted")
  }

  function OpenOf(cfg: PepConfig, h: HistoryState): ActiveMap {
    OpenAfter(Confirmed(cfg), h.events)
  }

  // ---------- events of a session ----------

  lemma ActivationFacts(cfg: PepConfig, h: HistoryState, now: int, s: Session)
    ensures Track(NewEvent(cfg.p, h, now, ACTIVATED, Some(s), Some(map["attested" := "true"])), "") == SessionFacts(s)
  {
    hide HashEvent;
    var e := NewEvent(cfg.p, h, now, ACTIVATED, Some(s), Some(map["attested" := "true"]));
    assert Meta(e, "expires_at") == s.expiresAt;
  }

  lemma ObservationRecorded(cfg: PepConfig, h: HistoryState, now: int, eventType: string, s: Session,
                            observed: Metadata)
    ensures Confirmed(cfg)(NewEvent(cfg.p, h, now, eventType, Some(s), Some(ObservedMeta(cfg, s, observed))))
            <==> MeetsLocalProfile(cfg, ObservedMeta(cfg, s, observed), "deleted")
  {
    hide HashEvent, MeetsLocalProfile;
    var given := ObservedMeta(cfg, s, observed);
    assert "xfrm_mode" in SessionMetadata(s, given);
    assert NewEvent(cfg.p, h, now, eventType, Some(s), Some(given)).metadata == Some(SessionMetadata(s, given));
    RecordedProfile(cfg, s, given, "deleted");
  }

  /** Events other than activations and deletions leave the open sessions as they are. */
  lemma LogOpens(cfg: PepConfig, n: Node, now: int, eventType: string, session: Option<Session>, meta: Option<Metadata>)
    ensures OpenOf(cfg, Log(cfg, n, now, eventType, session, meta).mem.history) ==
            OpenStep(Confirmed(cfg), OpenOf(cfg, n.mem.history),
                     NewEvent(cfg.p, n.mem.history, now, eventType, session, meta))
  {
    hide NewEvent, OpenStep;
    OpenNext(Confirmed(cfg), n.mem.history.events, NewEvent(cfg.p, n.mem.history, now, eventType, session, meta));
  }

  lemma QuietLog(cfg: PepConfig, n: Node, now: int, eventType: string, session: Option<Session>, meta: Option<Metadata>)
    requires eventType != ACTIVATED && eventType != DELETE_OBSERVED
    ensures OpenOf(cfg, Log(cfg, n, now, eventType, session, meta).mem.history) == OpenOf(cfg, n.mem.history)
  {
    LogOpens(cfg, n, now, eventType, session, meta);
  }

  // ---------- the invariant of the PEP process ----------

  ghost predicate Consistent(cfg: PepConfig, st: PepState) {
    TableMatches(SessionFacts, st.sessions, OpenOf(cfg, st.history))
  }

  ghost predicate DiskConsistent(cfg: PepConfig, disk: Option<PepFile>) {
    disk.Some? && disk.value.state.pending.None? ==> Consistent(cfg, disk.value.state)
  }

  ghost predicate MemoryConsistent(cfg: PepConfig, st: PepState, txn: Txn) {
    match txn
    case Idle => Consistent(cfg, st)
    case ApplyBegun(_) => Consistent(cfg, st)
    case ApplySeen(_) => Consistent(cfg, st)
    case DeleteBegun(s) => Consistent(cfg, st) && Tabled(st, s)
    case DeleteSeen(s) =>
      Tabled(st, s) && TableMatches(SessionFacts, st.sessions - {s.pepInSPI}, OpenOf(cfg, st.history))
  }

  ghost predicate LocalInvariant(cfg: PepConfig, l: Local) {
    && DiskConsistent(cfg, l.node.disk)
    && (l.up ==> MemoryConsistent(cfg, l.node.mem, l.txn))
  }

  /** The step stores an activated session in the table. */
  predicate Stores(l: Local, step: PepStep) {
    l.up && l.txn.ApplySeen? && step.FinishApplyStep?
  }

  ghost predicate StoresUnclaimed(l: Local, step: PepStep) {
    Stores(l, step) ==> Unclaimed(l.node.mem.sessions, l.txn.s)
  }

  // ---------- every step keeps it ----------

  lemma ApplyStepKeeps(cfg: PepConfig, l: Local, step: PepStep)
    requires LocalInvariant(cfg, l) && l.up
    requires step.BeginApplyStep? || step.KernelFails? || step.ObserveApplyStep? || step.FinishApplyStep?
    ensures LocalInvariant(cfg, PepNext(cfg, l, step)) <==> StoresUnclaimed(l, step)
  {
    hide Unclaimed, TableMatches, Append, OpenOf, MeetsLocalProfile, IntentMeta, ObservedMeta, KeyOf, SessionFacts;
    var n := l.node;
    match (step, l.txn)
    case (BeginApplyStep(s, now, writable), Idle) =>
      QuietLog(cfg, SetPending(n, Some(PendingOperation("xfrm_apply", s)), true), now, APPLY_INTENT, Some(s),
               Some(IntentMeta(cfg, s)));
    case (ObserveApplyStep(now, observed), ApplyBegun(s)) =>
      QuietLog(cfg, n, now, APPLY_OBSERVED, Some(s), Some(ObservedMeta(cfg, s, observed)));
    case (FinishApplyStep(now, writable), ApplySeen(s)) =>
      FinishApplyKeeps(cfg, n, s, now, writable);
    case _ =>
  }

  lemma FinishApplyKeeps(cfg: PepConfig, n: Node, s: Session, now: int, writable: bool)
    requires Consistent(cfg, n.mem)
    ensures Consistent(cfg, FinishApply(cfg, n, s, now, writable).mem) <==> Unclaimed(n.mem.sessions, s)
  {
    hide TableMatches, KeyOf, SessionFacts, NewEvent, SessionKey;
    var stored := n.(mem := n.mem.(sessions := n.mem.sessions[s.pepInSPI := s]));
    var meta := Some(map["attested" := "true"]);
    LogOpens(cfg, stored, now, ACTIVATED, Some(s), meta);
    SessionEventKey(cfg, n.mem.history, now, ACTIVATED, s, meta);
    ActivationFacts(cfg, n.mem.history, now, s);
    ActivationKeepsTable(SessionFacts, n.mem.sessions, OpenOf(cfg, n.mem.history), s);
  }

  lemma DeleteStepKeeps(cfg: PepConfig, l: Local, step: PepStep)
    requires LocalInvariant(cfg, l) && l.up
    requires step.BeginDeleteStep? || step.ObserveDeleteStep? || step.FinishDeleteStep?
    ensures LocalInvariant(cfg, PepNext(cfg, l, step))
  {
    hide Append, OpenOf, MeetsLocalProfile, IntentMeta, ObservedMeta, KeyOf, SessionFacts, Lapsed, TableMatches;
    var n := l.node;
    match (step, l.txn)
    case (BeginDeleteStep(spi, clock, now, now', writable), Idle) =>
      if spi in n.mem.sessions {
        var s := n.mem.sessions[spi];
        StoredUnderSPI(SessionFacts, n.mem.sessions, OpenOf(cfg, n.mem.history), spi);
        var marked := SetPending(n, Some(PendingOperation("xfrm_delete", s)), true);
        var meta := Some(map["expires_at" := s.expiresAt]);
        QuietLog(cfg, marked, now, EXPIRED, Some(s), meta);
        QuietLog(cfg, Log(cfg, marked, now, EXPIRED, Some(s), meta), now', DELETE_INTENT, Some(s),
                 Some(IntentMeta(cfg, s)));
      }
    case (ObserveDeleteStep(now, observed), DeleteBegun(s)) =>
      ObserveDeleteKeeps(cfg, n, s, now, observed);
    case _ =>
  }

  lemma ObserveDeleteKeeps(cfg: PepConfig, n: Node, s: Session, now: int, observed: Metadata)
    requires Consistent(cfg, n.mem) && Tabled(n.mem, s)
    ensures var st := ObserveDelete(cfg, n, s, now, observed).mem;
      && st.sessions == n.mem.sessions
      && if MeetsLocalProfile(cfg, ObservedMeta(cfg, s, observed), "deleted")
         then TableMatches(SessionFacts, st.sessions - {s.pepInSPI}, OpenOf(cfg, st.history))
         else Consistent(cfg, st)
  {
    hide TableMatches, KeyOf, SessionFacts, NewEvent, SessionKey, MeetsLocalProfile, ObservedMeta, Confirmed;
    var meta := ObservedMeta(cfg, s, observed);
    LogOpens(cfg, n, now, DELETE_OBSERVED, Some(s), Some(meta));
    SessionEventKey(cfg, n.mem.history, now, DELETE_OBSERVED, s, Some(meta));
    ObservationRecorded(cfg, n.mem.history, now, DELETE_OBSERVED, s, observed);
    DeletionKeepsTable(SessionFacts, n.mem.sessions, OpenOf(cfg, n.mem.history), s.pepInSPI);
  }

  lemma CapacityStepKeeps(cfg: PepConfig, l: Local, step: PepStep)
    requires LocalInvariant(cfg, l) && l.up
    requires step.PrepareStep? || step.ReceiveStep?
    ensures LocalInvariant(cfg, PepNext(cfg, l, step))
  {
    hide TableMatches, NewEvent, OpenAfter, TokenValid, AcceptedMeta, JoinComma, HashCheckpoint;
    var n := l.node;
    match (step, l.txn)
    case (PrepareStep(now, now', writable), Idle) =>
      QuietLog(cfg, n, now, "capacity_requested", None, Some(map["scope" := JoinComma(cfg.scope)]));
    case (ReceiveStep(tok, now, now', writable), Idle) =>
      if n.mem.pendingCapacity.Some? {
        var ev := n.mem.pendingCapacity.value;
        var h := Mark(cfg.p, n.mem.history, ev.checkpoint);
        if h.Success? {
          QuietLog(cfg, n.(mem := n.mem.(history := h.value)), now', "capacity_accepted", None,
                   Some(AcceptedMeta(cfg, ev)));
        }
      }
    case _ =>
  }

  lemma RestartKeeps(cfg: PepConfig, l: Local, now: int)
    requires LocalInvariant(cfg, l)
    ensures LocalInvariant(cfg, PepNext(cfg, l, RestartStep(now)))
  {
    hide TableMatches, ChainInvariant, OpenStep;
    if Load(cfg, l.node.disk).Success? {
      var mem := Load(cfg, l.node.disk).value;
      if l.node.disk.None? {
        EmptyTable();
      }
      QuietLog(cfg, Node(mem, l.node.disk), now, "pep_start", None, Some(StartMeta(cfg)));
    }
  }

  lemma EmptyTable()
    ensures TableMatches(SessionFacts, map[], map[])
  {
  }

  lemma PepStepKeeps(cfg: PepConfig, l: Local, step: PepStep)
    requires LocalInvariant(cfg, l)
    ensures LocalInvariant(cfg, PepNext(cfg, l, step)) <==> StoresUnclaimed(l, step)
  {
    hide LocalInvariant, Unclaimed;
    if step.RestartStep? {
      RestartKeeps(cfg, l, step.now);
    } else if !l.up {
    } else if step.PrepareStep? || step.ReceiveStep? {
      CapacityStepKeeps(cfg, l, step);
    } else if step.BeginDeleteStep? || step.ObserveDeleteStep? || step.FinishDeleteStep? {
      DeleteStepKeeps(cfg, l, step);
    } else {
      ApplyStepKeeps(cfg, l, step);
    }
  }

  ghost predicate AlwaysConsistent(cfg: PepConfig, steps: seq<PepStep>) {
    forall n :: 0 <= n <= |steps| ==> LocalInvariant(cfg, PepRun(cfg, steps[..n]))
  }

  ghost predicate AlwaysUnclaimed(cfg: PepConfig, steps: seq<PepStep>) {
    forall i :: 0 <= i < |steps| ==> StoresUnclaimed(PepRun(cfg, steps[..i]), steps[i])
  }

  /**
   In every run, whatever fails and wherever it crashes: at each point memory, and the state file unless it
   carries a marker, hold exactly the sessions their own event log leaves open, if and only if every session
   stored in the table had an SPI and a key that were no other live session's.
   */
  lemma {:induction false} UnmarkedFilesAreConsistent(cfg: PepConfig, steps: seq<PepStep>)
    ensures AlwaysConsistent(cfg, steps) <==> AlwaysUnclaimed(cfg, steps)
    decreases |steps|
  {
    hide LocalInvariant, PepNext, StoresUnclaimed;
    if steps == [] {
      DownConsistent(cfg);
      assert steps[..0] == steps;
    } else {
      var n := |steps| - 1;
      UnmarkedFilesAreConsistent(cfg, steps[..n]);
      assert steps[..n + 1] == steps;
      assert forall i :: 0 <= i <= n ==> steps[..n][..i] == steps[..i];
      if LocalInvariant(cfg, PepRun(cfg, steps[..n])) {
        PepStepKeeps(cfg, PepRun(cfg, steps[..n]), steps[n]);
      }
      PrefixConsistent(cfg, steps);
    }
  }

  lemma PrefixConsistent(cfg: PepConfig, steps: seq<PepStep>)
    requires steps != []
    ensures var n := |steps| - 1;
      && (AlwaysConsistent(cfg, steps)
          <==> AlwaysConsistent(cfg, steps[..n]) && LocalInvariant(cfg, PepRun(cfg, steps)))
      && (AlwaysUnclaimed(cfg, steps) <==>
            AlwaysUnclaimed(cfg, steps[..n]) && StoresUnclaimed(PepRun(cfg, steps[..n]), steps[n]))
  {
    hide LocalInvariant, PepRun, StoresUnclaimed;
    var n := |steps| - 1;
    assert steps[..n + 1] == steps;
    assert forall i :: 0 <= i <= n ==> steps[..n][..i] == steps[..i];
  }

  lemma DownConsistent(cfg: PepConfig)
    ensures LocalInvariant(cfg, DOWN)
  {
  }

  // ---------- the file alone ----------

  /** The file written when a session is stored is in order exactly if its SPI and key were not another's. */
  lemma StoredFile(cfg: PepConfig, l: Local, step: PepStep)
    requires LocalInvariant(cfg, l) && Stores(l, step)
    ensures var disk := PepNext(cfg, l, step).node.disk;
      if step.writable
      then disk.Some? && disk.value.state.pending.None?
           && (Consistent(cfg, disk.value.state) <==> Unclaimed(l.node.mem.sessions, l.txn.s))
      else disk == l.node.disk
  {
    hide Unclaimed, TableMatches, OpenOf, Append, SessionFacts, KeyOf;
    FinishApplyKeeps(cfg, l.node, l.txn.s, step.now, step.writable);
  }

  /** A second session is set up under the SPI of one that is still live. */
  function ReusingRun(first: Session, second: Session, clock: int, one: Metadata, two: Metadata): seq<PepStep> {
    [RestartStep(clock), BeginApplyStep(first, clock, true), ObserveApplyStep(clock, one), FinishApplyStep(clock, true),
     BeginApplyStep(second, clock, true), ObserveApplyStep(clock, two), FinishApplyStep(clock, true)]
  }

  /** The file has no marker, and its table has lost a session its log leaves open. */
  lemma ReusedSPI(cfg: PepConfig, first: Session, second: Session, clock: int, one: Metadata, two: Metadata)
    requires first.pepInSPI == second.pepInSPI && KeyOf(first) != KeyOf(second)
    requires MeetsLocalProfile(cfg, ObservedMeta(cfg, first, one), "applied")
    requires MeetsLocalProfile(cfg, ObservedMeta(cfg, second, two), "applied")
    ensures var disk := PepRun(cfg, ReusingRun(first, second, clock, one, two)).node.disk;
      disk.Some? && disk.value.state.pending.None? && !Consistent(cfg, disk.value.state)
  {
    hide PepNext, MeetsLocalProfile, KeyOf, ObservedMeta, Consistent, LocalInvariant;
    var steps := ReusingRun(first, second, clock, one, two);
    var l := FirstSessionUp(cfg, first, clock, one, KeyOf(second));
    assert steps[..4] == [steps[0], steps[1], steps[2], steps[3]];
    RunStep(cfg, steps, 4);
    RunStep(cfg, steps, 5);
    RunStep(cfg, steps, 6);
    assert steps[..7] == steps;
    var l' := SecondSeen(cfg, l, second, clock, two);
    FirstFourUnclaimed(cfg, steps);
    PepStepKeeps(cfg, l, steps[4]);
    PepStepKeeps(cfg, PepNext(cfg, l, steps[4]), steps[5]);
    StoredFile(cfg, l', steps[6]);
    assert l'.node.mem.sessions[second.pepInSPI] == first;
  }

  lemma SecondSeen(cfg: PepConfig, l: Local, s: Session, clock: int, observed: Metadata) returns (l': Local)
    requires l.up && l.txn.Idle? && MeetsLocalProfile(cfg, ObservedMeta(cfg, s, observed), "applied")
    ensures l' == PepNext(cfg, PepNext(cfg, l, BeginApplyStep(s, clock, true)), ObserveApplyStep(clock, observed))
    ensures l'.up && l'.txn == ApplySeen(s) && l'.node.mem.sessions == l.node.mem.sessions
    ensures StoresUnclaimed(l, BeginApplyStep(s, clock, true))
    ensures StoresUnclaimed(PepNext(cfg, l, BeginApplyStep(s, clock, true)), ObserveApplyStep(clock, observed))
  {
    hide Append, MeetsLocalProfile, ObservedMeta, IntentMeta;
    l' := PepNext(cfg, PepNext(cfg, l, BeginApplyStep(s, clock, true)), ObserveApplyStep(clock, observed));
  }

  /** The first session meets nobody. */
  lemma FirstFourUnclaimed(cfg: PepConfig, steps: seq<PepStep>)
    requires |steps| >= 4 && steps[0].RestartStep? && steps[1].BeginApplyStep? && steps[2].ObserveApplyStep?
    requires steps[3].FinishApplyStep?
    ensures LocalInvariant(cfg, PepRun(cfg, steps[..4]))
  {
    hide LocalInvariant, Append, MeetsLocalProfile, ObservedMeta, IntentMeta;
    DownConsistent(cfg);
    assert steps[..0] == [];
    RunStep(cfg, steps, 0);
    PepStepKeeps(cfg, DOWN, steps[0]);
    RunStep(cfg, steps, 1);
    PepStepKeeps(cfg, PepRun(cfg, steps[..1]), steps[1]);
    RunStep(cfg, steps, 2);
    PepStepKeeps(cfg, PepRun(cfg, steps[..2]), steps[2]);
    RunStep(cfg, steps, 3);
    PepStepKeeps(cfg, PepRun(cfg, steps[..3]), steps[3]);
  }
}
