/**
 The transaction marker: which state files the next process refuses.  The promise is that it refuses to start
 after an interrupted transaction; this module says of every run when it does.
 */
module Interruption {
  import opened Wrappers
  import opened Protocol
  import opened Attest
  import opened History
  import opened Policy
  import opened Lifecycle
  import opened Pep
  import opened Authority
  import opened SessionTable

  predicate MarkerOnDisk(n: Node) {
    n.disk.Some? && n.disk.value.version == 1 && n.disk.value.state.pending.Some?
  }

  // ---------- what a step does to the marker ----------

  /** The step starts a transaction whose marker reaches the disk. */
  predicate Begins(cfg: PepConfig, l: Local, step: PepStep) {
    l.up && l.txn.Idle? &&
    match step
    case BeginApplyStep(_, _, writable) => writable
    case BeginDeleteStep(spi, clock, _, _, writable) =>
      writable && spi in l.node.mem.sessions && Lapsed(cfg, l.node.mem.sessions[spi], clock)
    case _ => false
  }

  /** The step brings a transaction to its end on disk. */
  predicate Ends(l: Local, step: PepStep) {
    l.up &&
    match step
    case FinishApplyStep(_, writable) => writable && l.txn.ApplySeen?
    case FinishDeleteStep(writable) => writable && l.txn.DeleteSeen?
    case _ => false
  }

  /** The step gives up a transaction: the kernel refused, the observation failed, or the end could not be written. */
  ghost predicate Fails(cfg: PepConfig, l: Local, step: PepStep) {
    l.up && !l.txn.Idle? && !step.RestartStep? && PepNext(cfg, l, step).txn.Idle? && !Ends(l, step)
  }

  /** Memory and disk carry the marker together, and an open transaction always has one. */
  predicate MarkerShared(l: Local) {
    && (l.node.disk.Some? ==> l.node.disk.value.version == 1)
    && (l.up ==> (MarkerOnDisk(l.node) <==> l.node.mem.pending.Some?))
    && (l.up && !l.txn.Idle? ==> MarkerOnDisk(l.node))
  }

  lemma TransactionMarker(cfg: PepConfig, l: Local, step: PepStep)
    requires MarkerShared(l) && l.up && !step.RestartStep? && !step.PrepareStep? && !step.ReceiveStep?
    ensures MarkerShared(PepNext(cfg, l, step))
    ensures MarkerOnDisk(PepNext(cfg, l, step).node)
            <==> Begins(cfg, l, step) || (MarkerOnDisk(l.node) && !Ends(l, step))
  {
    hide Append, MeetsLocalProfile, IntentMeta, ObservedMeta, Lapsed;
  }

  lemma CapacityMarker(cfg: PepConfig, l: Local, step: PepStep)
    requires MarkerShared(l) && l.up && (step.PrepareStep? || step.ReceiveStep?)
    ensures MarkerShared(PepNext(cfg, l, step)) && (MarkerOnDisk(PepNext(cfg, l, step).node) <==> MarkerOnDisk(l.node))
  {
    hide Append, Build, TokenValid, Mark, AcceptedMeta, JoinComma;
  }

  lemma RestartMarker(cfg: PepConfig, l: Local, now: int)
    requires MarkerShared(l)
    ensures var l' := PepNext(cfg, l, RestartStep(now));
      MarkerShared(l') && (MarkerOnDisk(l'.node) <==> MarkerOnDisk(l.node))
  {
    hide Append, ChainInvariant;
  }

  /** A file carries a marker after a step exactly if the step began a transaction, or it did before and none ended. */
  lemma StepMarker(cfg: PepConfig, l: Local, step: PepStep)
    requires MarkerShared(l)
    ensures MarkerShared(PepNext(cfg, l, step))
    ensures MarkerOnDisk(PepNext(cfg, l, step).node)
            <==> Begins(cfg, l, step) || (MarkerOnDisk(l.node) && !Ends(l, step))
  {
    if step.RestartStep? {
      RestartMarker(cfg, l, step.now);
    } else if !l.up {
    } else if step.PrepareStep? || step.ReceiveStep? {
      CapacityMarker(cfg, l, step);
    } else {
      TransactionMarker(cfg, l, step);
    }
  }

  // ---------- every run ----------

  /** A transaction was begun, and since then none was brought to its end on disk. */
  ghost predicate Interrupted(cfg: PepConfig, steps: seq<PepStep>) {
    exists i :: 0 <= i < |steps| && Begins(cfg, PepRun(cfg, steps[..i]), steps[i]) && NoneEnds(cfg, steps, i + 1)
  }

  ghost predicate NoneEnds(cfg: PepConfig, steps: seq<PepStep>, from: nat) {
    forall j :: from <= j < |steps| ==> !Ends(PepRun(cfg, steps[..j]), steps[j])
  }

  lemma InterruptedNext(cfg: PepConfig, steps: seq<PepStep>)
    requires steps != []
    ensures var n := |steps| - 1;
      Interrupted(cfg, steps) <==>
        || Begins(cfg, PepRun(cfg, steps[..n]), steps[n])
        || (Interrupted(cfg, steps[..n]) && !Ends(PepRun(cfg, steps[..n]), steps[n]))
  {
    hide PepRun, Begins, Ends;
    var n := |steps| - 1;
    assert forall i :: 0 <= i <= n ==> steps[..n][..i] == steps[..i];
    if Interrupted(cfg, steps) {
      var i :| 0 <= i < |steps| && Begins(cfg, PepRun(cfg, steps[..i]), steps[i]) && NoneEnds(cfg, steps, i + 1);
      if i < n {
        assert steps[..n][i] == steps[i] && NoneEnds(cfg, steps[..n], i + 1);
      }
    }
    if Interrupted(cfg, steps[..n]) && !Ends(PepRun(cfg, steps[..n]), steps[n]) {
      var i :| 0 <= i < n && Begins(cfg, PepRun(cfg, steps[..n][..i]), steps[..n][i])
        && NoneEnds(cfg, steps[..n], i + 1);
      forall j | i + 1 <= j < |steps| ensures !Ends(PepRun(cfg, steps[..j]), steps[j]) {
        if j < n {
          assert steps[..n][j] == steps[j] && !Ends(PepRun(cfg, steps[..n][..j]), steps[..n][j]);
        }
      }
      assert NoneEnds(cfg, steps, i + 1);
    }
    if Begins(cfg, PepRun(cfg, steps[..n]), steps[n]) {
      assert NoneEnds(cfg, steps, n + 1);
    }
  }

  lemma {:induction false} MarkerExactly(cfg: PepConfig, steps: seq<PepStep>)
    ensures MarkerShared(PepRun(cfg, steps))
    ensures MarkerOnDisk(PepRun(cfg, steps).node) <==> Interrupted(cfg, steps)
    decreases |steps|
  {
    hide PepNext, Interrupted, Begins, Ends;
    if steps == [] {
      NothingInterrupted(cfg);
    } else {
      var n := |steps| - 1;
      MarkerExactly(cfg, steps[..n]);
      StepMarker(cfg, PepRun(cfg, steps[..n]), steps[n]);
      InterruptedNext(cfg, steps);
    }
  }

  lemma NothingInterrupted(cfg: PepConfig)
    ensures !Interrupted(cfg, [])
  {
  }

  // ---------- the rest of the file is always in order ----------

  ghost predicate Intact(cfg: PepConfig, l: Local) {
    && (l.node.disk.Some? ==> IntactHistory(cfg, l.node.disk.value.state.history))
    && (l.up ==> IntactHistory(cfg, l.node.mem.history))
  }

  ghost predicate IntactHistory(cfg: PepConfig, h: HistoryState) {
    h.pepID == cfg.pepID && ChainInvariant(cfg.p, h)
  }

  lemma LogIntact(cfg: PepConfig, n: Node, now: int, eventType: string, session: Option<Session>,
                  meta: Option<Metadata>)
    requires IntactHistory(cfg, n.mem.history)
    ensures IntactHistory(cfg, Log(cfg, n, now, eventType, session, meta).mem.history)
  {
    hide ChainInvariant;
    AppendKeepsChain(cfg.p, n.mem.history, now, eventType, session, meta);
  }

  lemma TransactionIntact(cfg: PepConfig, l: Local, step: PepStep)
    requires Intact(cfg, l) && l.up && !step.RestartStep? && !step.PrepareStep? && !step.ReceiveStep?
    ensures Intact(cfg, PepNext(cfg, l, step))
  {
    hide IntactHistory, Append, MeetsLocalProfile, IntentMeta, ObservedMeta, Lapsed;
    forall n: Node, now, t, s, m | IntactHistory(cfg, n.mem.history)
      ensures IntactHistory(cfg, Log(cfg, n, now, t, s, m).mem.history)
    {
      LogIntact(cfg, n, now, t, s, m);
    }
  }

  lemma CapacityIntact(cfg: PepConfig, l: Local, step: PepStep)
    requires Intact(cfg, l) && l.up && (step.PrepareStep? || step.ReceiveStep?)
    ensures Intact(cfg, PepNext(cfg, l, step))
  {
    hide IntactHistory, Append, Build, TokenValid, AcceptedMeta, JoinComma, Mark;
    var n := l.node;
    match (step, l.txn)
    case (PrepareStep(now, now', writable), Idle) =>
      LogIntact(cfg, n, now, "capacity_requested", None, Some(map["scope" := JoinComma(cfg.scope)]));
    case (ReceiveStep(tok, now, now', writable), Idle) =>
      if n.mem.pendingCapacity.Some? {
        var ev := n.mem.pendingCapacity.value;
        var h := Mark(cfg.p, n.mem.history, ev.checkpoint);
        if h.Success? {
          MarkIntact(cfg, n.mem.history, ev.checkpoint);
          LogIntact(cfg, n.(mem := n.mem.(history := h.value)), now', "capacity_accepted", None,
                    Some(AcceptedMeta(cfg, ev)));
        }
      }
    case _ =>
  }

  lemma MarkIntact(cfg: PepConfig, h: HistoryState, c: Checkpoint)
    requires IntactHistory(cfg, h) && Mark(cfg.p, h, c).Success?
    ensures IntactHistory(cfg, Mark(cfg.p, h, c).value)
  {
    hide Chained, HashCheckpoint;
  }

  lemma RestartIntact(cfg: PepConfig, l: Local, now: int)
    requires Intact(cfg, l)
    ensures Intact(cfg, PepNext(cfg, l, RestartStep(now)))
  {
    hide ChainInvariant, Append;
    if Load(cfg, l.node.disk).Success? {
      EmptyIntact(cfg);
      LogIntact(cfg, Node(Load(cfg, l.node.disk).value, l.node.disk), now, "pep_start", None, Some(StartMeta(cfg)));
    }
  }

  lemma EmptyIntact(cfg: PepConfig)
    ensures IntactHistory(cfg, EmptyHistory(cfg.pepID))
  {
  }

  lemma {:induction false} RunIntact(cfg: PepConfig, steps: seq<PepStep>)
    ensures Intact(cfg, PepRun(cfg, steps))
    decreases |steps|
  {
    hide PepNext, IntactHistory;
    if steps != [] {
      var l, step := PepRun(cfg, steps[..|steps| - 1]), steps[|steps| - 1];
      RunIntact(cfg, steps[..|steps| - 1]);
      if step.RestartStep? {
        RestartIntact(cfg, l, step.now);
      } else if !l.up {
        DownStays(cfg, l, step);
      } else if step.PrepareStep? || step.ReceiveStep? {
        CapacityIntact(cfg, l, step);
      } else {
        TransactionIntact(cfg, l, step);
      }
    }
  }

  lemma DownStays(cfg: PepConfig, l: Local, step: PepStep)
    requires !l.up && !step.RestartStep?
    ensures PepNext(cfg, l, step) == l
  {
  }

  // ---------- what the next process does ----------

  /**
   After every run, whatever failed and wherever it crashed, the next process refuses to start exactly if a
   transaction was begun and since then none was brought to its end on disk; and it starts otherwise.
   */
  lemma RefusedExactly(cfg: PepConfig, steps: seq<PepStep>, now: int)
    ensures var l := PepRun(cfg, steps);
      && (!PepNext(cfg, l, RestartStep(now)).up <==> Interrupted(cfg, steps))
      && (Interrupted(cfg, steps) ==>
            && l.node.disk.Some? && l.node.disk.value.state.pending.Some?
            && Load(cfg, l.node.disk)
               == Failure(InterruptedTransaction(l.node.disk.value.state.pending.value.operation)))
  {
    hide Interrupted, PepRun, ChainInvariant;
    MarkerExactly(cfg, steps);
    RunIntact(cfg, steps);
  }

  /** At every point inside an apply or delete transaction, a crash leaves a state file that is refused. */
  lemma CrashInsideIsRefused(cfg: PepConfig, steps: seq<PepStep>, now: int)
    requires var l := PepRun(cfg, steps); l.up && !l.txn.Idle?
    ensures !PepNext(cfg, PepRun(cfg, steps), RestartStep(now)).up
  {
    hide Interrupted, PepRun, PepNext;
    MarkerExactly(cfg, steps);
    RefusedExactly(cfg, steps, now);
  }

  /**
   After a transaction failed, the promise is kept exactly as long as no later one ends: the file is refused at
   every point of the rest of the run if and only if no transaction is brought to its end on disk in it.
   */
  lemma FailedStaysRefused(cfg: PepConfig, steps: seq<PepStep>, i: nat, now: int)
    requires i < |steps| && Fails(cfg, PepRun(cfg, steps[..i]), steps[i])
    ensures (forall n :: i < n <= |steps| ==> !PepNext(cfg, PepRun(cfg, steps[..n]), RestartStep(now)).up)
            <==> NoneEnds(cfg, steps, i + 1)
  {
    hide Interrupted, PepRun, PepNext, Begins, Ends;
    assert steps[..i + 1][..i] == steps[..i];
    FailureIsMarked(cfg, steps[..i + 1]);
    MarkerExactly(cfg, steps[..i + 1]);
    forall n | i < n <= |steps|
      ensures !PepNext(cfg, PepRun(cfg, steps[..n]), RestartStep(now)).up
              <==> MarkerOnDisk(PepRun(cfg, steps[..n]).node)
    {
      MarkerExactly(cfg, steps[..n]);
      RefusedExactly(cfg, steps[..n], now);
    }
    MarkedFrom(cfg, steps, i + 1);
  }

  lemma FailureIsMarked(cfg: PepConfig, steps: seq<PepStep>)
    requires steps != [] && Fails(cfg, PepRun(cfg, steps[..|steps| - 1]), steps[|steps| - 1])
    ensures MarkerOnDisk(PepRun(cfg, steps).node)
  {
    hide Interrupted, PepNext, Begins;
    var n := |steps| - 1;
    MarkerExactly(cfg, steps[..n]);
    StepMarker(cfg, PepRun(cfg, steps[..n]), steps[n]);
  }

  /** Once there, the marker stays until a transaction ends, and then is gone. */
  lemma {:induction false} MarkedFrom(cfg: PepConfig, steps: seq<PepStep>, from: nat)
    requires from <= |steps| && MarkerOnDisk(PepRun(cfg, steps[..from]).node)
    ensures (forall n :: from <= n <= |steps| ==> MarkerOnDisk(PepRun(cfg, steps[..n]).node))
            <==> NoneEnds(cfg, steps, from)
    decreases |steps|
  {
    hide PepNext, Begins, Ends, MarkerOnDisk;
    if from == |steps| {
      assert steps[..from] == steps;
    } else {
      var n := |steps| - 1;
      assert forall i :: 0 <= i <= n ==> steps[..n][..i] == steps[..i];
      MarkedFrom(cfg, steps[..n], from);
      assert steps[..n][..n] == steps[..n];
      if MarkerOnDisk(PepRun(cfg, steps[..n]).node) {
        LastStepMarked(cfg, steps);
      }
      MarkedPrefix(cfg, steps, from);
    }
  }

  lemma LastStepMarked(cfg: PepConfig, steps: seq<PepStep>)
    requires steps != [] && MarkerOnDisk(PepRun(cfg, steps[..|steps| - 1]).node)
    ensures var n := |steps| - 1; MarkerOnDisk(PepRun(cfg, steps).node) <==> !Ends(PepRun(cfg, steps[..n]), steps[n])
  {
    hide PepNext;
    var n := |steps| - 1;
    MarkerExactly(cfg, steps[..n]);
    StepMarker(cfg, PepRun(cfg, steps[..n]), steps[n]);
    BeginsIsNoEnd(cfg, PepRun(cfg, steps[..n]), steps[n]);
  }

  lemma BeginsIsNoEnd(cfg: PepConfig, l: Local, step: PepStep)
    ensures Begins(cfg, l, step) ==> !Ends(l, step)
  {
  }

  lemma MarkedPrefix(cfg: PepConfig, steps: seq<PepStep>, from: nat)
    requires from < |steps|
    ensures var n := |steps| - 1;
      && ((forall m :: from <= m <= |steps| ==> MarkerOnDisk(PepRun(cfg, steps[..m]).node)) <==>
            (forall m :: from <= m <= n ==> MarkerOnDisk(PepRun(cfg, steps[..n][..m]).node))
              && MarkerOnDisk(PepRun(cfg, steps).node))
      && (NoneEnds(cfg, steps, from) <==> NoneEnds(cfg, steps[..n], from) && !Ends(PepRun(cfg, steps[..n]), steps[n]))
  {
    hide PepRun, Ends, MarkerOnDisk;
    var n := |steps| - 1;
    assert steps[..n + 1] == steps;
    assert forall i :: 0 <= i <= n ==> steps[..n][..i] == steps[..i];
  }

  // ---------- a run in which the promise is broken ----------

  /** The next process starts on this file although the events of `k` in its log are no history of a session. */
  ghost predicate AcceptedWithoutHistory(cfg: PepConfig, disk: Option<PepFile>, k: string) {
    && disk.Some? && Load(cfg, disk).Success?
    && forall active :: !KeyHistory(Project(disk.value.state.history.events, k), active)
  }

  /**
   The cleanup does not ask whether an earlier transaction failed.  One session is set up; the next one fails to
   install; the first lapses and is cleaned up, which takes the marker away.  The file was refused before the
   cleanup and is accepted after it, with an intent in its log that nothing ever followed.
   */
  function ForgettingRun(first: Session, second: Session, clock: int, applied: Metadata,
                         deleted: Metadata): seq<PepStep>
  {
    [RestartStep(clock), BeginApplyStep(first, clock, true), ObserveApplyStep(clock, applied),
     FinishApplyStep(clock, true),
     BeginApplyStep(second, clock, true), KernelFails,
     BeginDeleteStep(first.pepInSPI, clock, clock, clock, true), ObserveDeleteStep(clock, deleted),
     FinishDeleteStep(true)]
  }

  lemma FailedApplyForgotten(cfg: PepConfig, first: Session, second: Session, clock: int, applied: Metadata,
                             deleted: Metadata)
    requires KeyOf(first) != KeyOf(second) && Lapsed(cfg, first, clock)
    requires MeetsLocalProfile(cfg, ObservedMeta(cfg, first, applied), "applied")
    requires MeetsLocalProfile(cfg, ObservedMeta(cfg, first, deleted), "deleted")
    ensures var steps := ForgettingRun(first, second, clock, applied, deleted);
      && Load(cfg, PepRun(cfg, steps[..6]).node.disk).Failure?
      && AcceptedWithoutHistory(cfg, PepRun(cfg, steps).node.disk, KeyOf(second))
  {
    hide PepNext, MeetsLocalProfile, KeyOf, Lapsed, ObservedMeta, AcceptedWithoutHistory, Load, Project;
    var steps := ForgettingRun(first, second, clock, applied, deleted);
    var l := FirstSessionUp(cfg, first, clock, applied, KeyOf(second));
    assert steps[..4] == [steps[0], steps[1], steps[2], steps[3]];
    CleanupForgets(cfg, l, second, first.pepInSPI, clock, clock, deleted);
    RunStep(cfg, steps, 4);
    RunStep(cfg, steps, 5);
    RunStep(cfg, steps, 6);
    RunStep(cfg, steps, 7);
    RunStep(cfg, steps, 8);
    assert steps[..9] == steps;
  }

  lemma RunStep(cfg: PepConfig, steps: seq<PepStep>, k: nat)
    requires k < |steps|
    ensures PepRun(cfg, steps[..k + 1]) == PepNext(cfg, PepRun(cfg, steps[..k]), steps[k])
  {
    hide PepNext;
    assert steps[..k + 1][..k] == steps[..k];
  }

  /** The process after the first session was set up. */
  lemma FirstSessionUp(cfg: PepConfig, first: Session, clock: int, applied: Metadata, k: string) returns (l: Local)
    requires MeetsLocalProfile(cfg, ObservedMeta(cfg, first, applied), "applied") && KeyOf(first) != k
    ensures l == PepRun(cfg, [RestartStep(clock), BeginApplyStep(first, clock, true), ObserveApplyStep(clock, applied),
                              FinishApplyStep(clock, true)])
    ensures l.up && l.txn.Idle? && l.node.mem.sessions == map[first.pepInSPI := first]
    ensures ChainInvariant(cfg.p, l.node.mem.history) && l.node.mem.history.pepID == cfg.pepID
    ensures |Project(l.node.mem.history.events, k)| == 0
  {
    var steps := [RestartStep(clock), BeginApplyStep(first, clock, true), ObserveApplyStep(clock, applied),
                  FinishApplyStep(clock, true)];
    hide MeetsLocalProfile, KeyOf, NewEvent, SessionKey, IntentMeta, ObservedMeta, ChainInvariant, Project, Boot;
    var started := StartProjects(cfg, clock, k);
    var marked := SetPending(started, Some(PendingOperation("xfrm_apply", first)), true);
    var n1 := LogProjects(cfg, marked, clock, APPLY_INTENT, first, Some(IntentMeta(cfg, first)), k);
    var n2 := LogProjects(cfg, n1, clock, APPLY_OBSERVED, first, Some(ObservedMeta(cfg, first, applied)), k);
    var stored := n2.(mem := n2.mem.(sessions := n2.mem.sessions[first.pepInSPI := first]));
    var n3 := LogProjects(cfg, stored, clock, ACTIVATED, first, Some(map["attested" := "true"]), k);
    l := Local(true, SetPending(n3, None, true), Idle);
    assert steps[..0] == [] && steps[..4] == steps;
    RunStep(cfg, steps, 0);
    RunStep(cfg, steps, 1);
    RunStep(cfg, steps, 2);
    RunStep(cfg, steps, 3);
  }

  lemma StartProjects(cfg: PepConfig, now: int, k: string) returns (n: Node)
    ensures Boot(cfg, None, now) == Local(true, n, Idle) && n.mem.sessions == map[]
    ensures |Project(n.mem.history.events, k)| == 0
    ensures ChainInvariant(cfg.p, n.mem.history) && n.mem.history.pepID == cfg.pepID
  {
    hide HashEvent, SessionKey;
    n := Boot(cfg, None, now).node;
    var empty := EmptyHistory(cfg.pepID);
    var e := NewEvent(cfg.p, empty, now, "pep_start", None, Some(StartMeta(cfg)));
    assert n.mem.history.events == [e] && [e][..0] == [];
    EmptyIntact(cfg);
    AppendKeepsChain(cfg.p, empty, now, "pep_start", None, Some(StartMeta(cfg)));
  }

  lemma CleanupForgets(cfg: PepConfig, l: Local, s: Session, spi: string, clock: int, t: int, observed: Metadata)
    requires l.up && l.txn.Idle? && ChainInvariant(cfg.p, l.node.mem.history) && l.node.mem.history.pepID == cfg.pepID
    requires spi in l.node.mem.sessions && Lapsed(cfg, l.node.mem.sessions[spi], clock)
    requires KeyOf(l.node.mem.sessions[spi]) != KeyOf(s) && |Project(l.node.mem.history.events, KeyOf(s))| == 0
    requires l.node.mem.sessions[spi].pepInSPI == spi
    requires MeetsLocalProfile(cfg, ObservedMeta(cfg, l.node.mem.sessions[spi], observed), "deleted")
    ensures var failed := PepNext(cfg, PepNext(cfg, l, BeginApplyStep(s, t, true)), KernelFails);
      var begun := PepNext(cfg, failed, BeginDeleteStep(spi, clock, t, t, true));
      var cleaned := PepNext(cfg, PepNext(cfg, begun, ObserveDeleteStep(t, observed)), FinishDeleteStep(true));
      && Load(cfg, failed.node.disk).Failure?
      && AcceptedWithoutHistory(cfg, cleaned.node.disk, KeyOf(s))
  {
    hide MeetsLocalProfile, KeyOf, NewEvent, SessionKey, Lapsed, IntentMeta, ObservedMeta, ChainInvariant, Project,
      KeyHistory;
    var victim := l.node.mem.sessions[spi];
    var k := KeyOf(s);
    var marked := SetPending(l.node, Some(PendingOperation("xfrm_apply", s)), true);
    var n1 := LogProjects(cfg, marked, t, APPLY_INTENT, s, Some(IntentMeta(cfg, s)), k);
    var remarked := SetPending(n1, Some(PendingOperation("xfrm_delete", victim)), true);
    var n2 := LogProjects(cfg, remarked, t, EXPIRED, victim, Some(map["expires_at" := victim.expiresAt]), k);
    var n3 := LogProjects(cfg, n2, t, DELETE_INTENT, victim, Some(IntentMeta(cfg, victim)), k);
    var n4 := LogProjects(cfg, n3, t, DELETE_OBSERVED, victim, Some(ObservedMeta(cfg, victim, observed)), k);
    var trace := Project(n4.mem.history.events, k);
    forall active ensures !KeyHistory(trace, active) {
      LonelyEventIsNoHistory(trace, active);
    }
  }

  lemma LogProjects(cfg: PepConfig, n: Node, now: int, eventType: string, s: Session, meta: Option<Metadata>, k: string)
    returns (n': Node)
    requires SessionType(eventType)
    ensures n' == Log(cfg, n, now, eventType, Some(s), meta)
    ensures |Project(n'.mem.history.events, k)| == |Project(n.mem.history.events, k)| + if KeyOf(s) == k then 1 else 0
    ensures ChainInvariant(cfg.p, n.mem.history) ==> ChainInvariant(cfg.p, n'.mem.history)
  {
    hide NewEvent, SessionKey, KeyOf, ChainInvariant;
    n' := Log(cfg, n, now, eventType, Some(s), meta);
    var e := NewEvent(cfg.p, n.mem.history, now, eventType, Some(s), meta);
    SessionEventKey(cfg, n.mem.history, now, eventType, s, meta);
    assert (n.mem.history.events + [e])[..|n.mem.history.events|] == n.mem.history.events;
    if ChainInvariant(cfg.p, n.mem.history) {
      AppendKeepsChain(cfg.p, n.mem.history, now, eventType, Some(s), meta);
    }
  }

  lemma LonelyEventIsNoHistory(trace: seq<Event>, active: Option<Tracked>)
    requires |trace| == 1
    ensures !KeyHistory(trace, active)
  {
    forall lives ensures |LivesWord(lives)| != 1 {
      LifeLength(lives);
    }
  }

  /** A life has at least three events. */
  lemma LifeLength(lives: seq<Life>)
    ensures |LivesWord(lives)| == 0 || |LivesWord(lives)| >= 3
  {
  }
}
