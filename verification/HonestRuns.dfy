/**
 The PEP process under honest steps: kernel operations succeed and sessions have keys of their own.  Its whole
 log, in memory and on disk, stays acceptable to the Verifier, with the active sessions those of the table.
 */
module HonestRuns {
  import opened Wrappers
  import opened Protocol
  import opened Attest
  import opened History
  import opened Policy
  import opened Lifecycle
  import opened Verifier
  import opened Pep
  import opened Authority
  import opened SessionTable
  import opened DeltaReplay
  import opened HonestEvents

  // ---------- the PEP's own state ----------

  /** No transaction is open, but for one of the session key `busy`. */
  ghost predicate RestedBut(stages: map<string, Stage>, busy: Option<string>) {
    forall k :: k in stages && busy != Some(k) ==> Settled(stages[k].phase)
  }

  function Whole(cfg: PepConfig, ver: VerifierConfig, h: HistoryState): Result<PolicyState, PolicyError> {
    Replay(Context(cfg, ver), NOTHING, h.events)
  }

  /** The whole log, replayed as one delta, is accepted and leaves exactly the sessions `live`. */
  ghost predicate Good(cfg: PepConfig, ver: VerifierConfig, st: PepState, busy: Option<string>,
                       live: map<string, Session>)
  {
    && WellFormed(cfg.p, st.history) && st.history.pepID == cfg.pepID
    && (forall id :: id in st.sessions ==> Orderly(cfg, st.sessions[id]))
    && var r := Whole(cfg, ver, st.history);
    && r.Success? && RestedBut(r.value.stages, busy) && TableMatches(Planned(cfg), live, r.value.active)
  }

  ghost predicate At(cfg: PepConfig, ver: VerifierConfig, st: PepState, s: Session, phase: Phase) {
    var r := Whole(cfg, ver, st.history);
    r.Success? && Lookup(r.value.stages, KeyOf(s)) == Some(Stage(phase, PlanDigest(cfg, s)))
  }

  ghost predicate Sound(cfg: PepConfig, ver: VerifierConfig, st: PepState, txn: Txn) {
    match txn
    case Idle => Good(cfg, ver, st, None, st.sessions)
    case ApplyBegun(s) =>
      Good(cfg, ver, st, Some(KeyOf(s)), st.sessions) && At(cfg, ver, st, s, ApplyIntent) && Orderly(cfg, s)
        && Fresh(st.sessions, s)
    case ApplySeen(s) =>
      Good(cfg, ver, st, Some(KeyOf(s)), st.sessions) && At(cfg, ver, st, s, ApplyObserved) && Orderly(cfg, s)
        && Fresh(st.sessions, s)
    case DeleteBegun(s) =>
      Good(cfg, ver, st, Some(KeyOf(s)), st.sessions) && At(cfg, ver, st, s, DeleteIntent) && Tabled(st, s)
    case DeleteSeen(s) => Good(cfg, ver, st, None, st.sessions - {s.pepInSPI})
  }

  // ---------- transactions ----------

  /** One more event: the whole replay takes one more step. */
  lemma AppendReplays(cfg: PepConfig, ver: VerifierConfig, n: Node, now: int, eventType: string,
                      session: Option<Session>, meta: Option<Metadata>)
    requires Whole(cfg, ver, n.mem.history).Success? && Rfc3339(cfg.p) && WellFormed(cfg.p, n.mem.history)
    ensures var h' := Log(cfg, n, now, eventType, session, meta).mem.history;
      && Whole(cfg, ver, h') == PolicyStep(Context(cfg, ver), Whole(cfg, ver, n.mem.history).value,
                                           NewEvent(cfg.p, n.mem.history, now, eventType, session, meta))
      && WellFormed(cfg.p, h')
  {
    hide PolicyStep, NewEvent, WellFormed;
    var h := n.mem.history;
    assert (h.events + [NewEvent(cfg.p, h, now, eventType, session, meta)])[..|h.events|] == h.events;
    AppendKeepsWellFormed(cfg.p, h, now, eventType, session, meta);
  }

  /** Events that concern no session change nothing. */
  lemma QuietKeepsGood(cfg: PepConfig, ver: VerifierConfig, n: Node, now: int, eventType: string,
                       meta: Option<Metadata>)
    requires Rfc3339(cfg.p) && Good(cfg, ver, n.mem, None, n.mem.sessions)
    requires eventType in {"pep_start", "capacity_requested", "capacity_accepted"}
    ensures var st := Log(cfg, n, now, eventType, None, meta).mem;
      Good(cfg, ver, st, None, st.sessions) && Whole(cfg, ver, st.history) == Whole(cfg, ver, n.mem.history)
  {
    hide PolicyStep, Whole, WellFormed, Orderly, TableMatches, SessionKey, HashEvent;
    var e := NewEvent(cfg.p, n.mem.history, now, eventType, None, meta);
    AppendReplays(cfg, ver, n, now, eventType, None, meta);
    StepIsLocal(Context(cfg, ver), Whole(cfg, ver, n.mem.history).value, e, "");
  }

  lemma BeginApplySound(cfg: PepConfig, ver: VerifierConfig, n: Node, s: Session, now: int)
    requires Rfc3339(cfg.p) && Sound(cfg, ver, n.mem, Idle)
    requires Orderly(cfg, s) && LifetimeFits(Context(cfg, ver), s, now)
    requires Project(n.mem.history.events, KeyOf(s)) == [] && s.pepInSPI !in n.mem.sessions
    ensures Sound(cfg, ver, BeginApply(cfg, n, s, now, true).mem, ApplyBegun(s))
  {
    hide Replay, PolicyStep, WellFormed, Orderly, KeyOf, PlanDigest, NewEvent, IntentMeta, LifetimeFits;
    var ps := Whole(cfg, ver, n.mem.history).value;
    var k := KeyOf(s);
    ReplayIsProduct(Context(cfg, ver), NOTHING, n.mem.history.events);
    assert View(NOTHING, k) == KeyState(None, None);
    assert View(ps, k) == View(NOTHING, k);
    var marked := SetPending(n, Some(PendingOperation("xfrm_apply", s)), true);
    AppendReplays(cfg, ver, marked, now, APPLY_INTENT, Some(s), Some(IntentMeta(cfg, s)));
    IntentAccepted(cfg, ver, n.mem.history, ps, now, s);
  }

  lemma ObserveApplySound(cfg: PepConfig, ver: VerifierConfig, n: Node, s: Session, now: int, observed: Metadata)
    requires Rfc3339(cfg.p) && Compatible(cfg, ver) && Sound(cfg, ver, n.mem, ApplyBegun(s))
    requires MeetsLocalProfile(cfg, ObservedMeta(cfg, s, observed), "applied")
    ensures Sound(cfg, ver, ObserveApply(cfg, n, s, now, observed).mem, ApplySeen(s))
  {
    hide Replay, PolicyStep, WellFormed, Orderly, KeyOf, PlanDigest, NewEvent, ObservedMeta, MeetsLocalProfile,
      Compatible, TableMatches;
    AppendReplays(cfg, ver, n, now, APPLY_OBSERVED, Some(s), Some(ObservedMeta(cfg, s, observed)));
    ApplyObservedAccepted(cfg, ver, n.mem.history, Whole(cfg, ver, n.mem.history).value, now, s, observed);
  }

  lemma FinishApplySound(cfg: PepConfig, ver: VerifierConfig, n: Node, s: Session, now: int, writable: bool)
    requires Rfc3339(cfg.p) && Sound(cfg, ver, n.mem, ApplySeen(s))
    ensures Sound(cfg, ver, FinishApply(cfg, n, s, now, writable).mem, Idle)
  {
    hide Replay, PolicyStep, WellFormed, Orderly, KeyOf, PlanDigest, NewEvent, TableMatches, Planned;
    var ps := Whole(cfg, ver, n.mem.history).value;
    var meta := map["attested" := "true"];
    var stored := n.(mem := n.mem.(sessions := n.mem.sessions[s.pepInSPI := s]));
    AppendReplays(cfg, ver, stored, now, ACTIVATED, Some(s), Some(meta));
    ActivationAccepted(cfg, ver, n.mem.history, ps, now, s, meta);
    ActivationKeepsTable(Planned(cfg), n.mem.sessions, ps.active, s);
  }

  lemma BeginDeleteSound(cfg: PepConfig, ver: VerifierConfig, n: Node, s: Session, clock: int, now: int, now': int)
    requires Rfc3339(cfg.p) && Sound(cfg, ver, n.mem, Idle) && Tabled(n.mem, s) && Lapsed(cfg, s, clock) && clock <= now
    ensures Sound(cfg, ver, BeginDelete(cfg, n, s, now, now', true).mem, DeleteBegun(s))
  {
    hide Replay, PolicyStep, WellFormed, Orderly, KeyOf, PlanDigest, NewEvent, IntentMeta, Lapsed;
    var ps := Whole(cfg, ver, n.mem.history).value;
    var meta := map["expires_at" := s.expiresAt];
    var marked := SetPending(n, Some(PendingOperation("xfrm_delete", s)), true);
    AppendReplays(cfg, ver, marked, now, EXPIRED, Some(s), Some(meta));
    ExpirationAccepted(cfg, ver, n.mem.history, ps, clock, now, s, meta);
    var expired := Log(cfg, marked, now, EXPIRED, Some(s), Some(meta));
    AppendReplays(cfg, ver, expired, now', DELETE_INTENT, Some(s), Some(IntentMeta(cfg, s)));
    DeleteIntentAccepted(cfg, ver, expired.mem.history, Whole(cfg, ver, expired.mem.history).value, now', s);
  }

  lemma ObserveDeleteSound(cfg: PepConfig, ver: VerifierConfig, n: Node, s: Session, now: int, observed: Metadata)
    requires Rfc3339(cfg.p) && Compatible(cfg, ver) && Sound(cfg, ver, n.mem, DeleteBegun(s))
    requires MeetsLocalProfile(cfg, ObservedMeta(cfg, s, observed), "deleted")
    ensures Sound(cfg, ver, ObserveDelete(cfg, n, s, now, observed).mem, DeleteSeen(s))
  {
    hide Replay, PolicyStep, WellFormed, Orderly, KeyOf, PlanDigest, NewEvent, ObservedMeta, MeetsLocalProfile,
      Compatible, TableMatches;
    var ps := Whole(cfg, ver, n.mem.history).value;
    AppendReplays(cfg, ver, n, now, DELETE_OBSERVED, Some(s), Some(ObservedMeta(cfg, s, observed)));
    DeleteObservedAccepted(cfg, ver, n.mem.history, ps, now, s, observed);
    DeletionKeepsTable(Planned(cfg), n.mem.sessions, ps.active, s.pepInSPI);
  }

  lemma FinishDeleteSound(cfg: PepConfig, ver: VerifierConfig, n: Node, s: Session, writable: bool)
    requires Sound(cfg, ver, n.mem, DeleteSeen(s))
    ensures Sound(cfg, ver, FinishDelete(n, s, writable).mem, Idle)
  {
    hide Whole, WellFormed, Orderly, TableMatches;
  }

  // ---------- honest steps of the PEP process ----------

  ghost predicate HonestLocal(c: Setup, l: Local) {
    && Sound(c.pep, c.ver, DiskState(c, l.node), Idle)
    && (l.up ==> Sound(c.pep, c.ver, l.node.mem, l.txn))
  }

  /**
   Kernel operations succeed, sessions are orderly and have keys of their own, clocks do not run backwards
   within a cleanup, and no session that the cleanup left lapses before the checkpoint is dated.
   */
  ghost predicate HonestPepStep(c: Setup, l: Local, step: PepStep) {
    l.up ==>
      match step
      case BeginApplyStep(s, now, _) =>
        l.txn.Idle? ==>
          && Orderly(c.pep, s) && LifetimeFits(Context(c.pep, c.ver), s, now)
          && Project(l.node.mem.history.events, KeyOf(s)) == [] && s.pepInSPI !in l.node.mem.sessions
      case KernelFails => !l.txn.ApplyBegun? && !l.txn.DeleteBegun?
      case ObserveApplyStep(_, observed) =>
        l.txn.ApplyBegun? ==> MeetsLocalProfile(c.pep, ObservedMeta(c.pep, l.txn.s, observed), "applied")
      case ObserveDeleteStep(_, observed) =>
        l.txn.DeleteBegun? ==> MeetsLocalProfile(c.pep, ObservedMeta(c.pep, l.txn.s, observed), "deleted")
      case BeginDeleteStep(_, clock, now, _, _) => clock <= now
      case PrepareStep(_, now', _) =>
        l.node.mem.pendingCapacity.None? ==> NoneLapsed(c.pep, l.node.mem.sessions, now')
      case _ => true
  }

  ghost predicate NoneLapsed(cfg: PepConfig, sessions: map<string, Session>, now: int) {
    forall id :: id in sessions ==> !Lapsed(cfg, sessions[id], now)
  }

  lemma ApplyStepSound(c: Setup, l: Local, step: PepStep)
    requires Rfc3339(c.pep.p) && Compatible(c.pep, c.ver) && HonestLocal(c, l) && HonestPepStep(c, l, step) && l.up
    requires step.BeginApplyStep? || step.KernelFails? || step.ObserveApplyStep? || step.FinishApplyStep?
    ensures HonestLocal(c, PepNext(c.pep, l, step))
  {
    hide Good, At, Orderly, Fresh, KeyOf, LifetimeFits, Project, MeetsLocalProfile, ObservedMeta, Compatible, Append,
      IntentMeta;
    var n := l.node;
    match (step, l.txn)
    case (BeginApplyStep(s, now, writable), Idle) =>
      BeginApplySound(c.pep, c.ver, n, s, now);
      MarkedIsGood(c, n.mem, Some(PendingOperation("xfrm_apply", s)), n.mem.pendingCapacity);
    case (ObserveApplyStep(now, observed), ApplyBegun(s)) => ObserveApplySound(c.pep, c.ver, n, s, now, observed);
    case (FinishApplyStep(now, writable), ApplySeen(s)) => FinishApplySound(c.pep, c.ver, n, s, now, writable);
    case _ =>
  }

  /** The marker and the pending evidence play no part in what a state's log means. */
  lemma MarkedIsGood(c: Setup, st: PepState, op: Option<PendingOperation>, ev: Option<Evidence>)
    requires Sound(c.pep, c.ver, st, Idle)
    ensures Sound(c.pep, c.ver, st.(pending := op, pendingCapacity := ev), Idle)
  {
  }

  lemma DeleteStepSound(c: Setup, l: Local, step: PepStep)
    requires Rfc3339(c.pep.p) && Compatible(c.pep, c.ver) && HonestLocal(c, l) && HonestPepStep(c, l, step) && l.up
    requires step.BeginDeleteStep? || step.ObserveDeleteStep? || step.FinishDeleteStep?
    ensures HonestLocal(c, PepNext(c.pep, l, step))
  {
    hide Whole, At, Orderly, Fresh, KeyOf, LifetimeFits, Project, MeetsLocalProfile, ObservedMeta, Compatible, Append,
      IntentMeta, Lapsed;
    var n := l.node;
    match (step, l.txn)
    case (BeginDeleteStep(spi, clock, now, now', writable), Idle) =>
      if spi in n.mem.sessions && Lapsed(c.pep, n.mem.sessions[spi], clock) {
        var s := n.mem.sessions[spi];
        BeginDeleteSound(c.pep, c.ver, n, s, clock, now, now');
        MarkedIsGood(c, n.mem, Some(PendingOperation("xfrm_delete", s)), n.mem.pendingCapacity);
      }
    case (ObserveDeleteStep(now, observed), DeleteBegun(s)) => ObserveDeleteSound(c.pep, c.ver, n, s, now, observed);
    case (FinishDeleteStep(writable), DeleteSeen(s)) => FinishDeleteSound(c.pep, c.ver, n, s, writable);
    case _ =>
  }

  lemma CapacityStepSound(c: Setup, l: Local, step: PepStep)
    requires Rfc3339(c.pep.p) && HonestLocal(c, l) && l.up
    requires step.PrepareStep? || step.ReceiveStep?
    ensures HonestLocal(c, PepNext(c.pep, l, step))
  {
    hide Good, At, Orderly, Fresh, KeyOf, Append, TokenValid, AcceptedMeta, JoinComma, Build;
    var n := l.node;
    match (step, l.txn)
    case (PrepareStep(now, now', writable), Idle) => PrepareSound(c, n, now, now', writable);
    case (ReceiveStep(tok, now, now', writable), Idle) => ReceiveSound(c, n, tok, now, now', writable);
    case _ =>
  }

  lemma PrepareSound(c: Setup, n: Node, now: int, now': int, writable: bool)
    requires Rfc3339(c.pep.p) && Sound(c.pep, c.ver, n.mem, Idle) && Sound(c.pep, c.ver, DiskState(c, n), Idle)
    ensures var n' := PrepareCapacity(c.pep, n, now, now', writable).0;
      Sound(c.pep, c.ver, n'.mem, Idle) && Sound(c.pep, c.ver, DiskState(c, n'), Idle)
  {
    hide Good, Append, JoinComma, Build;
    var meta := Some(map["scope" := JoinComma(c.pep.scope)]);
    QuietKeepsGood(c.pep, c.ver, n, now, "capacity_requested", meta);
    var asked := Log(c.pep, n, now, "capacity_requested", None, meta);
    var built := Build(c.pep.p, asked.mem.history, c.pep.privateKey, now');
    if built.Success? {
      MarkedIsGood(c, asked.mem, asked.mem.pending, Some(built.value));
    }
  }

  lemma ReceiveSound(c: Setup, n: Node, tok: Token, now: int, now': int, writable: bool)
    requires Rfc3339(c.pep.p) && Sound(c.pep, c.ver, n.mem, Idle) && Sound(c.pep, c.ver, DiskState(c, n), Idle)
    ensures var n' := AcceptToken(c.pep, n, tok, now, now', writable).0;
      Sound(c.pep, c.ver, n'.mem, Idle) && Sound(c.pep, c.ver, DiskState(c, n'), Idle)
  {
    hide Good, Append, TokenValid, AcceptedMeta, Mark;
    if n.mem.pendingCapacity.Some? {
      var ev := n.mem.pendingCapacity.value;
      var h := Mark(c.pep.p, n.mem.history, ev.checkpoint);
      if h.Success? {
        var marked := n.(mem := n.mem.(history := h.value));
        AcceptedIsGood(c, n.mem, ev.checkpoint);
        QuietKeepsGood(c.pep, c.ver, marked, now', "capacity_accepted", Some(AcceptedMeta(c.pep, ev)));
        var logged := Log(c.pep, marked, now', "capacity_accepted", None, Some(AcceptedMeta(c.pep, ev)));
        MarkedIsGood(c, logged.mem, logged.mem.pending, None);
      }
    }
  }

  lemma AcceptedIsGood(c: Setup, st: PepState, cp: Checkpoint)
    requires Sound(c.pep, c.ver, st, Idle) && Mark(c.pep.p, st.history, cp).Success?
    ensures Sound(c.pep, c.ver, st.(history := Mark(c.pep.p, st.history, cp).value), Idle)
  {
    hide Orderly, TableMatches, Chained, HashCheckpoint;
  }

  lemma RestartSound(c: Setup, l: Local, now: int)
    requires Rfc3339(c.pep.p) && HonestLocal(c, l)
    ensures HonestLocal(c, PepNext(c.pep, l, RestartStep(now)))
  {
    hide Good, Append, ChainInvariant;
    if Load(c.pep, l.node.disk).Success? {
      var mem := Load(c.pep, l.node.disk).value;
      QuietKeepsGood(c.pep, c.ver, Node(mem, l.node.disk), now, "pep_start", Some(StartMeta(c.pep)));
    }
  }

  lemma PepStepSound(c: Setup, l: Local, step: PepStep)
    requires Rfc3339(c.pep.p) && Compatible(c.pep, c.ver) && HonestLocal(c, l) && HonestPepStep(c, l, step)
    ensures HonestLocal(c, PepNext(c.pep, l, step))
  {
    hide Sound, HonestPepStep, Compatible;
    if step.RestartStep? {
      RestartSound(c, l, step.now);
    } else if !l.up {
    } else if step.PrepareStep? || step.ReceiveStep? {
      CapacityStepSound(c, l, step);
    } else if step.BeginDeleteStep? || step.ObserveDeleteStep? || step.FinishDeleteStep? {
      DeleteStepSound(c, l, step);
    } else {
      ApplyStepSound(c, l, step);
    }
  }
}
