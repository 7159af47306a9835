/**
 What the PEP has pending, against its log and its accepted checkpoint, in every run: the pending checkpoint
 sums up a prefix of the log, and follows the accepted one unless it is that one.
 */
module SealedRuns {
  import opened Wrappers
  import opened Protocol
  import opened Attest
  import opened History
  import opened VerifierRuns
  import opened Pep
  import opened Authority
  import opened Interruption

  /** Pending evidence was built on the accepted checkpoint, or has been accepted since, and is part of the log. */
  ghost predicate Sealed(p: Primitives, st: PepState) {
    st.pendingCapacity.Some? ==>
      var ev, h := st.pendingCapacity.value, st.history;
      && (h.acceptedEpoch + 1 == ev.checkpoint.epoch || h.acceptedHash == HashCheckpoint(p, ev.checkpoint))
      && ev.previousCheckpointHash == ev.checkpoint.previousCheckpointHash
      && ev.checkpoint.lastEventIndex <= |h.events|
      && ev.checkpoint.lastEventHash == LastHash(h.events[..ev.checkpoint.lastEventIndex], "")
  }

  ghost predicate Traceable(cfg: PepConfig, l: Local) {
    && Intact(cfg, l)
    && (l.node.disk.Some? ==> Sealed(cfg.p, l.node.disk.value.state))
    && (l.up ==> Sealed(cfg.p, l.node.mem))
  }

  lemma LogSealed(cfg: PepConfig, n: Node, now: int, eventType: string, session: Option<Session>,
                  meta: Option<Metadata>)
    requires Sealed(cfg.p, n.mem)
    ensures Sealed(cfg.p, Log(cfg, n, now, eventType, session, meta).mem)
  {
    hide NewEvent, HashEvent, HashCheckpoint;
    var events, events' := n.mem.history.events, Log(cfg, n, now, eventType, session, meta).mem.history.events;
    if n.mem.pendingCapacity.Some? {
      var i := n.mem.pendingCapacity.value.checkpoint.lastEventIndex;
      assert events'[..i] == events[..i];
    }
  }

  ghost predicate SealedNode(p: Primitives, n: Node) {
    Sealed(p, n.mem) && (n.disk.Some? ==> Sealed(p, n.disk.value.state))
  }

  lemma TransactionSealed(cfg: PepConfig, l: Local, step: PepStep)
    requires Traceable(cfg, l) && l.up && !step.RestartStep? && !step.PrepareStep? && !step.ReceiveStep?
    ensures Traceable(cfg, PepNext(cfg, l, step))
  {
    hide PepNext, Intact, Sealed;
    TransactionIntact(cfg, l, step);
    TransactionSealedNode(cfg, l, step);
  }

  lemma TransactionSealedNode(cfg: PepConfig, l: Local, step: PepStep)
    requires SealedNode(cfg.p, l.node) && l.up && !step.RestartStep? && !step.PrepareStep? && !step.ReceiveStep?
    ensures SealedNode(cfg.p, PepNext(cfg, l, step).node)
  {
    hide Log, SetPending, MeetsLocalProfile, IntentMeta, ObservedMeta, Lapsed, SealedNode;
    forall n: Node, now, t, s, m | SealedNode(cfg.p, n) ensures SealedNode(cfg.p, Log(cfg, n, now, t, s, m)) {
      LogSealedNode(cfg, n, now, t, s, m);
    }
    forall n: Node, sessions | SealedNode(cfg.p, n) ensures SealedNode(cfg.p, n.(mem := n.mem.(sessions := sessions))) {
      SealedFrame(cfg, n, sessions, None, false);
    }
    forall n: Node, op, writable | SealedNode(cfg.p, n) ensures SealedNode(cfg.p, SetPending(n, op, writable)) {
      SealedFrame(cfg, n, n.mem.sessions, op, writable);
    }
  }

  lemma LogSealedNode(cfg: PepConfig, n: Node, now: int, eventType: string, session: Option<Session>,
                      meta: Option<Metadata>)
    requires SealedNode(cfg.p, n)
    ensures SealedNode(cfg.p, Log(cfg, n, now, eventType, session, meta))
  {
    hide Sealed, Append;
    LogSealed(cfg, n, now, eventType, session, meta);
  }

  lemma SealedFrame(cfg: PepConfig, n: Node, sessions: map<string, Session>, op: Option<PendingOperation>,
                    writable: bool)
    requires SealedNode(cfg.p, n)
    ensures SealedNode(cfg.p, n.(mem := n.mem.(sessions := sessions))) && SealedNode(cfg.p, SetPending(n, op, writable))
  {
  }

  lemma CapacitySealed(cfg: PepConfig, l: Local, step: PepStep)
    requires Traceable(cfg, l) && l.up && (step.PrepareStep? || step.ReceiveStep?)
    ensures Traceable(cfg, PepNext(cfg, l, step))
  {
    CapacityIntact(cfg, l, step);
    hide Intact, Append, TokenValid, AcceptedMeta, JoinComma, Build, Mark, Sealed;
    var n := l.node;
    match (step, l.txn)
    case (PrepareStep(now, now', writable), Idle) =>
      if n.mem.pendingCapacity.None? {
        var asked := Log(cfg, n, now, "capacity_requested", None, Some(map["scope" := JoinComma(cfg.scope)]));
        LogSealed(cfg, n, now, "capacity_requested", None, Some(map["scope" := JoinComma(cfg.scope)]));
        MemoryIntact(cfg, l);
        LogIntact(cfg, n, now, "capacity_requested", None, Some(map["scope" := JoinComma(cfg.scope)]));
        BuiltSealed(cfg, asked.mem, now');
      }
    case (ReceiveStep(tok, now, now', writable), Idle) =>
      if n.mem.pendingCapacity.Some? {
        var ev := n.mem.pendingCapacity.value;
        var h := Mark(cfg.p, n.mem.history, ev.checkpoint);
        if h.Success? {
          MarkSealed(cfg, n.mem, ev.checkpoint);
          LogSealed(cfg, n.(mem := n.mem.(history := h.value)), now', "capacity_accepted", None,
                    Some(AcceptedMeta(cfg, ev)));
          NothingSealed(cfg, Log(cfg, n.(mem := n.mem.(history := h.value)), now', "capacity_accepted", None,
                    Some(AcceptedMeta(cfg, ev))).mem);
        }
      }
    case _ =>
  }

  lemma MemoryIntact(cfg: PepConfig, l: Local)
    requires Intact(cfg, l) && l.up
    ensures IntactHistory(cfg, l.node.mem.history)
  {
  }

  lemma BuiltSealed(cfg: PepConfig, st: PepState, now: int)
    requires IntactHistory(cfg, st.history)
    ensures var built := Build(cfg.p, st.history, cfg.privateKey, now);
      built.Success? ==> Sealed(cfg.p, st.(pendingCapacity := Some(built.value)))
  {
    hide Chained;
    var events := st.history.events;
    assert events[..|events|] == events;
  }

  lemma MarkSealed(cfg: PepConfig, st: PepState, c: Checkpoint)
    requires st.pendingCapacity.Some? && st.pendingCapacity.value.checkpoint == c
    requires Sealed(cfg.p, st) && Mark(cfg.p, st.history, c).Success?
    ensures Sealed(cfg.p, st.(history := Mark(cfg.p, st.history, c).value))
  {
    hide HashCheckpoint;
  }

  lemma NothingSealed(cfg: PepConfig, st: PepState)
    ensures Sealed(cfg.p, st.(pendingCapacity := None))
  {
  }

  lemma RestartSealed(cfg: PepConfig, l: Local, now: int)
    requires Traceable(cfg, l)
    ensures Traceable(cfg, PepNext(cfg, l, RestartStep(now)))
  {
    RestartIntact(cfg, l, now);
    hide Intact, ChainInvariant, Append, Sealed;
    if Load(cfg, l.node.disk).Success? {
      NothingSealed(cfg, EmptyPep(cfg.pepID));
      LogSealed(cfg, Node(Load(cfg, l.node.disk).value, l.node.disk), now, "pep_start", None, Some(StartMeta(cfg)));
    }
  }

  lemma PepStepTraceable(cfg: PepConfig, l: Local, step: PepStep)
    requires Traceable(cfg, l)
    ensures Traceable(cfg, PepNext(cfg, l, step))
  {
    hide PepNext, Traceable;
    if step.RestartStep? {
      RestartSealed(cfg, l, step.now);
    } else if !l.up {
      DownStays(cfg, l, step);
    } else if step.PrepareStep? || step.ReceiveStep? {
      CapacitySealed(cfg, l, step);
    } else {
      TransactionSealed(cfg, l, step);
    }
  }

  lemma {:induction false} RunTraceable(c: Setup, steps: seq<WorldStep>)
    ensures Traceable(c.pep, WorldRun(c, steps).local)
    decreases |steps|
  {
    hide PepNext, ServerNext, Deliverable, IntactHistory;
    if steps != [] {
      var n := |steps| - 1;
      RunTraceable(c, steps[..n]);
      if steps[n].PepMoves? {
        hide Traceable;
        PepStepTraceable(c.pep, WorldRun(c, steps[..n]).local, steps[n].pepStep);
      }
    }
  }
}
