/**
 The transactions of the PEP's class, taken apart into the steps of its process.  What is proved of every run of
 steps, alone or against the Verifier, so holds between any two calls of the class's methods.
 */
module Transactions {
  import opened Wrappers
  import opened Protocol
  import opened Attest
  import opened History
  import opened Pep
  import opened Authority
  import opened SessionTable
  import opened CrashConsistency

  function Resting(n: Node): Local {
    Local(true, n, Idle)
  }

  lemma {:induction false} FromConcat(cfg: PepConfig, l: Local, a: seq<PepStep>, b: seq<PepStep>)
    ensures PepFrom(cfg, l, a + b) == PepFrom(cfg, PepFrom(cfg, l, a), b)
    decreases |b|
  {
    hide PepNext;
    if b == [] {
      assert a + b == a;
    } else {
      var n := |b| - 1;
      FromConcat(cfg, l, a, b[..n]);
      assert (a + b)[..|a| + n] == a + b[..n];
    }
  }

  lemma FromOne(cfg: PepConfig, l: Local, step: PepStep)
    ensures PepFrom(cfg, l, [step]) == PepNext(cfg, l, step)
  {
    hide PepNext;
    assert [step][..0] == [];
  }

  lemma FromThree(cfg: PepConfig, l: Local, a: PepStep, b: PepStep, c: PepStep)
    ensures PepFrom(cfg, l, [a, b, c]) == PepNext(cfg, PepNext(cfg, PepNext(cfg, l, a), b), c)
    ensures PepFrom(cfg, l, [a, b]) == PepNext(cfg, PepNext(cfg, l, a), b)
  {
    hide PepNext;
    FromOne(cfg, l, a);
    assert [a, b][..1] == [a] && [a, b, c][..2] == [a, b];
  }

  // ---------- apply and delete ----------

  function ApplySteps(s: Session, env: ApplyEnv): seq<PepStep> {
    [BeginApplyStep(s, env.intentAt, env.markWritable)]
    + if env.installed
      then [ObserveApplyStep(env.observedAt, env.observed), FinishApplyStep(env.activatedAt, env.clearWritable)]
      else [KernelFails]
  }

  /** The apply transaction is the run of its steps, wherever it stops. */
  lemma ApplyIsRun(cfg: PepConfig, n: Node, s: Session, env: ApplyEnv)
    ensures PepFrom(cfg, Resting(n), ApplySteps(s, env)) == Resting(ApplyTransaction(cfg, n, s, env).0)
  {
    hide Log, SetPending, MeetsLocalProfile, ObservedMeta, IntentMeta;
    var begin := BeginApplyStep(s, env.intentAt, env.markWritable);
    var observe := ObserveApplyStep(env.observedAt, env.observed);
    var finish := FinishApplyStep(env.activatedAt, env.clearWritable);
    FromThree(cfg, Resting(n), begin, if env.installed then observe else KernelFails, finish);
    assert ApplySteps(s, env) == if env.installed then [begin, observe, finish] else [begin, KernelFails];
  }

  function DeleteSteps(s: Session, clock: int, env: DeleteEnv): seq<PepStep> {
    [BeginDeleteStep(s.pepInSPI, clock, env.expiredAt, env.intentAt, env.markWritable)]
    + if env.removed
      then [ObserveDeleteStep(env.observedAt, env.observed), FinishDeleteStep(env.clearWritable)]
      else [KernelFails]
  }

  /** So is the delete transaction of a lapsed session of the table. */
  lemma DeleteIsRun(cfg: PepConfig, n: Node, s: Session, clock: int, env: DeleteEnv)
    requires Tabled(n.mem, s) && Lapsed(cfg, s, clock)
    ensures PepFrom(cfg, Resting(n), DeleteSteps(s, clock, env)) == Resting(DeleteTransaction(cfg, n, s, env).0)
  {
    hide Log, SetPending, MeetsLocalProfile, ObservedMeta, IntentMeta, Lapsed;
    var begin := BeginDeleteStep(s.pepInSPI, clock, env.expiredAt, env.intentAt, env.markWritable);
    var observe, finish := ObserveDeleteStep(env.observedAt, env.observed), FinishDeleteStep(env.clearWritable);
    FromThree(cfg, Resting(n), begin, if env.removed then observe else KernelFails, finish);
    assert DeleteSteps(s, clock, env) == if env.removed then [begin, observe, finish] else [begin, KernelFails];
  }

  // ---------- the cleanup ----------

  /** Lapsed sessions of the table, each once. */
  ghost predicate Collected(cfg: PepConfig, st: PepState, order: seq<Session>, clock: int) {
    && (forall i :: 0 <= i < |order| ==> Tabled(st, order[i]) && Lapsed(cfg, order[i], clock))
    && NoRepeats(order)
  }

  /** A delete takes at most its own session out of the table. */
  lemma DeleteTouchesOne(cfg: PepConfig, n: Node, s: Session, env: DeleteEnv)
    ensures var after := DeleteTransaction(cfg, n, s, env).0.mem.sessions;
      after == n.mem.sessions || after == n.mem.sessions - {s.pepInSPI}
  {
    hide Append, MeetsLocalProfile, ObservedMeta, IntentMeta;
  }

  /** A cleanup leaves the sessions alone that it was not asked to delete. */
  lemma {:induction false} CleanupSpares(cfg: PepConfig, n: Node, order: seq<Session>, clock: int,
                                         env: Session -> DeleteEnv, s: Session)
    requires Collected(cfg, n.mem, order, clock) && Tabled(n.mem, s) && s !in order
    ensures Tabled(DeleteAll(cfg, n, order, env).0.mem, s)
    decreases |order|
  {
    hide DeleteTransaction, Lapsed;
    if order != [] {
      var m := |order| - 1;
      CleanupSpares(cfg, n, order[..m], clock, env, s);
      var before := DeleteAll(cfg, n, order[..m], env).0;
      DeleteTouchesOne(cfg, before, order[m], env(order[m]));
      assert Tabled(n.mem, order[m]) && s != order[m];
    }
  }

  /** Steps before the Verifier's answer. */
  predicate Asking(steps: seq<PepStep>) {
    forall i :: 0 <= i < |steps| ==> !steps[i].ReceiveStep? && !steps[i].FinishApplyStep?
  }

  /** A cleanup is a run of delete steps. */
  lemma {:induction false} CleanupIsRun(cfg: PepConfig, n: Node, order: seq<Session>, clock: int,
                                        env: Session -> DeleteEnv)
    returns (steps: seq<PepStep>)
    requires Collected(cfg, n.mem, order, clock)
    ensures PepFrom(cfg, Resting(n), steps) == Resting(DeleteAll(cfg, n, order, env).0) && Asking(steps)
    decreases |order|
  {
    hide DeleteTransaction, PepFrom, Lapsed;
    if order == [] {
      steps := [];
      FromNothing(cfg, Resting(n));
    } else {
      var m := |order| - 1;
      steps := CleanupIsRun(cfg, n, order[..m], clock, env);
      var (before, ok) := DeleteAll(cfg, n, order[..m], env);
      if ok {
        CleanupSpares(cfg, n, order[..m], clock, env, order[m]);
        var last := DeleteSteps(order[m], clock, env(order[m]));
        DeleteIsRun(cfg, before, order[m], clock, env(order[m]));
        FromConcat(cfg, Resting(n), steps, last);
        steps := steps + last;
      }
    }
  }

  lemma FromNothing(cfg: PepConfig, l: Local)
    ensures PepFrom(cfg, l, []) == l
  {
  }

  // ---------- the capacity exchange ----------

  /** At most one answer, a token the Verifier gave. */
  ghost predicate AnswerOf(env: CapacityEnv, answer: seq<PepStep>) {
    || answer == []
    || (|answer| == 1 && answer[0].ReceiveStep? && exists req :: env.ask(req) == Some(answer[0].tok))
  }

  lemma AskIsRun(cfg: PepConfig, n: Node, env: CapacityEnv) returns (prepare: PepStep, answer: seq<PepStep>)
    ensures PepFrom(cfg, PepFrom(cfg, Resting(n), [prepare]), answer) == Resting(AskVerifier(cfg, n, env).0)
    ensures prepare.PrepareStep? && AnswerOf(env, answer)
  {
    hide PrepareCapacity, AcceptToken;
    prepare, answer := PrepareStep(env.requestedAt, env.builtAt, env.pendingWritable), [];
    FromOne(cfg, Resting(n), prepare);
    var (asked, ev) := PrepareCapacity(cfg, n, env.requestedAt, env.builtAt, env.pendingWritable);
    if ev.Some? && env.ask(RequestFor(cfg, ev.value)).Some? {
      var tok := env.ask(RequestFor(cfg, ev.value)).value;
      answer := [ReceiveStep(tok, env.validatedAt, env.acceptedAt, env.acceptedWritable)];
      FromOne(cfg, Resting(asked), answer[0]);
    }
  }

  /**
   A capacity exchange is a run: the cleanup and the request, and then, if the Verifier answered, the acceptance
   of its answer.
   */
  lemma ExchangeIsRun(cfg: PepConfig, n: Node, order: seq<Session>, env: CapacityEnv)
    returns (asking: seq<PepStep>, answer: seq<PepStep>)
    requires Collected(cfg, n.mem, order, env.now)
    ensures PepFrom(cfg, Resting(n), asking + answer) == Resting(Exchange(cfg, n, order, env).0)
    ensures Asking(asking) && AnswerOf(env, answer)
  {
    hide DeleteAll, AskVerifier, Collected, PepFrom;
    asking := CleanupIsRun(cfg, n, order, env.now, env.deletes);
    answer := [];
    var (cleaned, ok) := DeleteAll(cfg, n, order, env.deletes);
    if ok {
      var prepare;
      prepare, answer := AskIsRun(cfg, cleaned, env);
      FromConcat(cfg, Resting(n), asking, [prepare]);
      asking := asking + [prepare];
      FromConcat(cfg, Resting(n), asking, answer);
    } else {
      assert asking + answer == asking;
    }
  }

  // ---------- what the methods keep ----------

  lemma {:induction false} FromKeeps(cfg: PepConfig, l: Local, steps: seq<PepStep>)
    requires LocalInvariant(cfg, l)
    requires forall i :: 0 <= i < |steps| ==> !steps[i].FinishApplyStep?
    ensures LocalInvariant(cfg, PepFrom(cfg, l, steps))
    decreases |steps|
  {
    hide PepNext, LocalInvariant;
    if steps != [] {
      var n := |steps| - 1;
      FromKeeps(cfg, l, steps[..n]);
      PepStepKeeps(cfg, PepFrom(cfg, l, steps[..n]), steps[n]);
    }
  }

  /** Activating a session keeps table and log together, on disk and in memory, if its SPI and key are its own. */
  lemma ActivateKeepsFiles(cfg: PepConfig, n: Node, s: Session, env: ApplyEnv)
    requires LocalInvariant(cfg, Resting(n)) && Unclaimed(n.mem.sessions, s)
    ensures LocalInvariant(cfg, Resting(ApplyTransaction(cfg, n, s, env).0))
  {
    hide LocalInvariant, Append, MeetsLocalProfile, ObservedMeta, IntentMeta, Unclaimed;
    ApplyIsRun(cfg, n, s, env);
    var steps, l0 := ApplySteps(s, env), Resting(n);
    PepStepKeeps(cfg, l0, steps[0]);
    var l1 := PepNext(cfg, l0, steps[0]);
    PepStepKeeps(cfg, l1, steps[1]);
    if env.installed {
      FromThree(cfg, l0, steps[0], steps[1], steps[2]);
      assert steps == [steps[0], steps[1], steps[2]];
      PepStepKeeps(cfg, PepNext(cfg, l1, steps[1]), steps[2]);
    } else {
      FromThree(cfg, l0, steps[0], steps[1], steps[1]);
      assert steps == [steps[0], steps[1]];
    }
  }

  /** So does everything a capacity exchange does. */
  lemma ExchangeKeepsFiles(cfg: PepConfig, n: Node, order: seq<Session>, env: CapacityEnv)
    requires LocalInvariant(cfg, Resting(n)) && Collected(cfg, n.mem, order, env.now)
    ensures LocalInvariant(cfg, Resting(Exchange(cfg, n, order, env).0))
  {
    hide LocalInvariant, Collected, Exchange;
    var asking, answer := ExchangeIsRun(cfg, n, order, env);
    FromKeeps(cfg, Resting(n), asking + answer);
  }

  // ---------- against the Verifier ----------

  function Moves(steps: seq<PepStep>): seq<WorldStep> {
    seq(|steps|, i requires 0 <= i < |steps| => PepMoves(steps[i]))
  }

  /** A run of PEP steps is a run of the world in which nothing else moves, if its tokens were granted. */
  lemma {:induction false} RunInWorld(c: Setup, before: seq<WorldStep>, steps: seq<PepStep>)
    requires forall i :: 0 <= i < |steps| && steps[i].ReceiveStep? ==>
        Handed(WorldRun(c, before).server.granted, steps[i].tok)
    ensures WorldRun(c, before + Moves(steps)) ==
            WorldRun(c, before).(local := PepFrom(c.pep, WorldRun(c, before).local, steps))
    decreases |steps|
  {
    hide PepNext;
    if steps == [] {
      assert before + Moves(steps) == before;
    } else {
      var n := |steps| - 1;
      RunInWorld(c, before, steps[..n]);
      assert (before + Moves(steps))[..|before| + n] == before + Moves(steps[..n]);
    }
  }

  lemma {:induction false} OthersLeavePep(c: Setup, before: seq<WorldStep>, others: seq<WorldStep>)
    requires forall i :: 0 <= i < |others| ==> !others[i].PepMoves?
    ensures WorldRun(c, before + others).local == WorldRun(c, before).local
    decreases |others|
  {
    hide Deliverable;
    if others == [] {
      assert before + others == before;
    } else {
      var n := |others| - 1;
      OthersLeavePep(c, before, others[..n]);
      assert (before + others)[..|before| + n] == before + others[..n];
    }
  }

  /**
   A whole capacity exchange in the world: the PEP asks, messages travel and the Verifier works, the PEP accepts
   a token that was granted.  It is one more run, so agreement and conservation hold after it.
   */
  lemma ExchangeInWorld(c: Setup, before: seq<WorldStep>, order: seq<Session>, env: CapacityEnv,
                        asking: seq<PepStep>, others: seq<WorldStep>, answer: seq<PepStep>)
    requires var w := WorldRun(c, before);
      && w.local.up && w.local.txn.Idle?
      && PepFrom(c.pep, w.local, asking + answer) == Resting(Exchange(c.pep, w.local.node, order, env).0)
    requires Asking(asking)
    requires forall i :: 0 <= i < |others| ==> !others[i].PepMoves?
    requires forall i :: 0 <= i < |answer| && answer[i].ReceiveStep? ==>
      Handed(WorldRun(c, before + Moves(asking) + others).server.granted, answer[i].tok)
    ensures var w := WorldRun(c, before + Moves(asking) + others + Moves(answer));
      var vc, log := VerifierCheckpoint(c, w.server), AcceptedLog(c, w.server);
      && w.local == Resting(Exchange(c.pep, WorldRun(c, before).local.node, order, env).0)
      && Agrees(c, w.local.node.mem, vc)
      && BaseIndex(vc) <= |w.local.node.mem.history.events| && log == w.local.node.mem.history.events[..BaseIndex(vc)]
  {
    hide Exchange, WorldRun, PepNext, Agrees, AcceptedLog;
    RunInWorld(c, before, asking);
    OthersLeavePep(c, before + Moves(asking), others);
    RunInWorld(c, before + Moves(asking) + others, answer);
    FromConcat(c.pep, WorldRun(c, before).local, asking, answer);
    var steps := before + Moves(asking) + others + Moves(answer);
    AuthorityAgreement(c, steps);
    EventsAreConserved(c, steps);
  }

  // ---------- what a table keyed by SPI collects ----------

  lemma CollectedFromTable(cfg: PepConfig, st: PepState, order: seq<Session>, clock: int)
    requires KeyedBySPI(st.sessions) && NoRepeats(order)
    requires forall s :: s in order ==> s in st.sessions.Values && Lapsed(cfg, s, clock)
    ensures Collected(cfg, st, order, clock)
  {
    forall i | 0 <= i < |order| ensures Tabled(st, order[i]) {
      assert order[i] in st.sessions.Values;
    }
  }

  /** In every run the table, in memory and on disk, is keyed by SPI. */
  ghost predicate Keyed(l: Local) {
    && KeyedBySPI(l.node.mem.sessions)
    && (l.node.disk.Some? ==> KeyedBySPI(l.node.disk.value.state.sessions))
  }

  lemma StepKeyed(cfg: PepConfig, l: Local, step: PepStep)
    requires Keyed(l)
    ensures Keyed(PepNext(cfg, l, step))
  {
    hide Append, MeetsLocalProfile, ObservedMeta, IntentMeta, Lapsed, Build, TokenValid, Mark, AcceptedMeta, JoinComma,
      ChainInvariant;
  }

  lemma {:induction false} RunKeyed(cfg: PepConfig, steps: seq<PepStep>)
    ensures Keyed(PepRun(cfg, steps))
    decreases |steps|
  {
    hide PepNext;
    if steps != [] {
      RunKeyed(cfg, steps[..|steps| - 1]);
      StepKeyed(cfg, PepRun(cfg, steps[..|steps| - 1]), steps[|steps| - 1]);
    }
  }

  /** So what the exchange of a process at rest does, after any run, continues the run. */
  lemma ExchangeContinuesRun(cfg: PepConfig, steps: seq<PepStep>, order: seq<Session>, env: CapacityEnv)
    returns (more: seq<PepStep>)
    requires var l := PepRun(cfg, steps);
      && l.up && l.txn.Idle?
      && (KeyedBySPI(l.node.mem.sessions) ==> NoRepeats(order))
      && forall s :: s in order ==> s in l.node.mem.sessions.Values && Lapsed(cfg, s, env.now)
    ensures PepRun(cfg, steps + more) == Resting(Exchange(cfg, PepRun(cfg, steps).node, order, env).0)
  {
    hide Exchange, PepFrom, Lapsed, NoRepeats, Collected;
    var l := PepRun(cfg, steps);
    RunKeyed(cfg, steps);
    CollectedFromTable(cfg, l.node.mem, order, env.now);
    var asking, answer := ExchangeIsRun(cfg, l.node, order, env);
    more := asking + answer;
    FromConcat(cfg, DOWN, steps, more);
  }
}
