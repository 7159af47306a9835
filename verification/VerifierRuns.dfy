/**
 The capacity handler under concurrency, failed writes and restarts.  A run interleaves the two critical
 sections of any number of requests; the judgement between them touches no shared state and is placed at
 the second.
 */
module VerifierRuns {
  import opened Wrappers
  import opened Protocol
  import opened Attest
  import opened Tokens
  import opened Policy
  import opened Lifecycle
  import opened Verifier

  /** A commit, in the order commits happened. */
  datatype CommitRecord = CommitRecord(req: CapacityRequest, now: int, tok: Token)

  datatype Server = Server(
    memory: VerifierState,
    disk: VerifierState,
    flights: map<nat, Flight>,
    commits: seq<CommitRecord>,
    granted: seq<Token>)

  datatype ServerStep =
    | BeginStep(id: nat, req: CapacityRequest)
    | FinishStep(id: nat, now: int, saved: bool)
    | Restart

  const FRESH_SERVER := Server(EMPTY_STATE, EMPTY_STATE, map[], [], [])

  /** The server after a step, and what it answers the client, if anything. */
  ghost function ServerNext(p: Primitives, cfg: VerifierConfig, s: Server, step: ServerStep)
    : (Server, Option<Response>)
  {
    match step
    case BeginStep(id, req) =>
      if id in s.flights then (s, None)
      else
        (match Begin(p, cfg, s.memory, req)
         case Answered(r) => (Answer(s, r), Some(r))
         case Flying(f) => (s.(flights := s.flights[id := f]), None))
    case FinishStep(id, now, saved) =>
      if id !in s.flights || s.flights[id].req.history.None? then (s, None)
      else
        var f := s.flights[id];
        var done := Finish(p, cfg, s.memory, f, now, saved);
        var s' := s.(memory := done.st, flights := s.flights - {id});
        if done.committed
        then (Answer(s'.(disk := done.st, commits := s.commits + [CommitRecord(f.req, now, done.response.tok)]),
                     done.response),
              Some(done.response))
        else (Answer(s', done.response), Some(done.response))
    case Restart => (s.(memory := s.disk, flights := map[]), None)
  }

  function Answer(s: Server, r: Response): Server {
    if r.Granted? then s.(granted := s.granted + [r.tok]) else s
  }

  ghost function ServerRun(p: Primitives, cfg: VerifierConfig, steps: seq<ServerStep>): Server {
    if steps == [] then FRESH_SERVER
    else ServerNext(p, cfg, ServerRun(p, cfg, steps[..|steps| - 1]), steps[|steps| - 1]).0
  }

  // ---------- the sequential history of a run ----------

  /** An atomic verifier that handles the committing requests one at a time. */
  ghost function Sequential(p: Primitives, cfg: VerifierConfig, commits: seq<CommitRecord>): VerifierState {
    if commits == [] then EMPTY_STATE
    else
      var last := commits[|commits| - 1];
      Atomic(p, cfg, Sequential(p, cfg, commits[..|commits| - 1]), last.req, last.now, true).st
  }

  /** Each committing request would have been granted the very same token by the atomic verifier. */
  ghost predicate SequentialAnswers(p: Primitives, cfg: VerifierConfig, commits: seq<CommitRecord>) {
    forall i :: 0 <= i < |commits| ==>
      Atomic(p, cfg, Sequential(p, cfg, commits[..i]), commits[i].req, commits[i].now, true).response
        == Granted(commits[i].tok)
  }

  /** The commits of one PEP. */
  function ByPep(commits: seq<CommitRecord>, pep: string): seq<CommitRecord> {
    if commits == [] then []
    else
      var n := |commits| - 1;
      ByPep(commits[..n], pep) + if commits[n].req.pepID == pep then [commits[n]] else []
  }

  ghost predicate WellScreened(cfg: VerifierConfig, commits: seq<CommitRecord>) {
    forall i :: 0 <= i < |commits| ==> Screened(cfg, commits[i].req)
  }

  /** What one PEP had accepted, delta by delta. */
  function AcceptedDeltas(commits: seq<CommitRecord>): seq<Evidence> {
    if commits == [] then []
    else
      var last := commits[|commits| - 1];
      AcceptedDeltas(commits[..|commits| - 1]) + if last.req.history.Some? then [last.req.history.value] else []
  }

  function Appraisals(p: Primitives, cfg: VerifierConfig, commits: seq<CommitRecord>): seq<Appraisal> {
    if commits == [] then []
    else
      var last := commits[|commits| - 1];
      Appraisals(p, cfg, commits[..|commits| - 1])
      + if last.req.history.Some? then [Appraisal(ContextOf(p, cfg, last.req), last.req.history.value)] else []
  }

  // ---------- the invariant ----------

  /**
   The copies a flight carries are still current whenever the checkpoint it saw is: checkpoints of a PEP
   only ever move to higher epochs.
   */
  ghost predicate FlightCurrent(cfg: VerifierConfig, st: VerifierState, f: Flight) {
    && Screened(cfg, f.req)
    && (f.previous.Some? ==>
          var now := CheckpointOf(st, f.req.pepID);
          now.Some? && f.previous.value.epoch <= now.value.epoch
          && (now.value.epoch == f.previous.value.epoch ==> now == f.previous))
    && (CheckpointOf(st, f.req.pepID) == f.previous ==> ActiveOf(st, f.req.pepID) == f.active)
  }

  ghost predicate FlightsCurrent(cfg: VerifierConfig, s: Server) {
    forall id :: id in s.flights ==> FlightCurrent(cfg, s.memory, s.flights[id])
  }

  /** One PEP's entry summarises exactly the deltas accepted from it. */
  ghost predicate EntryOf(p: Primitives, cfg: VerifierConfig, st: VerifierState, commits: seq<CommitRecord>,
                          pep: string)
  {
    var mine := ByPep(commits, pep);
    && (mine != [] ==> pep in cfg.enrolled && AcceptedRun(p, pep, cfg.enrolled[pep], AcceptedDeltas(mine)))
    && CheckpointOf(st, pep) == LatestCheckpoint(AcceptedDeltas(mine))
    && FinalActive(Appraisals(p, cfg, mine)) == Some(ActiveOf(st, pep))
  }

  ghost predicate ServerInvariant(p: Primitives, cfg: VerifierConfig, s: Server) {
    && s.memory == s.disk
    && TokensBound(p, s.memory)
    && FlightsCurrent(cfg, s)
    && WellScreened(cfg, s.commits)
    && s.memory == Sequential(p, cfg, s.commits)
    && SequentialAnswers(p, cfg, s.commits)
    && forall pep :: EntryOf(p, cfg, s.memory, s.commits, pep)
  }

  // ---------- every step keeps it ----------

  lemma BeginKeepsInvariant(p: Primitives, cfg: VerifierConfig, s: Server, id: nat, req: CapacityRequest)
    requires ServerInvariant(p, cfg, s)
    ensures ServerInvariant(p, cfg, ServerNext(p, cfg, s, BeginStep(id, req)).0)
  {
    hide EntryOf, TokensBound, Sequential, SequentialAnswers, WellScreened, Screen, IsRetry;
    if Screen(cfg, req).Success? {
      ScreenIdempotent(cfg, req);
      ScreenKeepsHistory(cfg, req);
    }
  }

  lemma ScreenKeepsHistory(cfg: VerifierConfig, req: CapacityRequest)
    requires Screen(cfg, req).Success?
    ensures Screen(cfg, req).value.history == req.history && req.history.Some?
    ensures Screen(cfg, req).value.pepID == req.pepID && req.pepID in cfg.enrolled
    ensures Screen(cfg, req).value.pepSigningPubKey == cfg.enrolled[req.pepID]
  {
  }

  /** A committing flight's request, handled atomically in the current state, does the same. */
  lemma CommitIsAtomic(p: Primitives, cfg: VerifierConfig, st: VerifierState, f: Flight, now: int, saved: bool)
    requires FlightCurrent(cfg, st, f) && Finish(p, cfg, st, f, now, saved).committed
    ensures Begin(p, cfg, st, f.req) == Flying(f)
    ensures Atomic(p, cfg, st, f.req, now, true) == Finish(p, cfg, st, f, now, saved)
  {
    hide Appraise, Chained, Screen, VerifyCapacityToken;
    var v := CommittedFinish(p, cfg, st, f, now, saved);
    if f.previous.Some? {
      assert f.req.history.value.checkpoint.epoch == f.previous.value.epoch + 1;
      assert !IsRetry(p, cfg, f.req, f.previous.value, TokenOf(st, f.req.pepID));
    }
    assert Begin(p, cfg, st, f.req) == Flying(f);
  }

  lemma CommitAdvancesEpoch(p: Primitives, cfg: VerifierConfig, st: VerifierState, f: Flight, now: int, saved: bool)
    requires f.req.history.Some? && Finish(p, cfg, st, f, now, saved).committed
    ensures var st' := Finish(p, cfg, st, f, now, saved).st;
      && CheckpointOf(st', f.req.pepID) == Some(f.req.history.value.checkpoint)
      && f.req.history.value.checkpoint.epoch == BaseEpoch(CheckpointOf(st, f.req.pepID)) + 1
      && forall pep :: pep != f.req.pepID ==>
           CheckpointOf(st', pep) == CheckpointOf(st, pep) && ActiveOf(st', pep) == ActiveOf(st, pep)
  {
    hide Appraise, Chained, IsRetry, Finish;
    var v := CommittedFinish(p, cfg, st, f, now, saved);
  }

  lemma CommitKeepsFlights(p: Primitives, cfg: VerifierConfig, st: VerifierState, f: Flight, now: int, saved: bool,
                           g: Flight)
    requires f.req.history.Some? && Finish(p, cfg, st, f, now, saved).committed
    requires FlightCurrent(cfg, st, g)
    ensures FlightCurrent(cfg, Finish(p, cfg, st, f, now, saved).st, g)
  {
    hide Finish, Screen;
    CommitAdvancesEpoch(p, cfg, st, f, now, saved);
  }

  lemma CommitExtendsEntry(p: Primitives, cfg: VerifierConfig, st: VerifierState, commits: seq<CommitRecord>, f: Flight,
                           now: int, saved: bool, tok: Token, pep: string)
    requires FlightCurrent(cfg, st, f) && Finish(p, cfg, st, f, now, saved).committed
    requires EntryOf(p, cfg, st, commits, pep)
    ensures EntryOf(p, cfg, Finish(p, cfg, st, f, now, saved).st, commits + [CommitRecord(f.req, now, tok)], pep)
  {
    hide Appraise, Chained, IsRetry, Finish, Screen, ValidEvidence, AcceptedRun, FinalActive, AcceptedDeltas,
      Appraisals;
    var r := CommitRecord(f.req, now, tok);
    assert (commits + [r])[..|commits|] == commits;
    CommitAdvancesEpoch(p, cfg, st, f, now, saved);
    if pep == f.req.pepID {
      OwnEntryExtends(p, cfg, st, ByPep(commits, pep), f, now, saved, r);
    } else {
      assert ByPep(commits + [r], pep) == ByPep(commits, pep);
    }
  }

  /** The entry of the committing PEP, `mine` being its earlier commits. */
  lemma OwnEntryExtends(p: Primitives, cfg: VerifierConfig, st: VerifierState, mine: seq<CommitRecord>, f: Flight,
                        now: int, saved: bool, r: CommitRecord)
    requires FlightCurrent(cfg, st, f) && Finish(p, cfg, st, f, now, saved).committed && r.req == f.req
    requires mine != [] ==>
        f.req.pepID in cfg.enrolled && AcceptedRun(p, f.req.pepID, cfg.enrolled[f.req.pepID], AcceptedDeltas(mine))
    requires CheckpointOf(st, f.req.pepID) == LatestCheckpoint(AcceptedDeltas(mine))
    requires FinalActive(Appraisals(p, cfg, mine)) == Some(ActiveOf(st, f.req.pepID))
    ensures f.req.pepID in cfg.enrolled
    ensures AcceptedRun(p, f.req.pepID, cfg.enrolled[f.req.pepID], AcceptedDeltas(mine + [r]))
    ensures var st' := Finish(p, cfg, st, f, now, saved).st;
      && CheckpointOf(st', f.req.pepID) == LatestCheckpoint(AcceptedDeltas(mine + [r]))
      && FinalActive(Appraisals(p, cfg, mine + [r])) == Some(ActiveOf(st', f.req.pepID))
  {
    hide Appraise, Chained, IsRetry, Finish, Screen, ValidEvidence;
    hide AcceptedDeltas, Appraisals, AcceptedRun, FinalActive, FlightCurrent;
    FlightScreened(cfg, st, f);
    var v := CommittedFinish(p, cfg, st, f, now, saved);
    ScreenKeepsHistory(cfg, f.req);
    var ev := f.req.history.value;
    OneMoreDelta(p, cfg, mine, r);
    NoCommitsNoDeltas(p, cfg);
    EmptyRun(p, f.req.pepID, cfg.enrolled[f.req.pepID]);
    RunExtends(p, f.req.pepID, cfg.enrolled[f.req.pepID], AcceptedDeltas(mine), ev);
    OwnActive(p, cfg, st, mine, f, v);
  }

  lemma OneMoreDelta(p: Primitives, cfg: VerifierConfig, mine: seq<CommitRecord>, r: CommitRecord)
    requires r.req.history.Some?
    ensures AcceptedDeltas(mine + [r]) == AcceptedDeltas(mine) + [r.req.history.value]
    ensures Appraisals(p, cfg, mine + [r])
            == Appraisals(p, cfg, mine) + [Appraisal(ContextOf(p, cfg, r.req), r.req.history.value)]
  {
    assert (mine + [r])[..|mine|] == mine;
  }

  lemma NoCommitsNoDeltas(p: Primitives, cfg: VerifierConfig)
    ensures AcceptedDeltas([]) == [] && Appraisals(p, cfg, []) == []
  {
  }

  lemma EmptyRun(p: Primitives, pep: string, pub: string)
    ensures AcceptedRun(p, pep, pub, [])
  {
  }

  /** The active sessions move on with the appraisal. */
  lemma OwnActive(p: Primitives, cfg: VerifierConfig, st: VerifierState, mine: seq<CommitRecord>, f: Flight, v: Verdict)
    requires FlightCurrent(cfg, st, f) && CheckpointOf(st, f.req.pepID) == f.previous && f.req.history.Some?
    requires Appraise(ContextOf(p, cfg, f.req), f.req.history.value, f.active) == Some(v.active)
    requires FinalActive(Appraisals(p, cfg, mine)) == Some(ActiveOf(st, f.req.pepID))
    ensures FinalActive(Appraisals(p, cfg, mine) + [Appraisal(ContextOf(p, cfg, f.req), f.req.history.value)])
            == Some(v.active)
  {
    hide Appraise, Appraisals, Screened, ContextOf;
    var earlier, a := Appraisals(p, cfg, mine), Appraisal(ContextOf(p, cfg, f.req), f.req.history.value);
    assert (earlier + [a])[..|earlier|] == earlier;
  }

  lemma RunExtends(p: Primitives, pep: string, pub: string, run: seq<Evidence>, ev: Evidence)
    requires AcceptedRun(p, pep, pub, run) && ValidEvidence(p, ev, pep, pub, LatestCheckpoint(run))
    ensures AcceptedRun(p, pep, pub, run + [ev])
  {
    hide ValidEvidence;
    var run' := run + [ev];
    forall i | 0 <= i < |run'| ensures ValidEvidence(p, run'[i], pep, pub, LatestCheckpoint(run'[..i])) {
      assert run'[..i] == run[..i];
      if i == |run| {
        assert run[..i] == run;
      }
    }
  }

  lemma FinishKeepsInvariant(p: Primitives, cfg: VerifierConfig, s: Server, id: nat, now: int, saved: bool)
    requires ServerInvariant(p, cfg, s)
    ensures ServerInvariant(p, cfg, ServerNext(p, cfg, s, FinishStep(id, now, saved)).0)
  {
    hide EntryOf, TokensBound, Finish, FlightCurrent, Atomic, Screened;
    if id in s.flights && s.flights[id].req.history.Some? {
      var f := s.flights[id];
      var s' := ServerNext(p, cfg, s, FinishStep(id, now, saved)).0;
      if Finish(p, cfg, s.memory, f, now, saved).committed {
        CommitKeepsInvariant(p, cfg, s, id, now, saved);
      } else {
        UncommittedFinish(p, cfg, s.memory, f, now, saved);
      }
    }
  }

  /** What a committing second section does to the server. */
  lemma CommitShape(p: Primitives, cfg: VerifierConfig, s: Server, id: nat, now: int, saved: bool)
    returns (r: CommitRecord)
    requires id in s.flights && s.flights[id].req.history.Some?
    requires Finish(p, cfg, s.memory, s.flights[id], now, saved).committed
    ensures var f := s.flights[id];
      var done := Finish(p, cfg, s.memory, f, now, saved);
      var s' := ServerNext(p, cfg, s, FinishStep(id, now, saved)).0;
      && r.req == f.req && r.now == now && done.response == Granted(r.tok)
      && s'.memory == s'.disk == done.st && s'.flights == s.flights - {id} && s'.commits == s.commits + [r]
  {
    hide Finish, ValidEvidence, Appraise;
    var v := CommittedFinish(p, cfg, s.memory, s.flights[id], now, saved);
    r := CommitRecord(s.flights[id].req, now, v.tok);
  }

  lemma FlightScreened(cfg: VerifierConfig, st: VerifierState, f: Flight)
    requires FlightCurrent(cfg, st, f)
    ensures Screened(cfg, f.req)
  {
  }

  lemma CommitKeepsInvariant(p: Primitives, cfg: VerifierConfig, s: Server, id: nat, now: int, saved: bool)
    requires ServerInvariant(p, cfg, s)
    requires id in s.flights && s.flights[id].req.history.Some?
    requires Finish(p, cfg, s.memory, s.flights[id], now, saved).committed
    ensures ServerInvariant(p, cfg, ServerNext(p, cfg, s, FinishStep(id, now, saved)).0)
  {
    hide EntryOf, TokensBound, Finish, Atomic, Screened, FlightCurrent, Sequential, SequentialAnswers, ServerNext;
    var f := s.flights[id];
    FlightScreened(cfg, s.memory, f);
    var s' := ServerNext(p, cfg, s, FinishStep(id, now, saved)).0;
    var r := CommitShape(p, cfg, s, id, now, saved);
    FinishKeepsBinding(p, cfg, s.memory, f, now, saved);
    CommitIsAtomic(p, cfg, s.memory, f, now, saved);
    SequentialExtends(p, cfg, s.commits, r);
    forall i | i in s'.flights ensures FlightCurrent(cfg, s'.memory, s'.flights[i]) {
      CommitKeepsFlights(p, cfg, s.memory, f, now, saved, s.flights[i]);
    }
    forall pep ensures EntryOf(p, cfg, s'.memory, s'.commits, pep) {
      CommitExtendsEntry(p, cfg, s.memory, s.commits, f, now, saved, r.tok, pep);
    }
  }

  lemma SequentialExtends(p: Primitives, cfg: VerifierConfig, commits: seq<CommitRecord>, r: CommitRecord)
    requires SequentialAnswers(p, cfg, commits)
    requires Atomic(p, cfg, Sequential(p, cfg, commits), r.req, r.now, true).response == Granted(r.tok)
    ensures SequentialAnswers(p, cfg, commits + [r])
    ensures Sequential(p, cfg, commits + [r]) == Atomic(p, cfg, Sequential(p, cfg, commits), r.req, r.now, true).st
  {
    hide Atomic;
    var commits' := commits + [r];
    assert commits'[..|commits|] == commits;
    forall i | 0 <= i < |commits'|
      ensures Atomic(p, cfg, Sequential(p, cfg, commits'[..i]), commits'[i].req, commits'[i].now, true).response
              == Granted(commits'[i].tok)
    {
      assert i < |commits| ==> commits'[..i] == commits[..i];
    }
  }

  lemma ServerStepKeepsInvariant(p: Primitives, cfg: VerifierConfig, s: Server, step: ServerStep)
    requires ServerInvariant(p, cfg, s)
    ensures ServerInvariant(p, cfg, ServerNext(p, cfg, s, step).0)
  {
    hide EntryOf, TokensBound, Finish, FlightCurrent, Atomic, Begin, Sequential, SequentialAnswers;
    match step
    case BeginStep(id, req) => BeginKeepsInvariant(p, cfg, s, id, req);
    case FinishStep(id, now, saved) => FinishKeepsInvariant(p, cfg, s, id, now, saved);
    case Restart =>
  }

  /**
   Linearizability: after any interleaving of critical sections, failed writes and restarts, memory and disk
   equal the state of an atomic verifier that handled the committing requests one at a time, which would
   have issued the same tokens; and every PEP's entry is the outcome of its own commits alone.
   */
  lemma {:induction false} Linearizable(p: Primitives, cfg: VerifierConfig, steps: seq<ServerStep>)
    ensures ServerInvariant(p, cfg, ServerRun(p, cfg, steps))
  {
    hide ServerInvariant, ServerNext;
    if steps == [] {
      FreshServerInvariant(p, cfg);
    } else {
      var before := steps[..|steps| - 1];
      Linearizable(p, cfg, before);
      ServerStepKeepsInvariant(p, cfg, ServerRun(p, cfg, before), steps[|steps| - 1]);
    }
  }

  lemma FreshServerInvariant(p: Primitives, cfg: VerifierConfig)
    ensures ServerInvariant(p, cfg, FRESH_SERVER)
  {
  }

  // ---------- what a client sees ----------

  ghost predicate OnDisk(p: Primitives, s: Server, tok: Token) {
    && tok.pepID in s.disk.checkpoints && tok.pepID in s.disk.lastTokens
    && s.disk.lastTokens[tok.pepID] == tok
    && Binds(p, tok, s.disk.checkpoints[tok.pepID], tok.pepID)
  }

  /** What the atomic verifier would have answered in the state before the step. */
  ghost predicate AtomicAnswer(p: Primitives, cfg: VerifierConfig, s: Server, step: ServerStep, tok: Token) {
    match step
    case BeginStep(_, req) => forall now, saved :: Atomic(p, cfg, s.memory, req, now, saved).response == Granted(tok)
    case FinishStep(id, now, saved) =>
      id in s.flights && Atomic(p, cfg, s.memory, s.flights[id].req, now, saved).response == Granted(tok)
    case Restart => false
  }

  /**
   A token reaches a client only when it is on disk, bound there to the hash and epoch of the checkpoint on
   disk; and it is what the atomic verifier would have answered that request at that moment.
   */
  lemma GrantedIsDurable(p: Primitives, cfg: VerifierConfig, steps: seq<ServerStep>, step: ServerStep, tok: Token)
    requires ServerNext(p, cfg, ServerRun(p, cfg, steps), step).1 == Some(Granted(tok))
    ensures OnDisk(p, ServerNext(p, cfg, ServerRun(p, cfg, steps), step).0, tok)
    ensures AtomicAnswer(p, cfg, ServerRun(p, cfg, steps), step, tok)
  {
    hide ServerNext, ServerInvariant, OnDisk, AtomicAnswer;
    var s := ServerRun(p, cfg, steps);
    Linearizable(p, cfg, steps);
    match step
    case BeginStep(id, req) => BeginGrantIsDurable(p, cfg, s, id, req, tok);
    case FinishStep(id, now, saved) => FinishGrantIsDurable(p, cfg, s, id, now, saved, tok);
    case Restart => RestartIsSilent(p, cfg, s);
  }

  lemma RestartIsSilent(p: Primitives, cfg: VerifierConfig, s: Server)
    ensures ServerNext(p, cfg, s, Restart).1.None?
  {
  }

  lemma BeginGrantIsDurable(p: Primitives, cfg: VerifierConfig, s: Server, id: nat, req: CapacityRequest, tok: Token)
    requires ServerInvariant(p, cfg, s) && ServerNext(p, cfg, s, BeginStep(id, req)).1 == Some(Granted(tok))
    ensures OnDisk(p, ServerNext(p, cfg, s, BeginStep(id, req)).0, tok)
    ensures AtomicAnswer(p, cfg, s, BeginStep(id, req), tok)
  {
    hide Finish, EntryOf, Sequential, SequentialAnswers, Screen, IsRetry, FlightsCurrent, WellScreened;
    assert Begin(p, cfg, s.memory, req) == Answered(Granted(tok));
    assert tok == TokenOf(s.memory, Screen(cfg, req).value.pepID);
  }

  lemma FinishGrantIsDurable(p: Primitives, cfg: VerifierConfig, s: Server, id: nat, now: int, saved: bool, tok: Token)
    requires ServerInvariant(p, cfg, s) && ServerNext(p, cfg, s, FinishStep(id, now, saved)).1 == Some(Granted(tok))
    ensures OnDisk(p, ServerNext(p, cfg, s, FinishStep(id, now, saved)).0, tok)
    ensures AtomicAnswer(p, cfg, s, FinishStep(id, now, saved), tok)
  {
    hide Finish, EntryOf, Sequential, SequentialAnswers, Screen, IsRetry, WellScreened, ValidEvidence;
    var f := s.flights[id];
    assert FlightCurrent(cfg, s.memory, f);
    FinishKeepsBinding(p, cfg, s.memory, f, now, saved);
    if Finish(p, cfg, s.memory, f, now, saved).committed {
      CommitIsAtomic(p, cfg, s.memory, f, now, saved);
      SavedWhenCommitted(p, cfg, s.memory, f, now, saved);
      var v := CommittedFinish(p, cfg, s.memory, f, now, saved);
    } else {
      UncommittedFinish(p, cfg, s.memory, f, now, saved);
    }
  }

  lemma SavedWhenCommitted(p: Primitives, cfg: VerifierConfig, st: VerifierState, f: Flight, now: int, saved: bool)
    requires f.req.history.Some? && Finish(p, cfg, st, f, now, saved).committed
    ensures saved
  {
    hide ValidEvidence, Appraise, IsRetry;
  }

  /** Whatever was submitted, by anyone: each session key of each PEP has only ever lived complete lives. */
  lemma ServerLives(p: Primitives, cfg: VerifierConfig, steps: seq<ServerStep>, pep: string, k: string)
    ensures var s := ServerRun(p, cfg, steps);
      KeyHistory(Project(DeltaEvents(Appraisals(p, cfg, ByPep(s.commits, pep))), k), Lookup(ActiveOf(s.memory, pep), k))
  {
    hide FinalActive, KeyHistory, Project, ServerRun, TokensBound, FlightsCurrent, Sequential, SequentialAnswers,
      WellScreened;
    var s := ServerRun(p, cfg, steps);
    Linearizable(p, cfg, steps);
    assert EntryOf(p, cfg, s.memory, s.commits, pep);
    AcceptedHistoriesAreLives(Appraisals(p, cfg, ByPep(s.commits, pep)));
  }
}
