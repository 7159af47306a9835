/**
 What impostors achieve: nothing, as long as every checkpoint accepted under the PEP's name is written as the PEP
 wrote it; and from the first that is not, that the PEP and the Verifier part.
 */
module Impostors {
  import opened Wrappers
  import opened Protocol
  import opened Text
  import opened Attest
  import opened Tokens
  import opened History
  import opened Policy
  import opened Lifecycle
  import opened Verifier
  import opened VerifierRuns
  import opened Pep
  import opened Authority
  import opened SealedRuns
  import opened Completeness
  import opened OpenNetwork

  // ---------- as long as checkpoints are taken as sent ----------

  lemma OneMore(c: Setup, steps: seq<WorldStep>, step: WorldStep)
    ensures WorldRun(c, steps + [step]) == WorldNext(c, WorldRun(c, steps), step)
  {
    hide WorldNext;
    assert (steps + [step])[..|steps|] == steps;
  }

  /** What is answered with the stored token carries the stored checkpoint. */
  lemma GrantIsStored(p: Primitives, cfg: VerifierConfig, st: VerifierState, req: CapacityRequest, tok: Token)
    requires Begin(p, cfg, st, req) == Answered(Granted(tok))
    ensures req.history.Some? && CheckpointOf(st, req.pepID) == Some(req.history.value.checkpoint)
  {
    hide Screen, VerifyCapacityToken, SameStrings;
    ScreenKeepsHistory(cfg, req);
  }

  lemma StoredAsSent(c: Setup, w: World)
    requires TakenAsSent(c, w) && ServerInvariant(c.pep.p, c.ver, w.server) && VerifierCheckpoint(c, w.server).Some?
    ensures SentAs(w.sent, VerifierCheckpoint(c, w.server).value)
  {
    hide TokensBound, FlightsCurrent, WellScreened, Sequential, SequentialAnswers, AcceptedRun, FinalActive,
      AcceptedDeltas, ByPep, SentAs;
    assert EntryOf(c.pep.p, c.ver, w.server.memory, w.server.commits, c.pep.pepID);
    assert Deltas(c, w.server) != [];
  }

  /** A token granted at once, or on the strength of a stored one, is granted to the genuine request too. */
  lemma GrantMirrored(c: Setup, steps: seq<WorldStep>, req: CapacityRequest, tok: Token) returns (more: seq<WorldStep>)
    requires var v := WorldRun(c, steps);
      && v.server.flights == map[] && Begin(c.pep.p, c.ver, v.server.memory, req) == Answered(Granted(tok))
      && (VerifierCheckpoint(c, v.server).Some? ==> SentAs(v.sent, VerifierCheckpoint(c, v.server).value))
    ensures var v := WorldRun(c, steps); WorldRun(c, more) == v.(server := Answer(v.server, Granted(tok)))
  {
    hide Screen, IsRetry, WorldRun, Begin;
    var v := WorldRun(c, steps);
    var g := Genuine(c, v.sent, req);
    GrantIsStored(c.pep.p, c.ver, v.server.memory, req, tok);
    assert SameClaim(req, g);
    assert Deliverable(c, v.sent, g);
    SameBegin(c.pep.p, c.ver, v.server.memory, req, g);
    var step := VerifierMoves(BeginStep(0, g));
    OneMore(c, steps, step);
    more := steps + [step];
  }

  lemma RetryMirrored(c: Setup, steps: seq<WorldStep>, st: VerifierState, f: Flight, tok: Token)
    returns (more: seq<WorldStep>)
    requires var v := WorldRun(c, steps);
      && v.server.flights == map[] && v.server.memory == st
      && (VerifierCheckpoint(c, v.server).Some? ==> SentAs(v.sent, VerifierCheckpoint(c, v.server).value))
    requires FlightCurrent(c.ver, st, f)
    requires var current := CheckpointOf(st, f.req.pepID);
      current.Some? && IsRetry(c.pep.p, c.ver, f.req, current.value, TokenOf(st, f.req.pepID))
      && tok == TokenOf(st, f.req.pepID)
    ensures var v := WorldRun(c, steps); WorldRun(c, more) == v.(server := Answer(v.server, Granted(tok)))
  {
    hide Screen, IsRetry, WorldRun, SentAs;
    assert Begin(c.pep.p, c.ver, st, f.req) == Answered(Granted(tok));
    more := GrantMirrored(c, steps, f.req, tok);
  }

  /** What a commit for this request leaves behind. */
  ghost predicate CommitEffects(c: Setup, s: Server, s': Server, done: Finished, req: CapacityRequest) {
    && req.history.Some? && done.response.Granted?
    && s'.memory == done.st && s'.granted == s.granted + [done.response.tok]
    && AcceptedLog(c, s') == AcceptedLog(c, s) + if req.pepID == c.pep.pepID then req.history.value.events else []
  }

  lemma CommitHas(c: Setup, s: Server, id: nat, now: int, saved: bool)
    requires id in s.flights && s.flights[id].req.history.Some?
    requires Finish(c.pep.p, c.ver, s.memory, s.flights[id], now, saved).committed
    ensures var s', f := ServerNext(c.pep.p, c.ver, s, FinishStep(id, now, saved)).0, s.flights[id];
      && CommitEffects(c, s, s', Finish(c.pep.p, c.ver, s.memory, f, now, saved), f.req)
      && s'.flights == s.flights - {id}
  {
    hide Finish, ValidEvidence, Appraise, AcceptedDeltas, ByPep, AllEvents;
    var f := s.flights[id];
    var v := CommittedFinish(c.pep.p, c.ver, s.memory, f, now, saved);
    LogOfCommits(c, s.commits, CommitRecord(f.req, now, v.tok));
  }

  /** A request that begins and finishes with nobody in between. */
  lemma HandledAtOnce(c: Setup, steps: seq<WorldStep>, g: Flight, now: int) returns (more: seq<WorldStep>)
    requires var v := WorldRun(c, steps);
      && v.server.flights == map[] && Deliverable(c, v.sent, g.req)
      && Begin(c.pep.p, c.ver, v.server.memory, g.req) == Flying(g) && g.req.history.Some?
      && Finish(c.pep.p, c.ver, v.server.memory, g, now, true).committed
    ensures var v, v' := WorldRun(c, steps), WorldRun(c, more);
      && v'.local == v.local && v'.sent == v.sent && v'.server.flights == map[]
      && CommitEffects(c, v.server, v'.server, Finish(c.pep.p, c.ver, v.server.memory, g, now, true), g.req)
  {
    hide Begin, Finish, WorldRun, Deliverable, CommitEffects, AcceptedDeltas, ByPep, AllEvents;
    var v := WorldRun(c, steps);
    var begin, finish := VerifierMoves(BeginStep(0, g.req)), VerifierMoves(FinishStep(0, now, true));
    OneMore(c, steps, begin);
    OneMore(c, steps + [begin], finish);
    more := steps + [begin] + [finish];
    var s1 := ServerNext(c.pep.p, c.ver, v.server, BeginStep(0, g.req)).0;
    assert s1 == v.server.(flights := map[0 := g]);
    CommitHas(c, s1, 0, now, true);
    SameLog(c, v.server, s1);
  }

  lemma SameLog(c: Setup, s: Server, s': Server)
    requires s'.commits == s.commits && s'.memory == s.memory && s'.granted == s.granted
    ensures forall t, done, req :: CommitEffects(c, s', t, done, req) ==> CommitEffects(c, s, t, done, req)
  {
    hide AcceptedDeltas, ByPep, AllEvents;
  }

  /** The genuine request of a flight that commits. */
  lemma GenuineAccepted(c: Setup, v: World, f: Flight, now: int) returns (g: Flight)
    requires CollisionFree(c.pep.p) && WorldInvariant(c, v) && Traceable(c.pep, v.local)
    requires FlightCurrent(c.ver, v.server.memory, f) && Finish(c.pep.p, c.ver, v.server.memory, f, now, true).committed
    requires f.req.pepID == c.pep.pepID ==> SentAs(v.sent, f.req.history.value.checkpoint)
    ensures Begin(c.pep.p, c.ver, v.server.memory, g.req) == Flying(g) && g.req.history.Some?
    ensures Deliverable(c, v.sent, g.req) && SameClaim(f.req, g.req)
    ensures Finish(c.pep.p, c.ver, v.server.memory, g, now, true)
            == Finish(c.pep.p, c.ver, v.server.memory, f, now, true)
    ensures SameEvents(f.req.history.value.events, g.req.history.value.events)
  {
    hide CollisionFree, WorldInvariant, Traceable, Finish, Begin, ValidEvidence, FlightCurrent, SameEvents;
    var p, st := c.pep.p, v.server.memory;
    FlightScreened(c.ver, st, f);
    CommitIsAtomic(p, c.ver, st, f, now, true);
    var verdict := CommittedFinish(p, c.ver, st, f, now, true);
    var req := Genuine(c, v.sent, f.req);
    g := f.(req := req);
    SameBegin(p, c.ver, st, f.req, req);
    if f.req.pepID == c.pep.pepID {
      AcceptedWasSent(c, v, f.req.pepSigningPubKey, f.req.history.value, req.history.value);
    } else {
      SameAsItself(f.req.history.value.events);
    }
    SameFinish(p, c.ver, st, f, g, now);
  }

  lemma SameAsItself(events: seq<Event>)
    ensures SameEvents(events, events)
  {
  }

  lemma ValidIsSigned(p: Primitives, ev: Evidence, pepID: string, pub: string, previous: Option<Checkpoint>)
    requires ValidEvidence(p, ev, pepID, pub, previous)
    ensures VerifyCheckpoint(p, ev.checkpoint, pub) && ev.checkpoint.epoch == BaseEpoch(previous) + 1
  {
  }

  lemma SameEventsJoin(a: seq<Event>, b: seq<Event>, a': seq<Event>, b': seq<Event>)
    requires SameEvents(a, b) && SameEvents(a', b')
    ensures SameEvents(a + a', b + b')
  {
    hide SameEvent;
    forall i | 0 <= i < |a + a'| ensures SameEvent((a + a')[i], (b + b')[i]) {
      if i >= |a| {
        assert SameEvent(a'[i - |a|], b'[i - |a|]);
      }
    }
  }

  lemma DeltasOfCommit(c: Setup, s: Server, id: nat, now: int, saved: bool)
    requires id in s.flights && s.flights[id].req.history.Some?
    requires Finish(c.pep.p, c.ver, s.memory, s.flights[id], now, saved).committed
    ensures var req := s.flights[id].req;
      Deltas(c, ServerNext(c.pep.p, c.ver, s, FinishStep(id, now, saved)).0)
      == Deltas(c, s) + if req.pepID == c.pep.pepID then [req.history.value] else []
  {
    hide Finish, ValidEvidence, Appraise;
    var f := s.flights[id];
    var v := CommittedFinish(c.pep.p, c.ver, s.memory, f, now, saved);
    var r, mine := CommitRecord(f.req, now, v.tok), ByPep(s.commits, c.pep.pepID);
    assert (s.commits + [r])[..|s.commits|] == s.commits;
    assert (mine + [r])[..|mine|] == mine;
    assert mine + [] == mine && AcceptedDeltas(mine) + [] == AcceptedDeltas(mine);
  }

  lemma TakenOneMore(c: Setup, w: World, id: nat, now: int, saved: bool)
    requires id in w.server.flights && w.server.flights[id].req.history.Some?
    requires Finish(c.pep.p, c.ver, w.server.memory, w.server.flights[id], now, saved).committed
    requires TakenAsSent(c, w)
    ensures var req := w.server.flights[id].req;
      TakenAsSent(c, OpenNetNext(c, w, VerifierMoves(FinishStep(id, now, saved))))
      <==> (req.pepID == c.pep.pepID ==> SentAs(w.sent, req.history.value.checkpoint))
  {
    hide Finish, ServerNext, Deltas, SentAs;
    var w' := OpenNetNext(c, w, VerifierMoves(FinishStep(id, now, saved)));
    DeltasOfCommit(c, w.server, id, now, saved);
    var n := |Deltas(c, w.server)|;
    assert forall i :: 0 <= i < n ==> Deltas(c, w'.server)[i] == Deltas(c, w.server)[i];
    if w.server.flights[id].req.pepID == c.pep.pepID {
      assert Deltas(c, w'.server)[n] == w.server.flights[id].req.history.value;
    }
  }

  /** The genuine request is handled at once and does what the flight's commit does. */
  lemma CommitMirrored(c: Setup, w: World, steps: seq<WorldStep>, id: nat, now: int, saved: bool)
    returns (more: seq<WorldStep>)
    requires CollisionFree(c.pep.p) && Mirrors(c, w, WorldRun(c, steps)) && OpenInvariant(c, w)
    requires id in w.server.flights && w.server.flights[id].req.history.Some?
    requires Finish(c.pep.p, c.ver, w.server.memory, w.server.flights[id], now, saved).committed
    requires var req := w.server.flights[id].req;
      req.pepID == c.pep.pepID ==> SentAs(w.sent, req.history.value.checkpoint)
    ensures Mirrors(c, OpenNetNext(c, w, VerifierMoves(FinishStep(id, now, saved))), WorldRun(c, more))
  {
    hide CollisionFree, Finish, WorldRun, Known, AcceptedLog, SameEvents, ServerNext, FlightCurrent, Deliverable, Begin,
      EntryOf, TokensBound, Sequential, SequentialAnswers, WellScreened, WorldInvariant, Traceable, SameClaim,
      TakenAsSent, GrantsCurrent, SentAs;
    var f, v := w.server.flights[id], WorldRun(c, steps);
    RunKeepsInvariant(c, steps);
    RunTraceable(c, steps);
    SavedWhenCommitted(c.pep.p, c.ver, w.server.memory, f, now, saved);
    var g := GenuineAccepted(c, v, f, now);
    more := HandledAtOnce(c, steps, g, now);
    CommitHas(c, w.server, id, now, saved);
    TakenOneMore(c, w, id, now, saved);
    SameClaimPep(f.req, g.req);
    SameAsItself([]);
    SameEventsJoin(AcceptedLog(c, w.server), AcceptedLog(c, v.server),
                   if f.req.pepID == c.pep.pepID then f.req.history.value.events else [],
                   if g.req.pepID == c.pep.pepID then g.req.history.value.events else []);
  }

  lemma SameClaimPep(a: CapacityRequest, b: CapacityRequest)
    requires SameClaim(a, b)
    ensures a.pepID == b.pepID
  {
  }

  // ---------- the parting of the two ----------

  /** The commit of a checkpoint whose signature is not written as the PEP wrote it. */
  lemma CommitParts(c: Setup, w: World, steps: seq<WorldStep>, id: nat, now: int, saved: bool)
    requires CollisionFree(c.pep.p) && Mirrors(c, w, WorldRun(c, steps)) && OpenInvariant(c, w)
    requires id in w.server.flights && w.server.flights[id].req.history.Some?
    requires Finish(c.pep.p, c.ver, w.server.memory, w.server.flights[id], now, saved).committed
    requires var req := w.server.flights[id].req;
      req.pepID == c.pep.pepID && !SentAs(w.sent, req.history.value.checkpoint)
    ensures Parted(c, OpenNetNext(c, w, VerifierMoves(FinishStep(id, now, saved))), WorldRun(c, steps))
  {
    hide CollisionFree, Finish, WorldRun, AcceptedLog, SameEvents, FlightCurrent, EntryOf, TokensBound,
      Sequential, SequentialAnswers, WellScreened, WorldInvariant, Traceable, GrantsCurrent, VerifyCheckpoint,
      ValidEvidence, TakenAsSent, ServerNext;
    var f, v := w.server.flights[id], WorldRun(c, steps);
    var claimed := f.req.history.value;
    RunKeepsInvariant(c, steps);
    RunTraceable(c, steps);
    var verdict := CommittedFinish(c.pep.p, c.ver, w.server.memory, f, now, saved);
    ValidIsSigned(c.pep.p, claimed, f.req.pepID, f.req.pepSigningPubKey, f.previous);
    assert Known(c, w.sent, f.req);
    var ev :| ev in w.sent && SameBody(ev.checkpoint, claimed.checkpoint);
    AcceptedWasSent(c, v, f.req.pepSigningPubKey, claimed, ev);
    CommitAdvancesEpoch(c.pep.p, c.ver, w.server.memory, f, now, saved);
    CommitHas(c, w.server, id, now, saved);
    SameEventsJoin(AcceptedLog(c, w.server), AcceptedLog(c, v.server), claimed.events, ev.events);
  }

  // ---------- steps while checkpoints are taken as sent ----------

  lemma UnverifiedIgnored(c: Setup, l: Local, tok: Token, now: int, now': int, writable: bool)
    requires !c.pep.p.verify(c.pep.verifierPubKey, SigningBody(tok), tok.signature)
    ensures PepNext(c.pep, l, ReceiveStep(tok, now, now', writable)) == l
  {
    hide Log, Mark, AcceptedMeta;
  }

  lemma SameTaken(c: Setup, w: World, w': World)
    requires TakenAsSent(c, w) && w'.server.commits == w.server.commits && w.sent <= w'.sent
    ensures TakenAsSent(c, w')
  {
    hide AcceptedDeltas, ByPep;
    forall i | 0 <= i < |Deltas(c, w'.server)| ensures SentAs(w'.sent, Deltas(c, w'.server)[i].checkpoint) {
      assert SentAs(w.sent, Deltas(c, w.server)[i].checkpoint);
    }
  }

  lemma PepMirrored(c: Setup, w: World, steps: seq<WorldStep>, step: WorldStep) returns (more: seq<WorldStep>)
    requires Mirrors(c, w, WorldRun(c, steps)) && !step.VerifierMoves?
    ensures Mirrors(c, OpenNetNext(c, w, step), WorldRun(c, more))
  {
    hide WorldRun, SameEvents, PepNext, AcceptedLog, TakenAsSent, Handed;
    var w' := OpenNetNext(c, w, step);
    SameTaken(c, w, w');
    more := steps;
    if step.PepMoves? && step.pepStep.ReceiveStep? && !Handed(w.server.granted, step.pepStep.tok) {
      if TokenUnforged(c, w.server.granted, step.pepStep.tok) {
        var s := step.pepStep;
        UnverifiedIgnored(c, w.local, s.tok, s.now, s.now', s.writable);
      }
    } else {
      OneMore(c, steps, step);
      more := steps + [step];
    }
  }

  lemma RestartMirrored(c: Setup, w: World, v: World)
    requires Mirrors(c, w, v) && w.server.memory == w.server.disk
    ensures Mirrors(c, OpenNetNext(c, w, VerifierMoves(Restart)), v)
  {
    hide SameEvents, AcceptedDeltas, ByPep, AllEvents;
    SameTaken(c, w, OpenNetNext(c, w, VerifierMoves(Restart)));
  }

  lemma BeginMirrored(c: Setup, w: World, steps: seq<WorldStep>, id: nat, req: CapacityRequest)
    returns (more: seq<WorldStep>)
    requires Mirrors(c, w, WorldRun(c, steps)) && ServerInvariant(c.pep.p, c.ver, w.server) && Unforged(c, w.sent, req)
    ensures Mirrors(c, OpenNetNext(c, w, VerifierMoves(BeginStep(id, req))), WorldRun(c, more))
  {
    hide WorldRun, SameEvents, AcceptedDeltas, ByPep, AllEvents, Unforged, TakenAsSent, ServerInvariant, SentAs, Begin;
    more := steps;
    var s, b := w.server, Begin(c.pep.p, c.ver, w.server.memory, req);
    SameTaken(c, w, OpenNetNext(c, w, VerifierMoves(BeginStep(id, req))));
    if id !in s.flights && b.Answered? && b.response.Granted? {
      if VerifierCheckpoint(c, s).Some? {
        StoredAsSent(c, w);
      }
      more := GrantMirrored(c, steps, req, b.response.tok);
    }
  }

  /** A second section keeps the worlds alike, or parts them. */
  lemma FinishMirrored(c: Setup, w: World, steps: seq<WorldStep>, id: nat, now: int, saved: bool)
    returns (more: seq<WorldStep>)
    requires CollisionFree(c.pep.p) && Mirrors(c, w, WorldRun(c, steps)) && OpenInvariant(c, w)
    ensures var w' := OpenNetNext(c, w, VerifierMoves(FinishStep(id, now, saved)));
      Mirrors(c, w', WorldRun(c, more)) || Parted(c, w', WorldRun(c, more))
  {
    hide CollisionFree, Mirrors, Parted, WorldRun, OpenInvariant, Finish, SentAs;
    more := steps;
    var s := w.server;
    if id in s.flights && s.flights[id].req.history.Some? {
      var f := s.flights[id];
      if !Finish(c.pep.p, c.ver, s.memory, f, now, saved).committed {
        more := AnswerMirrored(c, w, steps, id, now, saved);
      } else if f.req.pepID == c.pep.pepID && !SentAs(w.sent, f.req.history.value.checkpoint) {
        CommitParts(c, w, steps, id, now, saved);
      } else {
        more := CommitMirrored(c, w, steps, id, now, saved);
      }
    }
  }

  lemma AnswerMirrored(c: Setup, w: World, steps: seq<WorldStep>, id: nat, now: int, saved: bool)
    returns (more: seq<WorldStep>)
    requires Mirrors(c, w, WorldRun(c, steps)) && OpenInvariant(c, w)
    requires id in w.server.flights && w.server.flights[id].req.history.Some?
    requires !Finish(c.pep.p, c.ver, w.server.memory, w.server.flights[id], now, saved).committed
    ensures Mirrors(c, OpenNetNext(c, w, VerifierMoves(FinishStep(id, now, saved))), WorldRun(c, more))
  {
    hide Finish, WorldRun, SameEvents, FlightCurrent, EntryOf, TokensBound, Sequential, SequentialAnswers, SentAs,
      WellScreened, IsRetry, AcceptedDeltas, ByPep, AllEvents, TakenAsSent, FlightsKnown, GrantsCurrent;
    more := steps;
    var s, f := w.server, w.server.flights[id];
    var done := Finish(c.pep.p, c.ver, s.memory, f, now, saved);
    SameTaken(c, w, OpenNetNext(c, w, VerifierMoves(FinishStep(id, now, saved))));
    UncommittedFinish(c.pep.p, c.ver, s.memory, f, now, saved);
    if done.response.Granted? {
      if VerifierCheckpoint(c, s).Some? {
        StoredAsSent(c, w);
      }
      more := RetryMirrored(c, steps, s.memory, f, done.response.tok);
    }
  }

  lemma MirrorsStep(c: Setup, w: World, steps: seq<WorldStep>, step: WorldStep) returns (more: seq<WorldStep>)
    requires CollisionFree(c.pep.p) && OpenInvariant(c, w) && Mirrors(c, w, WorldRun(c, steps))
    ensures var w' := OpenNetNext(c, w, step); Mirrors(c, w', WorldRun(c, more)) || Parted(c, w', WorldRun(c, more))
  {
    hide CollisionFree, Mirrors, Parted, ServerInvariant, ServerNext, WorldNext, Unforged, TokenUnforged, WorldRun,
      FlightsKnown, GrantsCurrent;
    more := steps;
    match step {
      case VerifierMoves(BeginStep(id, req)) =>
        if Unforged(c, w.sent, req) {
          more := BeginMirrored(c, w, steps, id, req);
        }
      case VerifierMoves(FinishStep(id, now, saved)) =>
        more := FinishMirrored(c, w, steps, id, now, saved);
      case VerifierMoves(Restart) =>
        MemoryIsDisk(c, w.server);
        RestartMirrored(c, w, WorldRun(c, steps));
      case _ =>
        more := PepMirrored(c, w, steps, step);
    }
  }

  lemma MemoryIsDisk(c: Setup, s: Server)
    requires ServerInvariant(c.pep.p, c.ver, s)
    ensures s.memory == s.disk
  {
  }

  // ---------- after the parting ----------

  /** What is pending stays pending until a token for it is accepted. */
  lemma PendingStays(c: Setup, v: World, step: PepStep)
    requires WorldInvariant(c, v) && Pending(c, v).Some?
    requires step.ReceiveStep? && v.local.up && v.local.txn.Idle? ==>
        !TokenValid(c.pep, step.tok, Pending(c, v).value, step.now)
    ensures Pending(c, v.(local := PepNext(c.pep, v.local, step))) == Pending(c, v)
    ensures step.ReceiveStep? ==> PepNext(c.pep, v.local, step) == v.local
  {
    hide ServerInvariant, ServerMatches, AcceptedLog, Load, PrepareCapacity, TokenValid, SentBound, OneEvidencePerEpoch,
      Next, AcceptedMatches, Log, Mark;
    var vc, log := VerifierCheckpoint(c, v.server), AcceptedLog(c, v.server);
    var l, pending := v.local, Pending(c, v);
    if step.RestartStep? {
      RestartIsTame(c, l, step.now, pending, vc, log);
    } else if l.up {
      if step.PrepareStep? {
        PrepareIsTame(c, l.node, step.now, step.now', step.writable, pending, vc, log);
      } else if !step.ReceiveStep? {
        TransactionStepIsTame(c, l, step, pending, vc, log);
      }
    }
  }

  /** No token that may reach the PEP is good for what it has pending. */
  lemma NoTokenForPending(c: Setup, w: World, v: World, tok: Token, now: int)
    requires CollisionFree(c.pep.p) && OpenInvariant(c, w) && Parted(c, w, v)
    requires TokenUnforged(c, w.server.granted, tok)
    ensures !TokenValid(c.pep, tok, Pending(c, v).value, now)
  {
    hide CollisionFree, HashCheckpoint, AcceptedLog, SameEvents, ServerInvariant, FlightsKnown, ToLower, SameStrings,
      SigningBody;
    var ours, vc := Pending(c, v).value, VerifierCheckpoint(c, w.server).value;
    if TokenValid(c.pep, tok, ours, now) {
      var t :| t in w.server.granted && SigningBody(t) == SigningBody(tok);
      HandedFields(t, tok);
      BodyFields(ours.checkpoint, vc);
      assert CurrentGrant(c.pep.p, t, Some(vc));
      SameCheckpointHash(c.pep.p, ours.checkpoint, vc);
      assert false;
    }
  }

  lemma PepParted(c: Setup, w: World, steps: seq<WorldStep>, s: PepStep) returns (more: seq<WorldStep>)
    requires CollisionFree(c.pep.p) && OpenInvariant(c, w) && Parted(c, w, WorldRun(c, steps))
    ensures Parted(c, OpenNetNext(c, w, PepMoves(s)), WorldRun(c, more))
    ensures Pending(c, WorldRun(c, more)) == Pending(c, WorldRun(c, steps))
  {
    hide CollisionFree, OpenInvariant, WorldRun, PepNext, TokenUnforged, SameEvents, AcceptedLog, TokenValid,
      WorldInvariant, Handed;
    var v := WorldRun(c, steps);
    RunKeepsInvariant(c, steps);
    more := steps;
    if s.ReceiveStep? {
      if TokenUnforged(c, w.server.granted, s.tok) {
        NoTokenForPending(c, w, v, s.tok, s.now);
        PendingStays(c, v, s);
      }
    } else {
      PendingStays(c, v, s);
      OneMore(c, steps, PepMoves(s));
      more := steps + [PepMoves(s)];
    }
  }

  lemma SendParted(c: Setup, w: World, steps: seq<WorldStep>)
    requires Parted(c, w, WorldRun(c, steps))
    ensures Parted(c, OpenNetNext(c, w, Send), WorldRun(c, steps + [Send]))
    ensures Pending(c, WorldRun(c, steps + [Send])) == Pending(c, WorldRun(c, steps))
  {
    hide WorldRun, SameEvents, AcceptedLog;
    OneMore(c, steps, Send);
  }

  /** No epoch the PEP has sent anything for is ahead of the checkpoint the Verifier has taken. */
  lemma NothingAhead(c: Setup, w: World, v: World, ev: Evidence)
    requires WorldInvariant(c, v) && Parted(c, w, v) && (ev in w.sent || Pending(c, v) == Some(ev))
    ensures var vc := VerifierCheckpoint(c, w.server);
      ev.checkpoint.epoch <= vc.value.epoch && (ev.checkpoint.epoch == vc.value.epoch ==> ev == Pending(c, v).value)
  {
    hide ServerInvariant, ServerMatches, AcceptedLog, SameEvents, InStep, OneEvidencePerEpoch;
    BodyFields(Pending(c, v).value.checkpoint, VerifierCheckpoint(c, w.server).value);
  }

  lemma NoMoreCommits(c: Setup, w: World, v: World, f: Flight, now: int, saved: bool)
    requires WorldInvariant(c, v) && Parted(c, w, v) && Known(c, w.sent, f.req)
    requires f.req.pepID == c.pep.pepID && f.req.history.Some?
    ensures !Finish(c.pep.p, c.ver, w.server.memory, f, now, saved).committed
  {
    hide WorldInvariant, Parted, Finish, VerifyCheckpoint, ValidEvidence;
    if Finish(c.pep.p, c.ver, w.server.memory, f, now, saved).committed {
      var verdict := CommittedFinish(c.pep.p, c.ver, w.server.memory, f, now, saved);
      ValidIsSigned(c.pep.p, f.req.history.value, f.req.pepID, f.req.pepSigningPubKey, f.previous);
      var ev :| ev in w.sent && SameBody(ev.checkpoint, f.req.history.value.checkpoint);
      BodyFields(ev.checkpoint, f.req.history.value.checkpoint);
      NothingAhead(c, w, v, ev);
      PartedHasCheckpoint(c, w, v);
      assert false;
    }
  }

  lemma PartedHasCheckpoint(c: Setup, w: World, v: World)
    requires Parted(c, w, v)
    ensures VerifierCheckpoint(c, w.server).Some?
  {
    hide SameEvents;
  }

  lemma VerifierParted(c: Setup, w: World, v: World, step: ServerStep)
    requires OpenInvariant(c, w) && WorldInvariant(c, v) && Parted(c, w, v)
    ensures Parted(c, OpenNetNext(c, w, VerifierMoves(step)), v)
  {
    hide WorldInvariant, Known, SameEvents, Finish, EntryOf, TokensBound, Sequential, SequentialAnswers, FlightsCurrent,
      WellScreened, GrantsCurrent, Unforged, Begin, AcceptedDeltas, ByPep, AllEvents;
    var s := w.server;
    if step.FinishStep? && step.id in s.flights && s.flights[step.id].req.history.Some? {
      var f := s.flights[step.id];
      if !Finish(c.pep.p, c.ver, s.memory, f, step.now, step.saved).committed {
        UncommittedFinish(c.pep.p, c.ver, s.memory, f, step.now, step.saved);
      } else {
        if f.req.pepID == c.pep.pepID {
          NoMoreCommits(c, w, v, f, step.now, step.saved);
        }
        CommitHas(c, s, step.id, step.now, step.saved);
        CommitAdvancesEpoch(c.pep.p, c.ver, s.memory, f, step.now, step.saved);
        assert AcceptedLog(c, s) + [] == AcceptedLog(c, s);
      }
    }
  }

  lemma PartedStep(c: Setup, w: World, steps: seq<WorldStep>, step: WorldStep) returns (more: seq<WorldStep>)
    requires CollisionFree(c.pep.p) && OpenInvariant(c, w) && Parted(c, w, WorldRun(c, steps))
    ensures Parted(c, OpenNetNext(c, w, step), WorldRun(c, more))
    ensures Pending(c, WorldRun(c, more)) == Pending(c, WorldRun(c, steps))
  {
    hide CollisionFree, OpenInvariant, Parted, WorldRun, OpenNetNext, WorldInvariant;
    more := steps;
    RunKeepsInvariant(c, steps);
    match step {
      case PepMoves(s) => more := PepParted(c, w, steps, s);
      case Send => SendParted(c, w, steps); more := steps + [Send];
      case VerifierMoves(s) => VerifierParted(c, w, WorldRun(c, steps), s);
    }
  }

  /** What the Verifier has taken is then not as the PEP sent it, and never will be. */
  lemma PartedIsNotAsSent(c: Setup, w: World, v: World)
    requires WorldInvariant(c, v) && Parted(c, w, v) && ServerInvariant(c.pep.p, c.ver, w.server)
    ensures !TakenAsSent(c, w)
  {
    hide ServerInvariant, WorldInvariant, Parted, TakenAsSent;
    PartedHasCheckpoint(c, w, v);
    if TakenAsSent(c, w) {
      StoredAsSent(c, w);
      var ev :| ev in w.sent && ev.checkpoint == VerifierCheckpoint(c, w.server).value;
      NothingAhead(c, w, v, ev);
      PartedDiffers(c, w, v);
      assert false;
    }
  }

  lemma PartedDiffers(c: Setup, w: World, v: World)
    requires Parted(c, w, v)
    ensures Pending(c, v).Some? && VerifierCheckpoint(c, w.server) != Some(Pending(c, v).value.checkpoint)
  {
    hide SameEvents;
  }

  // ---------- every run ----------

  /**
   What impostors achieve: as long as every checkpoint accepted under the PEP's name is written as the PEP sent it,
   nothing.  There is a run in which only what the PEP sent is delivered, one request at a time, with the same PEP,
   the same Verifier state, the same tokens handed out and the same events accepted.  From the first checkpoint on
   that is written differently, there is one with the same PEP in which that checkpoint is still to be accepted.
   */
  lemma {:induction false} ImpostorsChangeNothing(c: Setup, steps: seq<WorldStep>) returns (genuine: seq<WorldStep>)
    requires CollisionFree(c.pep.p)
    ensures var w, v := OpenNetRun(c, steps), WorldRun(c, genuine);
      if TakenAsSent(c, w) then Mirrors(c, w, v) else Parted(c, w, v)
    ensures OpenInvariant(c, OpenNetRun(c, steps))
    decreases |steps|
  {
    hide CollisionFree, Mirrors, Parted, OpenInvariant, TakenAsSent, OpenNetNext, WorldRun, WorldInvariant;
    if steps == [] {
      genuine := [];
      MirrorsAtFirst(c);
    } else {
      var n := |steps| - 1;
      genuine := ImpostorsChangeNothing(c, steps[..n]);
      var w, step := OpenNetRun(c, steps[..n]), steps[n];
      OpenNetStepKeeps(c, w, step);
      if TakenAsSent(c, w) {
        genuine := MirrorsStep(c, w, genuine, step);
      } else {
        genuine := PartedStep(c, w, genuine, step);
      }
      OneOrTheOther(c, OpenNetNext(c, w, step), genuine);
    }
  }

  lemma OneOrTheOther(c: Setup, w: World, steps: seq<WorldStep>)
    requires OpenInvariant(c, w)
    ensures Mirrors(c, w, WorldRun(c, steps)) ==> TakenAsSent(c, w)
    ensures Parted(c, w, WorldRun(c, steps)) ==> !TakenAsSent(c, w)
  {
    hide WorldInvariant, Parted, TakenAsSent, ServerInvariant, FlightsKnown, GrantsCurrent, WorldRun, SameEvents,
      AcceptedLog;
    RunKeepsInvariant(c, steps);
    if Parted(c, w, WorldRun(c, steps)) {
      PartedIsNotAsSent(c, w, WorldRun(c, steps));
    }
  }

  lemma MirrorsAtFirst(c: Setup)
    ensures Mirrors(c, InitialWorld(c), WorldRun(c, [])) && OpenInvariant(c, InitialWorld(c))
    ensures TakenAsSent(c, InitialWorld(c))
  {
    hide ServerInvariant;
    FreshServerInvariant(c.pep.p, c.ver);
  }
}
