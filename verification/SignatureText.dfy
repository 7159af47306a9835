/**
 Against impostors events are always conserved, and the two sides always agree on what was signed.  On the text of the
 signature, which checkpoint hashes and retries take in, they agree only as long as nobody rewrites it.
 */
module SignatureText {
  import opened Wrappers
  import opened Protocol
  import opened Text
  import opened Attest
  import opened Tokens
  import opened Policy
  import opened Verifier
  import opened VerifierRuns
  import opened Pep
  import opened OpenSessions
  import opened Authority
  import opened Interruption
  import opened SealedRuns
  import opened Completeness
  import opened OpenNetwork
  import opened HonestEvents
  import opened Impostors

  // ---------- what survives ----------

  lemma {:induction false} SameEventsRead(a: seq<Event>, b: seq<Event>)
    requires SameEvents(a, b)
    ensures ReadLog(a) == ReadLog(b)
    decreases |a|
  {
    hide SameEvent, ReadStep;
    if a != [] {
      var n := |a| - 1;
      assert forall i :: 0 <= i < n ==> SameEvent(a[..n][i], b[..n][i]);
      SameEventsRead(a[..n], b[..n]);
      SameEventRead(ReadLog(a[..n]), a[n], b[n]);
    }
  }

  lemma SameEventRead(r: Reading, a: Event, b: Event)
    requires SameEvent(a, b)
    ensures ReadStep(r, a) == ReadStep(r, b)
  {
    hide TrimSpace, Join;
    assert forall key :: Meta(a, key) == Meta(b, key);
    hide Meta;
  }

  /** The PEP's accepted or pending checkpoint is the Verifier's, but for the text of the signature. */
  ghost predicate AgreesInBody(c: Setup, st: PepState, vc: Option<Checkpoint>) {
    Agrees(c, st, vc)
    || (st.pendingCapacity.Some? && vc.Some? && SameBody(st.pendingCapacity.value.checkpoint, vc.value))
  }

  /** The Verifier accepted, and tracks, what the first events of this log say. */
  ghost predicate Conserves(c: Setup, s: Server, log: seq<Event>) {
    var n := BaseIndex(VerifierCheckpoint(c, s));
    && n <= |log| && SameEvents(AcceptedLog(c, s), log[..n])
    && ActiveOf(s.memory, c.pep.pepID) == ReadLog(log[..n]).open
  }

  /**
   Authority against impostors: in every such run the Verifier's checkpoint is the PEP's last accepted one or that
   of its pending evidence, but for the text of the signature; what the Verifier accepted are the first events of
   the PEP's own log; and the sessions it tracks are exactly those this part of the PEP's log leaves open.
   */
  lemma AuthorityAgainstImpostors(c: Setup, steps: seq<WorldStep>)
    requires CollisionFree(c.pep.p)
    ensures var w := OpenNetRun(c, steps);
      var vc, mem, disk := VerifierCheckpoint(c, w.server), w.local.node.mem, DiskState(c, w.local.node);
      && AgreesInBody(c, disk, vc) && Conserves(c, w.server, disk.history.events)
      && (w.local.up ==> AgreesInBody(c, mem, vc) && Conserves(c, w.server, mem.history.events))
  {
    hide CollisionFree, WorldRun, OpenNetRun, AgreesInBody, Mirrors, Parted, TakenAsSent, Conserves, FlightsKnown,
      GrantsCurrent, ServerInvariant, WorldInvariant;
    var genuine := ImpostorsChangeNothing(c, steps);
    var w, v := OpenNetRun(c, steps), WorldRun(c, genuine);
    RunKeepsInvariant(c, genuine);
    var disk := DiskState(c, w.local.node);
    if TakenAsSent(c, w) {
      MirrorsSame(c, w, v);
      StateSurvives(c, w, v, disk);
      if w.local.up {
        StateSurvives(c, w, v, w.local.node.mem);
      }
    } else {
      PartedSame(c, w, v);
      StateSurvives(c, w, v, disk);
      if w.local.up {
        StateSurvives(c, w, v, w.local.node.mem);
      }
    }
  }

  lemma MirrorsSame(c: Setup, w: World, v: World)
    requires Mirrors(c, w, v) && WorldInvariant(c, v)
    ensures w.local == v.local && InWorld(c, v, DiskState(c, w.local.node))
    ensures w.local.up ==> InWorld(c, v, w.local.node.mem)
  {
    hide SameEvents, AcceptedLog, ServerInvariant, ServerMatches, TakenAsSent, SentBound, OneEvidencePerEpoch, InStep;
  }

  lemma PartedSame(c: Setup, w: World, v: World)
    requires Parted(c, w, v) && WorldInvariant(c, v)
    ensures w.local == v.local && InWorld(c, v, DiskState(c, w.local.node))
    ensures w.local.up ==> InWorld(c, v, w.local.node.mem)
  {
    hide SameEvents, AcceptedLog, ServerInvariant, ServerMatches, TakenAsSent, SentBound, OneEvidencePerEpoch, InStep;
  }

  /** A state of the PEP in this world, in memory or on disk. */
  ghost predicate InWorld(c: Setup, v: World, st: PepState) {
    InStep(c.pep.p, st, Pending(c, v), VerifierCheckpoint(c, v.server), AcceptedLog(c, v.server))
  }

  lemma StateSurvives(c: Setup, w: World, v: World, st: PepState)
    requires Mirrors(c, w, v) || Parted(c, w, v)
    requires InWorld(c, v, st) && ServerInvariant(c.pep.p, c.ver, w.server)
    ensures AgreesInBody(c, st, VerifierCheckpoint(c, w.server)) && Conserves(c, w.server, st.history.events)
  {
    hide ServerInvariant, AcceptedLog, SameEvents, TakenAsSent, ReadLog, AcceptedMatches;
    var vc, log := VerifierCheckpoint(c, w.server), st.history.events;
    VerifierOpenSessions(c, w.server);
    if Mirrors(c, w, v) {
      assert AcceptedLog(c, v.server) == log[..BaseIndex(vc)];
    } else {
      BodyFields(Pending(c, v).value.checkpoint, vc.value);
      assert AcceptedLog(c, v.server) + Pending(c, v).value.events == log[..BaseIndex(vc)];
    }
    SameEventsRead(AcceptedLog(c, w.server), log[..BaseIndex(vc)]);
  }

  // ---------- when it survives whole ----------

  lemma PartedDisagrees(c: Setup, w: World, v: World, st: PepState)
    requires CollisionFree(c.pep.p) && Parted(c, w, v) && InWorld(c, v, st) && Sealed(c.pep.p, st)
    ensures !Agrees(c, st, VerifierCheckpoint(c, w.server))
  {
    hide CollisionFree, HashCheckpoint, AcceptedLog, SameEvents;
    var ours, vc := Pending(c, v).value, VerifierCheckpoint(c, w.server).value;
    BodyFields(ours.checkpoint, vc);
    if Agrees(c, st, Some(vc)) {
      SameCheckpointHash(c.pep.p, ours.checkpoint, vc);
    }
  }

  lemma MirrorsAgrees(c: Setup, w: World, v: World, st: PepState)
    requires Mirrors(c, w, v) && InWorld(c, v, st)
    ensures Agrees(c, st, VerifierCheckpoint(c, w.server))
  {
    hide AcceptedLog, SameEvents, TakenAsSent;
  }

  lemma SealedStates(c: Setup, l: Local)
    requires Traceable(c.pep, l)
    ensures Sealed(c.pep.p, DiskState(c, l.node)) && (l.up ==> Sealed(c.pep.p, l.node.mem))
  {
    hide Intact;
  }

  /**
   The two agree on the checkpoint, in memory and on disk, exactly if every checkpoint the Verifier accepted under
   the PEP's name was written as the PEP sent it.
   */
  lemma AgreementIsExact(c: Setup, steps: seq<WorldStep>)
    requires CollisionFree(c.pep.p)
    ensures var w := OpenNetRun(c, steps);
      var vc := VerifierCheckpoint(c, w.server);
      && (Agrees(c, DiskState(c, w.local.node), vc) <==> TakenAsSent(c, w))
      && (w.local.up ==> (Agrees(c, w.local.node.mem, vc) <==> TakenAsSent(c, w)))
  {
    hide CollisionFree, WorldRun, OpenNetRun, Agrees, Mirrors, Parted, TakenAsSent, OpenInvariant, WorldInvariant,
      InWorld, Sealed, Traceable;
    var genuine := ImpostorsChangeNothing(c, steps);
    var w, v := OpenNetRun(c, steps), WorldRun(c, genuine);
    RunKeepsInvariant(c, genuine);
    RunTraceable(c, genuine);
    SealedStates(c, v.local);
    if TakenAsSent(c, w) {
      MirrorsSame(c, w, v);
      MirrorsAgrees(c, w, v, DiskState(c, w.local.node));
      if w.local.up {
        MirrorsAgrees(c, w, v, w.local.node.mem);
      }
    } else {
      PartedSame(c, w, v);
      PartedDisagrees(c, w, v, DiskState(c, w.local.node));
      if w.local.up {
        PartedDisagrees(c, w, v, w.local.node.mem);
      }
    }
  }

  // ---------- and when it does not ----------

  /** The PEP's own requests, whatever the rest of them says, are refused and change nothing. */
  ghost predicate ShutOut(c: Setup, w: World) {
    forall ev: Evidence, req: CapacityRequest, now: int, saved: bool | (ev in w.sent || Pending(c, w) == Some(ev))
        && req.pepID == c.pep.pepID && req.history == Some(ev) && Screen(c.ver, req).Success? ::
      Atomic(c.pep.p, c.ver, w.server.memory, req, now, saved)
      == Verifier.Finished.Finished(w.server.memory, Denied(Forbidden), false)
  }

  lemma PartedShutsOut(c: Setup, w: World, v: World)
    requires WorldInvariant(c, v) && Parted(c, w, v)
    ensures ShutOut(c, w)
  {
    hide WorldInvariant, Parted, Atomic, Screen;
    PartedHasCheckpoint(c, w, v);
    PartedDiffers(c, w, v);
    PartedPending(c, w, v);
    forall ev: Evidence, req: CapacityRequest, now: int, saved: bool | (ev in w.sent || Pending(c, w) == Some(ev))
        && req.pepID == c.pep.pepID && req.history == Some(ev) && Screen(c.ver, req).Success?
      ensures Atomic(c.pep.p, c.ver, w.server.memory, req, now, saved)
              == Verifier.Finished.Finished(w.server.memory, Denied(Forbidden), false)
    {
      NothingAhead(c, w, v, ev);
      OldIsRefused(c, w.server.memory, req, now, saved);
    }
  }

  lemma PartedPending(c: Setup, w: World, v: World)
    requires Parted(c, w, v)
    ensures Pending(c, w) == Pending(c, v)
  {
    hide SameEvents;
  }

  /** A checkpoint of no later epoch than the stored one, and other than it, is refused. */
  lemma OldIsRefused(c: Setup, st: VerifierState, req: CapacityRequest, now: int, saved: bool)
    requires Screen(c.ver, req).Success? && req.pepID == c.pep.pepID && req.history.Some?
    requires var vc := CheckpointOf(st, c.pep.pepID);
      vc.Some? && req.history.value.checkpoint != vc.value && req.history.value.checkpoint.epoch <= vc.value.epoch
    ensures Atomic(c.pep.p, c.ver, st, req, now, saved)
            == Verifier.Finished.Finished(st, Denied(Forbidden), false)
  {
    hide Screen, Appraise, Chained, VerifyCapacityToken, VerifyCheckpoint;
    ScreenKeepsHistory(c.ver, req);
  }

  /**
   Once a checkpoint was taken otherwise than the PEP sent it, that is how it stays, whatever happens: at every later
   point the PEP's requests are refused, and no token that may reach it is good for what it has pending.
   */
  lemma {:induction false} ShutOutForGood(c: Setup, steps: seq<WorldStep>, more: seq<WorldStep>)
    requires CollisionFree(c.pep.p) && !TakenAsSent(c, OpenNetRun(c, steps))
    ensures var w := OpenNetRun(c, steps + more);
      && !TakenAsSent(c, w) && ShutOut(c, w)
      && Pending(c, w).Some? && Pending(c, w) == Pending(c, OpenNetRun(c, steps))
      && forall tok, now :: TokenUnforged(c, w.server.granted, tok) ==>
           !TokenValid(c.pep, tok, Pending(c, w).value, now)
  {
    hide CollisionFree, Parted, Mirrors, TakenAsSent, OpenInvariant, OpenNetRun, WorldRun, ShutOut, TokenUnforged,
      TokenValid, WorldInvariant;
    var genuine := ImpostorsChangeNothing(c, steps);
    var genuine' := StaysParted(c, steps, more, genuine);
    var w, v := OpenNetRun(c, steps + more), WorldRun(c, genuine');
    PartedPending(c, OpenNetRun(c, steps), WorldRun(c, genuine));
    RunKeepsInvariant(c, genuine');
    OneOrTheOther(c, w, genuine');
    PartedShutsOut(c, w, v);
    PartedPending(c, w, v);
    PartedDiffers(c, w, v);
    forall tok, now | TokenUnforged(c, w.server.granted, tok)
      ensures !TokenValid(c.pep, tok, Pending(c, w).value, now)
    {
      NoTokenForPending(c, w, v, tok, now);
    }
  }

  lemma {:induction false} StaysParted(c: Setup, steps: seq<WorldStep>, more: seq<WorldStep>, genuine: seq<WorldStep>)
    returns (genuine': seq<WorldStep>)
    requires CollisionFree(c.pep.p) && OpenInvariant(c, OpenNetRun(c, steps))
    requires Parted(c, OpenNetRun(c, steps), WorldRun(c, genuine))
    ensures OpenInvariant(c, OpenNetRun(c, steps + more))
    ensures Parted(c, OpenNetRun(c, steps + more), WorldRun(c, genuine'))
    ensures Pending(c, WorldRun(c, genuine')) == Pending(c, WorldRun(c, genuine))
    decreases |more|
  {
    hide CollisionFree, Parted, OpenInvariant, OpenNetNext, WorldRun;
    if more == [] {
      assert steps + more == steps;
      genuine' := genuine;
    } else {
      var n := |more| - 1;
      genuine' := StaysParted(c, steps, more[..n], genuine);
      var w := OpenNetRun(c, steps + more[..n]);
      assert (steps + more)[..|steps| + n] == steps + more[..n];
      OpenNetStepKeeps(c, w, more[n]);
      genuine' := PartedStep(c, w, genuine', more[n]);
    }
  }

  // ---------- a case ----------

  /** Decoding a signature skips line breaks in its text. */
  ghost predicate IgnoresLineBreaks(p: Primitives) {
    forall pub, d, sig :: p.verify(pub, d, sig) ==> p.verify(pub, d, sig + "\n")
  }

  /** The same evidence, with a line break after the signature of its checkpoint. */
  function Copied(ev: Evidence): Evidence {
    ev.(checkpoint := ev.checkpoint.(signature := ev.checkpoint.signature + "\n"))
  }

  /** The copy, sent in the PEP's request and handled at once. */
  function CopySteps(c: Setup, ev: Evidence, id: nat, now: int): seq<WorldStep> {
    [VerifierMoves(BeginStep(id, RequestFor(c.pep, Copied(ev)))), VerifierMoves(FinishStep(id, now, true))]
  }

  lemma CopyIsJudgedAlike(p: Primitives, cfg: VerifierConfig, st: VerifierState, req: CapacityRequest, ev: Evidence,
                          now: int)
    requires IgnoresLineBreaks(p) && KeyPair(p, cfg.publicKey, cfg.privateKey) && req.history == Some(ev)
    requires Atomic(p, cfg, st, req, now, true).committed
    ensures var copy := req.(history := Some(Copied(ev)));
      && Screen(cfg, req).Success? && Screen(cfg, copy).Success?
      && Begin(p, cfg, st, copy).Flying?
      && Begin(p, cfg, st, copy).flight.req.history == Some(Copied(ev))
      && Begin(p, cfg, st, copy).flight.req.pepID == req.pepID
      && Finish(p, cfg, st, Begin(p, cfg, st, copy).flight, now, true).committed
  {
    hide Replay, AtCheckpoint, Chained, VerifyCapacityToken, SameStrings, ScopeSubset, VersionOne, Timed;
    assert CheckpointBody(Copied(ev).checkpoint) == CheckpointBody(ev.checkpoint);
  }

  /**
   Whenever the Verifier would accept a request of the PEP, a copy of it with a line break after the signature is
   accepted in its place if it comes first.
   */
  lemma CopyPartsThem(c: Setup, steps: seq<WorldStep>, ev: Evidence, id: nat, now: int)
    requires CollisionFree(c.pep.p) && KeyPair(c.pep.p, c.ver.publicKey, c.ver.privateKey) && IgnoresLineBreaks(c.pep.p)
    requires var w := OpenNetRun(c, steps);
      && ev in w.sent && id !in w.server.flights
      && Atomic(c.pep.p, c.ver, w.server.memory, RequestFor(c.pep, ev), now, true).committed
    ensures !TakenAsSent(c, OpenNetRun(c, steps + CopySteps(c, ev, id, now)))
  {
    hide CollisionFree, KeyPair, IgnoresLineBreaks, TakenAsSent, OpenNetRun, OpenNetNext, Atomic, Screen, Begin,
      Finish, WorldRun, OpenInvariant;
    var w, copy := OpenNetRun(c, steps), CopySteps(c, ev, id, now);
    if TakenAsSent(c, w) {
      var req := RequestFor(c.pep, Copied(ev));
      CopyIsJudgedAlike(c.pep.p, c.ver, w.server.memory, RequestFor(c.pep, ev), ev, now);
      var w1 := CopyBegins(c, w, ev, id, now);
      TakenOneMore(c, w1, id, now, true);
      CopyNotSent(c, steps, ev);
      assert (steps + copy)[..|steps| + 1] == steps + [copy[0]] && (steps + [copy[0]])[..|steps|] == steps;
      OpenNetTwo(c, steps, copy[0], copy[1]);
      assert steps + copy == steps + [copy[0], copy[1]];
    } else {
      ShutOutForGood(c, steps, copy);
    }
  }

  lemma OpenNetTwo(c: Setup, steps: seq<WorldStep>, a: WorldStep, b: WorldStep)
    ensures OpenNetRun(c, steps + [a, b]) == OpenNetNext(c, OpenNetNext(c, OpenNetRun(c, steps), a), b)
  {
    hide OpenNetNext;
    assert (steps + [a, b])[..|steps| + 1] == steps + [a] && (steps + [a])[..|steps|] == steps;
  }

  lemma CopyBegins(c: Setup, w: World, ev: Evidence, id: nat, now: int) returns (w1: World)
    requires ev in w.sent && id !in w.server.flights && TakenAsSent(c, w)
    requires var b := Begin(c.pep.p, c.ver, w.server.memory, RequestFor(c.pep, Copied(ev)));
      b.Flying?
    ensures w1 == OpenNetNext(c, w, VerifierMoves(BeginStep(id, RequestFor(c.pep, Copied(ev)))))
    ensures TakenAsSent(c, w1) && w1.sent == w.sent && w1.server.memory == w.server.memory && id in w1.server.flights
    ensures w1.server.flights[id] == Begin(c.pep.p, c.ver, w.server.memory, RequestFor(c.pep, Copied(ev))).flight
  {
    hide Begin, TakenAsSent, VerifyCheckpoint, Screen;
    assert SameBody(ev.checkpoint, Copied(ev).checkpoint);
    w1 := OpenNetNext(c, w, VerifierMoves(BeginStep(id, RequestFor(c.pep, Copied(ev)))));
    SameTaken(c, w, w1);
  }

  /** The PEP has not sent the copy itself: it sends one evidence an epoch. */
  lemma CopyNotSent(c: Setup, steps: seq<WorldStep>, ev: Evidence)
    requires CollisionFree(c.pep.p) && ev in OpenNetRun(c, steps).sent
    ensures !SentAs(OpenNetRun(c, steps).sent, Copied(ev).checkpoint)
  {
    hide CollisionFree, OpenNetRun, WorldRun, OpenInvariant, TakenAsSent, SameEvents, AcceptedLog, ServerInvariant,
      ServerMatches, InStep, SentBound;
    var genuine := ImpostorsChangeNothing(c, steps);
    RunKeepsInvariant(c, genuine);
  }

  /** Every run of the world of Authority is one of this world. */
  lemma {:induction false} GenuineIsOpen(c: Setup, steps: seq<WorldStep>) returns (open: seq<WorldStep>)
    ensures OpenNetRun(c, open) == WorldRun(c, steps)
    decreases |steps|
  {
    hide PepNext, ServerNext, Deliverable, Unforged, TokenUnforged, Handed;
    open := [];
    if steps != [] {
      var n := |steps| - 1;
      open := GenuineIsOpen(c, steps[..n]);
      var w, step := WorldRun(c, steps[..n]), steps[n];
      if WorldNext(c, w, step) != w {
        GenuineStepIsOpen(c, w, step);
        assert (open + [step])[..|open|] == open;
        open := open + [step];
      }
    }
  }

  lemma GenuineStepIsOpen(c: Setup, w: World, step: WorldStep)
    requires WorldNext(c, w, step) != w
    ensures OpenNetNext(c, w, step) == WorldNext(c, w, step)
  {
    hide PepNext, ServerNext, VerifyCheckpoint, Screen, SigningBody;
  }

  /** So can every run of an honest PEP be, whenever it has sent evidence that is still to be accepted. */
  lemma HonestRunsCanBeParted(c: Setup, steps: seq<WorldStep>, ev: Evidence, id: nat, now: int)
    returns (open: seq<WorldStep>)
    requires Rfc3339(c.pep.p) && KeyPair(c.pep.p, c.pep.publicKey, c.pep.privateKey) && Compatible(c.pep, c.ver)
    requires CollisionFree(c.pep.p) && KeyPair(c.pep.p, c.ver.publicKey, c.ver.privateKey) && IgnoresLineBreaks(c.pep.p)
    requires HonestRun(c, steps)
    requires var w := WorldRun(c, steps);
      && ev in w.sent && ev.checkpoint.epoch > BaseEpoch(VerifierCheckpoint(c, w.server))
      && Screen(c.ver, RequestFor(c.pep, ev)).Success? && id !in w.server.flights
    ensures OpenNetRun(c, open) == WorldRun(c, steps)
    ensures !TakenAsSent(c, OpenNetRun(c, open + CopySteps(c, ev, id, now)))
  {
    hide CollisionFree, KeyPair, IgnoresLineBreaks, TakenAsSent, OpenNetRun, WorldRun, Atomic, Screen, HonestRun,
      Compatible, Rfc3339, Acceptable;
    open := GenuineIsOpen(c, steps);
    HonestEvidenceIsAccepted(c, steps, ev, now, true);
    CopyPartsThem(c, open, ev, id, now);
  }
}
