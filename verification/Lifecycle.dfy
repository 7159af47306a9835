/**
 What the Verifier's lifecycle machine accepts, said without the machine.  A session key lives through

     intent . observed . activated . (expired+ . delete_intent)+ . delete_observed

 any number of times; a delta may cut the last life short after `activated` and the next delta go on from
 there.  One plan hash runs through a life, and one expiry from its activation to its end.
 */
module Lifecycle {
  import opened Wrappers
  import opened Protocol
  import opened Policy

  datatype Opening = Opening(intent: Event, observed: Event, activated: Event)

  datatype Round = Round(expirations: seq<Event>, deleteIntent: Event)

  datatype Closing = Closing(rounds: seq<Round>, deleteObserved: Event)

  // ---------- words ----------

  function OpeningWord(o: Opening): seq<Event> {
    [o.intent, o.observed, o.activated]
  }

  function RoundsWord(rounds: seq<Round>): seq<Event> {
    if rounds == [] then []
    else
      var last := rounds[|rounds| - 1];
      RoundsWord(rounds[..|rounds| - 1]) + last.expirations + [last.deleteIntent]
  }

  function ClosingWord(c: Closing): seq<Event> {
    RoundsWord(c.rounds) + [c.deleteObserved]
  }

  predicate IsA(e: Event, eventType: string) {
    e.eventType == eventType && CompleteEvent(e)
  }

  predicate OpeningShape(o: Opening) {
    && IsA(o.intent, APPLY_INTENT) && IsA(o.observed, APPLY_OBSERVED) && IsA(o.activated, ACTIVATED)
    && PlanHash(o.intent).Some? && PlanHash(o.observed) == PlanHash(o.intent)
    && Expiry(o.activated) != ""
  }

  /** What the Verifier tracks once the session is open. */
  function Opened(o: Opening): Tracked
    requires OpeningShape(o)
  {
    Track(o.activated, PlanHash(o.intent).value)
  }

  predicate ExpirationShape(e: Event, t: Tracked) {
    IsA(e, EXPIRED) && Expiry(e) == t.expiresAt
  }

  ghost predicate RoundShape(r: Round, t: Tracked) {
    && r.expirations != []
    && (forall i :: 0 <= i < |r.expirations| ==> ExpirationShape(r.expirations[i], t))
    && IsA(r.deleteIntent, DELETE_INTENT) && PlanHash(r.deleteIntent) == Some(t.xfrmPlanHash)
  }

  ghost predicate RoundsShape(rounds: seq<Round>, t: Tracked) {
    forall i :: 0 <= i < |rounds| ==> RoundShape(rounds[i], t)
  }

  ghost predicate ClosingShape(c: Closing, t: Tracked) {
    && c.rounds != [] && RoundsShape(c.rounds, t)
    && IsA(c.deleteObserved, DELETE_OBSERVED) && PlanHash(c.deleteObserved) == Some(t.xfrmPlanHash)
  }

  // ---------- the checks that depend on the appraisal ----------

  predicate ObserverSatisfied(ctx: PolicyContext, e: Event, outcome: string) {
    CheckObserver(e, outcome, EffectiveProfile(ctx.requiredObserver)).Pass?
  }

  predicate OpeningValid(ctx: PolicyContext, o: Opening) {
    OpeningShape(o) && LifetimeAllowed(ctx, o.intent) && ObserverSatisfied(ctx, o.observed, "applied")
  }

  ghost predicate ExpirationsValid(ctx: PolicyContext, es: seq<Event>, t: Tracked) {
    forall i :: 0 <= i < |es| ==> ExpirationShape(es[i], t) && ExpirationAllowed(ctx.p, es[i], t)
  }

  ghost predicate RoundsValid(ctx: PolicyContext, rounds: seq<Round>, t: Tracked) {
    forall i :: 0 <= i < |rounds| ==> RoundShape(rounds[i], t) && ExpirationsValid(ctx, rounds[i].expirations, t)
  }

  ghost predicate ClosingValid(ctx: PolicyContext, c: Closing, t: Tracked) {
    ClosingShape(c, t) && RoundsValid(ctx, c.rounds, t) && ObserverSatisfied(ctx, c.deleteObserved, "deleted")
  }

  // ---------- the words one key may contribute to one delta ----------

  datatype KeyWord = Quiet | Opens(o: Opening) | Closes(c: Closing) | Lives(o: Opening, c: Closing)

  function WordOf(w: KeyWord): seq<Event> {
    match w
    case Quiet => []
    case Opens(o) => OpeningWord(o)
    case Closes(c) => ClosingWord(c)
    case Lives(o, c) => OpeningWord(o) + ClosingWord(c)
  }

  ghost predicate WordValid(ctx: PolicyContext, w: KeyWord, before: Option<Tracked>, after: Option<Tracked>) {
    match w
    case Quiet => before == after
    case Opens(o) => before.None? && OpeningValid(ctx, o) && after == Some(Opened(o))
    case Closes(c) => before.Some? && ClosingValid(ctx, c, before.value) && after.None?
    case Lives(o, c) => before.None? && OpeningValid(ctx, o) && ClosingValid(ctx, c, Opened(o)) && after.None?
  }

  ghost predicate IsWord(ctx: PolicyContext, trace: seq<Event>, before: Option<Tracked>, after: Option<Tracked>) {
    exists w :: WordOf(w) == trace && WordValid(ctx, w, before, after)
  }

  // ---------- how far a word has got ----------

  datatype Progress =
    | Untouched
    | Intended(i: Event)
    | Applied(i: Event, a: Event)
    | Running(o: Option<Opening>, rounds: seq<Round>, expirations: seq<Event>)
    | Finished(o: Option<Opening>, c: Closing)

  function Prefix(o: Option<Opening>): seq<Event> {
    if o.Some? then OpeningWord(o.value) else []
  }

  function ProgressWord(g: Progress): seq<Event> {
    match g
    case Untouched => []
    case Intended(i) => [i]
    case Applied(i, a) => [i, a]
    case Running(o, rounds, expirations) => Prefix(o) + RoundsWord(rounds) + expirations
    case Finished(o, c) => Prefix(o) + ClosingWord(c)
  }

  /** The session a word opened, or continues. */
  function Current(before: Option<Tracked>, o: Option<Opening>): Option<Tracked>
    requires o.Some? ==> OpeningShape(o.value)
  {
    if o.Some? then Some(Opened(o.value)) else before
  }

  ghost predicate OpenedValid(ctx: PolicyContext, before: Option<Tracked>, o: Option<Opening>) {
    if o.Some? then before.None? && OpeningValid(ctx, o.value) else before.Some?
  }

  ghost predicate IntentValid(ctx: PolicyContext, i: Event) {
    IsA(i, APPLY_INTENT) && PlanHash(i).Some? && LifetimeAllowed(ctx, i)
  }

  ghost predicate Reached(ctx: PolicyContext, before: Option<Tracked>, g: Progress) {
    match g
    case Untouched => before.None?
    case Intended(i) => before.None? && IntentValid(ctx, i)
    case Applied(i, a) =>
      && before.None? && IntentValid(ctx, i)
      && IsA(a, APPLY_OBSERVED) && PlanHash(a) == PlanHash(i) && ObserverSatisfied(ctx, a, "applied")
    case Running(o, rounds, expirations) =>
      && OpenedValid(ctx, before, o)
      && var t := Current(before, o).value;
      RoundsValid(ctx, rounds, t) && ExpirationsValid(ctx, expirations, t)
    case Finished(o, c) =>
      OpenedValid(ctx, before, o) && ClosingValid(ctx, c, Current(before, o).value)
  }

  /** The machine state a word leaves behind. */
  ghost function StateAfter(ctx: PolicyContext, before: Option<Tracked>, g: Progress): KeyState
    requires Reached(ctx, before, g)
  {
    match g
    case Untouched => KeyState(None, None)
    case Intended(i) => KeyState(None, Some(Stage(ApplyIntent, PlanHash(i).value)))
    case Applied(i, _) => KeyState(None, Some(Stage(ApplyObserved, PlanHash(i).value)))
    case Running(o, rounds, expirations) =>
      var t := Current(before, o).value;
      KeyState(Some(t),
               if expirations != [] then Some(Stage(Expired, t.xfrmPlanHash))
               else if rounds != [] then Some(Stage(DeleteIntent, t.xfrmPlanHash))
               else if o.Some? then Some(Stage(Active, t.xfrmPlanHash))
               else None)
    case Finished(o, _) => KeyState(None, Some(Stage(Deleted, Current(before, o).value.xfrmPlanHash)))
  }

  function Start(before: Option<Tracked>): Progress {
    if before.Some? then Running(None, [], []) else Untouched
  }

  // ---------- one key's machine, and its steps as steps of a word ----------

  function KeyReplay(ctx: PolicyContext, ks: KeyState, trace: seq<Event>): Result<KeyState, PolicyError>
    decreases |trace|
  {
    if trace == [] then Success(ks)
    else
      match KeyReplay(ctx, ks, trace[..|trace| - 1])
      case Failure(err) => Failure(err)
      case Success(mid) => KeyStep(ctx, mid, trace[|trace| - 1])
  }

  lemma StepProgress(ctx: PolicyContext, before: Option<Tracked>, g: Progress, e: Event) returns (g': Progress)
    requires Reached(ctx, before, g) && SessionType(e.eventType)
    requires KeyStep(ctx, StateAfter(ctx, before, g), e).Success?
    ensures Reached(ctx, before, g')
    ensures KeyStep(ctx, StateAfter(ctx, before, g), e).value == StateAfter(ctx, before, g')
    ensures ProgressWord(g') == ProgressWord(g) + [e]
  {
    hide PlanHash, Expiry, CheckObserver, CompleteEvent, LifetimeAllowed, ExpirationAllowed, EffectiveProfile,
      RoundsWord;
    match g {
      case Untouched => g' := Intended(e);
      case Intended(i) => g' := Applied(i, e);
      case Applied(i, a) => g' := Running(Some(Opening(i, a, e)), [], []); EmptyRounds();
      case Running(o, rounds, expirations) => g' := StepRunning(ctx, before, g, e);
      case Finished(o, c) => assert false; g' := g;
    }
  }

  lemma EmptyRounds()
    ensures RoundsWord([]) == []
  {
  }

  lemma NextRound(rounds: seq<Round>, r: Round)
    ensures RoundsWord(rounds + [r]) == RoundsWord(rounds) + r.expirations + [r.deleteIntent]
  {
    assert (rounds + [r])[..|rounds|] == rounds;
  }

  lemma StepRunning(ctx: PolicyContext, before: Option<Tracked>, g: Progress, e: Event) returns (g': Progress)
    requires g.Running? && Reached(ctx, before, g) && SessionType(e.eventType)
    requires KeyStep(ctx, StateAfter(ctx, before, g), e).Success?
    ensures Reached(ctx, before, g')
    ensures KeyStep(ctx, StateAfter(ctx, before, g), e).value == StateAfter(ctx, before, g')
    ensures ProgressWord(g') == ProgressWord(g) + [e]
  {
    hide PlanHash, Expiry, CheckObserver, CompleteEvent, LifetimeAllowed, EffectiveProfile, RoundsWord, Opened, Prefix,
      OpeningValid, OpeningShape;
    var Running(o, rounds, expirations) := g;
    if e.eventType == EXPIRED {
      g' := Running(o, rounds, expirations + [e]);
    } else if e.eventType == DELETE_INTENT {
      g' := Running(o, rounds + [Round(expirations, e)], []);
      NextRound(rounds, Round(expirations, e));
    } else {
      g' := Finished(o, Closing(rounds, e));
    }
  }

  /** Every word but the first has a last event, and the machine takes it. */
  lemma UnstepProgress(ctx: PolicyContext, before: Option<Tracked>, g: Progress) returns (g0: Progress, e: Event)
    requires Reached(ctx, before, g) && g != Start(before)
    ensures Reached(ctx, before, g0)
    ensures ProgressWord(g) == ProgressWord(g0) + [e]
    ensures KeyStep(ctx, StateAfter(ctx, before, g0), e) == Success(StateAfter(ctx, before, g))
  {
    hide PlanHash, Expiry, CheckObserver, CompleteEvent, LifetimeAllowed, ExpirationAllowed, EffectiveProfile,
      RoundsWord;
    match g {
      case Intended(i) => g0, e := Untouched, i;
      case Applied(i, a) => g0, e := Intended(i), a;
      case Running(o, rounds, expirations) =>
        if expirations == [] && rounds == [] {
          g0, e := Applied(o.value.intent, o.value.observed), o.value.activated;
          EmptyRounds();
        } else {
          g0, e := UnstepRunning(ctx, before, g);
        }
      case Finished(o, c) => g0, e := UnstepRunning(ctx, before, g);
    }
  }

  lemma UnstepRunning(ctx: PolicyContext, before: Option<Tracked>, g: Progress) returns (g0: Progress, e: Event)
    requires Reached(ctx, before, g)
    requires g.Finished? || (g.Running? && (g.rounds != [] || g.expirations != []))
    ensures Reached(ctx, before, g0)
    ensures ProgressWord(g) == ProgressWord(g0) + [e]
    ensures KeyStep(ctx, StateAfter(ctx, before, g0), e) == Success(StateAfter(ctx, before, g))
  {
    hide PlanHash, Expiry, CheckObserver, CompleteEvent, LifetimeAllowed, EffectiveProfile, RoundsWord, Opened, Prefix,
      OpeningValid, OpeningShape;
    if g.Finished? {
      g0, e := Running(g.o, g.c.rounds, []), g.c.deleteObserved;
    } else if g.expirations != [] {
      var n := |g.expirations| - 1;
      g0, e := Running(g.o, g.rounds, g.expirations[..n]), g.expirations[n];
      assert g.expirations == g.expirations[..n] + [e];
    } else {
      var n := |g.rounds| - 1;
      var r := g.rounds[n];
      g0, e := Running(g.o, g.rounds[..n], r.expirations), r.deleteIntent;
      assert g.rounds == g.rounds[..n] + [r];
      NextRound(g.rounds[..n], r);
    }
  }

  lemma StartReached(ctx: PolicyContext, before: Option<Tracked>)
    ensures Reached(ctx, before, Start(before)) && ProgressWord(Start(before)) == []
    ensures StateAfter(ctx, before, Start(before)) == KeyState(before, None)
  {
  }

  ghost predicate SessionTrace(trace: seq<Event>) {
    forall i :: 0 <= i < |trace| ==> SessionType(trace[i].eventType)
  }

  lemma {:induction false} ReplayReaches(ctx: PolicyContext, before: Option<Tracked>, trace: seq<Event>)
    returns (g: Progress)
    requires SessionTrace(trace) && KeyReplay(ctx, KeyState(before, None), trace).Success?
    ensures Reached(ctx, before, g) && ProgressWord(g) == trace
    ensures KeyReplay(ctx, KeyState(before, None), trace).value == StateAfter(ctx, before, g)
    decreases |trace|
  {
    hide KeyStep, Reached, StateAfter, ProgressWord, Start;
    if trace == [] {
      g := Start(before);
      StartReached(ctx, before);
    } else {
      var n := |trace| - 1;
      var g0 := ReplayReaches(ctx, before, trace[..n]);
      g := StepProgress(ctx, before, g0, trace[n]);
      assert trace[..n] + [trace[n]] == trace;
    }
  }

  lemma {:induction false} ReachedReplays(ctx: PolicyContext, before: Option<Tracked>, g: Progress)
    requires Reached(ctx, before, g)
    ensures KeyReplay(ctx, KeyState(before, None), ProgressWord(g)) == Success(StateAfter(ctx, before, g))
    decreases |ProgressWord(g)|
  {
    hide KeyStep;
    if g != Start(before) {
      var g0, e := UnstepProgress(ctx, before, g);
      ReachedReplays(ctx, before, g0);
      assert ProgressWord(g)[..|ProgressWord(g0)|] == ProgressWord(g0);
    }
  }

  predicate Rests(ks: KeyState) {
    ks.stage.None? || Settled(ks.stage.value.phase)
  }

  /**
   One key's machine, started on a tracked session or on none, comes to rest after a trace exactly when the
   trace is a word of the grammar.
   */
  lemma KeyAccepts(ctx: PolicyContext, trace: seq<Event>, before: Option<Tracked>, after: Option<Tracked>)
    requires SessionTrace(trace)
    ensures KeyRestsAt(ctx, trace, before, after) <==> IsWord(ctx, trace, before, after)
  {
    hide IsWord, KeyReplay;
    if KeyRestsAt(ctx, trace, before, after) {
      RestIsWord(ctx, trace, before, after);
    }
    if IsWord(ctx, trace, before, after) {
      WordRests(ctx, trace, before, after);
    }
  }

  ghost predicate KeyRestsAt(ctx: PolicyContext, trace: seq<Event>, before: Option<Tracked>, after: Option<Tracked>) {
    var r := KeyReplay(ctx, KeyState(before, None), trace);
    r.Success? && Rests(r.value) && r.value.active == after
  }

  lemma RestIsWord(ctx: PolicyContext, trace: seq<Event>, before: Option<Tracked>, after: Option<Tracked>)
    requires SessionTrace(trace) && KeyRestsAt(ctx, trace, before, after)
    ensures IsWord(ctx, trace, before, after)
  {
    hide KeyReplay, OpeningValid, ClosingValid, RoundsWord, Opened;
    var g := ReplayReaches(ctx, before, trace);
    EmptyRounds();
    var w := match g
      case Running(o, _, _) => if o.Some? then Opens(o.value) else Quiet
      case Finished(o, c) => if o.Some? then Lives(o.value, c) else Closes(c)
      case _ => Quiet;
    assert WordOf(w) == trace && WordValid(ctx, w, before, after);
  }

  lemma WordRests(ctx: PolicyContext, trace: seq<Event>, before: Option<Tracked>, after: Option<Tracked>)
    requires IsWord(ctx, trace, before, after)
    ensures KeyRestsAt(ctx, trace, before, after)
  {
    hide KeyReplay, OpeningValid, ClosingValid, RoundsWord, Opened;
    var w :| WordOf(w) == trace && WordValid(ctx, w, before, after);
    EmptyRounds();
    var g := match w
      case Quiet => Start(before)
      case Opens(o) => Running(Some(o), [], [])
      case Closes(c) => Finished(None, c)
      case Lives(o, c) => Finished(Some(o), c);
    ReachedReplays(ctx, before, g);
    assert ProgressWord(g) == trace;
  }

  // ---------- from one key to all of them ----------

  predicate Concerns(e: Event, k: string) {
    SessionType(e.eventType) && SessionKey(e) == k
  }

  /** The lifecycle events of one session key, in order. */
  function Project(events: seq<Event>, k: string): seq<Event> {
    if events == [] then []
    else
      var n := |events| - 1;
      Project(events[..n], k) + if Concerns(events[n], k) then [events[n]] else []
  }

  lemma {:induction false} ProjectConcat(a: seq<Event>, b: seq<Event>, k: string)
    ensures Project(a + b, k) == Project(a, k) + Project(b, k)
    decreases |b|
  {
    hide SessionKey;
    if b == [] {
      assert a + b == a;
    } else {
      var n := |b| - 1;
      ProjectConcat(a, b[..n], k);
      assert (a + b)[..|a| + n] == a + b[..n];
    }
  }

  lemma {:induction false} ProjectIsSessionTrace(events: seq<Event>, k: string)
    ensures SessionTrace(Project(events, k))
    decreases |events|
  {
    hide SessionKey;
    if events != [] {
      ProjectIsSessionTrace(events[..|events| - 1], k);
    }
  }

  ghost predicate Admitted(ctx: PolicyContext, events: seq<Event>) {
    forall i :: 0 <= i < |events| ==> AllowedType(events[i].eventType) && InScope(ctx, events[i])
  }

  /** One event moves the machine of its own key and no other. */
  lemma StepIsLocal(ctx: PolicyContext, st: PolicyState, e: Event, k: string)
    requires AllowedType(e.eventType) && InScope(ctx, e)
    ensures PolicyStep(ctx, st, e).Success? && k != SessionKey(e) ==>
        View(PolicyStep(ctx, st, e).value, k) == View(st, k)
    ensures k == SessionKey(e) ==>
      (match PolicyStep(ctx, st, e)
       case Failure(err) => KeyStep(ctx, View(st, k), e) == Failure(err)
       case Success(st') => KeyStep(ctx, View(st, k), e) == Success(View(st', k)))
    ensures !SessionType(e.eventType) ==> PolicyStep(ctx, st, e) == Success(st)
  {
    if !SessionType(e.eventType) {
      UpdateIs(st, SessionKey(e), st);
    }
  }

  /** The replay over all keys is the product of the replays of each key's projection. */
  lemma {:induction false} ReplayIsProduct(ctx: PolicyContext, st: PolicyState, events: seq<Event>)
    ensures Replay(ctx, st, events).Success? <==>
              Admitted(ctx, events) && forall k :: KeyReplay(ctx, View(st, k), Project(events, k)).Success?
    ensures Replay(ctx, st, events).Success? ==>
              forall k :: KeyReplay(ctx, View(st, k), Project(events, k))
                == Success(View(Replay(ctx, st, events).value, k))
    decreases |events|
  {
    hide KeyStep, SessionKey, PolicyStep, InScope;
    if events != [] {
      var n := |events| - 1;
      var e := events[n];
      var head := events[..n];
      ReplayIsProduct(ctx, st, head);
      if Replay(ctx, st, head).Success? {
        var mid := Replay(ctx, st, head).value;
        ProductStep(ctx, st, events);
      } else {
        assert Replay(ctx, st, events).Failure?;
        if Admitted(ctx, events) {
          assert Admitted(ctx, head);
          var k :| KeyReplay(ctx, View(st, k), Project(head, k)).Failure?;
          KeyFailureStays(ctx, View(st, k), head, e, k);
          assert head + [e] == events;
        }
      }
    }
  }

  lemma KeyFailureStays(ctx: PolicyContext, ks: KeyState, head: seq<Event>, e: Event, k: string)
    requires KeyReplay(ctx, ks, Project(head, k)).Failure?
    ensures KeyReplay(ctx, ks, Project(head + [e], k)).Failure?
  {
    hide KeyStep, SessionKey;
    assert (head + [e])[..|head|] == head;
    var t := Project(head, k);
    assert (t + [e])[..|t|] == t && t + [] == t;
  }

  lemma ProductStep(ctx: PolicyContext, st: PolicyState, events: seq<Event>)
    requires events != []
    requires var head := events[..|events| - 1];
      && Replay(ctx, st, head).Success? && Admitted(ctx, head)
      && forall k :: KeyReplay(ctx, View(st, k), Project(head, k)) == Success(View(Replay(ctx, st, head).value, k))
    ensures Replay(ctx, st, events).Success? <==>
              Admitted(ctx, events) && forall k :: KeyReplay(ctx, View(st, k), Project(events, k)).Success?
    ensures Replay(ctx, st, events).Success? ==>
              forall k :: KeyReplay(ctx, View(st, k), Project(events, k))
                == Success(View(Replay(ctx, st, events).value, k))
  {
    hide KeyStep, SessionKey, InScope, View, KeyReplay, Project, PolicyStep;
    var n := |events| - 1;
    var head, e := events[..n], events[n];
    var mid := Replay(ctx, st, head).value;
    if AllowedType(e.eventType) && InScope(ctx, e) {
      forall k
        ensures PolicyStep(ctx, mid, e).Success? ==>
                KeyReplay(ctx, View(st, k), Project(events, k)) == Success(View(PolicyStep(ctx, mid, e).value, k))
      {
        OneKeyStep(ctx, st, head, e, k);
        assert head + [e] == events;
      }
      OneKeyStep(ctx, st, head, e, SessionKey(e));
      assert head + [e] == events;
    } else {
      NotAdmitted(ctx, mid, e);
    }
  }

  lemma NotAdmitted(ctx: PolicyContext, st: PolicyState, e: Event)
    requires !(AllowedType(e.eventType) && InScope(ctx, e))
    ensures PolicyStep(ctx, st, e).Failure?
  {
  }

  /** The same event seen from one key: its own machine takes the step, or is not concerned. */
  lemma OneKeyStep(ctx: PolicyContext, st: PolicyState, head: seq<Event>, e: Event, k: string)
    requires AllowedType(e.eventType) && InScope(ctx, e) && Replay(ctx, st, head).Success?
    requires KeyReplay(ctx, View(st, k), Project(head, k)) == Success(View(Replay(ctx, st, head).value, k))
    ensures var stepped := PolicyStep(ctx, Replay(ctx, st, head).value, e);
      && (stepped.Success? ==>
            KeyReplay(ctx, View(st, k), Project(head + [e], k)) == Success(View(stepped.value, k)))
      && (stepped.Failure? && k == SessionKey(e) ==> KeyReplay(ctx, View(st, k), Project(head + [e], k)).Failure?)
  {
    hide KeyStep, SessionKey, InScope, View;
    assert (head + [e])[..|head|] == head;
    var t := Project(head, k);
    assert (t + [e])[..|t|] == t && t + [] == t;
    hide PolicyStep;
    StepIsLocal(ctx, Replay(ctx, st, head).value, e, k);
  }

  ghost predicate AllWords(ctx: PolicyContext, events: seq<Event>, before: ActiveMap, after: ActiveMap) {
    forall k :: IsWord(ctx, Project(events, k), Lookup(before, k), Lookup(after, k))
  }

  ghost predicate CheckpointAllowed(ctx: PolicyContext, createdAt: string, after: ActiveMap) {
    ctx.p.parseTime(createdAt).Some? && AllUnexpired(ctx.p, after, ctx.p.parseTime(createdAt).value)
  }

  /**
   A delta is acceptable and leaves `after` active exactly when every event is of an allowed type and in
   scope, every key's projection is a word of the grammar from its session before to its session after, and
   every session left active outlives the checkpoint.
   */
  lemma AppraisalIsGrammar(ctx: PolicyContext, ev: Evidence, before: ActiveMap, after: ActiveMap)
    ensures Appraise(ctx, ev, before) == Some(after) <==>
      Admitted(ctx, ev.events) && AllWords(ctx, ev.events, before, after)
      && CheckpointAllowed(ctx, ev.checkpoint.createdAt, after)
  {
    hide KeyStep, SessionKey, InScope, PolicyStep, IsWord, Unexpired;
    var start := PolicyState(before, map[]);
    var events := ev.events;
    ReplayIsProduct(ctx, start, events);
    forall k
      ensures KeyRestsAt(ctx, Project(events, k), Lookup(before, k), Lookup(after, k))
              <==> IsWord(ctx, Project(events, k), Lookup(before, k), Lookup(after, k))
    {
      ProjectIsSessionTrace(events, k);
      KeyAccepts(ctx, Project(events, k), Lookup(before, k), Lookup(after, k));
    }
    if Replay(ctx, start, events).Success? {
      var st := Replay(ctx, start, events).value;
      SettledIsRest(st);
      if AllWords(ctx, events, before, after) {
        SameLookups(st.active, after);
      }
    }
  }

  lemma SettledIsRest(st: PolicyState)
    ensures AllSettled(st.stages) <==> forall k :: Rests(View(st, k))
  {
    if forall k :: Rests(View(st, k)) {
      forall k | k in st.stages ensures Settled(st.stages[k].phase) {
        assert Rests(View(st, k));
      }
    }
  }

  // ---------- whole histories ----------

  datatype Life = Life(o: Opening, c: Option<Closing>)

  function LifeWord(l: Life): seq<Event> {
    OpeningWord(l.o) + if l.c.Some? then ClosingWord(l.c.value) else []
  }

  ghost predicate LifeShape(l: Life) {
    OpeningShape(l.o) && (l.c.Some? ==> ClosingShape(l.c.value, Opened(l.o)))
  }

  function LivesWord(lives: seq<Life>): seq<Event> {
    if lives == [] then [] else LivesWord(lives[..|lives| - 1]) + LifeWord(lives[|lives| - 1])
  }

  /** Complete lives one after the other; the last may be open, and is open exactly when the key is active. */
  ghost predicate LivesShape(lives: seq<Life>, active: Option<Tracked>) {
    && (forall i :: 0 <= i < |lives| ==> LifeShape(lives[i]))
    && (forall i :: 0 <= i < |lives| - 1 ==> lives[i].c.Some?)
    && active == if lives != [] && lives[|lives| - 1].c.None? then Some(Opened(lives[|lives| - 1].o)) else None
  }

  ghost predicate KeyHistory(trace: seq<Event>, active: Option<Tracked>) {
    exists lives :: LivesWord(lives) == trace && LivesShape(lives, active)
  }

  lemma WordContinuesHistory(ctx: PolicyContext, trace: seq<Event>, delta: seq<Event>, before: Option<Tracked>,
                             after: Option<Tracked>)
    requires KeyHistory(trace, before) && IsWord(ctx, delta, before, after)
    ensures KeyHistory(trace + delta, after)
  {
    hide OpeningShape, ClosingShape, OpeningWord, ClosingWord, Opened;
    var lives :| LivesWord(lives) == trace && LivesShape(lives, before);
    var w :| WordOf(w) == delta && WordValid(ctx, w, before, after);
    WordIsShaped(ctx, w, before, after);
    match w
    case Quiet => assert trace + delta == trace;
    case Opens(o) => AddLife(lives, Life(o, None));
    case Closes(c) => CloseLife(lives, c);
    case Lives(o, c) => AddLife(lives, Life(o, Some(c)));
  }

  lemma WordIsShaped(ctx: PolicyContext, w: KeyWord, before: Option<Tracked>, after: Option<Tracked>)
    requires WordValid(ctx, w, before, after)
    ensures w.Opens? || w.Lives? ==> OpeningShape(w.o)
    ensures w.Closes? ==> ClosingShape(w.c, before.value)
    ensures w.Lives? ==> ClosingShape(w.c, Opened(w.o))
  {
  }

  lemma AddLife(lives: seq<Life>, l: Life)
    requires LivesShape(lives, None) && LifeShape(l)
    ensures KeyHistory(LivesWord(lives) + LifeWord(l), if l.c.Some? then None else Some(Opened(l.o)))
  {
    hide OpeningShape, ClosingShape, LifeWord, Opened;
    var lives' := lives + [l];
    NextLife(lives, l);
    assert LivesShape(lives', if l.c.Some? then None else Some(Opened(l.o)));
  }

  lemma CloseLife(lives: seq<Life>, c: Closing)
    requires lives != [] && lives[|lives| - 1].c.None? && OpeningShape(lives[|lives| - 1].o)
    requires LivesShape(lives, Some(Opened(lives[|lives| - 1].o))) && ClosingShape(c, Opened(lives[|lives| - 1].o))
    ensures KeyHistory(LivesWord(lives) + ClosingWord(c), None)
  {
    hide OpeningShape, ClosingShape, ClosingWord, Opened, LivesWord, LivesShape;
    var closed := lives[..|lives| - 1] + [Life(lives[|lives| - 1].o, Some(c))];
    CloseLifeWord(lives, c);
    CloseLifeShape(lives, c);
    assert LivesWord(closed) == LivesWord(lives) + ClosingWord(c) && LivesShape(closed, None);
  }

  lemma CloseLifeWord(lives: seq<Life>, c: Closing)
    requires lives != [] && lives[|lives| - 1].c.None?
    ensures LivesWord(lives[..|lives| - 1] + [Life(lives[|lives| - 1].o, Some(c))]) == LivesWord(lives) + ClosingWord(c)
  {
    hide OpeningWord, ClosingWord, LivesWord;
    var n := |lives| - 1;
    var head, o := lives[..n], lives[n].o;
    assert lives == head + [lives[n]];
    NextLife(head, lives[n]);
    NextLife(head, Life(o, Some(c)));
    LivesGrouping(LivesWord(head), OpeningWord(o), ClosingWord(c));
  }

  lemma CloseLifeShape(lives: seq<Life>, c: Closing)
    requires lives != [] && OpeningShape(lives[|lives| - 1].o) && ClosingShape(c, Opened(lives[|lives| - 1].o))
    requires LivesShape(lives, Some(Opened(lives[|lives| - 1].o)))
    ensures LivesShape(lives[..|lives| - 1] + [Life(lives[|lives| - 1].o, Some(c))], None)
  {
    hide OpeningShape, ClosingShape, Opened;
    var lives' := lives[..|lives| - 1] + [Life(lives[|lives| - 1].o, Some(c))];
    forall i | 0 <= i < |lives'| ensures LifeShape(lives'[i]) && (i < |lives'| - 1 ==> lives'[i].c.Some?) {
      if i < |lives| - 1 {
        assert lives'[i] == lives[i];
      }
    }
  }

  lemma NextLife(lives: seq<Life>, l: Life)
    ensures LivesWord(lives + [l]) == LivesWord(lives) + LifeWord(l)
  {
    assert (lives + [l])[..|lives|] == lives;
  }

  lemma LivesGrouping(a: seq<Event>, b: seq<Event>, c: seq<Event>)
    ensures a + (b + c) == (a + (b + [])) + c
  {
    assert b + [] == b;
  }

  datatype Appraisal = Appraisal(ctx: PolicyContext, ev: Evidence)

  /** The active map after deltas accepted one after the other, each under its own request. */
  ghost function FinalActive(run: seq<Appraisal>): Option<ActiveMap> {
    if run == [] then Some(map[])
    else
      match FinalActive(run[..|run| - 1])
      case None => None
      case Some(active) => Appraise(run[|run| - 1].ctx, run[|run| - 1].ev, active)
  }

  function DeltaEvents(run: seq<Appraisal>): seq<Event> {
    if run == [] then [] else DeltaEvents(run[..|run| - 1]) + run[|run| - 1].ev.events
  }

  /**
   Over any sequence of accepted deltas, whatever was submitted: each key's events are complete lives, the
   last one possibly still open, and the stored active map holds exactly the keys whose last life is open,
   with the facts of that life.
   */
  lemma {:induction false} AcceptedHistoriesAreLives(run: seq<Appraisal>)
    requires FinalActive(run).Some?
    ensures forall k :: KeyHistory(Project(DeltaEvents(run), k), Lookup(FinalActive(run).value, k))
    decreases |run|
  {
    hide Appraise, Project, KeyHistory, IsWord;
    if run == [] {
      forall k ensures KeyHistory(Project(DeltaEvents(run), k), None) {
        NoEventsNoLives(k);
      }
    } else {
      var n := |run| - 1;
      AcceptedHistoriesAreLives(run[..n]);
      var before, after := FinalActive(run[..n]).value, FinalActive(run).value;
      AppraisalIsGrammar(run[n].ctx, run[n].ev, before, after);
      forall k ensures KeyHistory(Project(DeltaEvents(run), k), Lookup(after, k)) {
        ProjectConcat(DeltaEvents(run[..n]), run[n].ev.events, k);
        WordContinuesHistory(run[n].ctx, Project(DeltaEvents(run[..n]), k), Project(run[n].ev.events, k),
                             Lookup(before, k), Lookup(after, k));
      }
    }
  }

  lemma NoEventsNoLives(k: string)
    ensures KeyHistory(Project([], k), None)
  {
    assert LivesWord([]) == [] && LivesShape([], None);
  }
}
