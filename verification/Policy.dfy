/**
 verifyEnforcementPolicy of verifier/main.go: the Verifier replays a delta through a per-session lifecycle
 machine that updates its map of active sessions.
 */
module Policy {
  import opened Wrappers
  import opened Protocol
  import opened Text
  import opened Attest

  /** A session the Verifier tracks between deltas. */
  datatype Tracked = Tracked(
    serviceID: string,
    clientPubKey: string,
    clientInnerIP: string,
    clientInSPI: string,
    pepInSPI: string,
    reqID: nat,
    expiresAt: string,
    xfrmPlanHash: string)

  datatype Phase = ApplyIntent | ApplyObserved | Active | Expired | DeleteIntent | Deleted

  datatype Stage = Stage(phase: Phase, xfrmPlanHash: string)

  type ActiveMap = map<string, Tracked>

  /** What a request and the Verifier's configuration fix for one appraisal. */
  datatype PolicyContext = PolicyContext(p: Primitives, scope: seq<string>, maxSALifetime: int,
                                         requiredObserver: string)

  datatype PolicyError =
    | UnsupportedType
    | OutsideScope
    | IncompleteEvent
    | AlreadyActive
    | OverlappingIntent
    | MissingPlanHash
    | BadLifetime
    | UnmatchedObservation
    | PlanMismatch
    | NotObserved
    | ProfileMissing
    | UnsupportedProfile
    | UnobservedActivation
    | MissingExpiry
    | UnknownSession
    | ExpirationMismatch
    | NotExpired
    | IncompleteTransaction
    | BadCheckpointTime
    | ExpiredStillActive

  // ---------- event facts ----------

  const APPLY_INTENT := "xfrm_apply_intent"
  const APPLY_OBSERVED := "xfrm_apply_observed"
  const ACTIVATED := "session_activated"
  const EXPIRED := "session_expired"
  const DELETE_INTENT := "xfrm_delete_intent"
  const DELETE_OBSERVED := "xfrm_delete_observed"

  predicate SessionType(t: string) {
    t in {APPLY_INTENT, APPLY_OBSERVED, ACTIVATED, EXPIRED, DELETE_INTENT, DELETE_OBSERVED}
  }

  predicate AllowedType(t: string) {
    t in {"pep_start", "capacity_requested", "capacity_accepted"} || SessionType(t)
  }

  function Join(parts: seq<string>): string {
    if parts == [] then ""
    else if |parts| == 1 then parts[0]
    else parts[0] + "|" + Join(parts[1..])
  }

  /** The fields a session is keyed by, in order. */
  function KeyParts(clientPubKey: string, serviceID: string, clientOuterIP: string, clientInnerIP: string,
                    clientInSPI: string, pepInSPI: string, reqID: nat): seq<string>
  {
    [clientPubKey, serviceID, clientOuterIP, clientInnerIP, clientInSPI, pepInSPI, Decimal(reqID)]
  }

  function KeyFields(e: Event): seq<string> {
    KeyParts(e.clientPubKey, e.serviceID, e.clientOuterIP, e.clientInnerIP, e.clientInSPI, e.pepInSPI, e.reqID)
  }

  /** The string the Verifier keys its maps with. */
  function SessionKey(e: Event): string {
    Join(KeyFields(e))
  }

  function Meta(e: Event, key: string): string {
    if e.metadata.Some? && key in e.metadata.value then e.metadata.value[key] else ""
  }

  function Expiry(e: Event): string {
    TrimSpace(Meta(e, "expires_at"))
  }

  predicate InScope(ctx: PolicyContext, e: Event) {
    e.serviceID == "" || Contains(ctx.scope, e.serviceID) || Contains(ctx.scope, "*")
  }

  predicate CompleteEvent(e: Event) {
    && e.serviceID != "" && e.clientPubKey != "" && e.clientInSPI != "" && e.pepInSPI != ""
    && e.clientInnerIP != "" && e.clientOuterIP != "" && e.reqID != 0
  }

  /** requireXFRMPlanHash. */
  function PlanHash(e: Event): Option<string> {
    var h := Meta(e, "xfrm_plan_hash");
    if TrimSpace(h) == "" || h == "hash_error" then None else Some(h)
  }

  function EffectiveProfile(raw: string): string {
    if TrimSpace(raw) == "" then "posthoc" else ToLower(TrimSpace(raw))
  }

  function Normalised(s: string): string {
    ToLower(TrimSpace(s))
  }

  /** The part of verifyObservedEvent that looks at the observer's metadata. */
  function CheckObserver(e: Event, outcome: string, profile: string): Outcome<PolicyError> {
    var mode, source, value :=
      Normalised(Meta(e, "xfrm_mode")), Normalised(Meta(e, "observer_source")), Normalised(Meta(e, outcome));
    if profile == "dry-run" then
      if mode == "apply" || value != "assumed" then Fail(NotObserved) else Pass
    else if mode != "apply" || value != "true" then Fail(NotObserved)
    else if profile == "posthoc" then
      if source != "posthoc" && source != "posthoc+ebpf" then Fail(ProfileMissing) else Pass
    else if profile == "hybrid" then
      if source != "posthoc+ebpf" || Meta(e, "ebpf_matched") != "true" then Fail(ProfileMissing) else Pass
    else if profile == "ebpf" then
      if source != "ebpf" || Meta(e, "ebpf_matched") != "true" then Fail(ProfileMissing) else Pass
    else Fail(UnsupportedProfile)
  }

  function VerifyObservedEvent(e: Event, outcome: string, profile: string, expectedPlan: string): Outcome<PolicyError> {
    match PlanHash(e)
    case None => Fail(MissingPlanHash)
    case Some(h) => if h != expectedPlan then Fail(PlanMismatch) else CheckObserver(e, outcome, profile)
  }

  /** validateSessionLifetime. */
  predicate LifetimeAllowed(ctx: PolicyContext, e: Event) {
    && Expiry(e) != ""
    && ctx.p.parseTime(Expiry(e)).Some?
    && ctx.p.parseTime(e.timestamp).Some?
    && (ctx.maxSALifetime > 0 ==>
          ctx.p.parseTime(Expiry(e)).value - ctx.p.parseTime(e.timestamp).value <= (ctx.maxSALifetime + 1) * SECOND)
  }

  /** validateExpirationEvent. */
  predicate ExpirationAllowed(p: Primitives, e: Event, tracked: Tracked) {
    && Expiry(e) == tracked.expiresAt
    && p.parseTime(tracked.expiresAt).Some?
    && p.parseTime(e.timestamp).Some?
    && p.parseTime(e.timestamp).value >= p.parseTime(tracked.expiresAt).value
  }

  function Track(e: Event, plan: string): Tracked {
    Tracked(e.serviceID, e.clientPubKey, e.clientInnerIP, e.clientInSPI, e.pepInSPI, e.reqID, Expiry(e), plan)
  }

  // ---------- the lifecycle machine of one session key ----------

  datatype KeyState = KeyState(active: Option<Tracked>, stage: Option<Stage>)

  predicate In(ks: KeyState, phase: Phase) {
    ks.stage.Some? && ks.stage.value.phase == phase
  }

  function KeyStep(ctx: PolicyContext, ks: KeyState, e: Event): Result<KeyState, PolicyError> {
    var profile := EffectiveProfile(ctx.requiredObserver);
    if !SessionType(e.eventType) then Success(ks)
    else if !CompleteEvent(e) then Failure(IncompleteEvent)
    else if e.eventType == APPLY_INTENT then
      if ks.active.Some? then Failure(AlreadyActive)
      else if ks.stage.Some? then Failure(OverlappingIntent)
      else if PlanHash(e).None? then Failure(MissingPlanHash)
      else if !LifetimeAllowed(ctx, e) then Failure(BadLifetime)
      else Success(ks.(stage := Some(Stage(ApplyIntent, PlanHash(e).value))))
    else if e.eventType == APPLY_OBSERVED then
      if !In(ks, ApplyIntent) then Failure(UnmatchedObservation)
      else
        match VerifyObservedEvent(e, "applied", profile, ks.stage.value.xfrmPlanHash)
        case Fail(err) => Failure(err)
        case Pass => Success(ks.(stage := Some(Stage(ApplyObserved, ks.stage.value.xfrmPlanHash))))
    else if e.eventType == ACTIVATED then
      if !In(ks, ApplyObserved) then Failure(UnobservedActivation)
      else if Expiry(e) == "" then Failure(MissingExpiry)
      else
        var plan := ks.stage.value.xfrmPlanHash;
        Success(KeyState(Some(Track(e, plan)), Some(Stage(Active, plan))))
    else if e.eventType == EXPIRED then
      if ks.active.None? then Failure(UnknownSession)
      else if !ExpirationAllowed(ctx.p, e, ks.active.value) then Failure(ExpirationMismatch)
      else Success(ks.(stage := Some(Stage(Expired, ks.active.value.xfrmPlanHash))))
    else if e.eventType == DELETE_INTENT then
      if ks.active.None? then Failure(UnknownSession)
      else if !In(ks, Expired) then Failure(NotExpired)
      else if PlanHash(e).None? then Failure(MissingPlanHash)
      else if PlanHash(e).value != ks.active.value.xfrmPlanHash then Failure(PlanMismatch)
      else Success(ks.(stage := Some(Stage(DeleteIntent, PlanHash(e).value))))
    else
      if !In(ks, DeleteIntent) then Failure(UnmatchedObservation)
      else
        match VerifyObservedEvent(e, "deleted", profile, ks.stage.value.xfrmPlanHash)
        case Fail(err) => Failure(err)
        case Pass => Success(KeyState(None, Some(Stage(Deleted, ks.stage.value.xfrmPlanHash))))
  }

  // ---------- the machine over all keys ----------

  datatype PolicyState = PolicyState(active: ActiveMap, stages: map<string, Stage>)

  function Lookup<V>(m: map<string, V>, k: string): Option<V> {
    if k in m then Some(m[k]) else None
  }

  function Put<V>(m: map<string, V>, k: string, v: Option<V>): (r: map<string, V>)
    ensures forall x :: Lookup(r, x) == if x == k then v else Lookup(m, x)
  {
    if v.Some? then m[k := v.value] else m - {k}
  }

  function View(st: PolicyState, k: string): KeyState {
    KeyState(Lookup(st.active, k), Lookup(st.stages, k))
  }

  function Update(st: PolicyState, k: string, ks: KeyState): PolicyState {
    PolicyState(Put(st.active, k, ks.active), Put(st.stages, k, ks.stage))
  }

  function PolicyStep(ctx: PolicyContext, st: PolicyState, e: Event): Result<PolicyState, PolicyError> {
    if !AllowedType(e.eventType) then Failure(UnsupportedType)
    else if !InScope(ctx, e) then Failure(OutsideScope)
    else
      match KeyStep(ctx, View(st, SessionKey(e)), e)
      case Failure(err) => Failure(err)
      case Success(ks) => Success(Update(st, SessionKey(e), ks))
  }

  function Replay(ctx: PolicyContext, st: PolicyState, events: seq<Event>): Result<PolicyState, PolicyError>
    decreases |events|
  {
    if events == [] then Success(st)
    else
      var n := |events| - 1;
      match Replay(ctx, st, events[..n])
      case Failure(err) => Failure(err)
      case Success(mid) => PolicyStep(ctx, mid, events[n])
  }

  predicate Settled(phase: Phase) {
    phase == Active || phase == Deleted
  }

  ghost predicate AllSettled(stages: map<string, Stage>) {
    forall k :: k in stages ==> Settled(stages[k].phase)
  }

  predicate Unexpired(p: Primitives, tracked: Tracked, at: int) {
    p.parseTime(tracked.expiresAt).Some? && at < p.parseTime(tracked.expiresAt).value
  }

  ghost predicate AllUnexpired(p: Primitives, active: ActiveMap, at: int) {
    forall k :: k in active ==> Unexpired(p, active[k], at)
  }

  /** No open transaction, and every active session outlives the checkpoint. */
  ghost predicate AtCheckpoint(p: Primitives, st: PolicyState, createdAt: string) {
    && AllSettled(st.stages)
    && p.parseTime(createdAt).Some?
    && AllUnexpired(p, st.active, p.parseTime(createdAt).value)
  }

  /** The active map after an acceptable delta. */
  ghost function Appraise(ctx: PolicyContext, ev: Evidence, active: ActiveMap): Option<ActiveMap> {
    match Replay(ctx, PolicyState(active, map[]), ev.events)
    case Failure(_) => None
    case Success(st) => if AtCheckpoint(ctx.p, st, ev.checkpoint.createdAt) then Some(st.active) else None
  }

  // ---------- the loop over map-valued state ----------

  method StepSession(ctx: PolicyContext, profile: string, e: Event, active0: ActiveMap, stages0: map<string, Stage>)
    returns (err: Option<PolicyError>, active: ActiveMap, stages: map<string, Stage>)
    requires profile == EffectiveProfile(ctx.requiredObserver)
    requires SessionType(e.eventType) && InScope(ctx, e)
    ensures err.Some? ==> PolicyStep(ctx, PolicyState(active0, stages0), e) == Failure(err.value)
    ensures err.None? ==> PolicyStep(ctx, PolicyState(active0, stages0), e) == Success(PolicyState(active, stages))
  {
    hide SessionKey, CompleteEvent, InScope, PlanHash, Expiry, LifetimeAllowed, ExpirationAllowed, VerifyObservedEvent,
      EffectiveProfile;
    active, stages, err := active0, stages0, None;
    if !CompleteEvent(e) {
      return Some(IncompleteEvent), active, stages;
    }
    var key := SessionKey(e);
    if e.eventType == APPLY_INTENT {
      if key in active {
        return Some(AlreadyActive), active, stages;
      }
      if key in stages {
        return Some(OverlappingIntent), active, stages;
      }
      var plan := PlanHash(e);
      if plan.None? {
        return Some(MissingPlanHash), active, stages;
      }
      if !LifetimeAllowed(ctx, e) {
        return Some(BadLifetime), active, stages;
      }
      stages := stages[key := Stage(ApplyIntent, plan.value)];
    } else if e.eventType == APPLY_OBSERVED {
      if key !in stages || stages[key].phase != ApplyIntent {
        return Some(UnmatchedObservation), active, stages;
      }
      var v := VerifyObservedEvent(e, "applied", profile, stages[key].xfrmPlanHash);
      if v.Fail? {
        return Some(v.error), active, stages;
      }
      stages := stages[key := Stage(ApplyObserved, stages[key].xfrmPlanHash)];
    } else if e.eventType == ACTIVATED {
      if key !in stages || stages[key].phase != ApplyObserved {
        return Some(UnobservedActivation), active, stages;
      }
      if Expiry(e) == "" {
        return Some(MissingExpiry), active, stages;
      }
      active := active[key := Track(e, stages[key].xfrmPlanHash)];
      stages := stages[key := Stage(Active, stages[key].xfrmPlanHash)];
    } else if e.eventType == EXPIRED {
      if key !in active {
        return Some(UnknownSession), active, stages;
      }
      if !ExpirationAllowed(ctx.p, e, active[key]) {
        return Some(ExpirationMismatch), active, stages;
      }
      stages := stages[key := Stage(Expired, active[key].xfrmPlanHash)];
    } else if e.eventType == DELETE_INTENT {
      if key !in active {
        return Some(UnknownSession), active, stages;
      }
      if key !in stages || stages[key].phase != Expired {
        return Some(NotExpired), active, stages;
      }
      var plan := PlanHash(e);
      if plan.None? {
        return Some(MissingPlanHash), active, stages;
      }
      if plan.value != active[key].xfrmPlanHash {
        return Some(PlanMismatch), active, stages;
      }
      stages := stages[key := Stage(DeleteIntent, plan.value)];
    } else {
      if key !in stages || stages[key].phase != DeleteIntent {
        return Some(UnmatchedObservation), active, stages;
      }
      var v := VerifyObservedEvent(e, "deleted", profile, stages[key].xfrmPlanHash);
      if v.Fail? {
        return Some(v.error), active, stages;
      }
      active := active - {key};
      stages := stages[key := Stage(Deleted, stages[key].xfrmPlanHash)];
    }
    UpdateIs(PolicyState(active0, stages0), key, PolicyState(active, stages));
  }

  lemma UpdateIs(st: PolicyState, k: string, st': PolicyState)
    requires st'.active - {k} == st.active - {k} && st'.stages - {k} == st.stages - {k}
    ensures Update(st, k, View(st', k)) == st'
  {
    PutIs(st.active, k, st'.active);
    PutIs(st.stages, k, st'.stages);
  }

  lemma PutIs<V>(m: map<string, V>, k: string, m': map<string, V>)
    requires m' - {k} == m - {k}
    ensures Put(m, k, Lookup(m', k)) == m'
  {
    forall x | x != k ensures Lookup(m, x) == Lookup(m', x) {
      assert Lookup(m, x) == Lookup(m - {k}, x);
      assert Lookup(m', x) == Lookup(m' - {k}, x);
    }
    SameLookups(Put(m, k, Lookup(m', k)), m');
  }

  lemma SameLookups<V>(a: map<string, V>, b: map<string, V>)
    requires forall x :: Lookup(a, x) == Lookup(b, x)
    ensures a == b
  {
    assert forall x :: x in a <==> Lookup(a, x).Some?;
    assert forall x :: x in b <==> Lookup(b, x).Some?;
    forall x | x in a ensures a[x] == b[x] {
      assert Lookup(a, x) == Lookup(b, x);
    }
  }

  method VerifyEnforcementPolicy(ctx: PolicyContext, ev: Evidence, tracked: ActiveMap)
    returns (r: Result<ActiveMap, PolicyError>)
    ensures r.Success? <==> Appraise(ctx, ev, tracked).Some?
    ensures r.Success? ==> r.value == Appraise(ctx, ev, tracked).value
  {
    var profile := EffectiveProfile(ctx.requiredObserver);
    var active, stages: map<string, Stage> := tracked, map[];
    ghost var start := PolicyState(tracked, map[]);
    for i := 0 to |ev.events|
      invariant Replay(ctx, start, ev.events[..i]) == Success(PolicyState(active, stages))
    {
      var e := ev.events[i];
      ReplayNext(ctx, start, ev.events, i);
      if !AllowedType(e.eventType) {
        ReplayStaysFailed(ctx, start, ev.events, i + 1);
        return Failure(UnsupportedType);
      }
      if !InScope(ctx, e) {
        ReplayStaysFailed(ctx, start, ev.events, i + 1);
        return Failure(OutsideScope);
      }
      if SessionType(e.eventType) {
        var err;
        err, active, stages := StepSession(ctx, profile, e, active, stages);
        if err.Some? {
          ReplayStaysFailed(ctx, start, ev.events, i + 1);
          return Failure(err.value);
        }
      } else {
        UpdateIs(PolicyState(active, stages), SessionKey(e), PolicyState(active, stages));
      }
    }
    assert ev.events[..|ev.events|] == ev.events;
    var settled := StagesSettled(stages);
    if !settled {
      return Failure(IncompleteTransaction);
    }
    var at := ctx.p.parseTime(ev.checkpoint.createdAt);
    if at.None? {
      return Failure(PolicyError.BadCheckpointTime);
    }
    var unexpired := SessionsUnexpired(ctx.p, active, at.value);
    if !unexpired {
      return Failure(ExpiredStillActive);
    }
    return Success(active);
  }

  /** The scan for transactions still open when the delta ends. */
  method StagesSettled(stages: map<string, Stage>) returns (ok: bool)
    ensures ok <==> AllSettled(stages)
  {
    var left := stages.Keys;
    while left != {}
      invariant left <= stages.Keys
      invariant forall k :: k in stages.Keys - left ==> Settled(stages[k].phase)
      decreases left
    {
      var k :| k in left;
      if !Settled(stages[k].phase) {
        return false;
      }
      left := left - {k};
    }
    ok := true;
  }

  /** The scan for sessions that should have been deleted by the checkpoint's time. */
  method SessionsUnexpired(p: Primitives, active: ActiveMap, at: int) returns (ok: bool)
    ensures ok <==> AllUnexpired(p, active, at)
  {
    var left := active.Keys;
    while left != {}
      invariant left <= active.Keys
      invariant forall k :: k in active.Keys - left ==> Unexpired(p, active[k], at)
      decreases left
    {
      var k :| k in left;
      if !Unexpired(p, active[k], at) {
        return false;
      }
      left := left - {k};
    }
    ok := true;
  }

  // ---------- replay and concatenation ----------

  lemma ReplayNext(ctx: PolicyContext, st: PolicyState, events: seq<Event>, i: nat)
    requires i < |events| && Replay(ctx, st, events[..i]).Success?
    ensures Replay(ctx, st, events[..i + 1]) == PolicyStep(ctx, Replay(ctx, st, events[..i]).value, events[i])
  {
    assert events[..i + 1][..i] == events[..i];
  }

  lemma {:induction false} ReplayStaysFailed(ctx: PolicyContext, st: PolicyState, events: seq<Event>, i: nat)
    requires i <= |events| && Replay(ctx, st, events[..i]).Failure?
    ensures Replay(ctx, st, events) == Replay(ctx, st, events[..i])
    decreases |events| - i
  {
    hide PolicyStep;
    if i == |events| {
      assert events[..i] == events;
    } else {
      assert events[..i + 1][..i] == events[..i];
      ReplayStaysFailed(ctx, st, events, i + 1);
    }
  }

  lemma {:induction false} ReplayConcat(ctx: PolicyContext, st: PolicyState, a: seq<Event>, b: seq<Event>)
    ensures Replay(ctx, st, a).Success? ==> Replay(ctx, st, a + b) == Replay(ctx, Replay(ctx, st, a).value, b)
    ensures Replay(ctx, st, a).Failure? ==> Replay(ctx, st, a + b) == Replay(ctx, st, a)
    decreases |b|
  {
    hide PolicyStep;
    if b == [] {
      assert a + b == a;
    } else {
      var n := |b| - 1;
      ReplayConcat(ctx, st, a, b[..n]);
      assert (a + b)[..|a| + n] == a + b[..n];
    }
  }
}
