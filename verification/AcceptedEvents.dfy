/**
 When the Verifier takes an event, spelt out in the event's fields and metadata, its timestamps and the request's
 limits, for each of the branches of verifier/main.go:266-415.
 */
module AcceptedEvents {
  import opened Wrappers
  import opened Protocol
  import opened Text
  import opened Attest
  import opened Policy

  /** The text an event carries under a key. */
  function Said(e: Event, key: string): string {
    match e.metadata
    case None => ""
    case Some(m) => if key in m then m[key] else ""
  }

  /** The service is one of the request's scopes, or none is named, or every service is in scope. */
  ghost predicate Covered(scope: seq<string>, serviceID: string) {
    serviceID == "" || exists i :: 0 <= i < |scope| && (TrimSpace(scope[i]) == serviceID || TrimSpace(scope[i]) == "*")
  }

  predicate Identified(e: Event) {
    && |e.serviceID| > 0 && |e.clientPubKey| > 0 && |e.clientInSPI| > 0 && |e.pepInSPI| > 0
    && |e.clientInnerIP| > 0 && |e.clientOuterIP| > 0 && e.reqID > 0
  }

  /** Its plan hash, if it has a usable one. */
  predicate NamesPlan(e: Event, plan: string) {
    Said(e, "xfrm_plan_hash") == plan && TrimSpace(plan) != "" && plan != "hash_error"
  }

  /** A session of this expiry, set up at this event, lasts no longer than was asked for and one second. */
  predicate Bounded(p: Primitives, e: Event, seconds: int) {
    var until, from := p.parseTime(TrimSpace(Said(e, "expires_at"))), p.parseTime(e.timestamp);
    && TrimSpace(Said(e, "expires_at")) != "" && until.Some? && from.Some?
    && (seconds > 0 ==> until.value <= from.value + (seconds + 1) * 1_000_000_000)
  }

  /** What the PEP's observer reports of an operation, under each of the four profiles. */
  predicate Witnessed(e: Event, outcome: string, required: string) {
    var profile := if TrimSpace(required) == "" then "posthoc" else ToLower(TrimSpace(required));
    var mode, source, value := ToLower(TrimSpace(Said(e, "xfrm_mode"))), ToLower(TrimSpace(Said(e, "observer_source"))),
                               ToLower(TrimSpace(Said(e, outcome)));
    var matched := Said(e, "ebpf_matched") == "true";
    || (profile == "dry-run" && mode != "apply" && value == "assumed")
    || (profile == "posthoc" && mode == "apply" && value == "true" && (source == "posthoc" || source == "posthoc+ebpf"))
    || (profile == "hybrid" && mode == "apply" && value == "true" && source == "posthoc+ebpf" && matched)
    || (profile == "ebpf" && mode == "apply" && value == "true" && source == "ebpf" && matched)
  }

  /** What the Verifier remembers of an activated session. */
  function Remembered(e: Event, plan: string): Tracked {
    Tracked(e.serviceID, e.clientPubKey, e.clientInnerIP, e.clientInSPI, e.pepInSPI, e.reqID,
            TrimSpace(Said(e, "expires_at")), plan)
  }

  /** In this delta the key has come to this phase under this plan. */
  predicate Phased(st: PolicyState, k: string, phase: Phase, plan: string) {
    k in st.stages && st.stages[k] == Stage(phase, plan)
  }

  /** The seven fields, joined with bars. */
  lemma KeySpelledOut(e: Event)
    ensures SessionKey(e) ==
      e.clientPubKey + "|" + (e.serviceID + "|" + (e.clientOuterIP + "|" + (e.clientInnerIP + "|" + (
        e.clientInSPI + "|" + (e.pepInSPI + "|" + Decimal(e.reqID))))))
  {
    hide Decimal;
    var parts := KeyFields(e);
    JoinFirst(parts);
    JoinFirst(parts[1..]);
    JoinFirst(parts[2..]);
    JoinFirst(parts[3..]);
    JoinFirst(parts[4..]);
    JoinFirst(parts[5..]);
  }

  lemma JoinFirst(parts: seq<string>)
    requires |parts| > 1
    ensures Join(parts) == parts[0] + ("|" + Join(parts[1..]))
    ensures |parts| == 2 ==> Join(parts[1..]) == parts[1]
  {
    Grouped(parts[0], "|", Join(parts[1..]));
  }

  lemma Grouped(a: string, b: string, c: string)
    ensures a + b + c == a + (b + c)
  {
  }

  // ---------- one event ----------

  lemma SaidIsMeta(e: Event)
    ensures forall key :: Meta(e, key) == Said(e, key)
  {
  }

  lemma CoveredIsInScope(ctx: PolicyContext, e: Event)
    ensures InScope(ctx, e) <==> Covered(ctx.scope, e.serviceID)
  {
    hide TrimSpace;
    if Contains(ctx.scope, e.serviceID) {
      var i :| 0 <= i < |ctx.scope| && Trimmed(ctx.scope)[i] == e.serviceID;
    } else if Contains(ctx.scope, "*") {
      var i :| 0 <= i < |ctx.scope| && Trimmed(ctx.scope)[i] == "*";
    }
    forall i | 0 <= i < |ctx.scope| ensures Trimmed(ctx.scope)[i] == TrimSpace(ctx.scope[i]) {
    }
  }

  /** Events of no session are taken in scope and change nothing; there are three kinds, and six of sessions. */
  lemma QuietExactly(ctx: PolicyContext, st: PolicyState, e: Event)
    requires e.eventType !in {"xfrm_apply_intent", "xfrm_apply_observed", "session_activated", "session_expired",
                              "xfrm_delete_intent", "xfrm_delete_observed"}
    ensures PolicyStep(ctx, st, e).Success? <==>
      e.eventType in {"pep_start", "capacity_requested", "capacity_accepted"} && Covered(ctx.scope, e.serviceID)
    ensures PolicyStep(ctx, st, e).Success? ==> PolicyStep(ctx, st, e).value == st
  {
    hide SessionKey;
    CoveredIsInScope(ctx, e);
    hide InScope, Covered;
    if PolicyStep(ctx, st, e).Success? {
      UpdateIs(st, SessionKey(e), st);
    }
  }

  /** An apply intent is taken for a key of which nothing is known, under a plan, for a time within the cap. */
  lemma IntentExactly(ctx: PolicyContext, st: PolicyState, e: Event)
    requires e.eventType == "xfrm_apply_intent"
    ensures var k, r := SessionKey(e), PolicyStep(ctx, st, e);
      && (r.Success? <==>
            && Covered(ctx.scope, e.serviceID) && Identified(e) && NamesPlan(e, Said(e, "xfrm_plan_hash"))
            && Bounded(ctx.p, e, ctx.maxSALifetime)
            && k !in st.active && k !in st.stages)
      && (r.Success? ==>
            r.value == st.(stages := st.stages[k := Stage(ApplyIntent, Said(e, "xfrm_plan_hash"))]))
  {
    hide SessionKey, TrimSpace;
    CoveredIsInScope(ctx, e);
    SaidIsMeta(e);
    hide InScope, Covered, Meta, Said;
    if PolicyStep(ctx, st, e).Success? {
      var k := SessionKey(e);
      UpdateIs(st, k, st.(stages := st.stages[k := Stage(ApplyIntent, Meta(e, "xfrm_plan_hash"))]));
    }
  }

  /** An observation of an apply follows the intent, under its plan, and says that the operation was seen to succeed. */
  lemma ObservationExactly(ctx: PolicyContext, st: PolicyState, e: Event)
    requires e.eventType == "xfrm_apply_observed"
    ensures var k, r, plan := SessionKey(e), PolicyStep(ctx, st, e), Said(e, "xfrm_plan_hash");
      && (r.Success? <==>
            && Covered(ctx.scope, e.serviceID) && Identified(e) && NamesPlan(e, plan)
            && Phased(st, k, ApplyIntent, plan) && Witnessed(e, "applied", ctx.requiredObserver))
      && (r.Success? ==> r.value == st.(stages := st.stages[k := Stage(ApplyObserved, plan)]))
  {
    hide SessionKey, TrimSpace, ToLower;
    CoveredIsInScope(ctx, e);
    SaidIsMeta(e);
    WitnessedIsObserved(ctx, e, "applied");
    hide InScope, Covered, Meta, Said, CheckObserver, Witnessed;
    if PolicyStep(ctx, st, e).Success? {
      var k := SessionKey(e);
      UpdateIs(st, k, st.(stages := st.stages[k := Stage(ApplyObserved, st.stages[k].xfrmPlanHash)]));
    }
  }

  lemma WitnessedIsObserved(ctx: PolicyContext, e: Event, outcome: string)
    ensures CheckObserver(e, outcome, EffectiveProfile(ctx.requiredObserver)).Pass?
            <==> Witnessed(e, outcome, ctx.requiredObserver)
  {
    hide TrimSpace, ToLower;
    SaidIsMeta(e);
    hide Meta, Said;
  }

  /** An activation follows the observation, names an expiry, and is remembered with it under the intent's plan. */
  lemma ActivationExactly(ctx: PolicyContext, st: PolicyState, e: Event)
    requires e.eventType == "session_activated"
    ensures var k, r := SessionKey(e), PolicyStep(ctx, st, e);
      && (r.Success? <==>
            && Covered(ctx.scope, e.serviceID) && Identified(e)
            && k in st.stages && st.stages[k].phase == ApplyObserved && TrimSpace(Said(e, "expires_at")) != "")
      && (r.Success? ==>
            var plan := st.stages[k].xfrmPlanHash;
            r.value == PolicyState(st.active[k := Remembered(e, plan)], st.stages[k := Stage(Active, plan)]))
  {
    hide SessionKey, TrimSpace;
    CoveredIsInScope(ctx, e);
    SaidIsMeta(e);
    hide InScope, Covered, Meta, Said;
    if PolicyStep(ctx, st, e).Success? {
      var k := SessionKey(e);
      var plan := st.stages[k].xfrmPlanHash;
      UpdateIs(st, k, PolicyState(st.active[k := Remembered(e, plan)], st.stages[k := Stage(Active, plan)]));
    }
  }

  /** An expiration names the expiry remembered, and comes when that time has come. */
  lemma ExpirationExactly(ctx: PolicyContext, st: PolicyState, e: Event)
    requires e.eventType == "session_expired"
    ensures var k, r := SessionKey(e), PolicyStep(ctx, st, e);
      && (r.Success? <==>
            && Covered(ctx.scope, e.serviceID) && Identified(e) && k in st.active
            && TrimSpace(Said(e, "expires_at")) == st.active[k].expiresAt
            && var due, at := ctx.p.parseTime(st.active[k].expiresAt), ctx.p.parseTime(e.timestamp);
               due.Some? && at.Some? && due.value <= at.value)
      && (r.Success? ==> r.value == st.(stages := st.stages[k := Stage(Expired, st.active[k].xfrmPlanHash)]))
  {
    hide SessionKey, TrimSpace;
    CoveredIsInScope(ctx, e);
    SaidIsMeta(e);
    hide InScope, Covered, Meta, Said;
    if PolicyStep(ctx, st, e).Success? {
      var k := SessionKey(e);
      UpdateIs(st, k, st.(stages := st.stages[k := Stage(Expired, st.active[k].xfrmPlanHash)]));
    }
  }

  /** A delete intent is for an expired session, under the plan remembered. */
  lemma DeleteIntentExactly(ctx: PolicyContext, st: PolicyState, e: Event)
    requires e.eventType == "xfrm_delete_intent"
    ensures var k, r := SessionKey(e), PolicyStep(ctx, st, e);
      && (r.Success? <==>
            && Covered(ctx.scope, e.serviceID) && Identified(e) && k in st.active
            && k in st.stages && st.stages[k].phase == Expired && NamesPlan(e, st.active[k].xfrmPlanHash))
      && (r.Success? ==> r.value == st.(stages := st.stages[k := Stage(DeleteIntent, st.active[k].xfrmPlanHash)]))
  {
    hide SessionKey, TrimSpace;
    CoveredIsInScope(ctx, e);
    SaidIsMeta(e);
    hide InScope, Covered, Meta, Said;
    if PolicyStep(ctx, st, e).Success? {
      var k := SessionKey(e);
      UpdateIs(st, k, st.(stages := st.stages[k := Stage(DeleteIntent, st.active[k].xfrmPlanHash)]));
    }
  }

  /** A deletion follows its intent, under its plan, and says that it was seen to succeed; the session is forgotten. */
  lemma DeletionExactly(ctx: PolicyContext, st: PolicyState, e: Event)
    requires e.eventType == "xfrm_delete_observed"
    ensures var k, r, plan := SessionKey(e), PolicyStep(ctx, st, e), Said(e, "xfrm_plan_hash");
      && (r.Success? <==>
            && Covered(ctx.scope, e.serviceID) && Identified(e) && NamesPlan(e, plan)
            && Phased(st, k, DeleteIntent, plan) && Witnessed(e, "deleted", ctx.requiredObserver))
      && (r.Success? ==> r.value == PolicyState(st.active - {k}, st.stages[k := Stage(Deleted, plan)]))
  {
    hide SessionKey, TrimSpace, ToLower;
    CoveredIsInScope(ctx, e);
    SaidIsMeta(e);
    WitnessedIsObserved(ctx, e, "deleted");
    hide InScope, Covered, Meta, Said, CheckObserver, Witnessed;
    if PolicyStep(ctx, st, e).Success? {
      var k := SessionKey(e);
      UpdateIs(st, k, PolicyState(st.active - {k}, st.stages[k := Stage(Deleted, st.stages[k].xfrmPlanHash)]));
    }
  }

  // ---------- whole deltas ----------

  /** Accepted exactly if its events are taken in order, no transaction is left open, and every session lasts. */
  lemma DeltaExactly(ctx: PolicyContext, ev: Evidence, before: ActiveMap, after: ActiveMap)
    ensures Appraise(ctx, ev, before) == Some(after)
      <==>
      (var r := Replay(ctx, PolicyState(before, map[]), ev.events);
       && r.Success? && r.value.active == after
       && (forall k :: k in r.value.stages ==> r.value.stages[k].phase == Active || r.value.stages[k].phase == Deleted)
       && var at := ctx.p.parseTime(ev.checkpoint.createdAt);
       && at.Some?
       && forall k :: k in after ==>
            var until := ctx.p.parseTime(after[k].expiresAt); until.Some? && at.value < until.value)
  {
    hide Replay;
  }

  lemma EventTaken(ctx: PolicyContext, st: PolicyState, events: seq<Event>, i: nat)
    requires i < |events| && Replay(ctx, st, events).Success?
    ensures Replay(ctx, st, events[..i]).Success?
    ensures PolicyStep(ctx, Replay(ctx, st, events[..i]).value, events[i]).Success?
    ensures PolicyStep(ctx, Replay(ctx, st, events[..i]).value, events[i]) == Replay(ctx, st, events[..i + 1])
  {
    hide PolicyStep;
    if Replay(ctx, st, events[..i]).Failure? {
      ReplayStaysFailed(ctx, st, events, i);
    } else {
      ReplayNext(ctx, st, events, i);
      if Replay(ctx, st, events[..i + 1]).Failure? {
        ReplayStaysFailed(ctx, st, events, i + 1);
      }
    }
  }

  /**
   In every accepted delta: each session event is complete and in scope; no session is set up for longer than the
   request asked for and one second; each operation was seen to succeed in the way the profile demands; and no
   session is expired before its time.
   */
  lemma AcceptedDeltaKeepsLimits(ctx: PolicyContext, ev: Evidence, before: ActiveMap, i: nat)
    requires Appraise(ctx, ev, before).Some? && i < |ev.events|
    ensures var e := ev.events[i];
      && Covered(ctx.scope, e.serviceID)
      && (e.eventType !in {"pep_start", "capacity_requested", "capacity_accepted"} ==> Identified(e))
      && (e.eventType == "xfrm_apply_intent" ==>
            Bounded(ctx.p, e, ctx.maxSALifetime) && NamesPlan(e, Said(e, "xfrm_plan_hash")))
      && (e.eventType == "xfrm_apply_observed" ==> Witnessed(e, "applied", ctx.requiredObserver))
      && (e.eventType == "xfrm_delete_observed" ==> Witnessed(e, "deleted", ctx.requiredObserver))
      && (e.eventType == "session_expired" ==>
            var due, at := ctx.p.parseTime(TrimSpace(Said(e, "expires_at"))), ctx.p.parseTime(e.timestamp);
            due.Some? && at.Some? && due.value <= at.value)
  {
    var start, e := PolicyState(before, map[]), ev.events[i];
    EventTaken(ctx, start, ev.events, i);
    var st := Replay(ctx, start, ev.events[..i]).value;
    hide Replay, PolicyStep, SessionKey, TrimSpace, Covered, Identified, Bounded, Witnessed, NamesPlan, Said, Phased;
    match e.eventType
    case "xfrm_apply_intent" => IntentExactly(ctx, st, e);
    case "xfrm_apply_observed" => ObservationExactly(ctx, st, e);
    case "session_activated" => ActivationExactly(ctx, st, e);
    case "session_expired" => ExpirationExactly(ctx, st, e);
    case "xfrm_delete_intent" => DeleteIntentExactly(ctx, st, e);
    case "xfrm_delete_observed" => DeletionExactly(ctx, st, e);
    case _ => QuietExactly(ctx, st, e);
  }
}
