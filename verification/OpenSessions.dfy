/** The sessions an event log leaves open, read off the log alone. */
module OpenSessions {
  import opened Wrappers
  import opened Protocol
  import opened Policy

  /** One event's effect; `closes` says which delete observations count as deletions. */
  function OpenStep(closes: Event -> bool, open: ActiveMap, e: Event): ActiveMap {
    if e.eventType == ACTIVATED then open[SessionKey(e) := Track(e, "")]
    else if e.eventType == DELETE_OBSERVED && closes(e) then open - {SessionKey(e)}
    else open
  }

  function OpenAfter(closes: Event -> bool, events: seq<Event>): ActiveMap {
    if events == [] then map[]
    else OpenStep(closes, OpenAfter(closes, events[..|events| - 1]), events[|events| - 1])
  }

  lemma OpenNext(closes: Event -> bool, events: seq<Event>, e: Event)
    ensures OpenAfter(closes, events + [e]) == OpenStep(closes, OpenAfter(closes, events), e)
  {
    assert (events + [e])[..|events|] == events;
  }

  // ---------- with the plan each session was installed by ----------

  /** The open sessions, and for every key the plan hash of its last intent. */
  datatype Reading = Reading(open: ActiveMap, plans: map<string, string>)

  function Plan(h: Option<string>): string {
    if h.Some? then h.value else ""
  }

  function ReadStep(r: Reading, e: Event): Reading {
    var k := SessionKey(e);
    if e.eventType == APPLY_INTENT then r.(plans := r.plans[k := Plan(PlanHash(e))])
    else if e.eventType == ACTIVATED then r.(open := r.open[k := Track(e, Plan(Lookup(r.plans, k)))])
    else if e.eventType == DELETE_OBSERVED then r.(open := r.open - {k})
    else r
  }

  function ReadLog(events: seq<Event>): Reading {
    if events == [] then Reading(map[], map[])
    else ReadStep(ReadLog(events[..|events| - 1]), events[|events| - 1])
  }

  predicate Applying(stage: Option<Stage>) {
    stage.Some? && (stage.value.phase == ApplyIntent || stage.value.phase == ApplyObserved)
  }

  /** The reading has the active sessions, and the plan of every session being set up. */
  ghost predicate Reads(r: Reading, st: PolicyState) {
    && (forall k :: Lookup(r.open, k) == Lookup(st.active, k))
    && (forall k :: Applying(Lookup(st.stages, k)) ==>
        Lookup(r.plans, k) == Some(Lookup(st.stages, k).value.xfrmPlanHash))
  }

  lemma StepKeepsReading(ctx: PolicyContext, st: PolicyState, e: Event, r: Reading)
    requires PolicyStep(ctx, st, e).Success? && Reads(r, st)
    ensures Reads(ReadStep(r, e), PolicyStep(ctx, st, e).value)
  {
    hide SessionKey, Expiry, PlanHash, LifetimeAllowed, ExpirationAllowed, VerifyObservedEvent, CompleteEvent, InScope;
    assert Lookup(r.open, SessionKey(e)) == Lookup(st.active, SessionKey(e));
    assert Applying(Lookup(st.stages, SessionKey(e))) ==>
      Lookup(r.plans, SessionKey(e)) == Some(Lookup(st.stages, SessionKey(e)).value.xfrmPlanHash);
  }

  /** A successful replay moves the active map exactly as reading the log moves the open sessions. */
  lemma {:induction false} ReplayKeepsOpen(ctx: PolicyContext, st: PolicyState, before: seq<Event>, events: seq<Event>)
    requires Reads(ReadLog(before), st) && Replay(ctx, st, events).Success?
    ensures Reads(ReadLog(before + events), Replay(ctx, st, events).value)
    decreases |events|
  {
    hide PolicyStep, Reads, ReadStep;
    if events == [] {
      assert before + events == before;
    } else {
      var n := |events| - 1;
      ReplayKeepsOpen(ctx, st, before, events[..n]);
      StepKeepsReading(ctx, Replay(ctx, st, events[..n]).value, events[n], ReadLog(before + events[..n]));
      assert (before + events)[..|before| + n] == before + events[..n];
    }
  }

  /** Between deltas no session is being set up, and the open sessions are the active map. */
  lemma ReadsAtRest(r: Reading, active: ActiveMap)
    ensures Reads(r, PolicyState(active, map[])) <==> r.open == active
  {
    if Reads(r, PolicyState(active, map[])) {
      SameLookups(r.open, active);
    }
  }
}
