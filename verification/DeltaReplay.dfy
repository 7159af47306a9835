/** A log replayed in one piece against the same log replayed delta by delta, as the Verifier sees it. */
module DeltaReplay {
  import opened Wrappers
  import opened Protocol
  import opened Policy

  const NOTHING := PolicyState(map[], map[])

  function Rest(active: ActiveMap): PolicyState {
    PolicyState(active, map[])
  }

  /** `split` has the same active sessions, and has forgotten no stage but settled ones. */
  ghost predicate Carries(split: PolicyState, full: PolicyState) {
    && split.active == full.active
    && forall k :: SameStage(Lookup(split.stages, k), Lookup(full.stages, k))
  }

  predicate SameStage(split: Option<Stage>, full: Option<Stage>) {
    split == full || (split.None? && full.Some? && Settled(full.value.phase))
  }

  lemma RestCarries(full: PolicyState)
    requires AllSettled(full.stages)
    ensures Carries(Rest(full.active), full)
  {
  }

  /** What the whole replay accepts, the replay that started afresh accepts as well. */
  lemma KeyStepCarries(ctx: PolicyContext, split: KeyState, full: KeyState, e: Event)
    requires split.active == full.active && SameStage(split.stage, full.stage)
    requires KeyStep(ctx, full, e).Success?
    ensures KeyStep(ctx, split, e).Success?
    ensures KeyStep(ctx, split, e).value.active == KeyStep(ctx, full, e).value.active
    ensures SameStage(KeyStep(ctx, split, e).value.stage, KeyStep(ctx, full, e).value.stage)
  {
    hide PlanHash, Expiry, CheckObserver, CompleteEvent, LifetimeAllowed, ExpirationAllowed, EffectiveProfile;
  }

  lemma StepCarries(ctx: PolicyContext, split: PolicyState, full: PolicyState, e: Event)
    requires Carries(split, full) && PolicyStep(ctx, full, e).Success?
    ensures PolicyStep(ctx, split, e).Success?
    ensures Carries(PolicyStep(ctx, split, e).value, PolicyStep(ctx, full, e).value)
  {
    hide KeyStep, SessionKey, InScope;
    KeyStepCarries(ctx, View(split, SessionKey(e)), View(full, SessionKey(e)), e);
  }

  lemma {:induction false} ReplayCarries(ctx: PolicyContext, split: PolicyState, full: PolicyState, events: seq<Event>)
    requires Carries(split, full) && Replay(ctx, full, events).Success?
    ensures Replay(ctx, split, events).Success?
    ensures Carries(Replay(ctx, split, events).value, Replay(ctx, full, events).value)
    decreases |events|
  {
    hide PolicyStep, Carries;
    if events != [] {
      var n := |events| - 1;
      ReplayCarries(ctx, split, full, events[..n]);
      StepCarries(ctx, Replay(ctx, split, events[..n]).value, Replay(ctx, full, events[..n]).value, events[n]);
    }
  }

  /**
   A log cut where no transaction is open: the Verifier, knowing only the sessions active at the cut, accepts
   the rest and arrives at the same sessions, with a transaction left open exactly if the whole log leaves one.
   */
  lemma DeltaReplays(ctx: PolicyContext, before: seq<Event>, delta: seq<Event>)
    requires Replay(ctx, NOTHING, before).Success? && AllSettled(Replay(ctx, NOTHING, before).value.stages)
    requires Replay(ctx, NOTHING, before + delta).Success?
    ensures var full := Replay(ctx, NOTHING, before + delta).value;
      var split := Replay(ctx, Rest(Replay(ctx, NOTHING, before).value.active), delta);
      && split.Success? && split.value.active == full.active
      && (AllSettled(split.value.stages) <==> AllSettled(full.stages))
  {
    hide Replay;
    var cut := Replay(ctx, NOTHING, before).value;
    ReplayConcat(ctx, NOTHING, before, delta);
    RestCarries(cut);
    ReplayCarries(ctx, Rest(cut.active), cut, delta);
    CarriesSettled(Replay(ctx, Rest(cut.active), delta).value, Replay(ctx, cut, delta).value);
  }

  lemma CarriesSettled(split: PolicyState, full: PolicyState)
    requires Carries(split, full)
    ensures AllSettled(split.stages) <==> AllSettled(full.stages)
  {
    forall k
      ensures k in split.stages ==> k in full.stages && split.stages[k] == full.stages[k]
      ensures k in full.stages ==>
          Settled(full.stages[k].phase) || (k in split.stages && split.stages[k] == full.stages[k])
    {
      assert SameStage(Lookup(split.stages, k), Lookup(full.stages, k));
    }
  }

  lemma PrefixReplays(ctx: PolicyContext, st: PolicyState, before: seq<Event>, events: seq<Event>)
    requires before <= events && Replay(ctx, st, events).Success?
    ensures Replay(ctx, st, before).Success?
  {
    if Replay(ctx, st, before).Failure? {
      assert events[..|before|] == before;
      ReplayStaysFailed(ctx, st, events, |before|);
    }
  }
}
