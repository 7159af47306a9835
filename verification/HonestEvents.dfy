/**
 The events an honest PEP's transactions record, and how the Verifier's lifecycle machine takes them.
 */
module HonestEvents {
  import opened Wrappers
  import opened Protocol
  import opened Text
  import opened Attest
  import opened History
  import opened Policy
  import opened Pep
  import opened Verifier
  import opened SessionTable

  // ---------- what an honest PEP and its Verifier agree on ----------

  /** The context in which the Verifier appraises whatever this PEP requests. */
  function Context(cfg: PepConfig, ver: VerifierConfig): PolicyContext {
    PolicyContext(cfg.p, cfg.scope,
                  if ver.maxSALifetime > 0 && cfg.maxSALifetime > ver.maxSALifetime
                  then ver.maxSALifetime else cfg.maxSALifetime,
                  ver.requiredObserver)
  }

  lemma ScreenedContext(cfg: PepConfig, ver: VerifierConfig, ev: Evidence)
    requires Screen(ver, RequestFor(cfg, ev)).Success?
    ensures ContextOf(cfg.p, ver, Screen(ver, RequestFor(cfg, ev)).value) == Context(cfg, ver)
  {
  }

  /** The PEP compares the mode as it stands, the Verifier trimmed and in lower case. */
  predicate ModeReadsAlike(mode: string) {
    mode == "apply" || Normalised(mode) != "apply"
  }

  predicate Compatible(cfg: PepConfig, ver: VerifierConfig) {
    EffectiveProfile(ver.requiredObserver) == cfg.requiredObserver && ModeReadsAlike(cfg.xfrmMode)
  }

  /** A session as activation builds it: complete, in scope, with an expiry on a whole second and a plan hash. */
  predicate Orderly(cfg: PepConfig, s: Session) {
    && s.serviceID != "" && s.clientPubKey != "" && s.clientInSPI != "" && s.pepInSPI != ""
    && s.clientInnerIP != "" && s.clientOuterIP != "" && s.reqID != 0
    && (Contains(cfg.scope, s.serviceID) || Contains(cfg.scope, "*"))
    && s.expiresAt != "" && Untrimmed(s.expiresAt)
    && cfg.p.parseTime(s.expiresAt).Some? && cfg.p.parseTime(s.expiresAt).value % SECOND == 0
    && TrimSpace(PlanDigest(cfg, s)) != "" && PlanDigest(cfg, s) != "hash_error"
  }

  /** What the Verifier tracks of such a session. */
  function Planned(cfg: PepConfig): Session -> Tracked {
    (s: Session) =>
      Tracked(s.serviceID, s.clientPubKey, s.clientInnerIP, s.clientInSPI, s.pepInSPI, s.reqID, s.expiresAt,
              PlanDigest(cfg, s))
  }

  // ---------- the two parties' observer checks ----------

  predicate Accepts(cfg: PepConfig, e: Event, outcome: string) {
    CheckObserver(e, outcome, cfg.requiredObserver).Pass?
  }

  predicate Reports(cfg: PepConfig, e: Event, outcome: string) {
    && e.metadata.Some? && Entry(e.metadata.value, "xfrm_mode") == cfg.xfrmMode
    && MeetsLocalProfile(cfg, e.metadata.value, outcome)
  }

  lemma NormalisedAs(s: string, t: string)
    requires ToLower(s) == t && Untrimmed(t)
    ensures Normalised(s) == t
  {
    LowerUntrimmed(s);
    TrimSpaceKeeps(s);
  }

  lemma LowerWord(s: string)
    requires forall i :: 0 <= i < |s| ==> LowerChar(s[i]) == s[i]
    ensures ToLower(s) == s
  {
  }

  lemma LowerWords()
    ensures ToLower("apply") == "apply" && ToLower("true") == "true" && ToLower("assumed") == "assumed"
  {
    hide ToLower;
    LowerWord("apply");
    LowerWord("true");
    LowerWord("assumed");
  }

  lemma UntrimmedWords()
    ensures Untrimmed("apply") && Untrimmed("true") && Untrimmed("assumed")
    ensures Untrimmed("posthoc") && Untrimmed("posthoc+ebpf") && Untrimmed("ebpf")
  {
    assert forall c | c in {'a', 'y', 't', 'e', 'd', 'p', 'c', 'f'} :: !IsSpace(c);
    hide IsSpace;
  }

  lemma LocalImpliesVerifier(cfg: PepConfig, e: Event, outcome: string)
    requires ModeReadsAlike(cfg.xfrmMode) && Reports(cfg, e, outcome)
    ensures Accepts(cfg, e, outcome)
  {
    hide ToLower, TrimSpace, Untrimmed, Normalised;
    var source := Entry(e.metadata.value, "observer_source");
    LowerWords();
    UntrimmedWords();
    NormalisedAs("apply", "apply");
    NormalisedAs("true", "true");
    NormalisedAs("assumed", "assumed");
    if cfg.xfrmMode == "apply" {
      NormalisedAs(source, ToLower(source));
    }
  }

  /**
   What the PEP takes for a successful observation the Verifier takes for one too, for every report, unless
   dry runs are configured under a mode that only the Verifier reads as "apply".
   */
  lemma ObserversAgree(cfg: PepConfig, outcome: string)
    requires outcome == "applied" || outcome == "deleted"
    ensures (forall e :: Reports(cfg, e, outcome) ==> Accepts(cfg, e, outcome))
            <==> (cfg.requiredObserver == "dry-run" ==> ModeReadsAlike(cfg.xfrmMode))
  {
    hide ToLower, TrimSpace, Untrimmed, Normalised;
    if cfg.requiredObserver == "dry-run" && !ModeReadsAlike(cfg.xfrmMode) {
      var e := Event(1, 1, "", "", "", "", "", "", "", "", "", 0, false, "", "",
                     Some(map["xfrm_mode" := cfg.xfrmMode, outcome := "assumed"]), "", "");
      assert Reports(cfg, e, outcome) && !Accepts(cfg, e, outcome);
    } else {
      forall e | Reports(cfg, e, outcome) ensures Accepts(cfg, e, outcome) {
        LocalImpliesVerifier(cfg, e, outcome);
      }
    }
  }

  predicate NormalisedReport(e: Event, outcome: string) {
    && Normalised(Meta(e, "xfrm_mode")) == Meta(e, "xfrm_mode")
    && Normalised(Meta(e, "observer_source")) == Meta(e, "observer_source")
    && Normalised(Meta(e, outcome)) == Meta(e, outcome)
  }

  /**
   On reports already trimmed and in lower case the two checks are one and the same, under every profile,
   supported or not.
   */
  lemma ProfilesCoincide(cfg: PepConfig, e: Event, outcome: string)
    requires e.metadata.Some? && NormalisedReport(e, outcome)
    ensures MeetsLocalProfile(cfg, e.metadata.value, outcome) <==> Accepts(cfg, e, outcome)
  {
    hide ToLower, TrimSpace;
    LowerWords();
    var source := Entry(e.metadata.value, "observer_source");
    LowerIdempotent(TrimSpace(source));
  }

  // ---------- events of an orderly session ----------

  lemma EventFacts(cfg: PepConfig, ver: VerifierConfig, h: HistoryState, now: int, eventType: string, s: Session,
                   meta: Metadata)
    requires Rfc3339(cfg.p) && Orderly(cfg, s)
    ensures var e := NewEvent(cfg.p, h, now, eventType, Some(s), Some(meta));
      && e.eventType == eventType && CompleteEvent(e) && SessionKey(e) == KeyOf(s) && InScope(Context(cfg, ver), e)
      && Expiry(e) == s.expiresAt && cfg.p.parseTime(e.timestamp) == Some(FloorSecond(now))
      && Track(e, PlanDigest(cfg, s)) == Planned(cfg)(s)
      && e.metadata == Some(SessionMetadata(s, meta))
  {
    hide HashEvent, Contains, PlanDigest, TrimSpace;
    SessionEventKey(cfg, h, now, eventType, s, Some(meta));
    assert "expires_at" in SessionMetadata(s, meta);
    TrimSpaceKeeps(s.expiresAt);
  }

  /** The plan hash survives recording. */
  lemma RecordedPlan(cfg: PepConfig, s: Session, meta: Metadata, e: Event)
    requires Orderly(cfg, s) && e.metadata == Some(SessionMetadata(s, meta))
    requires Entry(meta, "xfrm_plan_hash") == PlanDigest(cfg, s)
    ensures PlanHash(e) == Some(PlanDigest(cfg, s))
  {
    hide PlanDigest, TrimSpace, Contains;
  }

  lemma StageOnly(ps: PolicyState, k: string, stage: Stage)
    ensures Update(ps, k, KeyState(Lookup(ps.active, k), Some(stage))) == PolicyState(ps.active, ps.stages[k := stage])
  {
    UpdateIs(ps, k, PolicyState(ps.active, ps.stages[k := stage]));
  }

  predicate LifetimeFits(ctx: PolicyContext, s: Session, now: int)
    requires ctx.p.parseTime(s.expiresAt).Some?
  {
    ctx.maxSALifetime > 0 ==> ctx.p.parseTime(s.expiresAt).value - FloorSecond(now) <= (ctx.maxSALifetime + 1) * SECOND
  }

  /** A session whose expiry was read off the clock when it was created, within the cap, is of this kind. */
  lemma CreatedSessionFits(cfg: PepConfig, ver: VerifierConfig, s: Session, lifetime: int, created: int, now: int)
    requires Rfc3339(cfg.p) && s.expiresAt == cfg.p.formatTime(created + lifetime * SECOND)
    requires lifetime <= Context(cfg, ver).maxSALifetime && created <= now
    ensures s.expiresAt != "" && cfg.p.parseTime(s.expiresAt).Some? && cfg.p.parseTime(s.expiresAt).value % SECOND == 0
    ensures LifetimeFits(Context(cfg, ver), s, now)
  {
    var exp := created + lifetime * SECOND;
    assert cfg.p.parseTime(cfg.p.formatTime(exp)) == Some(FloorSecond(exp)) && cfg.p.formatTime(exp) != "";
    FloorShift(created, lifetime);
    FloorMonotone(created, now);
    FloorMonotone(exp, exp);
  }

  lemma FloorMonotone(a: int, b: int)
    requires a <= b
    ensures FloorSecond(a) <= FloorSecond(b) && FloorSecond(a) % SECOND == 0
  {
    assert FloorSecond(a) == SECOND * (a / SECOND) && FloorSecond(b) == SECOND * (b / SECOND);
  }

  lemma IntentAccepted(cfg: PepConfig, ver: VerifierConfig, h: HistoryState, ps: PolicyState, now: int, s: Session)
    requires Rfc3339(cfg.p) && Orderly(cfg, s) && LifetimeFits(Context(cfg, ver), s, now)
    requires View(ps, KeyOf(s)) == KeyState(None, None)
    ensures PolicyStep(Context(cfg, ver), ps, NewEvent(cfg.p, h, now, APPLY_INTENT, Some(s), Some(IntentMeta(cfg, s))))
            == Success(PolicyState(ps.active, ps.stages[KeyOf(s) := Stage(ApplyIntent, PlanDigest(cfg, s))]))
  {
    hide PlanDigest, NewEvent, KeyOf, SessionKey, CompleteEvent, InScope, Expiry, PlanHash, SessionMetadata;
    var e := NewEvent(cfg.p, h, now, APPLY_INTENT, Some(s), Some(IntentMeta(cfg, s)));
    EventFacts(cfg, ver, h, now, APPLY_INTENT, s, IntentMeta(cfg, s));
    RecordedPlan(cfg, s, IntentMeta(cfg, s), e);
    StageOnly(ps, KeyOf(s), Stage(ApplyIntent, PlanDigest(cfg, s)));
  }

  /** An observation the PEP itself accepted. */
  lemma ObservationAccepted(cfg: PepConfig, ver: VerifierConfig, h: HistoryState, now: int, eventType: string,
                            s: Session, observed: Metadata, outcome: string)
    requires Rfc3339(cfg.p) && Compatible(cfg, ver) && Orderly(cfg, s)
    requires outcome == "applied" || outcome == "deleted"
    requires MeetsLocalProfile(cfg, ObservedMeta(cfg, s, observed), outcome)
    ensures var e := NewEvent(cfg.p, h, now, eventType, Some(s), Some(ObservedMeta(cfg, s, observed)));
      VerifyObservedEvent(e, outcome, EffectiveProfile(ver.requiredObserver), PlanDigest(cfg, s)) == Pass
  {
    hide PlanDigest, NewEvent, KeyOf, SessionKey, CompleteEvent, InScope, Expiry, PlanHash, CheckObserver,
      MeetsLocalProfile, EffectiveProfile, Orderly;
    var meta := ObservedMeta(cfg, s, observed);
    var e := NewEvent(cfg.p, h, now, eventType, Some(s), Some(meta));
    EventFacts(cfg, ver, h, now, eventType, s, meta);
    RecordedPlan(cfg, s, meta, e);
    RecordedProfile(cfg, s, meta, outcome);
    LocalImpliesVerifier(cfg, e, outcome);
  }

  lemma ApplyObservedAccepted(cfg: PepConfig, ver: VerifierConfig, h: HistoryState, ps: PolicyState, now: int,
                              s: Session, observed: Metadata)
    requires Rfc3339(cfg.p) && Compatible(cfg, ver) && Orderly(cfg, s)
    requires MeetsLocalProfile(cfg, ObservedMeta(cfg, s, observed), "applied")
    requires Lookup(ps.stages, KeyOf(s)) == Some(Stage(ApplyIntent, PlanDigest(cfg, s)))
    ensures PolicyStep(Context(cfg, ver), ps,
                       NewEvent(cfg.p, h, now, APPLY_OBSERVED, Some(s), Some(ObservedMeta(cfg, s, observed))))
            == Success(PolicyState(ps.active, ps.stages[KeyOf(s) := Stage(ApplyObserved, PlanDigest(cfg, s))]))
  {
    hide PlanDigest, NewEvent, KeyOf, SessionKey, CompleteEvent, InScope, Expiry, VerifyObservedEvent,
      MeetsLocalProfile, EffectiveProfile, Orderly, ObservedMeta;
    EventFacts(cfg, ver, h, now, APPLY_OBSERVED, s, ObservedMeta(cfg, s, observed));
    ObservationAccepted(cfg, ver, h, now, APPLY_OBSERVED, s, observed, "applied");
    StageOnly(ps, KeyOf(s), Stage(ApplyObserved, PlanDigest(cfg, s)));
  }

  lemma ActivationAccepted(cfg: PepConfig, ver: VerifierConfig, h: HistoryState, ps: PolicyState, now: int, s: Session,
                           meta: Metadata)
    requires Rfc3339(cfg.p) && Orderly(cfg, s)
    requires Lookup(ps.stages, KeyOf(s)) == Some(Stage(ApplyObserved, PlanDigest(cfg, s)))
    ensures PolicyStep(Context(cfg, ver), ps, NewEvent(cfg.p, h, now, ACTIVATED, Some(s), Some(meta)))
            == Success(PolicyState(ps.active[KeyOf(s) := Planned(cfg)(s)],
                                   ps.stages[KeyOf(s) := Stage(Active, PlanDigest(cfg, s))]))
  {
    hide PlanDigest, NewEvent, KeyOf, SessionKey, CompleteEvent, InScope, Expiry, EffectiveProfile, Track;
    EventFacts(cfg, ver, h, now, ACTIVATED, s, meta);
  }

  lemma ExpirationAccepted(cfg: PepConfig, ver: VerifierConfig, h: HistoryState, ps: PolicyState, clock: int, now: int,
                           s: Session, meta: Metadata)
    requires Rfc3339(cfg.p) && Orderly(cfg, s) && Lapsed(cfg, s, clock) && clock <= now
    requires Lookup(ps.active, KeyOf(s)) == Some(Planned(cfg)(s))
    ensures PolicyStep(Context(cfg, ver), ps, NewEvent(cfg.p, h, now, EXPIRED, Some(s), Some(meta)))
            == Success(PolicyState(ps.active, ps.stages[KeyOf(s) := Stage(Expired, PlanDigest(cfg, s))]))
  {
    hide PlanDigest, NewEvent, KeyOf, SessionKey, CompleteEvent, InScope, Expiry, EffectiveProfile, FloorSecond;
    EventFacts(cfg, ver, h, now, EXPIRED, s, meta);
    WholeSecondReached(cfg.p.parseTime(s.expiresAt).value, now);
    StageOnly(ps, KeyOf(s), Stage(Expired, PlanDigest(cfg, s)));
  }

  lemma WholeSecondReached(exp: int, now: int)
    requires exp % SECOND == 0
    ensures exp <= now <==> exp <= FloorSecond(now)
  {
  }

  lemma DeleteIntentAccepted(cfg: PepConfig, ver: VerifierConfig, h: HistoryState, ps: PolicyState, now: int,
                             s: Session)
    requires Rfc3339(cfg.p) && Orderly(cfg, s)
    requires Lookup(ps.active, KeyOf(s)) == Some(Planned(cfg)(s))
    requires Lookup(ps.stages, KeyOf(s)) == Some(Stage(Expired, PlanDigest(cfg, s)))
    ensures PolicyStep(Context(cfg, ver), ps, NewEvent(cfg.p, h, now, DELETE_INTENT, Some(s), Some(IntentMeta(cfg, s))))
            == Success(PolicyState(ps.active, ps.stages[KeyOf(s) := Stage(DeleteIntent, PlanDigest(cfg, s))]))
  {
    hide PlanDigest, NewEvent, KeyOf, SessionKey, CompleteEvent, InScope, Expiry, PlanHash, SessionMetadata,
      EffectiveProfile;
    var e := NewEvent(cfg.p, h, now, DELETE_INTENT, Some(s), Some(IntentMeta(cfg, s)));
    EventFacts(cfg, ver, h, now, DELETE_INTENT, s, IntentMeta(cfg, s));
    RecordedPlan(cfg, s, IntentMeta(cfg, s), e);
    StageOnly(ps, KeyOf(s), Stage(DeleteIntent, PlanDigest(cfg, s)));
  }

  lemma DeleteObservedAccepted(cfg: PepConfig, ver: VerifierConfig, h: HistoryState, ps: PolicyState, now: int,
                               s: Session, observed: Metadata)
    requires Rfc3339(cfg.p) && Compatible(cfg, ver) && Orderly(cfg, s)
    requires MeetsLocalProfile(cfg, ObservedMeta(cfg, s, observed), "deleted")
    requires Lookup(ps.stages, KeyOf(s)) == Some(Stage(DeleteIntent, PlanDigest(cfg, s)))
    ensures PolicyStep(Context(cfg, ver), ps,
                       NewEvent(cfg.p, h, now, DELETE_OBSERVED, Some(s), Some(ObservedMeta(cfg, s, observed))))
            == Success(PolicyState(ps.active - {KeyOf(s)}, ps.stages[KeyOf(s) := Stage(Deleted, PlanDigest(cfg, s))]))
  {
    hide PlanDigest, NewEvent, KeyOf, SessionKey, CompleteEvent, InScope, Expiry, VerifyObservedEvent,
      MeetsLocalProfile, EffectiveProfile, Orderly, ObservedMeta;
    EventFacts(cfg, ver, h, now, DELETE_OBSERVED, s, ObservedMeta(cfg, s, observed));
    ObservationAccepted(cfg, ver, h, now, DELETE_OBSERVED, s, observed, "deleted");
  }
}
