/**
 Where the expiry of a tracked session comes from: its activation event alone.  The cap on lifetimes is held
 against the intent's expiry, and nothing compares the two.
 */
module ActivationExpiry {
  import opened Wrappers
  import opened Protocol
  import opened Text
  import opened Attest
  import opened Tokens
  import opened Policy
  import opened Lifecycle
  import opened DeltaReplay
  import opened Verifier

  /** The same event with another expiry in its metadata. */
  function WithExpiry(e: Event, expiry: string): Event {
    var metadata := if e.metadata.Some? then e.metadata.value else map[];
    e.(metadata := Some(metadata["expires_at" := expiry]))
  }

  // ---------- a log chained anew ----------

  function Relink(p: Primitives, e: Event, prevHash: string): Event {
    e.(prevHash := prevHash, eventHash := HashEvent(p, e.(prevHash := prevHash)))
  }

  /** The same events with their hashes computed again, one from the other. */
  function Relinked(p: Primitives, events: seq<Event>, base: string): (r: seq<Event>)
    ensures |r| == |events|
  {
    if events == [] then []
    else
      var n := |events| - 1;
      var before := Relinked(p, events[..n], base);
      before + [Relink(p, events[n], LastHash(before, base))]
  }

  /** Equal but for the hashes. */
  ghost predicate SameButHashes(a: seq<Event>, b: seq<Event>) {
    && |a| == |b|
    && forall i :: 0 <= i < |a| ==> a[i] == b[i].(prevHash := a[i].prevHash, eventHash := a[i].eventHash)
  }

  lemma {:induction false} RelinkedIsChained(p: Primitives, pepID: string, events: seq<Event>, base: string, first: nat)
    requires forall i :: 0 <= i < |events| ==> events[i].pepID == pepID && events[i].index == first + i + 1
    ensures Chained(p, pepID, Relinked(p, events, base), base, first)
    ensures SameButHashes(Relinked(p, events, base), events)
    decreases |events|
  {
    if events != [] {
      var n := |events| - 1;
      var r, before := Relinked(p, events, base), Relinked(p, events[..n], base);
      RelinkedIsChained(p, pepID, events[..n], base, first);
      assert Canonical(r[n]) == Canonical(events[n].(prevHash := LastHash(before, base)));
      forall i | 0 <= i < n ensures Link(p, pepID, r, base, first, i) {
        assert Link(p, pepID, before, base, first, i);
      }
    }
  }

  /** A chain is left as it is, so that only what follows a change is chained anew. */
  lemma {:induction false} ChainIsRelinked(p: Primitives, pepID: string, events: seq<Event>, base: string, first: nat)
    requires Chained(p, pepID, events, base, first)
    ensures Relinked(p, events, base) == events
    decreases |events|
  {
    hide HashEvent;
    if events != [] {
      var n := |events| - 1;
      ChainedPrefix(p, pepID, events, base, first, n);
      ChainIsRelinked(p, pepID, events[..n], base, first);
      assert Link(p, pepID, events, base, first, n);
      HashIgnoresOwn(p, events[n]);
    }
  }

  lemma HashIgnoresOwn(p: Primitives, e: Event)
    ensures HashEvent(p, e.(prevHash := e.prevHash)) == HashEvent(p, e)
  {
  }

  lemma RelinkedPrefix(p: Primitives, events: seq<Event>, base: string, n: nat)
    requires n <= |events|
    ensures Relinked(p, events, base)[..n] == Relinked(p, events[..n], base)
    decreases |events|
  {
    if n < |events| {
      RelinkedPrefix(p, events[..|events| - 1], base, n);
      assert events[..|events| - 1][..n] == events[..n];
    } else {
      assert events[..n] == events;
    }
  }

  /** The Verifier's policy does not read hashes. */
  lemma {:induction false} HashesUnread(ctx: PolicyContext, st: PolicyState, a: seq<Event>, b: seq<Event>)
    requires SameButHashes(a, b)
    ensures Replay(ctx, st, a) == Replay(ctx, st, b)
    decreases |a|
  {
    hide PolicyStep;
    if a != [] {
      var n := |a| - 1;
      HashesUnread(ctx, st, a[..n], b[..n]);
      if Replay(ctx, st, a[..n]).Success? {
        HashUnread(ctx, Replay(ctx, st, a[..n]).value, b[n], a[n].prevHash, a[n].eventHash);
      }
    }
  }

  lemma HashUnread(ctx: PolicyContext, st: PolicyState, e: Event, prevHash: string, eventHash: string)
    ensures PolicyStep(ctx, st, e.(prevHash := prevHash, eventHash := eventHash)) == PolicyStep(ctx, st, e)
  {
    hide Join, KeyStep, Contains;
    KeyHashUnread(ctx, View(st, SessionKey(e)), e, prevHash, eventHash);
    assert SessionKey(e.(prevHash := prevHash, eventHash := eventHash)) == SessionKey(e);
  }

  lemma KeyHashUnread(ctx: PolicyContext, ks: KeyState, e: Event, prevHash: string, eventHash: string)
    ensures KeyStep(ctx, ks, e.(prevHash := prevHash, eventHash := eventHash)) == KeyStep(ctx, ks, e)
  {
    var e' := e.(prevHash := prevHash, eventHash := eventHash);
    FactsUnread(ctx, e, prevHash, eventHash);
    hide Expiry, PlanHash, CompleteEvent, LifetimeAllowed, ExpirationAllowed, VerifyObservedEvent, EffectiveProfile;
  }

  lemma FactsUnread(ctx: PolicyContext, e: Event, prevHash: string, eventHash: string)
    ensures var e' := e.(prevHash := prevHash, eventHash := eventHash);
      && Expiry(e') == Expiry(e) && PlanHash(e') == PlanHash(e) && CompleteEvent(e') == CompleteEvent(e)
      && LifetimeAllowed(ctx, e') == LifetimeAllowed(ctx, e)
      && (forall tracked :: ExpirationAllowed(ctx.p, e', tracked) == ExpirationAllowed(ctx.p, e, tracked))
      && (forall outcome, profile, plan ::
            VerifyObservedEvent(e', outcome, profile, plan) == VerifyObservedEvent(e, outcome, profile, plan))
  {
    hide TrimSpace, ToLower;
    var e' := e.(prevHash := prevHash, eventHash := eventHash);
    assert forall key :: Meta(e', key) == Meta(e, key);
    hide Meta;
  }

  // ---------- the same delta with another expiry ----------

  /** The events with another expiry at i, chained anew after `base`. */
  function Altered(p: Primitives, events: seq<Event>, base: string, i: nat, expiry: string): seq<Event>
    requires i < |events|
  {
    Relinked(p, events[i := WithExpiry(events[i], expiry)], base)
  }

  /** The delta with another expiry at i: chained anew, and its checkpoint signed anew. */
  function Rewritten(p: Primitives, ev: Evidence, previous: Option<Checkpoint>, priv: string, i: nat,
                     expiry: string): Option<Evidence>
    requires i < |ev.events|
  {
    var events := Altered(p, ev.events, BaseHash(previous), i, expiry);
    match SignCheckpoint(p, ev.checkpoint.(lastEventHash := LastHash(events, BaseHash(previous))), priv)
    case None => None
    case Some(c) => Some(ev.(events := events, checkpoint := c))
  }

  lemma AlteredIsChained(p: Primitives, pepID: string, events: seq<Event>, base: string, first: nat, i: nat,
                         expiry: string)
    requires Chained(p, pepID, events, base, first) && VersionOne(events) && Timed(p, events) && i < |events|
    ensures var late := Altered(p, events, base, i, expiry);
      && Chained(p, pepID, late, base, first) && VersionOne(late) && Timed(p, late)
      && SameButHashes(late, events[i := WithExpiry(events[i], expiry)])
  {
    hide HashEvent, HasTime;
    var changed := events[i := WithExpiry(events[i], expiry)];
    forall j | 0 <= j < |changed| ensures changed[j].pepID == pepID && changed[j].index == first + j + 1 {
      assert Link(p, pepID, events, base, first, j);
    }
    RelinkedIsChained(p, pepID, changed, base, first);
    SameForms(p, Relinked(p, changed, base), changed, events);
  }

  lemma AlteredKeepsBefore(p: Primitives, pepID: string, events: seq<Event>, base: string, first: nat, i: nat,
                           expiry: string)
    requires Chained(p, pepID, events, base, first) && i < |events|
    ensures Altered(p, events, base, i, expiry)[..i] == events[..i]
  {
    hide WithExpiry, Chained;
    var changed := events[i := WithExpiry(events[i], expiry)];
    RelinkedPrefix(p, changed, base, i);
    ChainedPrefix(p, pepID, events, base, first, i);
    ChainIsRelinked(p, pepID, events[..i], base, first);
    assert changed[..i] == events[..i];
  }

  /** It passes the chain check if the delta did, whatever is written. */
  lemma RewrittenIsValid(p: Primitives, ev: Evidence, pepID: string, pub: string, priv: string,
                         previous: Option<Checkpoint>, i: nat, expiry: string)
    requires ValidEvidence(p, ev, pepID, pub, previous) && KeyPair(p, pub, priv) && i < |ev.events|
    ensures var late := Rewritten(p, ev, previous, priv, i, expiry);
      && late.Some? && ValidEvidence(p, late.value, pepID, pub, previous)
      && late.value.events[..i] == ev.events[..i]
      && SameButHashes(late.value.events, ev.events[i := WithExpiry(ev.events[i], expiry)])
      && late.value.checkpoint.createdAt == ev.checkpoint.createdAt
  {
    hide Altered, Chained, VersionOne, Timed, HashCheckpoint, HasTime, SameButHashes, WithExpiry;
    var base := BaseHash(previous);
    AlteredIsChained(p, pepID, ev.events, base, BaseIndex(previous), i, expiry);
    AlteredKeepsBefore(p, pepID, ev.events, base, BaseIndex(previous), i, expiry);
    AlteredLength(p, ev.events, base, i, expiry);
    var unsigned := ev.checkpoint.(lastEventHash := LastHash(Altered(p, ev.events, base, i, expiry), base));
    var late := Rewritten(p, ev, previous, priv, i, expiry).value;
    assert CheckpointBody(late.checkpoint) == CheckpointBody(unsigned);
  }

  lemma AlteredLength(p: Primitives, events: seq<Event>, base: string, i: nat, expiry: string)
    requires i < |events|
    ensures |Altered(p, events, base, i, expiry)| == |events|
  {
  }

  lemma SameForms(p: Primitives, a: seq<Event>, changed: seq<Event>, events: seq<Event>)
    requires SameButHashes(a, changed) && |changed| == |events| && VersionOne(events) && Timed(p, events)
    requires forall j :: 0 <= j < |events| ==> changed[j] == events[j].(metadata := changed[j].metadata)
    ensures VersionOne(a) && Timed(p, a)
  {
    hide HasTime;
    forall j | 0 <= j < |a| ensures a[j].version == 1 && HasTime(p, a[j].timestamp) {
      assert a[j].timestamp == changed[j].timestamp == events[j].timestamp;
      assert a[j].version == changed[j].version == events[j].version;
    }
  }

  /** Event i activates a session, and the delta says no more of it. */
  ghost predicate LeftOpenBy(events: seq<Event>, i: nat) {
    && i < |events| && events[i].eventType == ACTIVATED
    && forall j :: i < j < |events| ==> !Concerns(events[j], SessionKey(events[i]))
  }

  /** The state in which the session under this key is tracked with another expiry. */
  function Moved(st: PolicyState, k: string, expiry: string): PolicyState
    requires k in st.active
  {
    st.(active := st.active[k := st.active[k].(expiresAt := expiry)])
  }

  lemma ActivationStep(ctx: PolicyContext, st: PolicyState, e: Event, expiry: string)
    requires e.eventType == ACTIVATED && PolicyStep(ctx, st, e).Success?
    ensures SessionKey(e) in PolicyStep(ctx, st, e).value.active
    ensures PolicyStep(ctx, st, WithExpiry(e, expiry)) ==
      if TrimSpace(expiry) == "" then Failure(MissingExpiry)
      else Success(Moved(PolicyStep(ctx, st, e).value, SessionKey(e), TrimSpace(expiry)))
  {
    hide TrimSpace, Join;
    var k, tracked := SessionKey(e), Track(e, st.stages[SessionKey(e)].xfrmPlanHash);
    assert SessionKey(WithExpiry(e, expiry)) == k;
    var late := tracked.(expiresAt := TrimSpace(expiry));
    assert st.active[k := tracked][k := late] == st.active[k := late];
  }

  /** Events of other sessions do not see the difference. */
  lemma StepIgnores(ctx: PolicyContext, st: PolicyState, e: Event, k: string, expiry: string)
    requires k in st.active && !Concerns(e, k) && PolicyStep(ctx, st, e).Success?
    ensures k in PolicyStep(ctx, st, e).value.active
    ensures PolicyStep(ctx, Moved(st, k, expiry), e) == Success(Moved(PolicyStep(ctx, st, e).value, k, expiry))
  {
    hide KeyStep, SessionKey, InScope;
    var st' := Moved(st, k, expiry);
    StepIsLocal(ctx, st, e, k);
    StepIsLocal(ctx, st', e, k);
    if SessionType(e.eventType) {
      var k', ks := SessionKey(e), KeyStep(ctx, View(st, SessionKey(e)), e).value;
      assert View(st', k') == View(st, k');
      SameLookups(Put(st'.active, k', ks.active), Moved(Update(st, k', ks), k, expiry).active);
    }
  }

  lemma {:induction false} RestIgnores(ctx: PolicyContext, st: PolicyState, rest: seq<Event>, k: string, expiry: string)
    requires k in st.active && Replay(ctx, st, rest).Success?
    requires forall i :: 0 <= i < |rest| ==> !Concerns(rest[i], k)
    ensures k in Replay(ctx, st, rest).value.active
    ensures Replay(ctx, Moved(st, k, expiry), rest) == Success(Moved(Replay(ctx, st, rest).value, k, expiry))
    decreases |rest|
  {
    hide PolicyStep, Concerns, Moved;
    if rest != [] {
      var n := |rest| - 1;
      RestIgnores(ctx, st, rest[..n], k, expiry);
      StepIgnores(ctx, Replay(ctx, st, rest[..n]).value, rest[n], k, expiry);
    }
  }

  /** The replay of the rewritten delta. */
  lemma RewrittenReplay(ctx: PolicyContext, st: PolicyState, events: seq<Event>, i: nat, expiry: string)
    requires LeftOpenBy(events, i) && Replay(ctx, st, events).Success?
    ensures SessionKey(events[i]) in Replay(ctx, st, events).value.active
    ensures var r := Replay(ctx, st, events[i := WithExpiry(events[i], expiry)]);
      if TrimSpace(expiry) == "" then r.Failure?
      else r == Success(Moved(Replay(ctx, st, events).value, SessionKey(events[i]), TrimSpace(expiry)))
  {
    hide PolicyStep, Moved, WithExpiry, Concerns, Replay;
    var k, e' := SessionKey(events[i]), WithExpiry(events[i], expiry);
    var events', rest := events[i := e'], events[i + 1..];
    PrefixReplays(ctx, st, events[..i], events);
    PrefixReplays(ctx, st, events[..i + 1], events);
    assert events'[..i] == events[..i];
    ReplayNext(ctx, st, events, i);
    ReplayNext(ctx, st, events', i);
    ActivationStep(ctx, Replay(ctx, st, events[..i]).value, events[i], expiry);
    assert events == events[..i + 1] + rest && events' == events'[..i + 1] + rest;
    ReplayConcat(ctx, st, events[..i + 1], rest);
    ReplayConcat(ctx, st, events'[..i + 1], rest);
    forall j | 0 <= j < |rest| ensures !Concerns(rest[j], k) {
      assert rest[j] == events[i + 1 + j];
    }
    RestIgnores(ctx, Replay(ctx, st, events[..i + 1]).value, rest, k, TrimSpace(expiry));
  }

  /** The text reads as a time after the checkpoint. */
  predicate ReadableAfter(p: Primitives, expiry: string, createdAt: string) {
    && TrimSpace(expiry) != "" && p.parseTime(TrimSpace(expiry)).Some? && p.parseTime(createdAt).Some?
    && p.parseTime(createdAt).value < p.parseTime(TrimSpace(expiry)).value
  }

  lemma MovedUnexpired(p: Primitives, st: PolicyState, k: string, expiry: string, at: int)
    requires k in st.active && AllUnexpired(p, st.active, at)
    ensures AllUnexpired(p, Moved(st, k, expiry).active, at)
            <==> p.parseTime(expiry).Some? && at < p.parseTime(expiry).value
  {
    assert k in Moved(st, k, expiry).active;
  }

  /** The appraisal of a delta that differs from an accepted one in the expiry at i, and in hashes. */
  lemma ChangedAppraisal(ctx: PolicyContext, ev: Evidence, late: Evidence, before: ActiveMap, i: nat, expiry: string)
    requires Appraise(ctx, ev, before).Some? && LeftOpenBy(ev.events, i)
    requires SameButHashes(late.events, ev.events[i := WithExpiry(ev.events[i], expiry)])
    requires late.checkpoint.createdAt == ev.checkpoint.createdAt
    ensures var k, after := SessionKey(ev.events[i]), Appraise(ctx, ev, before).value;
      && k in after
      && Appraise(ctx, late, before) ==
         if ReadableAfter(ctx.p, expiry, ev.checkpoint.createdAt)
         then Some(after[k := after[k].(expiresAt := TrimSpace(expiry))]) else None
  {
    hide Replay, TrimSpace, SessionKey, WithExpiry, AllSettled, SameButHashes;
    var st := PolicyState(before, map[]);
    HashesUnread(ctx, st, late.events, ev.events[i := WithExpiry(ev.events[i], expiry)]);
    RewrittenReplay(ctx, st, ev.events, i, expiry);
    if TrimSpace(expiry) != "" {
      MovedUnexpired(ctx.p, Replay(ctx, st, ev.events).value, SessionKey(ev.events[i]), TrimSpace(expiry),
                     ctx.p.parseTime(ev.checkpoint.createdAt).value);
    }
  }

  // ---------- what the Verifier makes of it ----------

  /** The same request with the rewritten delta. */
  function Resubmitted(p: Primitives, f: Flight, priv: string, i: nat, expiry: string): Option<Flight>
    requires f.req.history.Some? && i < |f.req.history.value.events|
  {
    match Rewritten(p, f.req.history.value, f.previous, priv, i, expiry)
    case None => None
    case Some(late) => Some(f.(req := f.req.(history := Some(late))))
  }

  /**
   Take any accepted request whose delta activates a session and leaves it open.  Let the holder of the PEP's key
   write another expiry into the activation, chain the log anew from there, and sign.  The request is accepted
   exactly if the new text reads as a time after the checkpoint, however far off and whatever the cap; and that
   is then the expiry tracked, all else being as before.
   */
  lemma ActivationExpiryDecides(p: Primitives, cfg: VerifierConfig, f: Flight, now: int, priv: string, i: nat,
                                expiry: string)
    requires KeyPair(p, cfg.publicKey, cfg.privateKey) && KeyPair(p, f.req.pepSigningPubKey, priv)
    requires f.req.history.Some? && Judge(p, cfg, f, now).Success? && LeftOpenBy(f.req.history.value.events, i)
    ensures var ev, late := f.req.history.value, Resubmitted(p, f, priv, i, expiry);
      && late.Some? && late.value.req.history.Some?
      && late.value.req.history.value.events[..i] == ev.events[..i]
      && ValidEvidence(p, late.value.req.history.value, f.req.pepID, f.req.pepSigningPubKey, f.previous)
      && (Judge(p, cfg, late.value, now).Success? <==> ReadableAfter(p, expiry, ev.checkpoint.createdAt))
      && (Judge(p, cfg, late.value, now).Success? ==>
            var k, after := SessionKey(ev.events[i]), Judge(p, cfg, f, now).value.active;
            && k in after
            && Judge(p, cfg, late.value, now).value.active == after[k := after[k].(expiresAt := TrimSpace(expiry))])
  {
    hide ValidEvidence, KeyPair, ReadableAfter, TrimSpace, SessionKey, SameButHashes, Rewritten, WithExpiry, Appraise,
      LeftOpenBy;
    var ev := f.req.history.value;
    assert i < |ev.events| by {
      IndexOf(ev.events, i);
    }
    RewrittenIsValid(p, ev, f.req.pepID, f.req.pepSigningPubKey, priv, f.previous, i, expiry);
    var late := Resubmitted(p, f, priv, i, expiry).value;
    ChangedAppraisal(ContextOf(p, cfg, f.req), ev, late.req.history.value, f.active, i, expiry);
    SignsToken(p, cfg, NewToken(p, cfg, late.req, now));
  }

  lemma IndexOf(events: seq<Event>, i: nat)
    requires LeftOpenBy(events, i)
    ensures i < |events|
  {
  }

  lemma SignsToken(p: Primitives, cfg: VerifierConfig, tok: Token)
    requires KeyPair(p, cfg.publicKey, cfg.privateKey)
    ensures SignToken(p, tok, cfg.privateKey).Some?
  {
  }

  /** So a session may be tracked until any second after the checkpoint, under any cap. */
  lemma NoCapOnTrackedExpiry(p: Primitives, cfg: VerifierConfig, f: Flight, now: int, priv: string, i: nat, until: int)
    requires KeyPair(p, cfg.publicKey, cfg.privateKey) && KeyPair(p, f.req.pepSigningPubKey, priv) && Rfc3339(p)
    requires f.req.history.Some? && Judge(p, cfg, f, now).Success? && LeftOpenBy(f.req.history.value.events, i)
    requires TrimSpace(p.formatTime(until)) == p.formatTime(until)
    requires var created := p.parseTime(f.req.history.value.checkpoint.createdAt);
      created.Some? && created.value < FloorSecond(until)
    ensures var k, late := SessionKey(f.req.history.value.events[i]), Resubmitted(p, f, priv, i, p.formatTime(until));
      && late.Some? && late.value.req.history.Some? && late.value.req.maxSALifetime == f.req.maxSALifetime
      && var verdict := Judge(p, cfg, late.value, now);
         verdict.Success? && k in verdict.value.active
         && p.parseTime(verdict.value.active[k].expiresAt) == Some(FloorSecond(until))
  {
    hide KeyPair, Judge, TrimSpace, SessionKey, FloorSecond, LeftOpenBy, Rewritten, ValidEvidence;
    IndexOf(f.req.history.value.events, i);
    assert p.formatTime(until) != "" && p.parseTime(p.formatTime(until)) == Some(FloorSecond(until));
    ActivationExpiryDecides(p, cfg, f, now, priv, i, p.formatTime(until));
  }
}
