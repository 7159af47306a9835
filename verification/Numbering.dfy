/**
 What the allocators are for: a session numbered by them shares neither its key nor its selectors with any
 live session, until a counter has come round.  Sessions no longer live are another matter: a restart forgets them.
 */
module Numbering {
  import opened Wrappers
  import opened Protocol
  import opened Text
  import opened Policy
  import opened Lifecycle
  import opened SessionKeys
  import opened SessionTable
  import opened Allocator
  import opened Xfrm
  import opened DeltaReplay

  /** Two different allocations between which the counter has not come round. */
  predicate Other(m: nat, n: nat) {
    0 < m && m != n && m < n + WORD && n < m + WORD
  }

  /** A reqid restored, with the counter not come round to it at the n-th allocation, or handed out at another. */
  ghost predicate OtherReqID(reqID: nat, top: nat, n: nat) {
    || (reqID <= top && n < WORD - (top - reqID))
    || exists m :: Other(m, n) && Issued(top, m) == reqID
  }

  lemma OtherReqIDDiffers(reqID: nat, top: nat, n: nat)
    requires top < WORD && 0 < n && OtherReqID(reqID, top, n)
    ensures Issued(top, n) != reqID
  {
    hide Issued, WholeTurns;
    if reqID <= top && n < WORD - (top - reqID) {
      IssuedReturns(top, reqID, n);
    } else {
      var m :| Other(m, n) && Issued(top, m) == reqID;
      OtherNumber(top, m, n);
    }
  }

  lemma OtherNumber(top: nat, m: nat, n: nat)
    requires top < WORD && Other(m, n)
    ensures Issued(top, m) != Issued(top, n)
  {
    hide Issued, WholeTurns;
    if m < n {
      IssuedRepeats(top, m, n);
      TurnsOfAWord(n - m);
    } else {
      IssuedRepeats(top, n, m);
      TurnsOfAWord(m - n);
    }
  }

  /** The same for an inner address; one outside the prefix is never handed out. */
  ghost predicate OtherAddress(a: Addressing, x: Prefix, address: string, top: nat, n: nat)
    requires WellFormedPrefix(x)
  {
    var offset := ClientInnerIPOffset(Some(x), a.parse(address));
    || offset.Failure?
    || (offset.value <= top && n < WORD - (top - offset.value))
    || exists m :: Other(m, n) && InnerIP(a, Some(x), Issued(top, m)) == Success(address)
  }

  lemma OtherAddressDiffers(a: Addressing, x: Prefix, address: string, top: nat, n: nat)
    requires Printable(a) && WellFormedPrefix(x) && top < WORD && 0 < n && OtherAddress(a, x, address, top, n)
    ensures InnerIP(a, Some(x), Issued(top, n)) != Success(address)
  {
    hide Issued, WholeTurns, ClientInnerIPOffset, ClientInnerIPFromOffset;
    var issued := InnerIP(a, Some(x), Issued(top, n));
    if issued == Success(address) {
      IssuedAddressOffset(a, x, Issued(top, n), address);
      if exists m :: Other(m, n) && InnerIP(a, Some(x), Issued(top, m)) == Success(address) {
        var m :| Other(m, n) && InnerIP(a, Some(x), Issued(top, m)) == Success(address);
        InnerIPInjective(a, x, Issued(top, m), Issued(top, n));
        OtherNumber(top, m, n);
      } else {
        IssuedReturns(top, ClientInnerIPOffset(Some(x), a.parse(address)).value, n);
      }
    }
  }

  lemma IssuedAddressOffset(a: Addressing, x: Prefix, n: nat, address: string)
    requires Printable(a) && WellFormedPrefix(x) && InnerIP(a, Some(x), n) == Success(address)
    ensures ClientInnerIPOffset(Some(x), a.parse(address)) == Success(n)
  {
    hide PoolSize, Masked;
    PoolIsExact(x, n);
    assert a.parse(a.format(ClientInnerIPFromOffset(Some(x), n).value))
           == Some(ClientInnerIPFromOffset(Some(x), n).value);
  }

  ghost predicate PlainSession(s: Session) {
    PlainFields(SessionFields(s))
  }

  /** Different reqids make different keys, if the fields of one side contain no bar. */
  lemma ReqIDsSeparateKeys(s: Session, parts: seq<string>, reqID: nat)
    requires PlainSession(s) && |parts| == 7 && parts[6] == Decimal(reqID) && Join(parts) == KeyOf(s)
    ensures s.reqID == reqID
  {
    hide Join, Decimal, Plain;
    var own := KeyParts(s.clientPubKey, s.serviceID, s.clientOuterIP, s.clientInnerIP, s.clientInSPI, s.pepInSPI,
                        s.reqID);
    PlainPartsIdentify(own, parts);
    assert own[6] == parts[6];
    DecimalInjective(s.reqID, reqID);
  }

  function SessionFields(s: Session): seq<string> {
    KeyParts(s.clientPubKey, s.serviceID, s.clientOuterIP, s.clientInnerIP, s.clientInSPI, s.pepInSPI, s.reqID)
  }

  /** The key of a session without bars is new to a log exactly if no session event of it has the same seven fields. */
  lemma {:induction false} KeyIsNew(events: seq<Event>, s: Session)
    requires PlainSession(s)
    ensures Project(events, KeyOf(s)) == []
            <==> forall i :: 0 <= i < |events| && SessionType(events[i].eventType) ==>
                   KeyFields(events[i]) != SessionFields(s)
    decreases |events|
  {
    hide Join, Decimal, KeyFields, SessionFields, PlainFields;
    if events != [] {
      var n := |events| - 1;
      KeyIsNew(events[..n], s);
      SameKeySameFields(s, events[n]);
      assert forall i :: 0 <= i < n ==> events[..n][i] == events[i];
    }
  }

  lemma SameKeySameFields(s: Session, e: Event)
    requires PlainSession(s)
    ensures SessionKey(e) == KeyOf(s) <==> KeyFields(e) == SessionFields(s)
  {
    hide Join, Decimal, Plain;
    if SessionKey(e) == KeyOf(s) {
      PlainPartsIdentify(SessionFields(s), KeyFields(e));
    }
  }

  /** So it is new if the numbers of all these events are of other allocations of this process, or were restored. */
  lemma NumberedKeyIsNew(events: seq<Event>, s: Session, top: nat, n: nat)
    requires top < WORD && 0 < n && s.reqID == Issued(top, n) && PlainSession(s)
    requires forall i :: 0 <= i < |events| && SessionType(events[i].eventType) ==> OtherReqID(events[i].reqID, top, n)
    ensures Project(events, KeyOf(s)) == []
  {
    hide Decimal, Issued, OtherReqID, PlainSession, KeyOf, Project;
    KeyIsNew(events, s);
    forall i | 0 <= i < |events| && SessionType(events[i].eventType)
      ensures KeyFields(events[i]) != SessionFields(s)
    {
      OtherReqIDDiffers(events[i].reqID, top, n);
      if KeyFields(events[i]) == SessionFields(s) {
        assert KeyFields(events[i])[6] == SessionFields(s)[6];
        DecimalInjective(events[i].reqID, s.reqID);
      }
    }
  }

  lemma NumberedIsFresh(sessions: map<string, Session>, s: Session, top: nat, n: nat)
    requires top < WORD && 0 < n && s.reqID == Issued(top, n) && PlainSession(s) && s.pepInSPI !in sessions
    requires forall id :: id in sessions ==> OtherReqID(sessions[id].reqID, top, n)
    ensures Fresh(sessions, s) && Unclaimed(sessions, s)
  {
    hide Join, Decimal, Issued, OtherReqID, PlainSession;
    forall id | id in sessions ensures KeyOf(sessions[id]) != KeyOf(s) {
      var t := sessions[id];
      OtherReqIDDiffers(t.reqID, top, n);
      if KeyOf(t) == KeyOf(s) {
        var parts := KeyParts(t.clientPubKey, t.serviceID, t.clientOuterIP, t.clientInnerIP, t.clientInSPI, t.pepInSPI,
                              t.reqID);
        ReqIDsSeparateKeys(s, parts, t.reqID);
      }
    }
  }

  /** A newly addressed session has selectors of its own, so that only its SAs need to be distinct. */
  lemma AddressedIsDistinct(a: Addressing, x: Prefix, spi: Spi, live: map<string, Session>, s: Session, top: nat,
                            n: nat)
    requires Printable(a) && WellFormedPrefix(x) && top < WORD && 0 < n
    requires InnerIP(a, Some(x), Issued(top, n)) == Success(s.clientInnerIP)
    requires forall id :: id in live ==> OtherAddress(a, x, live[id].clientInnerIP, top, n)
    requires Inbound(spi, s) != Outbound(spi, s) && s.pepInSPI !in live
    requires forall id :: id in live ==> StateKeys(spi, s) !! StateKeys(spi, live[id])
    ensures Distinct(spi, live, s)
  {
    hide Issued, InnerIP, OtherAddress, StateKeys;
    forall id | id in live ensures Apart(spi, s, live[id]) {
      OtherAddressDiffers(a, x, live[id].clientInnerIP, top, n);
    }
  }

  // ---------- over restarts ----------

  /** The counter, the numbers of the sessions in the table, all numbers ever handed out, and the largest. */
  datatype Numbers = Numbers(counter: nat, live: set<nat>, issued: set<nat>, highest: nat)

  datatype NumberStep = Take | Drop(number: nat) | Reboot(top: nat)

  ghost predicate IsTop(base: nat, live: set<nat>, top: nat) {
    base <= top && (forall n :: n in live ==> n <= top) && (top == base || top in live)
  }

  /** This is where a new process starts to count. */
  lemma RestoredTop(sessions: map<string, Session>, base: nat, top: nat)
    ensures PastReqIDs(sessions, base, top) <==> IsTop(base, set id | id in sessions :: sessions[id].reqID, top)
  {
    var live := set id | id in sessions :: sessions[id].reqID;
    assert forall id :: id in sessions ==> sessions[id].reqID in live;
  }

  ghost function NumbersNext(base: nat, s: Numbers, step: NumberStep): Numbers {
    match step
    case Take =>
      var n := Next(s.counter);
      Numbers(n, s.live + {n}, s.issued + {n}, if n > s.highest then n else s.highest)
    case Drop(n) => s.(live := s.live - {n})
    case Reboot(top) => if IsTop(base, s.live, top) then s.(counter := top) else s
  }

  ghost function NumbersRun(base: nat, steps: seq<NumberStep>): Numbers {
    if steps == [] then Numbers(base, {}, {}, base)
    else NumbersNext(base, NumbersRun(base, steps[..|steps| - 1]), steps[|steps| - 1])
  }

  lemma {:induction false} NumbersAreDense(base: nat, steps: seq<NumberStep>)
    requires base + |steps| < WORD
    ensures var s := NumbersRun(base, steps);
      && base <= s.counter <= s.highest <= base + |steps|
      && s.live <= s.issued
      && forall n :: n in s.issued <==> base < n <= s.highest
    decreases |steps|
  {
    if steps != [] {
      var n := |steps| - 1;
      NumbersAreDense(base, steps[..n]);
      var s := NumbersRun(base, steps[..n]);
      if steps[n].Take? {
        SmallResidue(s.counter + 1);
      }
    }
  }

  /**
   Over any run of allocations, deletions and restarts, before the counter comes round: the number handed out next
   has been handed out before exactly if the largest number ever handed out is above the counter, that is, if the
   session that had it was gone when a process started and the counter has not come back to it.  It is never the
   number of a session in the table.
   */
  lemma ReissuedExactly(base: nat, steps: seq<NumberStep>)
    requires base + |steps| + 1 < WORD
    ensures var s := NumbersRun(base, steps);
      Next(s.counter) in s.issued <==> s.counter < s.highest
    ensures var s := NumbersRun(base, steps);
      Next(s.counter) !in s.live
  {
    NumbersAreDense(base, steps);
    LiveBelowCounter(base, steps);
    SmallResidue(NumbersRun(base, steps).counter + 1);
  }

  lemma {:induction false} LiveBelowCounter(base: nat, steps: seq<NumberStep>)
    requires base + |steps| < WORD
    ensures var s := NumbersRun(base, steps); forall n :: n in s.live ==> n <= s.counter
    decreases |steps|
  {
    if steps != [] {
      var n := |steps| - 1;
      NumbersAreDense(base, steps[..n]);
      LiveBelowCounter(base, steps[..n]);
      if steps[n].Take? {
        SmallResidue(NumbersRun(base, steps[..n]).counter + 1);
      }
    }
  }

  /** The shortest case: one session, deleted before a restart. */
  lemma RestartReissues(base: nat)
    requires base + 1 < WORD
    ensures var steps := [Take, Drop(base + 1), Reboot(base)];
      && NumbersRun(base, steps[..1]).issued == {base + 1}
      && Next(NumbersRun(base, steps).counter) == base + 1
  {
    var steps := [Take, Drop(base + 1), Reboot(base)];
    SmallResidue(base + 1);
    assert steps[..3] == steps && steps[..3][..2] == steps[..2] && steps[..2][..1] == steps[..1];
    assert NumbersRun(base, steps[..1]) == Numbers(base + 1, {base + 1}, {base + 1}, base + 1);
    assert NumbersRun(base, steps[..2]) == Numbers(base + 1, {}, {base + 1}, base + 1);
  }

  // ---------- what a key used twice comes to ----------

  /** A delta in which a key begins two lives is refused, however the first one ended. */
  lemma SecondLifeRefused(ctx: PolicyContext, st: PolicyState, events: seq<Event>, i: nat, j: nat)
    requires i < j < |events| && events[i].eventType == events[j].eventType == APPLY_INTENT
    requires SessionKey(events[i]) == SessionKey(events[j])
    ensures Replay(ctx, st, events).Failure?
  {
    hide PolicyStep, Replay;
    var k := SessionKey(events[i]);
    if Replay(ctx, st, events[..i + 1]).Success? && Replay(ctx, st, events[..j]).Success? {
      PrefixReplays(ctx, st, events[..i], events[..i + 1]);
      ReplayNext(ctx, st, events, i);
      IntentStages(ctx, Replay(ctx, st, events[..i]).value, events[i]);
      assert events[..j] == events[..i + 1] + events[i + 1..j];
      ReplayConcat(ctx, st, events[..i + 1], events[i + 1..j]);
      StagesStay(ctx, Replay(ctx, st, events[..i + 1]).value, events[i + 1..j], k);
      ReplayNext(ctx, st, events, j);
      IntentStages(ctx, Replay(ctx, st, events[..j]).value, events[j]);
      ReplayStaysFailed(ctx, st, events, j + 1);
    } else if Replay(ctx, st, events[..j]).Failure? {
      ReplayStaysFailed(ctx, st, events, j);
    } else {
      ReplayStaysFailed(ctx, st, events, i + 1);
    }
  }

  /** An intent is taken only for a key of which the delta has said nothing, and then it has. */
  lemma IntentStages(ctx: PolicyContext, st: PolicyState, e: Event)
    requires e.eventType == APPLY_INTENT
    ensures PolicyStep(ctx, st, e).Success? ==>
      SessionKey(e) !in st.stages && SessionKey(e) in PolicyStep(ctx, st, e).value.stages
  {
    hide Join, TrimSpace, LifetimeAllowed;
  }

  lemma {:induction false} StagesStay(ctx: PolicyContext, st: PolicyState, events: seq<Event>, k: string)
    requires k in st.stages && Replay(ctx, st, events).Success?
    ensures k in Replay(ctx, st, events).value.stages
    decreases |events|
  {
    hide PolicyStep;
    if events != [] {
      var n := |events| - 1;
      StagesStay(ctx, st, events[..n], k);
      StageStays(ctx, Replay(ctx, st, events[..n]).value, events[n], k);
    }
  }

  lemma StageStays(ctx: PolicyContext, st: PolicyState, e: Event, k: string)
    requires k in st.stages && PolicyStep(ctx, st, e).Success?
    ensures k in PolicyStep(ctx, st, e).value.stages
  {
    hide Join, PlanHash, Expiry, LifetimeAllowed, ExpirationAllowed, VerifyObservedEvent, CompleteEvent, InScope,
      EffectiveProfile;
  }
}
