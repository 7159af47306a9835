/**
 The kernel event window of pep/xfrm_observer.go and what the PEP reports from it.  The monitor process, the
 polling with a timeout and the duration fields are not part of this model: one reading of the window stands
 for the last poll.
 */
module Observer {
  import opened Wrappers
  import opened Protocol
  import opened Text
  import opened Pep

  datatype KernelEvent = KernelEvent(raw: string, probe: string, action: string)

  const WINDOW := 4096
  const KEPT := 2048
  /** What one trim discards. */
  const DROPPED := WINDOW + 1 - KEPT

  const POSTHOC := "posthoc"
  const EBPF := "ebpf"
  const HYBRID := "hybrid"

  // ---------- the window ----------

  function Push(buffer: seq<KernelEvent>, e: KernelEvent): seq<KernelEvent> {
    var longer := buffer + [e];
    if |longer| > WINDOW then longer[|longer| - KEPT..] else longer
  }

  function Feed(buffer: seq<KernelEvent>, es: seq<KernelEvent>): seq<KernelEvent> {
    if es == [] then buffer else Push(Feed(buffer, es[..|es| - 1]), es[|es| - 1])
  }

  function EventsSince(buffer: seq<KernelEvent>, mark: int): seq<KernelEvent> {
    if mark < 0 || mark > |buffer| then [] else buffer[mark..]
  }

  /** How often a window of `held` events is trimmed while it takes `more`. */
  function Trims(held: nat, more: nat): nat {
    if held + more <= WINDOW then 0 else (held + more - KEPT) / DROPPED
  }

  function Tail<T>(s: seq<T>, n: int): seq<T>
    requires n <= |s|
  {
    if n <= 0 then [] else s[|s| - n..]
  }

  lemma TrimsStep(held: nat, more: nat)
    requires held <= WINDOW && more > 0
    ensures var before := held + more - 1 - DROPPED * Trims(held, more - 1);
      && 0 <= before <= WINDOW
      && Trims(held, more) == Trims(held, more - 1) + if before == WINDOW then 1 else 0
  {
  }

  /** The window is what is left of all events in order after the trims have cut its front. */
  lemma {:induction false} FeedIsTail(buffer: seq<KernelEvent>, es: seq<KernelEvent>)
    requires |buffer| <= WINDOW
    ensures var n := |buffer| + |es| - DROPPED * Trims(|buffer|, |es|);
      0 <= n <= WINDOW && Feed(buffer, es) == Tail(buffer + es, n)
    decreases |es|
  {
    hide Trims, Push, Tail;
    if es == [] {
      NoTrims(|buffer|);
      assert buffer + es == buffer;
      WholeTail(buffer);
    } else {
      var k := |es| - 1;
      FeedIsTail(buffer, es[..k]);
      TrimsStep(|buffer|, |es|);
      assert buffer + es == (buffer + es[..k]) + [es[k]];
      PushTail(buffer + es[..k], |buffer| + k - DROPPED * Trims(|buffer|, k), es[k]);
    }
  }

  lemma WholeTail<T>(s: seq<T>)
    ensures Tail(s, |s|) == s
  {
  }

  lemma PushTail(s: seq<KernelEvent>, n: nat, e: KernelEvent)
    requires n <= |s| && n <= WINDOW
    ensures Push(Tail(s, n), e) == Tail(s + [e], if n == WINDOW then KEPT else n + 1)
  {
  }

  lemma NoTrims(held: nat)
    requires held <= WINDOW
    ensures Trims(held, 0) == 0
  {
  }

  /**
   Whatever was appended after a mark, and however often the window was trimmed since, what is read back is a
   tail of exactly those events; it is all of them exactly if there was no trim, that is, exactly if the window
   had room.
   */
  lemma SinceMarkIsTail(buffer: seq<KernelEvent>, es: seq<KernelEvent>)
    requires |buffer| <= WINDOW
    ensures DROPPED * Trims(|buffer|, |es|) <= |buffer| + |es|
    ensures EventsSince(Feed(buffer, es), |buffer|) == Tail(es, |es| - DROPPED * Trims(|buffer|, |es|))
    ensures EventsSince(Feed(buffer, es), |buffer|) == es <==> |buffer| + |es| <= WINDOW
  {
    hide Feed;
    FeedIsTail(buffer, es);
    var lost := DROPPED * Trims(|buffer|, |es|);
    var n := |buffer| + |es| - lost;
    if n >= |buffer| {
      assert Tail(buffer + es, n)[|buffer|..] == es[lost..];
    }
  }

  // ---------- what is reported ----------

  function Matching(events: seq<KernelEvent>, action: string): seq<KernelEvent> {
    if events == [] then []
    else
      var n := |events| - 1;
      Matching(events[..n], action) + if events[n].action == action then [events[n]] else []
  }

  function Probes(events: seq<KernelEvent>): seq<string> {
    if events == [] then []
    else
      var n := |events| - 1;
      Probes(events[..n]) + if events[n].probe != "" then [events[n].probe] else []
  }

  lemma {:induction false} MatchingConcat(a: seq<KernelEvent>, b: seq<KernelEvent>, action: string)
    ensures Matching(a + b, action) == Matching(a, action) + Matching(b, action)
    decreases |b|
  {
    if b == [] {
      assert a + b == a;
    } else {
      var n := |b| - 1;
      MatchingConcat(a, b[..n], action);
      assert (a + b)[..|a| + n] == a + b[..n];
    }
  }

  /** An event counts exactly if it is of the action asked for, and its probe exactly if it names one; in order. */
  lemma {:induction false} CountedOneByOne(events: seq<KernelEvent>, e: KernelEvent, action: string)
    ensures Matching([], action) == [] && Probes([]) == []
    ensures Matching(events + [e], action) == Matching(events, action) + if e.action == action then [e] else []
    ensures Probes(events + [e]) == Probes(events) + if |e.probe| > 0 then [e.probe] else []
  {
    assert (events + [e])[..|events|] == events;
  }

  function BoolText(b: bool): string {
    if b then "true" else "false"
  }

  datatype ObserverConfig = ObserverConfig(mode: string, minApplyEvents: int, minDeleteEvents: int)

  function MinEvents(o: ObserverConfig, action: string): (n: nat)
    ensures n > 0
  {
    if action == "apply" && o.minApplyEvents > 0 then o.minApplyEvents
    else if action == "delete" && o.minDeleteEvents > 0 then o.minDeleteEvents
    else 1
  }

  function FirstSix(probes: seq<string>): seq<string> {
    if |probes| > 6 then probes[..6] else probes
  }

  function Counted(o: ObserverConfig, given: Metadata, events: seq<KernelEvent>, action: string): Metadata {
    var seen := Matching(events, action);
    var matched := BoolText(|seen| >= MinEvents(o, action));
    var counted :=
      given["observer_source" := if o.mode == HYBRID then "posthoc+ebpf" else "ebpf"]
           ["ebpf_event_count" := Decimal(|seen|)]
           ["ebpf_total_event_count" := Decimal(|events|)]
           ["ebpf_min_event_count" := Decimal(MinEvents(o, action))]
           ["ebpf_matched" := matched];
    var probed := if Probes(seen) == [] then counted else counted["ebpf_probes" := JoinComma(FirstSix(Probes(seen)))];
    if o.mode != EBPF then probed
    else if action == "apply" then probed["applied" := matched]
    else if action == "delete" then probed["deleted" := matched]
    else probed
  }

  function Annotated(o: ObserverConfig, given: Metadata, events: seq<KernelEvent>, action: string): Metadata {
    var named := given["observer_mode" := o.mode];
    if Entry(given, "xfrm_mode") != "apply" then
      named["observer_source" := "dry-run"]["ebpf_matched" := "not-applicable"]
    else if o.mode == POSTHOC then named["observer_source" := "posthoc"]
    else Counted(o, named, events, action)
  }

  /** What is reported of an action, from what was known before and the kernel events since it began, key by key. */
  predicate Reports(o: ObserverConfig, before: Metadata, since: seq<KernelEvent>, action: string, meta: Metadata) {
    var known, seen := before["observer_mode" := o.mode], Matching(since, action);
    var least := if action == "apply" && o.minApplyEvents > 0 then o.minApplyEvents
                 else if action == "delete" && o.minDeleteEvents > 0 then o.minDeleteEvents
                 else 1;
    var matched := if |seen| >= least then "true" else "false";
    var probes := Probes(seen);
    if Entry(known, "xfrm_mode") != "apply" then
      meta == known["observer_source" := "dry-run"]["ebpf_matched" := "not-applicable"]
    else if o.mode == "posthoc" then meta == known["observer_source" := "posthoc"]
    else
      var counted := known["observer_source" := if o.mode == "hybrid" then "posthoc+ebpf" else "ebpf"]
                          ["ebpf_event_count" := Decimal(|seen|)]["ebpf_total_event_count" := Decimal(|since|)]
                          ["ebpf_min_event_count" := Decimal(least)]["ebpf_matched" := matched];
      var probed := if probes == [] then counted
                    else counted["ebpf_probes" := JoinComma(if |probes| > 6 then probes[..6] else probes)];
      meta == if o.mode != "ebpf" then probed
              else if action == "apply" then probed["applied" := matched]
              else if action == "delete" then probed["deleted" := matched]
              else probed
  }

  class XfrmObserver {
    const o: ObserverConfig
    var events: seq<KernelEvent>

    constructor (o: ObserverConfig)
      ensures this.o == o && events == []
    {
      this.o := o;
      events := [];
    }

    method Mark() returns (index: int)
      ensures index == |events|
    {
      index := |events|;
    }

    /** The append-and-trim step of readEvents. */
    method ReadEvent(e: KernelEvent)
      modifies `events
      ensures events == Push(old(events), e)
      ensures var longer := old(events) + [e];
        events == if |longer| > 4096 then longer[|longer| - 2048..] else longer
      ensures |old(events)| <= WINDOW ==> |events| <= WINDOW
    {
      events := events + [e];
      if |events| > WINDOW {
        events := events[|events| - KEPT..];
      }
    }

    /** The counting loop of annotate. */
    static method Count(since: seq<KernelEvent>, action: string)
      returns (actionEvents: seq<KernelEvent>, probes: seq<string>)
      ensures actionEvents == Matching(since, action) && probes == Probes(actionEvents)
    {
      actionEvents, probes := [], [];
      for i := 0 to |since|
        invariant actionEvents == Matching(since[..i], action)
        invariant probes == Probes(actionEvents)
      {
        var e := since[i];
        assert since[..i + 1][..i] == since[..i];
        if e.action == action {
          assert (actionEvents + [e])[..|actionEvents|] == actionEvents;
          actionEvents := actionEvents + [e];
          if e.probe != "" {
            probes := probes + [e.probe];
          }
        }
      }
      assert since[..|since|] == since;
    }

    method Annotate(given: Option<Metadata>, mark: int, action: string) returns (meta: Metadata)
      ensures meta == Annotated(o, if given.Some? then given.value else map[], EventsSince(events, mark), action)
      ensures Reports(o, if given.Some? then given.value else map[],
                      if 0 <= mark <= |events| then events[mark..] else [], action, meta)
    {
      hide Decimal, JoinComma, Matching, Probes;
      meta := if given.Some? then given.value else map[];
      var dry := Entry(meta, "xfrm_mode") != "apply";
      meta := meta["observer_mode" := o.mode];
      if dry {
        return meta["observer_source" := "dry-run"]["ebpf_matched" := "not-applicable"];
      }
      if o.mode == POSTHOC {
        return meta["observer_source" := "posthoc"];
      }
      var since := if mark < 0 || mark > |events| then [] else events[mark..];
      var actionEvents, probes := Count(since, action);
      var matched := |actionEvents| >= MinEvents(o, action);
      meta := meta["observer_source" := if o.mode == HYBRID then "posthoc+ebpf" else "ebpf"];
      meta := meta["ebpf_event_count" := Decimal(|actionEvents|)];
      meta := meta["ebpf_total_event_count" := Decimal(|since|)];
      meta := meta["ebpf_min_event_count" := Decimal(MinEvents(o, action))];
      meta := meta["ebpf_matched" := BoolText(matched)];
      if probes != [] {
        meta := meta["ebpf_probes" := JoinComma(FirstSix(probes))];
      }
      if o.mode == EBPF {
        if action == "apply" {
          meta := meta["applied" := BoolText(matched)];
        } else if action == "delete" {
          meta := meta["deleted" := BoolText(matched)];
        }
      }
    }
  }

  /**
   "ebpf_matched=true" is reported exactly if enough of the events kept since the mark match, and then at least
   that many matching events really were appended after the mark.
   */
  lemma MatchedMeansObserved(o: ObserverConfig, given: Metadata, buffer: seq<KernelEvent>, es: seq<KernelEvent>,
                             action: string)
    requires |buffer| <= WINDOW && o.mode != POSTHOC && Entry(given, "xfrm_mode") == "apply"
    ensures DROPPED * Trims(|buffer|, |es|) <= |buffer| + |es|
    ensures var kept := Tail(es, |es| - DROPPED * Trims(|buffer|, |es|));
      Entry(Annotated(o, given, EventsSince(Feed(buffer, es), |buffer|), action), "ebpf_matched") == "true"
      <==> |Matching(kept, action)| >= MinEvents(o, action)
    ensures Entry(Annotated(o, given, EventsSince(Feed(buffer, es), |buffer|), action), "ebpf_matched") == "true"
      ==> |Matching(es, action)| >= MinEvents(o, action)
  {
    hide Feed, Matching, Trims, Probes, Decimal, JoinComma;
    SinceMarkIsTail(buffer, es);
    var kept := Tail(es, |es| - DROPPED * Trims(|buffer|, |es|));
    var front := es[..|es| - |kept|];
    assert es == front + kept;
    MatchingConcat(front, kept, action);
  }

  /**
   Under a profile that asks for the kernel's own events, no operation is taken for successful, by the PEP and
   so by its log, unless the monitor saw enough matching events after the operation began.
   */
  lemma AcceptedOperationWasSeen(cfg: PepConfig, s: Session, o: ObserverConfig, posthoc: Metadata,
                                 buffer: seq<KernelEvent>, es: seq<KernelEvent>, action: string, outcome: string)
    requires |buffer| <= WINDOW && outcome in {"applied", "deleted"}
    requires cfg.requiredObserver == HYBRID || cfg.requiredObserver == EBPF
    requires var observed := Annotated(o, ObservedMeta(cfg, s, posthoc), EventsSince(Feed(buffer, es), |buffer|),
                                       action);
      MeetsLocalProfile(cfg, ObservedMeta(cfg, s, observed), outcome)
    ensures |Matching(es, action)| >= MinEvents(o, action)
  {
    hide Feed, Matching, Trims, EventsSince, MeetsLocalProfile, Annotated, PlanDigest, ToLower;
    var base := ObservedMeta(cfg, s, posthoc);
    var observed := Annotated(o, base, EventsSince(Feed(buffer, es), |buffer|), action);
    StrictProfile(cfg, ObservedMeta(cfg, s, observed), outcome);
    if o.mode == POSTHOC {
      SourcesDiffer(o, base, EventsSince(Feed(buffer, es), |buffer|), action);
      assert false;
    }
    MatchedMeansObserved(o, base, buffer, es, action);
  }

  lemma StrictProfile(cfg: PepConfig, meta: Metadata, outcome: string)
    requires cfg.requiredObserver == HYBRID || cfg.requiredObserver == EBPF
    requires MeetsLocalProfile(cfg, meta, outcome)
    ensures Entry(meta, "xfrm_mode") == "apply" && Entry(meta, "ebpf_matched") == "true"
    ensures ToLower(Entry(meta, "observer_source")) != "posthoc"
  {
  }

  lemma SourcesDiffer(o: ObserverConfig, given: Metadata, events: seq<KernelEvent>, action: string)
    requires o.mode == POSTHOC && Entry(given, "xfrm_mode") == "apply"
    ensures ToLower(Entry(Annotated(o, given, events, action), "observer_source")) == "posthoc"
  {
  }
}
