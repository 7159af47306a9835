/**
 The replay cache of pdp/main.go together with the timestamp window: how often one packet can be accepted.
 Packets are handled one after the other; what the header of a packet decrypts to is a function of its hash.
 */
module ReplayCache {
  import opened Wrappers
  import opened Attest
  import opened Policy
  import opened Spa

  const REPLAY_TTL: int := 10 * SECOND
  const SPA_SKEW: int := 10 * SECOND

  type Items = map<string, int>

  function Purged(items: Items, now: int): Items {
    map hash | hash in items && now <= items[hash] :: items[hash]
  }

  /** A packet at clock reading `now`; `genuine` is whether its sender is known and its payload opens. */
  datatype Arrival = Arrival(hash: string, now: int, genuine: bool)

  /** The timestamp in a packet's header, if the header opens at all. */
  type Stamps = string -> Option<int>

  predicate InWindow(stamps: Stamps, hash: string, now: int) {
    stamps(hash).Some? && WithinSkew(stamps(hash).value, now, SPA_SKEW)
  }

  /** Within ten seconds of each other. */
  predicate Near(sent: int, now: int) {
    sent - 10 * 1_000_000_000 <= now <= sent + 10 * 1_000_000_000
  }

  predicate Accepts(stamps: Stamps, items: Items, a: Arrival) {
    a.hash !in Purged(items, a.now) && InWindow(stamps, a.hash, a.now) && a.genuine
  }

  function After(stamps: Stamps, items: Items, a: Arrival): Items {
    if Accepts(stamps, items, a) then Purged(items, a.now)[a.hash := a.now + REPLAY_TTL] else Purged(items, a.now)
  }

  class Cache {
    var items: Items

    constructor ()
      ensures items == map[]
    {
      items := map[];
    }

    method Seen(hash: string, now: int) returns (seen: bool)
      modifies this
      ensures items == Purged(old(items), now) && (seen <==> hash in items)
      ensures forall k :: k in items <==> k in old(items) && now <= old(items)[k]
      ensures forall k :: k in items ==> items[k] == old(items)[k]
    {
      var left := items.Keys;
      while left != {}
        invariant left <= old(items).Keys
        invariant forall k :: k in items <==> k in old(items) && (k in left || now <= old(items)[k])
        invariant forall k :: k in items ==> items[k] == old(items)[k]
        decreases left
      {
        var k :| k in left;
        if now > items[k] {
          items := items - {k};
        }
        left := left - {k};
      }
      seen := hash in items;
    }

    method Add(hash: string, now: int)
      modifies this
      ensures items == old(items)[hash := now + 10 * 1_000_000_000]
    {
      items := items[hash := now + REPLAY_TTL];
    }

    /** The accept path of handleUDPPacket. */
    method Handle(stamps: Stamps, a: Arrival) returns (accepted: bool)
      modifies this
      ensures accepted <==> Accepts(stamps, old(items), a)
      ensures accepted <==>
        && (a.hash in old(items) ==> old(items)[a.hash] < a.now)
        && stamps(a.hash).Some? && Near(stamps(a.hash).value * 1_000_000, a.now) && a.genuine
      ensures items == After(stamps, old(items), a)
    {
      var seen := Seen(a.hash, a.now);
      if seen || !InWindow(stamps, a.hash, a.now) || !a.genuine {
        return false;
      }
      Add(a.hash, a.now);
      accepted := true;
    }
  }

  // ---------- runs ----------

  /** The cache after a run, and the log of every acceptance since the start. */
  datatype Run = Run(items: Items, log: seq<Arrival>)

  function RunOf(stamps: Stamps, arrivals: seq<Arrival>): Run {
    if arrivals == [] then Run(map[], [])
    else
      var before, a := RunOf(stamps, arrivals[..|arrivals| - 1]), arrivals[|arrivals| - 1];
      Run(After(stamps, before.items, a), before.log + if Accepts(stamps, before.items, a) then [a] else [])
  }

  ghost predicate Ordered(arrivals: seq<Arrival>) {
    forall i, j :: 0 <= i < j < |arrivals| ==> arrivals[i].now <= arrivals[j].now
  }

  /** When the packet with this hash was accepted, first to last. */
  function Times(log: seq<Arrival>, hash: string): seq<int> {
    if log == [] then []
    else
      var n := |log| - 1;
      Times(log[..n], hash) + if log[n].hash == hash then [log[n].now] else []
  }

  /** What the cache knows of a hash at `clock`: the last acceptance, until it runs out. */
  function Remembered(times: seq<int>, clock: int): Option<int> {
    if times != [] && clock <= times[|times| - 1] + REPLAY_TTL then Some(times[|times| - 1] + REPLAY_TTL) else None
  }

  /** The lazily purged map says exactly what the log of all acceptances says. */
  ghost predicate AgreesWithLog(r: Run, clock: int) {
    forall hash :: Lookup(r.items, hash) == Remembered(Times(r.log, hash), clock)
  }

  /** Acceptances of one packet lie more than the cache's lifetime apart, within the window, and not in the future. */
  ghost predicate Spaced(stamps: Stamps, times: seq<int>, hash: string, clock: int) {
    && (forall i :: 0 < i < |times| ==> times[i - 1] + REPLAY_TTL < times[i])
    && (forall i :: 0 <= i < |times| ==> InWindow(stamps, hash, times[i]) && times[i] <= clock)
  }

  lemma TimesNext(log: seq<Arrival>, a: Arrival, hash: string)
    ensures Times(log + [a], hash) == Times(log, hash) + if a.hash == hash then [a.now] else []
    ensures Times(log + [], hash) == Times(log, hash)
  {
    assert (log + [a])[..|log|] == log;
    assert log + [] == log;
  }

  lemma ArrivalKeeps(stamps: Stamps, r: Run, clock: int, a: Arrival, hash: string)
    requires AgreesWithLog(r, clock) && clock <= a.now && Spaced(stamps, Times(r.log, hash), hash, clock)
    ensures var log' := r.log + if Accepts(stamps, r.items, a) then [a] else [];
      && Lookup(After(stamps, r.items, a), hash) == Remembered(Times(log', hash), a.now)
      && Spaced(stamps, Times(log', hash), hash, a.now)
  {
    hide Times, InWindow;
    TimesNext(r.log, a, hash);
    var times := Times(r.log, hash);
    assert Lookup(r.items, hash) == Remembered(times, clock);
    assert Lookup(Purged(r.items, a.now), hash) == Remembered(times, a.now);
  }

  lemma {:induction false} CacheAgrees(stamps: Stamps, arrivals: seq<Arrival>, clock: int)
    requires Ordered(arrivals)
    requires arrivals != [] ==> clock == arrivals[|arrivals| - 1].now
    ensures AgreesWithLog(RunOf(stamps, arrivals), clock)
    ensures forall hash :: Spaced(stamps, Times(RunOf(stamps, arrivals).log, hash), hash, clock)
    decreases |arrivals|
  {
    hide After, Accepts, Spaced, Remembered;
    if arrivals == [] {
      NothingRemembered(stamps, clock);
    } else {
      var n := |arrivals| - 1;
      var before := arrivals[..n];
      var clock' := if n == 0 then arrivals[n].now else arrivals[n - 1].now;
      CacheAgrees(stamps, before, clock');
      var r := RunOf(stamps, before);
      forall hash
        ensures Lookup(RunOf(stamps, arrivals).items, hash)
                == Remembered(Times(RunOf(stamps, arrivals).log, hash), clock)
        ensures Spaced(stamps, Times(RunOf(stamps, arrivals).log, hash), hash, clock)
      {
        ArrivalKeeps(stamps, r, clock', arrivals[n], hash);
      }
    }
  }

  lemma NothingRemembered(stamps: Stamps, clock: int)
    ensures AgreesWithLog(Run(map[], []), clock)
    ensures forall hash :: Spaced(stamps, Times([], hash), hash, clock)
  {
  }

  /**
   In every run under a clock that does not go back, no packet is accepted more than twice, and one whose
   timestamp was not ahead of the clock when it was first accepted is accepted only that once.
   */
  lemma ReplayBound(stamps: Stamps, arrivals: seq<Arrival>, hash: string)
    requires Ordered(arrivals)
    ensures var times := Times(RunOf(stamps, arrivals).log, hash);
      && |times| <= 2
      && (|times| > 0 ==> stamps(hash).Some?)
      && (|times| == 2 ==> times[0] < stamps(hash).value * MILLI)
  {
    hide Times, RunOf;
    var clock := if arrivals == [] then 0 else arrivals[|arrivals| - 1].now;
    CacheAgrees(stamps, arrivals, clock);
    var times := Times(RunOf(stamps, arrivals).log, hash);
    assert Spaced(stamps, times, hash, clock);
    assert |times| > 1 ==> times[1 - 1] + REPLAY_TTL < times[1];
    assert |times| > 2 ==> times[2 - 1] + REPLAY_TTL < times[2];
    assert |times| > 2 ==> InWindow(stamps, hash, times[0]) && InWindow(stamps, hash, times[2]);
  }

  lemma {:induction false} TimesOfLog(log: seq<Arrival>, hash: string)
    ensures forall i :: 0 <= i < |log| && log[i].hash == hash ==> log[i].now in Times(log, hash)
    ensures forall t :: t in Times(log, hash) ==> exists i :: 0 <= i < |log| && log[i].hash == hash && log[i].now == t
    decreases |log|
  {
    if log != [] {
      var n := |log| - 1;
      TimesOfLog(log[..n], hash);
      forall t | t in Times(log, hash) ensures exists i :: 0 <= i < |log| && log[i].hash == hash && log[i].now == t {
        if t in Times(log[..n], hash) {
          var i :| 0 <= i < n && log[..n][i].hash == hash && log[..n][i].now == t;
          assert log[i] == log[..n][i];
        } else {
          assert log[n].hash == hash && log[n].now == t;
        }
      }
      forall i | 0 <= i < |log| && log[i].hash == hash ensures log[i].now in Times(log, hash) {
        assert i < n ==> log[..n][i] == log[i];
      }
    }
  }

  /**
   After any run under a clock that does not go back, the next packet is accepted exactly if its sender is known and
   its payload opens, its timestamp is within ten seconds of the clock, and every earlier acceptance of the same
   packet is more than ten seconds back.
   */
  lemma AcceptedExactly(stamps: Stamps, arrivals: seq<Arrival>, a: Arrival)
    requires Ordered(arrivals + [a])
    ensures var log := RunOf(stamps, arrivals).log;
      RunOf(stamps, arrivals + [a]).log == log + [a]
      <==>
      (&& a.genuine && stamps(a.hash).Some? && Near(stamps(a.hash).value * 1_000_000, a.now)
       && forall i :: 0 <= i < |log| && log[i].hash == a.hash ==> log[i].now + 10 * 1_000_000_000 < a.now)
  {
    hide RunOf, Times;
    var n, log := |arrivals|, RunOf(stamps, arrivals).log;
    var clock := if n == 0 then a.now else arrivals[n - 1].now;
    assert n > 0 ==> (arrivals + [a])[n - 1] == arrivals[n - 1] && (arrivals + [a])[n] == a;
    forall i, j | 0 <= i < j < n ensures arrivals[i].now <= arrivals[j].now {
      assert (arrivals + [a])[i] == arrivals[i] && (arrivals + [a])[j] == arrivals[j];
    }
    CacheAgrees(stamps, arrivals, clock);
    RunNext(stamps, arrivals, a);
    TimesOfLog(log, a.hash);
    var times := Times(log, a.hash);
    assert Lookup(RunOf(stamps, arrivals).items, a.hash) == Remembered(times, clock);
    assert Spaced(stamps, times, a.hash, clock);
    LastIsLatest(stamps, times, a.hash, clock);
    assert times != [] ==> times[|times| - 1] in times;
    assert Lookup(Purged(RunOf(stamps, arrivals).items, a.now), a.hash) == Remembered(times, a.now);
    assert |log + [a]| != |log + []|;
  }

  lemma {:induction false} LastIsLatest(stamps: Stamps, times: seq<int>, hash: string, clock: int)
    requires Spaced(stamps, times, hash, clock)
    ensures forall t :: t in times ==> t <= times[|times| - 1]
    decreases |times|
  {
    if |times| > 1 {
      var n := |times| - 1;
      LastIsLatest(stamps, times[..n], hash, clock);
      assert times[n - 1] < times[n];
      forall t | t in times ensures t <= times[n] {
        if t in times[..n] {
          assert t <= times[..n][n - 1];
        }
      }
    }
  }

  lemma RunNext(stamps: Stamps, arrivals: seq<Arrival>, a: Arrival)
    ensures var before := RunOf(stamps, arrivals);
      RunOf(stamps, arrivals + [a]) ==
      Run(After(stamps, before.items, a), before.log + if Accepts(stamps, before.items, a) then [a] else [])
  {
    assert (arrivals + [a])[..|arrivals|] == arrivals;
  }

  /** A genuine packet sent twice: when both copies are accepted. */
  lemma AcceptedTwice(stamps: Stamps, hash: string, first: int, second: int)
    ensures Times(RunOf(stamps, [Arrival(hash, first, true), Arrival(hash, second, true)]).log, hash) == [first, second]
            <==> InWindow(stamps, hash, first) && InWindow(stamps, hash, second) && first + REPLAY_TTL < second
  {
    hide InWindow, RunOf, Times;
    var one, two := Arrival(hash, first, true), Arrival(hash, second, true);
    var none: seq<Arrival> := [];
    assert none + [one] == [one] && [one] + [two] == [one, two] && none + none == none;
    NothingRun(stamps, hash);
    RunNext(stamps, none, one);
    RunNext(stamps, [one], two);
    TimesNext(none, one, hash);
    TimesNext(none, two, hash);
    TimesNext([one], two, hash);
  }

  lemma NothingRun(stamps: Stamps, hash: string)
    ensures RunOf(stamps, []) == Run(map[], []) && Times([], hash) == []
  {
  }

  /** The bound is tight: a packet first accepted at `first` can be accepted again exactly if its timestamp is ahead. */
  lemma SecondAcceptancePossible(stamps: Stamps, hash: string, first: int)
    requires InWindow(stamps, hash, first)
    ensures (exists second :: Times(RunOf(stamps, [Arrival(hash, first, true), Arrival(hash, second, true)]).log,
                                    hash) == [first, second])
            <==> stamps(hash).value * MILLI > first
  {
    var last := stamps(hash).value * MILLI + SPA_SKEW;
    AcceptedTwice(stamps, hash, first, last);
    forall second { AcceptedTwice(stamps, hash, first, second); }
  }
}
