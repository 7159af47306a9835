/**
 What the PEP's transactions do to its state and its file (pep/main.go:216-258 and :400-424, pep/state.go,
 pep/attestation.go:171-239), step by step, in the events they log.
 */
module PepDecisions {
  import opened Wrappers
  import opened Protocol
  import opened Text
  import opened Attest
  import opened History
  import opened Pep
  import opened Authority

  // ---------- what is logged ----------

  /** The event says this of this session, besides the session's own expiry and cipher suite. */
  ghost predicate Tells(e: Event, eventType: string, s: Session, given: Metadata) {
    && e.eventType == eventType
    && e.serviceID == s.serviceID && e.clientPubKey == s.clientPubKey && e.reqID == s.reqID
    && e.clientOuterIP == s.clientOuterIP && e.clientInnerIP == s.clientInnerIP
    && e.clientInSPI == s.clientInSPI && e.pepInSPI == s.pepInSPI
    && forall key :: Value(e.metadata, key) == Recorded(Some(s), Some(given), key)
  }

  /** One more event of this kind, at this time, chained to the last. */
  ghost predicate Logs(p: Primitives, h: HistoryState, h': HistoryState, at: int, eventType: string, s: Session,
                       given: Metadata)
  {
    && |h'.events| == |h.events| + 1 && h'.events[..|h.events|] == h.events
    && var e := h'.events[|h.events|];
    && Tells(e, eventType, s, given)
    && e.timestamp == p.formatTime(at) && e.version == 1 && e.pepID == h.pepID
    && e.index == h.lastIndex + 1 && e.prevHash == h.lastEventHash
    && e.eventHash == p.digest(EventDoc(e.(eventHash := "")))
    && h' == h.(events := h'.events, lastIndex := e.index, lastEventHash := e.eventHash)
  }

  lemma LogTells(cfg: PepConfig, n: Node, at: int, eventType: string, s: Session, given: Metadata)
    ensures var n' := Log(cfg, n, at, eventType, Some(s), Some(given));
      && Logs(cfg.p, n.mem.history, n'.mem.history, at, eventType, s, given)
      && n' == n.(mem := n.mem.(history := n'.mem.history))
  {
    hide HashEvent;
    var m := SessionMetadata(s, given);
    var e := NewEvent(cfg.p, n.mem.history, at, eventType, Some(s), Some(given));
    assert e.(eventHash := "") == e.(eventHash := "").(eventHash := "");
    HashOfNonEmpty(cfg.p, e);
    forall key ensures Value(EventMetadata(Some(s), Some(given)), key) == Recorded(Some(s), Some(given), key) {
      assert Value(Some(m), key) == Recorded(Some(s), Some(given), key);
    }
  }

  // ---------- what is believed of an operation ----------

  /** The observer's report says that the operation was seen to succeed in the way the PEP requires. */
  predicate Convinces(cfg: PepConfig, meta: Metadata, outcome: string) {
    var value := if outcome in meta then meta[outcome] else "";
    var source := ToLower(if "observer_source" in meta then meta["observer_source"] else "");
    var applied := "xfrm_mode" in meta && meta["xfrm_mode"] == "apply";
    var matched := "ebpf_matched" in meta && meta["ebpf_matched"] == "true";
    || (!applied && value == "assumed" && cfg.requiredObserver == "dry-run")
    || (applied && value == "true" && cfg.requiredObserver == "posthoc"
        && (source == "posthoc" || source == "posthoc+ebpf"))
    || (applied && value == "true" && cfg.requiredObserver == "hybrid" && source == "posthoc+ebpf" && matched)
    || (applied && value == "true" && cfg.requiredObserver == "ebpf" && source == "ebpf" && matched)
  }

  lemma ProfileExactly(cfg: PepConfig, meta: Metadata, outcome: string)
    ensures MeetsLocalProfile(cfg, meta, outcome) <==> Convinces(cfg, meta, outcome)
  {
    hide ToLower;
  }

  // ---------- the file ----------

  /** A file is adopted exactly if it is of version 1, carries no marker, and holds an intact history of this PEP. */
  lemma LoadExactly(cfg: PepConfig, f: PepFile)
    ensures var r := Load(cfg, Some(f));
      && (r.Success? <==>
            && f.version == 1 && f.state.pending.None? && f.state.history.pepID == cfg.pepID
            && ChainInvariant(cfg.p, f.state.history))
      && (r.Success? ==> r.value == f.state)
    ensures var r := Load(cfg, None); r.Success? && r.value.sessions == map[] && r.value.history.events == []
  {
  }

  /**
   A new process: it stays down on a file it does not adopt; and otherwise takes over the state of the file, or an empty
   one, and logs that it started, with its software, its policy and how it keeps history.
   */
  lemma RestartSpelledOut(cfg: PepConfig, disk: Option<PepFile>, at: int)
    ensures var l := Boot(cfg, disk, at);
      && l.node.disk == disk && l.txn == Idle && (l.up <==> Load(cfg, disk).Success?)
      && (l.up ==>
            var st := if disk.Some? then disk.value.state else EmptyPep(cfg.pepID);
            && l.node.mem == st.(history := l.node.mem.history)
            && Notes(cfg.p, st.history, l.node.mem.history, at, "pep_start",
                     map["measurement" := cfg.measurement, "policy_hash" := cfg.policyHash,
                         "history_mode" := "hash-chain-xfrm-observation"]))
  {
    hide Append, Notes, ChainInvariant;
    if Load(cfg, disk).Success? {
      LogNotes(cfg, Node(Load(cfg, disk).value, disk), at, "pep_start", StartMeta(cfg), "measurement");
    }
  }

  // ---------- the apply transaction ----------

  function PlanFacts(cfg: PepConfig, s: Session): Metadata {
    map["xfrm_mode" := cfg.xfrmMode, "xfrm_plan_hash" := cfg.p.digest(PlanDoc(s.xfrm))]
  }

  /**
   Setting a session up: the marker goes to disk before anything else, and nothing happens if it cannot; then the
   intent is logged, the plan applied, and the observation logged; and only if that convinces is the session stored,
   its activation logged, and all of it written without the marker.
   */
  lemma ApplySpelledOut(cfg: PepConfig, n: Node, s: Session, env: ApplyEnv)
    ensures var (n', ok) := ApplyTransaction(cfg, n, s, env);
      var seen := env.observed["xfrm_mode" := cfg.xfrmMode]["xfrm_plan_hash" := cfg.p.digest(PlanDoc(s.xfrm))];
      var convinced := env.installed && Convinces(cfg, seen, "applied");
      && (ok <==> env.markWritable && convinced && env.clearWritable)
      && (!env.markWritable ==> n' == n)
      && (env.markWritable ==>
            var marked := n.mem.(pending := Some(PendingOperation("xfrm_apply", s)));
            exists h1, h2, h3 ::
              && Logs(cfg.p, n.mem.history, h1, env.intentAt, "xfrm_apply_intent", s, PlanFacts(cfg, s))
              && Logs(cfg.p, h1, h2, env.observedAt, "xfrm_apply_observed", s, seen)
              && Logs(cfg.p, h2, h3, env.activatedAt, "session_activated", s, map["attested" := "true"])
              && var stored := marked.(history := h3, sessions := n.mem.sessions[s.pepInSPI := s]);
              n' == if !env.installed then Node(marked.(history := h1), Some(PepFile(1, marked)))
                    else if !convinced then Node(marked.(history := h2), Some(PepFile(1, marked)))
                    else if !env.clearWritable then Node(stored, Some(PepFile(1, marked)))
                    else Node(stored.(pending := None), Some(PepFile(1, stored.(pending := None)))))
  {
    hide Append, MeetsLocalProfile, Convinces, Logs;
    if env.markWritable {
      var marked := SetPending(n, Some(PendingOperation("xfrm_apply", s)), true);
      var seen := ObservedMeta(cfg, s, env.observed);
      LogTells(cfg, marked, env.intentAt, "xfrm_apply_intent", s, IntentMeta(cfg, s));
      var n1 := Log(cfg, marked, env.intentAt, "xfrm_apply_intent", Some(s), Some(IntentMeta(cfg, s)));
      LogTells(cfg, n1, env.observedAt, "xfrm_apply_observed", s, seen);
      var n2 := Log(cfg, n1, env.observedAt, "xfrm_apply_observed", Some(s), Some(seen));
      var stored := n2.(mem := n2.mem.(sessions := n2.mem.sessions[s.pepInSPI := s]));
      LogTells(cfg, stored, env.activatedAt, "session_activated", s, map["attested" := "true"]);
      ProfileExactly(cfg, seen, "applied");
    }
  }

  // ---------- the delete transaction ----------

  /** Taking a session down: marker, expiration and intent, the deletion, its observation, and then out of the table. */
  lemma DeleteSpelledOut(cfg: PepConfig, n: Node, s: Session, env: DeleteEnv)
    ensures var (n', ok) := DeleteTransaction(cfg, n, s, env);
      var seen := env.observed["xfrm_mode" := cfg.xfrmMode]["xfrm_plan_hash" := cfg.p.digest(PlanDoc(s.xfrm))];
      var convinced := env.removed && Convinces(cfg, seen, "deleted");
      && (ok <==> env.markWritable && convinced && env.clearWritable)
      && (!env.markWritable ==> n' == n)
      && (env.markWritable ==>
            var marked := n.mem.(pending := Some(PendingOperation("xfrm_delete", s)));
            exists h1, h2, h3 ::
              && Logs(cfg.p, n.mem.history, h1, env.expiredAt, "session_expired", s,
                      map["expires_at" := s.expiresAt])
              && Logs(cfg.p, h1, h2, env.intentAt, "xfrm_delete_intent", s, PlanFacts(cfg, s))
              && Logs(cfg.p, h2, h3, env.observedAt, "xfrm_delete_observed", s, seen)
              && var gone := marked.(history := h3, sessions := n.mem.sessions - {s.pepInSPI});
              n' == if !env.removed then Node(marked.(history := h2), Some(PepFile(1, marked)))
                    else if !convinced then Node(marked.(history := h3), Some(PepFile(1, marked)))
                    else if !env.clearWritable then Node(gone, Some(PepFile(1, marked)))
                    else Node(gone.(pending := None), Some(PepFile(1, gone.(pending := None)))))
  {
    hide Append, MeetsLocalProfile, Convinces, Logs;
    if env.markWritable {
      var marked := SetPending(n, Some(PendingOperation("xfrm_delete", s)), true);
      var seen := ObservedMeta(cfg, s, env.observed);
      LogTells(cfg, marked, env.expiredAt, "session_expired", s, map["expires_at" := s.expiresAt]);
      var n1 := Log(cfg, marked, env.expiredAt, "session_expired", Some(s), Some(map["expires_at" := s.expiresAt]));
      LogTells(cfg, n1, env.intentAt, "xfrm_delete_intent", s, IntentMeta(cfg, s));
      var n2 := Log(cfg, n1, env.intentAt, "xfrm_delete_intent", Some(s), Some(IntentMeta(cfg, s)));
      LogTells(cfg, n2, env.observedAt, "xfrm_delete_observed", s, seen);
      ProfileExactly(cfg, seen, "deleted");
    }
  }

  /** A cleanup takes a session to be due when the clock has reached the expiry it can read. */
  lemma LapsedExactly(cfg: PepConfig, s: Session, now: int)
    ensures Lapsed(cfg, s, now) <==> cfg.p.parseTime(s.expiresAt).Some? && cfg.p.parseTime(s.expiresAt).value <= now
  {
  }

  // ---------- the capacity exchange ----------

  /** An event of the process, of no session, that says this. */
  ghost predicate Notes(p: Primitives, h: HistoryState, h': HistoryState, at: int, eventType: string, said: Metadata) {
    && |h'.events| == |h.events| + 1 && h'.events[..|h.events|] == h.events
    && var e := h'.events[|h.events|];
    && e == Event(1, h.lastIndex + 1, eventType, h.pepID, p.formatTime(at), "", "", "", "", "", "", 0, false, "", "",
                  Some(said), h.lastEventHash, e.eventHash)
    && e.eventHash == p.digest(EventDoc(e.(eventHash := "")))
    && h' == h.(events := h'.events, lastIndex := e.index, lastEventHash := e.eventHash)
  }

  lemma LogNotes(cfg: PepConfig, n: Node, at: int, eventType: string, said: Metadata, key: string)
    requires key in said
    ensures var n' := Log(cfg, n, at, eventType, None, Some(said));
      && Notes(cfg.p, n.mem.history, n'.mem.history, at, eventType, said)
      && n' == n.(mem := n.mem.(history := n'.mem.history))
  {
    hide HashEvent;
    var e := NewEvent(cfg.p, n.mem.history, at, eventType, None, Some(said));
    HashOfNonEmpty(cfg.p, e);
  }

  /** The delta since the accepted checkpoint, under the next epoch, before it is signed. */
  function NextCheckpoint(p: Primitives, h: HistoryState, at: int): Checkpoint {
    Checkpoint(1, h.pepID, h.acceptedEpoch + 1, h.acceptedHash, h.lastIndex, h.lastEventHash,
               |h.events| - h.acceptedIndex, p.formatTime(at), "")
  }

  /**
   Asking for a token: what is pending is asked for again, with nothing logged and nothing written; otherwise the
   request is logged, a checkpoint over everything since the accepted one is signed, and becomes pending exactly if it
   can be written.
   */
  lemma PrepareSpelledOut(cfg: PepConfig, n: Node, at: int, dated: int, writable: bool)
    ensures var (n', asked) := PrepareCapacity(cfg, n, at, dated, writable);
      if n.mem.pendingCapacity.Some? then n' == n && asked == n.mem.pendingCapacity
      else
        exists h ::
          && Notes(cfg.p, n.mem.history, h, at, "capacity_requested", map["scope" := JoinComma(cfg.scope)])
          && var logged := n.(mem := n.mem.(history := h));
          var unsigned := NextCheckpoint(cfg.p, h, dated);
          var signature := cfg.p.sign(cfg.privateKey, CheckpointDoc(unsigned));
          if h.acceptedIndex > |h.events| || signature.None? || !writable then n' == logged && asked == None
          else
            var ev := Evidence(h.acceptedHash, h.events[h.acceptedIndex..],
                               unsigned.(signature := signature.value));
            var mem := logged.mem.(pendingCapacity := Some(ev));
            asked == Some(ev) && n' == Node(mem, Some(PepFile(1, mem)))
  {
    hide Append, JoinComma, Notes;
    if n.mem.pendingCapacity.None? {
      LogNotes(cfg, n, at, "capacity_requested", map["scope" := JoinComma(cfg.scope)], "scope");
    }
  }

  /** Commas stand between the parts. */
  lemma {:induction false} JoinedByCommas(parts: seq<string>, last: string)
    ensures JoinComma([]) == ""
    ensures JoinComma(parts + [last]) == if parts == [] then last else JoinComma(parts) + "," + last
    decreases |parts|
  {
    if parts != [] {
      JoinedByCommas(parts[1..], last);
      assert (parts + [last])[1..] == parts[1..] + [last];
    } else {
      assert parts + [last] == [last];
    }
  }

  /** The request names the PEP, its key, software, scope and lifetime as configured. */
  lemma RequestSpelledOut(cfg: PepConfig, ev: Evidence)
    ensures var r := RequestFor(cfg, ev);
      && r.pepID == cfg.pepID && r.pepSigningPubKey == cfg.publicKey && r.measurement == cfg.measurement
      && r.policyHash == cfg.policyHash && r.scope == cfg.scope && r.maxSALifetime == cfg.maxSALifetime
      && r.history == Some(ev)
  {
  }

  /**
   Taking a token: nothing happens unless it is good for what is pending; then the pending checkpoint becomes the
   accepted one, this is logged, and all of it is written with nothing pending, or stays in memory with the evidence
   still pending if it cannot be written.
   */
  lemma AcceptSpelledOut(cfg: PepConfig, n: Node, tok: Token, at: int, logged: int, writable: bool)
    ensures var (n', ok) := AcceptToken(cfg, n, tok, at, logged, writable);
      if n.mem.pendingCapacity.None? || !TokenValid(cfg, tok, n.mem.pendingCapacity.value, at)
        || n.mem.pendingCapacity.value.checkpoint.lastEventIndex > n.mem.history.lastIndex
      then n' == n && !ok
      else
        var c := n.mem.pendingCapacity.value.checkpoint;
        var hash := cfg.p.digest(CheckpointDoc(c));
        var marked := n.mem.history.(acceptedHash := hash, acceptedIndex := c.lastEventIndex, acceptedEpoch := c.epoch);
        && ok == writable
        && exists h ::
          && Notes(cfg.p, marked, h, logged, "capacity_accepted",
                   map["checkpoint_hash" := hash, "history_epoch" := Decimal(c.epoch)])
          && n' == if writable
                   then Node(n.mem.(history := h, pendingCapacity := None),
                             Some(PepFile(1, n.mem.(history := h, pendingCapacity := None))))
                   else n.(mem := n.mem.(history := h))
  {
    hide Append, Notes, TokenValid, Decimal;
    if n.mem.pendingCapacity.Some? {
      var ev := n.mem.pendingCapacity.value;
      var h := Mark(cfg.p, n.mem.history, ev.checkpoint);
      if h.Success? {
        LogNotes(cfg, n.(mem := n.mem.(history := h.value)), logged, "capacity_accepted", AcceptedMeta(cfg, ev),
                 "history_epoch");
      }
    }
  }
}
