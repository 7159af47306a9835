/**
 The PEP's process, its allocators and the kernel's XFRM table together.  Over every run, restarts included, the table
 holds the objects of the sessions in the PEP's own table, less those whose deletion was carried out but not observed.
 */
module KernelRuns {
  import opened Wrappers
  import opened Protocol
  import opened History
  import opened Pep
  import opened Authority
  import opened SessionTable
  import opened Interruption
  import opened Allocator
  import opened Xfrm
  import opened Numbering

  /** What the PEP is configured with, and how names are read. */
  datatype Host = Host(cfg: PepConfig, spi: Spi, derive: DeriveKey, addressing: Addressing, cidr: Prefix, base: nat)

  ghost predicate WellFormedHost(e: Host) {
    e.cfg.xfrmMode == "apply" && Printable(e.addressing) && WellFormedPrefix(e.cidr)
  }

  /**
   The process, the kernel, the sessions deleted from the kernel without the deletion having been observed, where
   the address counter started, and which of its numbers were used.
   */
  datatype Running = Running(local: Local, kernel: Kernel, unobserved: set<string>, top: nat, used: set<nat>)

  /** A step; `number` is the allocation a new session's address is from, or where a new process starts to count. */
  datatype HostStep = HostStep(pep: PepStep, number: nat)

  /** The plan is applied before its observation, and taken back if that fails; a delete is never reported as failed. */
  ghost function HostNext(e: Host, r: Running, step: HostStep): Running {
    var l' := PepNext(e.cfg, r.local, step.pep);
    if step.pep.RestartStep? then
      Running(l', r.kernel, if l'.up then r.unobserved * l'.node.mem.sessions.Keys else r.unobserved, step.number, {})
    else if !r.local.up then r
    else
      match (step.pep, r.local.txn)
      case (BeginApplyStep(s, _, _), Idle) => r.(local := l', used := r.used + {step.number})
      case (ObserveApplyStep(_, _), ApplyBegun(s)) =>
        var (k, ok) := ApplyCommands(e.spi, r.kernel, s.xfrm.commands);
        if !ok then r
        else
          r.(local := l', kernel := if l'.txn.ApplySeen? then k else DeleteCommands(e.spi, k, s.xfrm.deleteCommands))
      case (KernelFails, ApplyBegun(s)) =>
        var (k, ok) := ApplyCommands(e.spi, r.kernel, s.xfrm.commands);
        if ok then r else r.(local := l', kernel := k)
      case (KernelFails, DeleteBegun(_)) => r
      case (ObserveDeleteStep(_, _), DeleteBegun(s)) =>
        r.(local := l', kernel := DeleteCommands(e.spi, r.kernel, s.xfrm.deleteCommands),
           unobserved := if l'.txn.DeleteSeen? then r.unobserved else r.unobserved + {s.pepInSPI})
      case (FinishDeleteStep(_), DeleteSeen(s)) => r.(local := l', unobserved := r.unobserved - {s.pepInSPI})
      case _ => r.(local := l')
  }

  function Bare(): Running {
    Running(DOWN, BARE, {}, 0, {})
  }

  ghost function HostRun(e: Host, steps: seq<HostStep>): Running {
    if steps == [] then Bare() else HostNext(e, HostRun(e, steps[..|steps| - 1]), steps[|steps| - 1])
  }

  // ---------- what is asked of the sessions ----------

  ghost predicate PlannedSession(e: Host, s: Session) {
    BuildPEPXFRMTunnelPlan(e.derive, s) == Some(s.xfrm)
  }

  /**
   A new session has the plan built for it, an address from an allocation of this process not used before, the
   counter not having come round, and SAs that are two and no other session's.
   */
  ghost predicate Allotted(e: Host, r: Running, s: Session, number: nat)
    requires WellFormedHost(e)
  {
    var sessions := r.local.node.mem.sessions;
    && PlannedSession(e, s)
    && 0 < number < WORD - r.top && number !in r.used
    && InnerIP(e.addressing, Some(e.cidr), Issued(r.top, number)) == Success(s.clientInnerIP)
    && s.pepInSPI !in sessions && Inbound(e.spi, s) != Outbound(e.spi, s)
    && forall id :: id in sessions ==> StateKeys(e.spi, s) !! StateKeys(e.spi, sessions[id])
  }

  /** A new process starts to count where its constructor puts the counter. */
  ghost predicate StepAllotted(e: Host, r: Running, step: HostStep)
    requires WellFormedHost(e)
  {
    match step.pep
    case BeginApplyStep(s, _, _) => r.local.up && r.local.txn.Idle? ==> Allotted(e, r, s, step.number)
    case RestartStep(_) =>
      var l' := PepNext(e.cfg, r.local, step.pep);
      step.number < WORD
      && (l'.up ==> PastOffsets(e.addressing, Some(e.cidr), l'.node.mem.sessions, e.base, step.number))
    case _ => true
  }

  ghost predicate AllAllotted(e: Host, steps: seq<HostStep>)
    requires WellFormedHost(e)
  {
    forall i :: 0 <= i < |steps| ==> StepAllotted(e, HostRun(e, steps[..i]), steps[i])
  }

  // ---------- the invariant ----------

  function Less(sessions: map<string, Session>, gone: set<string>): map<string, Session> {
    sessions - gone
  }

  /** The sessions whose objects the kernel should hold. */
  function Standing(l: Local, gone: set<string>): map<string, Session> {
    var held := Less(l.node.mem.sessions, gone);
    match l.txn
    case ApplySeen(s) => held[s.pepInSPI := s]
    case DeleteSeen(s) => held - {s.pepInSPI}
    case _ => held
  }

  ghost predicate Holds(e: Host, k: Kernel, live: map<string, Session>) {
    Conserved(e.spi, e.derive, Machine(k, live))
  }

  /** Restored, outside the prefix, or from an allocation that was used. */
  ghost predicate Placed(e: Host, r: Running, address: string)
    requires WellFormedPrefix(e.cidr)
  {
    var offset := ClientInnerIPOffset(Some(e.cidr), e.addressing.parse(address));
    || offset.Failure? || offset.value <= r.top
    || exists m :: m in r.used && 0 < m < WORD - r.top
         && InnerIP(e.addressing, Some(e.cidr), Issued(r.top, m)) == Success(address)
  }

  ghost predicate TablePlaced(e: Host, r: Running)
    requires WellFormedPrefix(e.cidr)
  {
    && r.top < WORD
    && forall id :: id in r.local.node.mem.sessions ==> Placed(e, r, r.local.node.mem.sessions[id].clientInnerIP)
  }

  /** A table of planned sessions, each under its own SPI, no two of which share a kernel object. */
  ghost predicate SoundTable(e: Host, sessions: map<string, Session>) {
    && KeyedBySPI(sessions)
    && (forall id :: id in sessions ==> PlannedSession(e, sessions[id]))
    && forall a, b :: a in sessions && b in sessions && a != b ==> Apart(e.spi, sessions[a], sessions[b])
  }

  ghost predicate TxnPlaced(e: Host, r: Running)
    requires WellFormedPrefix(e.cidr)
  {
    match r.local.txn
    case ApplyBegun(s) =>
      Distinct(e.spi, r.local.node.mem.sessions, s) && PlannedSession(e, s) && Placed(e, r, s.clientInnerIP)
    case ApplySeen(s) =>
      Distinct(e.spi, r.local.node.mem.sessions, s) && PlannedSession(e, s) && Placed(e, r, s.clientInnerIP)
    case DeleteBegun(s) => Tabled(r.local.node.mem, s)
    case DeleteSeen(s) => Tabled(r.local.node.mem, s)
    case Idle => true
  }

  /** A file without a marker agrees with the kernel; with one, nothing is said of it, for nobody will load it. */
  ghost predicate DiskHolds(e: Host, k: Kernel, disk: Option<PepFile>, gone: set<string>) {
    match disk
    case None => Holds(e, k, map[])
    case Some(f) =>
      SoundTable(e, f.state.sessions)
      && (f.version == 1 && f.state.pending.None? ==> Holds(e, k, Less(f.state.sessions, gone)))
  }

  ghost predicate MemoryHolds(e: Host, r: Running)
    requires WellFormedPrefix(e.cidr)
  {
    && Holds(e, r.kernel, Standing(r.local, r.unobserved))
    && r.unobserved <= r.local.node.mem.sessions.Keys
    && SoundTable(e, r.local.node.mem.sessions)
    && TablePlaced(e, r) && TxnPlaced(e, r)
  }

  ghost predicate HostInvariant(e: Host, r: Running)
    requires WellFormedPrefix(e.cidr)
  {
    && MarkerShared(r.local)
    && DiskHolds(e, r.kernel, r.local.node.disk, r.unobserved)
    && (r.local.up ==> MemoryHolds(e, r))
  }

  // ---------- the kernel ----------

  lemma FewerDistinct(spi: Spi, sessions: map<string, Session>, gone: set<string>, s: Session)
    requires Distinct(spi, sessions, s)
    ensures Distinct(spi, Less(sessions, gone), s)
  {
    hide Apart;
  }

  /** The plan of a distinct session is applied, and its deletion takes it back. */
  lemma PlanApplies(e: Host, k: Kernel, live: map<string, Session>, s: Session)
    requires Holds(e, k, live) && Distinct(e.spi, live, s) && PlannedSession(e, s)
    ensures var (k', ok) := ApplyCommands(e.spi, k, s.xfrm.commands);
      && ok && Holds(e, k', live[s.pepInSPI := s])
      && DeleteCommands(e.spi, k', s.xfrm.deleteCommands) == k
  {
    hide ApplyCommands, DeleteCommands, BuildPEPXFRMTunnelPlan, Conserved, Distinct, Free;
    ActivationConserves(e.spi, e.derive, Machine(k, live), s);
    DistinctIsFree(e.spi, e.derive, Machine(k, live), s);
    ApplyAdds(e.spi, e.derive, k, s);
    DeleteUndoesApply(e.spi, e.derive, k, s);
  }

  /** Deleting a session of the table leaves the objects of the others, whether or not its own were still there. */
  lemma DeleteHolds(e: Host, k: Kernel, sessions: map<string, Session>, gone: set<string>, s: Session)
    requires SoundTable(e, sessions) && s.pepInSPI in sessions && sessions[s.pepInSPI] == s
    requires Holds(e, k, Less(sessions, gone))
    ensures Holds(e, DeleteCommands(e.spi, k, s.xfrm.deleteCommands), Less(sessions, gone) - {s.pepInSPI})
  {
    hide DeleteCommands, BuildPEPXFRMTunnelPlan, Conserved, Apart;
    assert PlannedSession(e, s);
    var live := Less(sessions, gone);
    if s.pepInSPI in live {
      ExpiryConserves(e.spi, e.derive, Machine(k, live), s.pepInSPI);
    } else {
      assert live - {s.pepInSPI} == live;
      forall id | id in live ensures Apart(e.spi, s, live[id]) {
        assert live[id] == sessions[id] && id != s.pepInSPI;
      }
      DeleteAbsent(e, k, live, s);
    }
  }

  lemma DeleteAbsent(e: Host, k: Kernel, live: map<string, Session>, s: Session)
    requires Holds(e, k, live) && PlannedSession(e, s)
    requires forall id :: id in live ==> Apart(e.spi, s, live[id])
    ensures DeleteCommands(e.spi, k, s.xfrm.deleteCommands) == k
  {
    hide DeleteCommands, BuildPEPXFRMTunnelPlan, StateKeys, PolicyKeys, Installed;
    DeleteRemoves(e.spi, e.derive, k, s);
    forall key | key in k.states ensures key !in StateKeys(e.spi, s) {
      var id :| id in live && key in StateKeys(e.spi, live[id]);
      assert Apart(e.spi, s, live[id]);
    }
    forall key | key in k.policies ensures key !in PolicyKeys(s) {
      var id :| id in live && key in PolicyKeys(live[id]);
      assert Apart(e.spi, s, live[id]);
    }
    assert k.states - StateKeys(e.spi, s) == k.states;
    assert k.policies - PolicyKeys(s) == k.policies;
  }

  // ---------- addresses ----------

  /** What the allocators give a new session is apart from all the table has. */
  lemma AllottedIsDistinct(e: Host, r: Running, s: Session, number: nat)
    requires WellFormedHost(e) && TablePlaced(e, r) && Allotted(e, r, s, number)
    ensures Distinct(e.spi, r.local.node.mem.sessions, s)
  {
    hide Issued, InnerIP, ClientInnerIPOffset, StateKeys, PlannedSession, Inbound, Outbound;
    var sessions := r.local.node.mem.sessions;
    forall id | id in sessions
      ensures OtherAddress(e.addressing, e.cidr, sessions[id].clientInnerIP, r.top, number)
    {
      assert Placed(e, r, sessions[id].clientInnerIP);
      PlacedIsOther(e, r, sessions[id].clientInnerIP, number);
    }
    hide OtherAddress;
    AddressedIsDistinct(e.addressing, e.cidr, e.spi, sessions, s, r.top, number);
  }

  lemma PlacedIsOther(e: Host, r: Running, address: string, number: nat)
    requires WellFormedHost(e) && r.top < WORD && Placed(e, r, address)
    requires 0 < number < WORD - r.top && number !in r.used
    ensures OtherAddress(e.addressing, e.cidr, address, r.top, number)
  {
    hide Issued, InnerIP, ClientInnerIPOffset;
    forall m | m in r.used && 0 < m < WORD - r.top ensures Other(m, number) {
    }
  }

  lemma PlacedMore(e: Host, r: Running, r': Running)
    requires WellFormedPrefix(e.cidr) && r'.top == r.top && r.used <= r'.used
    ensures forall address :: Placed(e, r, address) ==> Placed(e, r', address)
  {
    hide Issued, InnerIP, ClientInnerIPOffset;
  }

  // ---------- every step keeps it ----------

  lemma BeginApplyHolds(e: Host, r: Running, step: HostStep)
    requires WellFormedHost(e) && HostInvariant(e, r) && StepAllotted(e, r, step)
    requires r.local.up && r.local.txn.Idle? && step.pep.BeginApplyStep?
    ensures HostInvariant(e, HostNext(e, r, step))
  {
    hide Append, IntentMeta, Conserved, SoundTable, Placed, Distinct, PlannedSession, StateKeys, InnerIP, Issued,
      Inbound, Outbound, MarkerShared;
    StepMarker(e.cfg, r.local, step.pep);
    AllottedIsDistinct(e, r, step.pep.s, step.number);
    var r' := HostNext(e, r, step);
    PlacedMore(e, r, r');
    AllottedIsPlaced(e, r, r', step.pep.s, step.number);
  }

  lemma AllottedIsPlaced(e: Host, r: Running, r': Running, s: Session, number: nat)
    requires WellFormedHost(e) && Allotted(e, r, s, number) && r'.top == r.top && number in r'.used
    ensures Placed(e, r', s.clientInnerIP) && PlannedSession(e, s)
  {
    hide InnerIP, Issued, StateKeys, ClientInnerIPOffset;
  }

  lemma ObserveApplyHolds(e: Host, r: Running, step: HostStep)
    requires WellFormedHost(e) && HostInvariant(e, r)
    requires r.local.up && r.local.txn.ApplyBegun? && step.pep.ObserveApplyStep?
    ensures HostInvariant(e, HostNext(e, r, step))
    ensures HostNext(e, r, step).local == PepNext(e.cfg, r.local, step.pep)
  {
    hide Append, MeetsLocalProfile, ObservedMeta, Conserved, SoundTable, Placed, Distinct, PlannedSession, MarkerShared,
      ApplyCommands, DeleteCommands;
    var s := r.local.txn.s;
    StepMarker(e.cfg, r.local, step.pep);
    OpenIsMarked(r.local);
    FewerDistinct(e.spi, r.local.node.mem.sessions, r.unobserved, s);
    PlanApplies(e, r.kernel, Less(r.local.node.mem.sessions, r.unobserved), s);
    PlacedMore(e, r, HostNext(e, r, step));
  }

  lemma OpenIsMarked(l: Local)
    requires MarkerShared(l) && l.up && !l.txn.Idle?
    ensures l.node.disk.Some? && l.node.disk.value.version == 1 && l.node.disk.value.state.pending.Some?
  {
  }

  /** A plan that can be applied is not reported as failed. */
  lemma FailureImpossible(e: Host, r: Running, number: nat)
    requires WellFormedHost(e) && HostInvariant(e, r)
    ensures HostInvariant(e, HostNext(e, r, HostStep(KernelFails, number)))
    ensures r.local.up ==> HostNext(e, r, HostStep(KernelFails, number)) == r
  {
    hide Conserved, SoundTable, Placed, Distinct, PlannedSession, MarkerShared, ApplyCommands, DeleteCommands;
    if r.local.up && r.local.txn.ApplyBegun? {
      FewerDistinct(e.spi, r.local.node.mem.sessions, r.unobserved, r.local.txn.s);
      PlanApplies(e, r.kernel, Less(r.local.node.mem.sessions, r.unobserved), r.local.txn.s);
    }
  }

  lemma FinishApplyHolds(e: Host, r: Running, step: HostStep)
    requires WellFormedHost(e) && HostInvariant(e, r)
    requires r.local.up && r.local.txn.ApplySeen? && step.pep.FinishApplyStep?
    ensures HostInvariant(e, HostNext(e, r, step))
  {
    hide Append, Conserved, SoundTable, Placed, Distinct, PlannedSession, MarkerShared;
    var s, sessions := r.local.txn.s, r.local.node.mem.sessions;
    StepMarker(e.cfg, r.local, step.pep);
    OpenIsMarked(r.local);
    StoredIsSound(e, sessions, r.unobserved, s);
    PlacedMore(e, r, HostNext(e, r, step));
  }

  lemma StoredIsSound(e: Host, sessions: map<string, Session>, gone: set<string>, s: Session)
    requires SoundTable(e, sessions) && Distinct(e.spi, sessions, s) && PlannedSession(e, s) && gone <= sessions.Keys
    ensures SoundTable(e, sessions[s.pepInSPI := s])
    ensures Less(sessions[s.pepInSPI := s], gone) == Less(sessions, gone)[s.pepInSPI := s]
  {
    hide PlannedSession, StateKeys, PolicyKeys;
  }

  lemma BeginDeleteHolds(e: Host, r: Running, step: HostStep)
    requires WellFormedHost(e) && HostInvariant(e, r)
    requires r.local.up && r.local.txn.Idle? && step.pep.BeginDeleteStep?
    ensures HostInvariant(e, HostNext(e, r, step))
  {
    hide Append, IntentMeta, Lapsed, Conserved, SoundTable, Placed, Distinct, PlannedSession, MarkerShared;
    StepMarker(e.cfg, r.local, step.pep);
    KeyedTable(e, r.local.node.mem.sessions);
    PlacedMore(e, r, HostNext(e, r, step));
  }

  lemma KeyedTable(e: Host, sessions: map<string, Session>)
    requires SoundTable(e, sessions)
    ensures KeyedBySPI(sessions)
  {
  }

  lemma ObserveDeleteHolds(e: Host, r: Running, step: HostStep)
    requires WellFormedHost(e) && HostInvariant(e, r)
    requires r.local.up && r.local.txn.DeleteBegun? && step.pep.ObserveDeleteStep?
    ensures HostInvariant(e, HostNext(e, r, step))
  {
    hide Append, MeetsLocalProfile, ObservedMeta, Conserved, SoundTable, Placed, Distinct, PlannedSession, MarkerShared,
      DeleteCommands;
    var s, sessions := r.local.txn.s, r.local.node.mem.sessions;
    StepMarker(e.cfg, r.local, step.pep);
    OpenIsMarked(r.local);
    DeleteHolds(e, r.kernel, sessions, r.unobserved, s);
    assert Less(sessions, r.unobserved + {s.pepInSPI}) == Less(sessions, r.unobserved) - {s.pepInSPI};
    PlacedMore(e, r, HostNext(e, r, step));
  }

  lemma FinishDeleteHolds(e: Host, r: Running, step: HostStep)
    requires WellFormedHost(e) && HostInvariant(e, r)
    requires r.local.up && r.local.txn.DeleteSeen? && step.pep.FinishDeleteStep?
    ensures HostInvariant(e, HostNext(e, r, step))
  {
    hide Conserved, SoundTable, Placed, Distinct, PlannedSession, MarkerShared;
    var s, sessions := r.local.txn.s, r.local.node.mem.sessions;
    StepMarker(e.cfg, r.local, step.pep);
    OpenIsMarked(r.local);
    RemovedIsSound(e, sessions, s);
    assert Less(sessions - {s.pepInSPI}, r.unobserved - {s.pepInSPI}) == Less(sessions, r.unobserved) - {s.pepInSPI};
    PlacedMore(e, r, HostNext(e, r, step));
  }

  lemma RemovedIsSound(e: Host, sessions: map<string, Session>, s: Session)
    requires SoundTable(e, sessions)
    ensures SoundTable(e, sessions - {s.pepInSPI})
  {
    hide PlannedSession, Apart;
  }

  lemma CapacityHolds(e: Host, r: Running, step: HostStep)
    requires WellFormedHost(e) && HostInvariant(e, r) && r.local.up
    requires step.pep.PrepareStep? || step.pep.ReceiveStep?
    ensures HostInvariant(e, HostNext(e, r, step))
  {
    hide Append, Build, TokenValid, Mark, AcceptedMeta, JoinComma, Conserved, SoundTable, Placed, Distinct,
      PlannedSession, MarkerShared;
    StepMarker(e.cfg, r.local, step.pep);
    PlacedMore(e, r, HostNext(e, r, step));
  }

  lemma RestartHolds(e: Host, r: Running, step: HostStep)
    requires WellFormedHost(e) && HostInvariant(e, r) && StepAllotted(e, r, step) && step.pep.RestartStep?
    ensures HostInvariant(e, HostNext(e, r, step))
  {
    hide Append, ChainInvariant, Conserved, PlannedSession, Apart, MarkerShared, OffsetOf, ClientInnerIPOffset;
    StepMarker(e.cfg, r.local, step.pep);
    var r' := HostNext(e, r, step);
    if r'.local.up {
      var sessions := r'.local.node.mem.sessions;
      assert Less(sessions, r'.unobserved) == Less(sessions, r.unobserved);
      forall id | id in sessions ensures Placed(e, r', sessions[id].clientInnerIP) {
        RestoredIsPlaced(e, r', sessions, sessions[id], id);
      }
    }
  }

  lemma RestoredIsPlaced(e: Host, r: Running, sessions: map<string, Session>, s: Session, id: string)
    requires WellFormedPrefix(e.cidr) && id in sessions && sessions[id] == s
    requires PastOffsets(e.addressing, Some(e.cidr), sessions, e.base, r.top)
    ensures Placed(e, r, s.clientInnerIP)
  {
    hide ClientInnerIPOffset, InnerIP;
  }

  lemma HostStepHolds(e: Host, r: Running, step: HostStep)
    requires WellFormedHost(e) && HostInvariant(e, r) && StepAllotted(e, r, step)
    ensures HostInvariant(e, HostNext(e, r, step))
  {
    hide HostInvariant, PepNext, StepAllotted, ApplyCommands, DeleteCommands;
    if step.pep.RestartStep? {
      RestartHolds(e, r, step);
    } else if r.local.up {
      match (step.pep, r.local.txn)
      case (BeginApplyStep(_, _, _), Idle) => BeginApplyHolds(e, r, step);
      case (ObserveApplyStep(_, _), ApplyBegun(_)) => ObserveApplyHolds(e, r, step);
      case (FinishApplyStep(_, _), ApplySeen(_)) => FinishApplyHolds(e, r, step);
      case (KernelFails, _) => FailureImpossible(e, r, step.number);
      case (BeginDeleteStep(_, _, _, _, _), Idle) => BeginDeleteHolds(e, r, step);
      case (ObserveDeleteStep(_, _), DeleteBegun(_)) => ObserveDeleteHolds(e, r, step);
      case (FinishDeleteStep(_), DeleteSeen(_)) => FinishDeleteHolds(e, r, step);
      case (PrepareStep(_, _, _), _) => CapacityHolds(e, r, step);
      case (ReceiveStep(_, _, _, _), _) => CapacityHolds(e, r, step);
      case _ => NothingHappens(e, r, step);
    }
  }

  /** A step that does not fit the transaction. */
  lemma NothingHappens(e: Host, r: Running, step: HostStep)
    requires r.local.up && !step.pep.RestartStep? && !step.pep.PrepareStep? && !step.pep.ReceiveStep?
    requires step.pep.BeginApplyStep? || step.pep.BeginDeleteStep? ==> !r.local.txn.Idle?
    requires step.pep.ObserveApplyStep? ==> !r.local.txn.ApplyBegun?
    requires step.pep.FinishApplyStep? ==> !r.local.txn.ApplySeen?
    requires step.pep.ObserveDeleteStep? ==> !r.local.txn.DeleteBegun?
    requires step.pep.FinishDeleteStep? ==> !r.local.txn.DeleteSeen?
    requires !step.pep.KernelFails?
    ensures HostNext(e, r, step) == r
  {
  }

  // ---------- every run ----------

  lemma {:induction false} HostRunHolds(e: Host, steps: seq<HostStep>)
    requires WellFormedHost(e) && AllAllotted(e, steps)
    ensures HostInvariant(e, HostRun(e, steps))
    decreases |steps|
  {
    hide HostInvariant, HostNext, StepAllotted;
    if steps == [] {
      BareHolds(e);
    } else {
      var n := |steps| - 1;
      forall i | 0 <= i < n ensures StepAllotted(e, HostRun(e, steps[..n][..i]), steps[..n][i]) {
        assert steps[..n][..i] == steps[..i];
      }
      HostRunHolds(e, steps[..n]);
      HostStepHolds(e, HostRun(e, steps[..n]), steps[n]);
    }
  }

  lemma BareHolds(e: Host)
    requires WellFormedHost(e)
    ensures HostInvariant(e, Bare())
  {
    EmptyConserved(e.spi, e.derive);
  }

  /**
   Over every run of the process, with crashes and failing writes, in which new sessions have addresses from the
   allocator and SAs of their own: whenever no transaction is open the kernel holds exactly the objects of the
   sessions in the table, less those whose deletion was carried out but not observed; a plan never fails to apply; and
   a file the next process would accept lists the same sessions, less the same.
   */
  lemma KernelFollowsTable(e: Host, steps: seq<HostStep>)
    requires WellFormedHost(e) && AllAllotted(e, steps)
    ensures var r := HostRun(e, steps);
      var l := r.local;
      && (l.up && l.txn.Idle? ==>
            Holds(e, r.kernel, Less(l.node.mem.sessions, r.unobserved)) && r.unobserved <= l.node.mem.sessions.Keys)
      && (l.up && l.txn.ApplyBegun? ==> ApplyCommands(e.spi, r.kernel, l.txn.s.xfrm.commands).1)
      && (l.node.disk.Some? && Load(e.cfg, l.node.disk).Success? ==>
            Holds(e, r.kernel, Less(l.node.disk.value.state.sessions, r.unobserved)))
  {
    hide Conserved, SoundTable, Placed, Distinct, PlannedSession, ApplyCommands, DeleteCommands, ChainInvariant,
      HostRun, MarkerShared, AllAllotted;
    HostRunHolds(e, steps);
    var r := HostRun(e, steps);
    if r.local.up && r.local.txn.ApplyBegun? {
      FewerDistinct(e.spi, r.local.node.mem.sessions, r.unobserved, r.local.txn.s);
      PlanApplies(e, r.kernel, Less(r.local.node.mem.sessions, r.unobserved), r.local.txn.s);
    }
  }

  /** At rest the kernel holds the objects of the whole table exactly if every deletion carried out was observed. */
  lemma KernelIsTable(e: Host, steps: seq<HostStep>)
    requires WellFormedHost(e) && AllAllotted(e, steps)
    requires var r := HostRun(e, steps); r.local.up && r.local.txn.Idle?
    ensures var r := HostRun(e, steps);
      Holds(e, r.kernel, r.local.node.mem.sessions) <==> r.unobserved == {}
  {
    hide Conserved, SoundTable, Placed, Distinct, PlannedSession, HostRun, MarkerShared, AllAllotted;
    HostRunHolds(e, steps);
    var r := HostRun(e, steps);
    var sessions := r.local.node.mem.sessions;
    if r.unobserved == {} {
      assert Less(sessions, r.unobserved) == sessions;
    } else {
      var id :| id in r.unobserved;
      GoneIsMissing(e, r.kernel, sessions, r.unobserved, id);
    }
  }

  lemma GoneIsMissing(e: Host, k: Kernel, sessions: map<string, Session>, gone: set<string>, id: string)
    requires SoundTable(e, sessions) && Holds(e, k, Less(sessions, gone)) && id in gone && id in sessions
    ensures !Holds(e, k, sessions)
  {
    hide PlannedSession, Installed, StateKeys, PolicyKeys, Inbound;
    var s, live := sessions[id], Less(sessions, gone);
    InboundOf(e, s);
    forall other | other in live ensures Inbound(e.spi, s) !in StateKeys(e.spi, live[other]) {
      assert Apart(e.spi, s, sessions[other]);
    }
    assert Inbound(e.spi, s) !in k.states;
    InstalledInbound(e, k, s);
  }

  lemma InboundOf(e: Host, s: Session)
    ensures Inbound(e.spi, s) in StateKeys(e.spi, s)
  {
  }

  lemma InstalledInbound(e: Host, k: Kernel, s: Session)
    ensures Installed(e.spi, e.derive, k, s) ==> Inbound(e.spi, s) in k.states
  {
    hide BuildPEPXFRMTunnelPlan, PoliciesOf;
    if Installed(e.spi, e.derive, k, s) {
      assert Inbound(e.spi, s) in StatesOf(e.spi, e.derive, s);
    }
  }
}
