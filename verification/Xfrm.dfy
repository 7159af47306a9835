/**
 The PEP's XFRM plans (common/ipsecutil/ipsecutil.go) run against an abstract kernel table, the way
 pep/xfrm.go runs them: applying stops at the first command that fails, deleting goes on.
 */
module Xfrm {
  import opened Wrappers
  import opened Protocol

  // ---------- the plan ----------

  /** Key derivation fails on a session key that does not decode. */
  type DeriveKey = (string, string) -> Option<string>

  function BuildPEPXFRMTunnelPlan(derive: DeriveKey, s: Session): Option<XfrmPlan> {
    var c2p, p2c := derive(s.c2pKey, "xfrm-c2p"), derive(s.p2cKey, "xfrm-p2c");
    if c2p.None? || p2c.None? then None
    else
      Some(XfrmPlan(
        "pep-natt-tunnel",
        [StateAdd(s.clientOuterIP, s.pepOuterIP, s.pepInSPI, s.reqID, s.nattPort, c2p.value),
         PolicyAdd(s.clientInnerIP, s.serviceIP, "fwd", s.clientOuterIP, s.pepOuterIP, s.reqID),
         StateAdd(s.pepOuterIP, s.clientOuterIP, s.clientInSPI, s.reqID, s.nattPort, p2c.value),
         PolicyAdd(s.serviceIP, s.clientInnerIP, "out", s.pepOuterIP, s.clientOuterIP, s.reqID)],
        [PolicyDelete(s.clientInnerIP, s.serviceIP, "fwd"),
         PolicyDelete(s.serviceIP, s.clientInnerIP, "out"),
         StateDelete(s.clientOuterIP, s.pepOuterIP, s.pepInSPI),
         StateDelete(s.pepOuterIP, s.clientOuterIP, s.clientInSPI)]))
  }

  // ---------- the kernel ----------

  datatype StateKey = StateKey(dst: string, spi: nat)

  datatype State = State(src: string, reqID: nat, nattPort: int, key: string)

  datatype PolicyKey = PolicyKey(src: string, dst: string, dir: string)

  datatype PolicyEntry = PolicyEntry(tmplSrc: string, tmplDst: string, reqID: nat)

  datatype Kernel = Kernel(states: map<StateKey, State>, policies: map<PolicyKey, PolicyEntry>)

  /** The number an SPI is written for. */
  type Spi = string -> nat

  /** One `ip xfrm` command; `None` is a command that fails and changes nothing. */
  function Exec(spi: Spi, k: Kernel, c: XfrmCommand): Option<Kernel> {
    match c
    case StateAdd(src, dst, name, reqID, port, key) =>
      if StateKey(dst, spi(name)) in k.states then None
      else Some(k.(states := k.states[StateKey(dst, spi(name)) := State(src, reqID, port, key)]))
    case PolicyAdd(src, dst, dir, tmplSrc, tmplDst, reqID) =>
      if PolicyKey(src, dst, dir) in k.policies then None
      else Some(k.(policies := k.policies[PolicyKey(src, dst, dir) := PolicyEntry(tmplSrc, tmplDst, reqID)]))
    case StateDelete(_, dst, name) =>
      if StateKey(dst, spi(name)) !in k.states then None
      else Some(k.(states := k.states - {StateKey(dst, spi(name))}))
    case PolicyDelete(src, dst, dir) =>
      if PolicyKey(src, dst, dir) !in k.policies then None
      else Some(k.(policies := k.policies - {PolicyKey(src, dst, dir)}))
  }

  /** maybeApplyXFRM: what a failed run has done so far stays. */
  function ApplyCommands(spi: Spi, k: Kernel, commands: seq<XfrmCommand>): (Kernel, bool)
    decreases |commands|
  {
    if commands == [] then (k, true)
    else
      match Exec(spi, k, commands[0])
      case None => (k, false)
      case Some(k') => ApplyCommands(spi, k', commands[1..])
  }

  /** maybeDeleteXFRM: best effort. */
  function DeleteCommands(spi: Spi, k: Kernel, commands: seq<XfrmCommand>): Kernel
    decreases |commands|
  {
    if commands == [] then k
    else
      match Exec(spi, k, commands[0])
      case None => DeleteCommands(spi, k, commands[1..])
      case Some(k') => DeleteCommands(spi, k', commands[1..])
  }

  // ---------- the objects of a session ----------

  function StatesOf(spi: Spi, derive: DeriveKey, s: Session): map<StateKey, State>
    requires BuildPEPXFRMTunnelPlan(derive, s).Some?
  {
    map[Inbound(spi, s) := State(s.clientOuterIP, s.reqID, s.nattPort, derive(s.c2pKey, "xfrm-c2p").value),
        Outbound(spi, s) := State(s.pepOuterIP, s.reqID, s.nattPort, derive(s.p2cKey, "xfrm-p2c").value)]
  }

  function PoliciesOf(s: Session): map<PolicyKey, PolicyEntry> {
    map[PolicyKey(s.clientInnerIP, s.serviceIP, "fwd") := PolicyEntry(s.clientOuterIP, s.pepOuterIP, s.reqID),
        PolicyKey(s.serviceIP, s.clientInnerIP, "out") := PolicyEntry(s.pepOuterIP, s.clientOuterIP, s.reqID)]
  }

  function Inbound(spi: Spi, s: Session): StateKey {
    StateKey(s.pepOuterIP, spi(s.pepInSPI))
  }

  function Outbound(spi: Spi, s: Session): StateKey {
    StateKey(s.clientOuterIP, spi(s.clientInSPI))
  }

  function StateKeys(spi: Spi, s: Session): set<StateKey> {
    {Inbound(spi, s), Outbound(spi, s)}
  }

  function PolicyKeys(s: Session): set<PolicyKey> {
    {PolicyKey(s.clientInnerIP, s.serviceIP, "fwd"), PolicyKey(s.serviceIP, s.clientInnerIP, "out")}
  }

  /** No object of the session is in the table yet, and its two SAs are not the same one. */
  predicate Free(spi: Spi, k: Kernel, s: Session) {
    && Inbound(spi, s) != Outbound(spi, s)
    && StateKeys(spi, s) !! k.states.Keys
    && PolicyKeys(s) !! k.policies.Keys
  }

  /**
   Applying a session's plan succeeds exactly if none of its objects is taken, and then adds its two states and
   two policies and touches nothing else.
   */
  lemma ApplyAdds(spi: Spi, derive: DeriveKey, k: Kernel, s: Session)
    requires BuildPEPXFRMTunnelPlan(derive, s).Some?
    ensures var (k', ok) := ApplyCommands(spi, k, BuildPEPXFRMTunnelPlan(derive, s).value.commands);
      && (ok <==> Free(spi, k, s))
      && (ok ==> k' == Kernel(k.states + StatesOf(spi, derive, s), k.policies + PoliciesOf(s)))
  {
    hide ApplyCommands, Exec, StatesOf, PoliciesOf;
    var commands := BuildPEPXFRMTunnelPlan(derive, s).value.commands;
    ApplyFour(spi, k, commands[0], commands[1], commands[2], commands[3]);
    assert commands == [commands[0], commands[1], commands[2], commands[3]];
    if Free(spi, k, s) {
      var k1, k2, k3 := FreeAdds(spi, derive, k, s);
    } else {
      forall k1, k2, k3 {
        TakenFails(spi, derive, k, s, k1, k2, k3);
      }
    }
  }

  /** What a plan that was applied leaves in the kernel, field by field: two SAs, one to each end, and two policies. */
  lemma InstalledSpelledOut(spi: Spi, derive: DeriveKey, k: Kernel, s: Session)
    requires BuildPEPXFRMTunnelPlan(derive, s).Some?
    ensures var plan := BuildPEPXFRMTunnelPlan(derive, s).value;
      var (k', ok) := ApplyCommands(spi, k, plan.commands);
      var c2p, p2c := derive(s.c2pKey, "xfrm-c2p"), derive(s.p2cKey, "xfrm-p2c");
      && c2p.Some? && p2c.Some? && plan.mode == "pep-natt-tunnel"
      && (ok ==>
            && k'.states == k.states
                 [StateKey(s.pepOuterIP, spi(s.pepInSPI)) := State(s.clientOuterIP, s.reqID, s.nattPort, c2p.value)]
                 [StateKey(s.clientOuterIP, spi(s.clientInSPI)) := State(s.pepOuterIP, s.reqID, s.nattPort, p2c.value)]
            && k'.policies == k.policies
                 [PolicyKey(s.clientInnerIP, s.serviceIP, "fwd")
                    := PolicyEntry(s.clientOuterIP, s.pepOuterIP, s.reqID)]
                 [PolicyKey(s.serviceIP, s.clientInnerIP, "out")
                    := PolicyEntry(s.pepOuterIP, s.clientOuterIP, s.reqID)])
  {
    hide ApplyCommands;
    var c := BuildPEPXFRMTunnelPlan(derive, s).value.commands;
    ApplyFour(spi, k, c[0], c[1], c[2], c[3]);
    assert c == [c[0], c[1], c[2], c[3]];
  }

  lemma TwoUpdates<K, V>(m: map<K, V>, a: K, x: V, b: K, y: V)
    ensures m[a := x][b := y] == m + map[a := x, b := y]
  {
  }

  /** Each of the four additions to free keys succeeds. */
  lemma FreeAdds(spi: Spi, derive: DeriveKey, k: Kernel, s: Session) returns (k1: Kernel, k2: Kernel, k3: Kernel)
    requires BuildPEPXFRMTunnelPlan(derive, s).Some? && Free(spi, k, s)
    ensures var c := BuildPEPXFRMTunnelPlan(derive, s).value.commands;
      && Exec(spi, k, c[0]) == Some(k1)
      && Exec(spi, k1, c[1]) == Some(k2)
      && Exec(spi, k2, c[2]) == Some(k3)
      && Exec(spi, k3, c[3]) == Some(Kernel(k.states + StatesOf(spi, derive, s), k.policies + PoliciesOf(s)))
  {
    var c2p, p2c := StatesOf(spi, derive, s)[Inbound(spi, s)], StatesOf(spi, derive, s)[Outbound(spi, s)];
    var fwd, out := PolicyKey(s.clientInnerIP, s.serviceIP, "fwd"), PolicyKey(s.serviceIP, s.clientInnerIP, "out");
    assert fwd != out;
    k1 := k.(states := k.states[Inbound(spi, s) := c2p]);
    k2 := k1.(policies := k1.policies[fwd := PoliciesOf(s)[fwd]]);
    k3 := k2.(states := k2.states[Outbound(spi, s) := p2c]);
    TwoUpdates(k.states, Inbound(spi, s), c2p, Outbound(spi, s), p2c);
    TwoUpdates(k.policies, fwd, PoliciesOf(s)[fwd], out, PoliciesOf(s)[out]);
  }

  /** If one of the keys is taken, one of the four additions fails. */
  lemma TakenFails(spi: Spi, derive: DeriveKey, k: Kernel, s: Session, k1: Kernel, k2: Kernel, k3: Kernel)
    requires BuildPEPXFRMTunnelPlan(derive, s).Some? && !Free(spi, k, s)
    ensures var c := BuildPEPXFRMTunnelPlan(derive, s).value.commands;
      Exec(spi, k, c[0]) == Some(k1) && Exec(spi, k1, c[1]) == Some(k2) && Exec(spi, k2, c[2]) == Some(k3)
      ==> Exec(spi, k3, c[3]).None?
  {
  }

  lemma ApplyFirst(spi: Spi, k: Kernel, c: XfrmCommand, rest: seq<XfrmCommand>)
    ensures ApplyCommands(spi, k, [c] + rest) ==
      match Exec(spi, k, c) case None => (k, false) case Some(k') => ApplyCommands(spi, k', rest)
  {
    hide Exec;
    assert ([c] + rest)[1..] == rest;
  }

  /** Running four commands, spelt out. */
  lemma ApplyFour(spi: Spi, k: Kernel, a: XfrmCommand, b: XfrmCommand, c: XfrmCommand, d: XfrmCommand)
    ensures ApplyCommands(spi, k, [a, b, c, d]) ==
      match Exec(spi, k, a) case None => (k, false) case Some(k1) =>
      match Exec(spi, k1, b) case None => (k1, false) case Some(k2) =>
      match Exec(spi, k2, c) case None => (k2, false) case Some(k3) =>
      match Exec(spi, k3, d) case None => (k3, false) case Some(k4) => (k4, true)
  {
    hide Exec;
    assert [a, b, c, d] == [a] + [b, c, d] && [b, c, d] == [b] + [c, d] && [c, d] == [c] + [d] && [d] == [d] + [];
    ApplyFirst(spi, k, a, [b, c, d]);
    var k1 := Exec(spi, k, a);
    if k1.Some? {
      ApplyFirst(spi, k1.value, b, [c, d]);
      var k2 := Exec(spi, k1.value, b);
      if k2.Some? {
        ApplyFirst(spi, k2.value, c, [d]);
        var k3 := Exec(spi, k2.value, c);
        if k3.Some? {
          ApplyFirst(spi, k3.value, d, []);
        }
      }
    }
  }

  /** A failed apply is not rolled back: it changes nothing exactly if the very first SA was already there. */
  lemma FailedApplyResidue(spi: Spi, derive: DeriveKey, k: Kernel, s: Session)
    requires BuildPEPXFRMTunnelPlan(derive, s).Some? && !Free(spi, k, s)
    ensures ApplyCommands(spi, k, BuildPEPXFRMTunnelPlan(derive, s).value.commands).0 == k
            <==> Inbound(spi, s) in k.states
  {
    hide ApplyCommands, Free;
    var c := BuildPEPXFRMTunnelPlan(derive, s).value.commands;
    ApplyFour(spi, k, c[0], c[1], c[2], c[3]);
    assert c == [c[0], c[1], c[2], c[3]];
    if Inbound(spi, s) !in k.states {
      assert Inbound(spi, s) in ApplyCommands(spi, k, c).0.states;
    }
  }

  /** Deleting a session's plan removes whatever stands under its four keys and nothing else. */
  lemma DeleteRemoves(spi: Spi, derive: DeriveKey, k: Kernel, s: Session)
    requires BuildPEPXFRMTunnelPlan(derive, s).Some?
    ensures DeleteCommands(spi, k, BuildPEPXFRMTunnelPlan(derive, s).value.deleteCommands)
            == Kernel(k.states - StateKeys(spi, s), k.policies - PolicyKeys(s))
  {
    var commands := BuildPEPXFRMTunnelPlan(derive, s).value.deleteCommands;
    hide Remove, DeleteCommands;
    DeleteFour(spi, k, commands[0], commands[1], commands[2], commands[3]);
    assert commands == [commands[0], commands[1], commands[2], commands[3]];
    var fwd, out := PolicyKey(s.clientInnerIP, s.serviceIP, "fwd"), PolicyKey(s.serviceIP, s.clientInnerIP, "out");
    var k1 := Removed(spi, k, commands[0]);
    var k2 := Removed(spi, k1, commands[1]);
    var k3 := Removed(spi, k2, commands[2]);
    var k4 := Removed(spi, k3, commands[3]);
    TwoRemovals(k.policies, fwd, out);
    TwoRemovals(k.states, Inbound(spi, s), Outbound(spi, s));
  }

  lemma TwoRemovals<K, V>(m: map<K, V>, a: K, b: K)
    ensures m - {a} - {b} == m - {a, b}
  {
  }

  /** A delete takes its key out, if it is there. */
  lemma Removed(spi: Spi, k: Kernel, c: XfrmCommand) returns (k': Kernel)
    requires c.StateDelete? || c.PolicyDelete?
    ensures k' == Remove(spi, k, c)
    ensures c.StateDelete? ==> k' == k.(states := k.states - {StateKey(c.dst, spi(c.spi))})
    ensures c.PolicyDelete? ==> k' == k.(policies := k.policies - {PolicyKey(c.selSrc, c.selDst, c.dir)})
  {
    k' := Remove(spi, k, c);
    if c.StateDelete? {
      assert k'.states == k.states - {StateKey(c.dst, spi(c.spi))};
    } else {
      assert k'.policies == k.policies - {PolicyKey(c.selSrc, c.selDst, c.dir)};
    }
  }

  function Remove(spi: Spi, k: Kernel, c: XfrmCommand): Kernel {
    match Exec(spi, k, c) case None => k case Some(k') => k'
  }

  lemma DeleteFirst(spi: Spi, k: Kernel, c: XfrmCommand, rest: seq<XfrmCommand>)
    ensures DeleteCommands(spi, k, [c] + rest) == DeleteCommands(spi, Remove(spi, k, c), rest)
  {
    hide Exec;
    assert ([c] + rest)[1..] == rest;
  }

  lemma DeleteFour(spi: Spi, k: Kernel, a: XfrmCommand, b: XfrmCommand, c: XfrmCommand, d: XfrmCommand)
    ensures DeleteCommands(spi, k, [a, b, c, d]) == Remove(spi, Remove(spi, Remove(spi, Remove(spi, k, a), b), c), d)
  {
    hide Remove;
    assert [a, b, c, d] == [a] + [b, c, d] && [b, c, d] == [b] + [c, d] && [c, d] == [c] + [d] && [d] == [d] + [];
    DeleteFirst(spi, k, a, [b, c, d]);
    DeleteFirst(spi, Remove(spi, k, a), b, [c, d]);
    DeleteFirst(spi, Remove(spi, Remove(spi, k, a), b), c, [d]);
    DeleteFirst(spi, Remove(spi, Remove(spi, Remove(spi, k, a), b), c), d, []);
  }

  /** Deleting undoes a successful apply, whatever else is in the table. */
  lemma DeleteUndoesApply(spi: Spi, derive: DeriveKey, k: Kernel, s: Session)
    requires BuildPEPXFRMTunnelPlan(derive, s).Some?
    ensures var plan := BuildPEPXFRMTunnelPlan(derive, s).value;
      var (k', ok) := ApplyCommands(spi, k, plan.commands);
      ok ==> DeleteCommands(spi, k', plan.deleteCommands) == k
  {
    hide ApplyCommands, DeleteCommands, BuildPEPXFRMTunnelPlan;
    ApplyAdds(spi, derive, k, s);
    var (k', ok) := ApplyCommands(spi, k, BuildPEPXFRMTunnelPlan(derive, s).value.commands);
    DeleteRemoves(spi, derive, k', s);
    if ok {
      assert k'.states - StateKeys(spi, s) == k.states;
      assert k'.policies - PolicyKeys(s) == k.policies;
    }
  }

  // ---------- every run of the PEP ----------

  datatype Machine = Machine(kernel: Kernel, live: map<string, Session>)

  datatype XfrmStep = Activate(s: Session) | Expire(spiName: string)

  const EMPTY_MACHINE := Machine(Kernel(map[], map[]), map[])

  /** A session is stored when its plan was applied, and leaves the table when its plan was deleted. */
  function XfrmNext(spi: Spi, derive: DeriveKey, m: Machine, step: XfrmStep): Machine {
    match step
    case Activate(s) =>
      (match BuildPEPXFRMTunnelPlan(derive, s)
       case None => m
       case Some(plan) =>
         var (k, ok) := ApplyCommands(spi, m.kernel, plan.commands);
         Machine(k, if ok then m.live[s.pepInSPI := s] else m.live))
    case Expire(name) =>
      if name !in m.live then m
      else
        match BuildPEPXFRMTunnelPlan(derive, m.live[name])
        case None => m
        case Some(plan) => Machine(DeleteCommands(spi, m.kernel, plan.deleteCommands), m.live - {name})
  }

  function XfrmRun(spi: Spi, derive: DeriveKey, steps: seq<XfrmStep>): Machine {
    if steps == [] then EMPTY_MACHINE
    else XfrmNext(spi, derive, XfrmRun(spi, derive, steps[..|steps| - 1]), steps[|steps| - 1])
  }

  /** The two sessions share no kernel object. */
  predicate Apart(spi: Spi, s: Session, t: Session) {
    StateKeys(spi, s) !! StateKeys(spi, t) && PolicyKeys(s) !! PolicyKeys(t)
  }

  /** Its SAs are two, differ from those of every live session, and its SPI names no live session. */
  ghost predicate Distinct(spi: Spi, live: map<string, Session>, s: Session) {
    && Inbound(spi, s) != Outbound(spi, s)
    && s.pepInSPI !in live
    && forall id :: id in live ==> Apart(spi, s, live[id])
  }

  ghost predicate DistinctSAs(spi: Spi, derive: DeriveKey, steps: seq<XfrmStep>) {
    forall i :: 0 <= i < |steps| && steps[i].Activate? ==>
        Distinct(spi, XfrmRun(spi, derive, steps[..i]).live, steps[i].s)
  }

  ghost predicate Installed(spi: Spi, derive: DeriveKey, k: Kernel, s: Session) {
    && BuildPEPXFRMTunnelPlan(derive, s).Some?
    && Within(StatesOf(spi, derive, s), k.states)
    && Within(PoliciesOf(s), k.policies)
  }

  ghost predicate Within<K, V>(part: map<K, V>, whole: map<K, V>) {
    forall key :: key in part ==> key in whole && whole[key] == part[key]
  }

  /** The table holds the objects of the live sessions, and no object that is not one of theirs. */
  ghost predicate Conserved(spi: Spi, derive: DeriveKey, m: Machine) {
    && (forall id :: id in m.live ==> Installed(spi, derive, m.kernel, m.live[id]) && m.live[id].pepInSPI == id)
    && (forall a, b :: a in m.live && b in m.live && a != b ==> Apart(spi, m.live[a], m.live[b]))
    && (forall key :: key in m.kernel.states ==> exists id :: id in m.live && key in StateKeys(spi, m.live[id]))
    && (forall key :: key in m.kernel.policies ==> exists id :: id in m.live && key in PolicyKeys(m.live[id]))
  }

  /** Deleting one session leaves another's objects alone exactly if the two share none. */
  lemma DeletionSparesOthers(spi: Spi, derive: DeriveKey, k: Kernel, s: Session, t: Session)
    requires BuildPEPXFRMTunnelPlan(derive, s).Some? && Installed(spi, derive, k, t)
    ensures Installed(spi, derive, DeleteCommands(spi, k, BuildPEPXFRMTunnelPlan(derive, s).value.deleteCommands), t)
            <==> Apart(spi, s, t)
  {
    hide DeleteCommands, BuildPEPXFRMTunnelPlan;
    DeleteRemoves(spi, derive, k, s);
    RemovalSpares(StatesOf(spi, derive, t), k.states, StateKeys(spi, s));
    RemovalSpares(PoliciesOf(t), k.policies, PolicyKeys(s));
    assert StatesOf(spi, derive, t).Keys == StateKeys(spi, t);
    assert PoliciesOf(t).Keys == PolicyKeys(t);
  }

  lemma RemovalSpares<K, V>(part: map<K, V>, whole: map<K, V>, gone: set<K>)
    requires Within(part, whole)
    ensures Within(part, whole - gone) <==> gone !! part.Keys
  {
    if Within(part, whole - gone) {
      forall key | key in part ensures key !in gone {
        assert key in whole - gone;
      }
    }
  }

  lemma AdditionKeeps<K, V>(part: map<K, V>, whole: map<K, V>, more: map<K, V>)
    requires Within(part, whole) && more.Keys !! whole.Keys
    ensures Within(part, whole + more) && Within(more, whole + more)
  {
  }

  /** Under conservation the objects of a session apart from all live ones are free. */
  lemma DistinctIsFree(spi: Spi, derive: DeriveKey, m: Machine, s: Session)
    requires Conserved(spi, derive, m) && Distinct(spi, m.live, s)
    ensures Free(spi, m.kernel, s)
  {
    hide StateKeys, PolicyKeys, Installed;
    forall key | key in m.kernel.states ensures key !in StateKeys(spi, s) {
      var id :| id in m.live && key in StateKeys(spi, m.live[id]);
      assert Apart(spi, s, m.live[id]);
    }
    forall key | key in m.kernel.policies ensures key !in PolicyKeys(s) {
      var id :| id in m.live && key in PolicyKeys(m.live[id]);
      assert Apart(spi, s, m.live[id]);
    }
  }

  lemma ActivationConserves(spi: Spi, derive: DeriveKey, m: Machine, s: Session)
    requires Conserved(spi, derive, m) && Distinct(spi, m.live, s)
    ensures Conserved(spi, derive, XfrmNext(spi, derive, m, Activate(s)))
    ensures BuildPEPXFRMTunnelPlan(derive, s).Some? ==> s.pepInSPI in XfrmNext(spi, derive, m, Activate(s)).live
  {
    hide ApplyCommands, BuildPEPXFRMTunnelPlan, Free, StatesOf, PoliciesOf, StateKeys, PolicyKeys;
    if BuildPEPXFRMTunnelPlan(derive, s).Some? {
      DistinctIsFree(spi, derive, m, s);
      ApplyAdds(spi, derive, m.kernel, s);
      var m' := XfrmNext(spi, derive, m, Activate(s));
      assert m'.kernel == Kernel(m.kernel.states + StatesOf(spi, derive, s), m.kernel.policies + PoliciesOf(s));
      forall id | id in m'.live ensures Installed(spi, derive, m'.kernel, m'.live[id]) {
        AddedObjects(spi, derive, m.kernel, s, m'.live[id]);
      }
      ActivationCovers(spi, derive, m, s);
    }
  }

  lemma KeysOfObjects(spi: Spi, derive: DeriveKey, s: Session)
    requires BuildPEPXFRMTunnelPlan(derive, s).Some?
    ensures StatesOf(spi, derive, s).Keys == StateKeys(spi, s) && PoliciesOf(s).Keys == PolicyKeys(s)
  {
  }

  /** With a free session's objects added, the session is installed and so is whatever was before. */
  lemma AddedObjects(spi: Spi, derive: DeriveKey, k: Kernel, s: Session, t: Session)
    requires Free(spi, k, s) && BuildPEPXFRMTunnelPlan(derive, s).Some?
    requires t == s || Installed(spi, derive, k, t)
    ensures Installed(spi, derive, Kernel(k.states + StatesOf(spi, derive, s), k.policies + PoliciesOf(s)), t)
  {
    hide StatesOf, PoliciesOf, StateKeys, PolicyKeys, BuildPEPXFRMTunnelPlan;
    KeysOfObjects(spi, derive, s);
    if t != s {
      AdditionKeeps(StatesOf(spi, derive, t), k.states, StatesOf(spi, derive, s));
      AdditionKeeps(PoliciesOf(t), k.policies, PoliciesOf(s));
    }
  }

  lemma ActivationCovers(spi: Spi, derive: DeriveKey, m: Machine, s: Session)
    requires Conserved(spi, derive, m) && Distinct(spi, m.live, s) && BuildPEPXFRMTunnelPlan(derive, s).Some?
    ensures var live := m.live[s.pepInSPI := s];
      && (forall key :: key in m.kernel.states + StatesOf(spi, derive, s) ==>
          exists id :: id in live && key in StateKeys(spi, live[id]))
      && (forall key :: key in m.kernel.policies + PoliciesOf(s) ==>
          exists id :: id in live && key in PolicyKeys(live[id]))
  {
    hide StatesOf, PoliciesOf, StateKeys, PolicyKeys, Installed, BuildPEPXFRMTunnelPlan;
    KeysOfObjects(spi, derive, s);
    var live := m.live[s.pepInSPI := s];
    assert live[s.pepInSPI] == s;
    forall key | key in m.kernel.states ensures exists id :: id in live && key in StateKeys(spi, live[id]) {
      var id :| id in m.live && key in StateKeys(spi, m.live[id]);
      assert live[id] == m.live[id];
    }
    forall key | key in m.kernel.policies ensures exists id :: id in live && key in PolicyKeys(live[id]) {
      var id :| id in m.live && key in PolicyKeys(m.live[id]);
      assert live[id] == m.live[id];
    }
  }

  lemma ExpiryConserves(spi: Spi, derive: DeriveKey, m: Machine, name: string)
    requires Conserved(spi, derive, m)
    ensures Conserved(spi, derive, XfrmNext(spi, derive, m, Expire(name)))
  {
    hide DeleteCommands, BuildPEPXFRMTunnelPlan, StatesOf, PoliciesOf, StateKeys, PolicyKeys;
    if name in m.live && BuildPEPXFRMTunnelPlan(derive, m.live[name]).Some? {
      var s := m.live[name];
      DeleteRemoves(spi, derive, m.kernel, s);
      var m' := XfrmNext(spi, derive, m, Expire(name));
      forall id | id in m'.live ensures Installed(spi, derive, m'.kernel, m'.live[id]) {
        assert Apart(spi, s, m.live[id]);
        DeletionSparesOthers(spi, derive, m.kernel, s, m.live[id]);
      }
      ExpiryCovers(spi, derive, m, name);
    }
  }

  lemma ExpiryCovers(spi: Spi, derive: DeriveKey, m: Machine, name: string)
    requires Conserved(spi, derive, m) && name in m.live
    ensures var s, live := m.live[name], m.live - {name};
      && (forall key :: key in m.kernel.states - StateKeys(spi, s) ==>
          exists id :: id in live && key in StateKeys(spi, live[id]))
      && (forall key :: key in m.kernel.policies - PolicyKeys(s) ==>
          exists id :: id in live && key in PolicyKeys(live[id]))
  {
    hide StateKeys, PolicyKeys, Installed, Apart;
    var s, live := m.live[name], m.live - {name};
    forall key | key in m.kernel.states - StateKeys(spi, s)
      ensures exists id :: id in live && key in StateKeys(spi, live[id])
    {
      var id :| id in m.live && key in StateKeys(spi, m.live[id]);
      assert id in live;
    }
    forall key | key in m.kernel.policies - PolicyKeys(s)
      ensures exists id :: id in live && key in PolicyKeys(live[id])
    {
      var id :| id in m.live && key in PolicyKeys(m.live[id]);
      assert id in live;
    }
  }

  /**
   Conservation: if every activation brings SAs and selectors of its own, then after any run the kernel table
   holds exactly the two states and the two policies of each live session.
   */
  lemma {:induction false} KernelIsConserved(spi: Spi, derive: DeriveKey, steps: seq<XfrmStep>)
    requires DistinctSAs(spi, derive, steps)
    ensures Conserved(spi, derive, XfrmRun(spi, derive, steps))
    decreases |steps|
  {
    hide Conserved, XfrmNext, Distinct;
    if steps == [] {
      EmptyConserved(spi, derive);
    } else {
      var n := |steps| - 1;
      forall i | 0 <= i < n && steps[..n][i].Activate?
        ensures Distinct(spi, XfrmRun(spi, derive, steps[..n][..i]).live, steps[..n][i].s)
      {
        assert steps[..n][..i] == steps[..i];
      }
      KernelIsConserved(spi, derive, steps[..n]);
      var m := XfrmRun(spi, derive, steps[..n]);
      match steps[n]
      case Activate(s) => ActivationConserves(spi, derive, m, s);
      case Expire(name) => ExpiryConserves(spi, derive, m, name);
    }
  }

  lemma EmptyConserved(spi: Spi, derive: DeriveKey)
    ensures Conserved(spi, derive, EMPTY_MACHINE)
  {
  }

  // ---------- the client's end ----------

  /** The `ip xfrm` commands of BuildClientXFRMTunnelPlan; those for addresses and routes are left out. */
  function BuildClientXFRMTunnelPlan(derive: DeriveKey, s: Session): Option<XfrmPlan> {
    var c2p, p2c := derive(s.c2pKey, "xfrm-c2p"), derive(s.p2cKey, "xfrm-p2c");
    if c2p.None? || p2c.None? then None
    else
      Some(XfrmPlan(
        "client-natt-tunnel",
        [StateAdd(s.pepOuterIP, s.clientOuterIP, s.clientInSPI, s.reqID, s.nattPort, p2c.value),
         PolicyAdd(s.serviceIP, s.clientInnerIP, "in", s.pepOuterIP, s.clientOuterIP, s.reqID),
         StateAdd(s.clientOuterIP, s.pepOuterIP, s.pepInSPI, s.reqID, s.nattPort, c2p.value),
         PolicyAdd(s.clientInnerIP, s.serviceIP, "out", s.clientOuterIP, s.pepOuterIP, s.reqID)],
        [PolicyDelete(s.clientInnerIP, s.serviceIP, "out"),
         PolicyDelete(s.serviceIP, s.clientInnerIP, "in"),
         StateDelete(s.clientOuterIP, s.pepOuterIP, s.pepInSPI),
         StateDelete(s.pepOuterIP, s.clientOuterIP, s.clientInSPI)]))
  }

  const BARE := Kernel(map[], map[])

  function SelectorFor(k: Kernel, src: string, dst: string, dir: string): Option<PolicyEntry> {
    var key := PolicyKey(src, dst, dir);
    if key in k.policies then Some(k.policies[key]) else None
  }

  /**
   The two ends meet: applied to bare kernels, both plans succeed or fail together, install the very same pair
   of SAs, and send traffic of either direction into the SA the other end receives it from.
   */
  lemma PeersAgree(spi: Spi, derive: DeriveKey, s: Session)
    requires BuildPEPXFRMTunnelPlan(derive, s).Some?
    ensures BuildClientXFRMTunnelPlan(derive, s).Some?
    ensures var (pep, ok) := ApplyCommands(spi, BARE, BuildPEPXFRMTunnelPlan(derive, s).value.commands);
      var (client, ok') := ApplyCommands(spi, BARE, BuildClientXFRMTunnelPlan(derive, s).value.commands);
      && ok == ok' == (Inbound(spi, s) != Outbound(spi, s))
      && (ok ==>
           && pep.states == client.states
           && SelectorFor(pep, s.serviceIP, s.clientInnerIP, "out")
              == SelectorFor(client, s.serviceIP, s.clientInnerIP, "in")
           && SelectorFor(pep, s.clientInnerIP, s.serviceIP, "fwd")
              == SelectorFor(client, s.clientInnerIP, s.serviceIP, "out")
           && SelectorFor(client, s.clientInnerIP, s.serviceIP, "out").Some?
           && SelectorFor(client, s.serviceIP, s.clientInnerIP, "in").Some?)
  {
    hide ApplyCommands;
    ApplyAdds(spi, derive, BARE, s);
    var c := BuildClientXFRMTunnelPlan(derive, s).value.commands;
    ApplyFour(spi, BARE, c[0], c[1], c[2], c[3]);
    assert c == [c[0], c[1], c[2], c[3]];
    ClientStates(spi, derive, s);
  }

  lemma ClientStates(spi: Spi, derive: DeriveKey, s: Session)
    requires BuildPEPXFRMTunnelPlan(derive, s).Some?
    ensures Inbound(spi, s) != Outbound(spi, s) ==>
      var states := StatesOf(spi, derive, s);
      BARE.states + states ==
        map[Outbound(spi, s) := states[Outbound(spi, s)]][Inbound(spi, s) := states[Inbound(spi, s)]]
  {
  }

  lemma AddedThenRemoved<K, V>(m: map<K, V>, a: K, x: V, b: K, y: V)
    requires a !in m && b !in m && a != b
    ensures m[a := x][b := y] - {a} - {b} == m && m[a := x][b := y] - {b} - {a} == m
  {
  }

  /** The client's deletion undoes its apply as well, whatever else is in its table. */
  lemma ClientDeleteUndoes(spi: Spi, derive: DeriveKey, k: Kernel, s: Session)
    requires BuildClientXFRMTunnelPlan(derive, s).Some?
    ensures var plan := BuildClientXFRMTunnelPlan(derive, s).value;
      var (k', ok) := ApplyCommands(spi, k, plan.commands);
      ok ==> DeleteCommands(spi, k', plan.deleteCommands) == k
  {
    hide ApplyCommands, DeleteCommands, Remove;
    var plan := BuildClientXFRMTunnelPlan(derive, s).value;
    var c, d := plan.commands, plan.deleteCommands;
    ApplyFour(spi, k, c[0], c[1], c[2], c[3]);
    assert c == [c[0], c[1], c[2], c[3]] && d == [d[0], d[1], d[2], d[3]];
    var (k', ok) := ApplyCommands(spi, k, c);
    if ok {
      DeleteFour(spi, k', d[0], d[1], d[2], d[3]);
      var k1 := Removed(spi, k', d[0]);
      var k2 := Removed(spi, k1, d[1]);
      var k3 := Removed(spi, k2, d[2]);
      var k4 := Removed(spi, k3, d[3]);
      var inn, out := PolicyKey(s.serviceIP, s.clientInnerIP, "in"), PolicyKey(s.clientInnerIP, s.serviceIP, "out");
      AddedThenRemoved(k.states, Outbound(spi, s), k'.states[Outbound(spi, s)], Inbound(spi, s),
                       k'.states[Inbound(spi, s)]);
      AddedThenRemoved(k.policies, inn, k'.policies[inn], out, k'.policies[out]);
    }
  }
}
