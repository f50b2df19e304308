/** The AgentMachine that a reconcile holds in memory, and the methods that fill
    in its status. */
module AgentMachines {
  import opened Wrappers
  import opened Hub
  import opened Text

  type MachineConditions = seq<Condition<MachineConditionType>>

  /** conditions.Set: at most one entry per type. The order of the list is not
      modelled beyond that. */
  function SetCondition(cs: MachineConditions, c: Condition<MachineConditionType>): MachineConditions {
    if cs == [] then [c]
    else if cs[0].kind == c.kind then [c] + cs[1..]
    else [cs[0]] + SetCondition(cs[1..], c)
  }

  function StatusOf<T(==)>(cs: seq<Condition<T>>, t: T): Option<Status> {
    if cs == [] then None
    else if cs[0].kind == t then Some(cs[0].status)
    else StatusOf(cs[1..], t)
  }

  /** The reason of the first condition of a type. */
  function ReasonOf<T(==)>(cs: seq<Condition<T>>, t: T): Option<string> {
    if cs == [] then None
    else if cs[0].kind == t then Some(cs[0].reason)
    else ReasonOf(cs[1..], t)
  }

  /** No type occurs twice. */
  predicate UniqueTypes(cs: MachineConditions) {
    cs == [] || (StatusOf(cs[1..], cs[0].kind).None? && UniqueTypes(cs[1..]))
  }

  /** The status of a type is that of its first condition. */
  lemma {:induction false} StatusOfIsFirst<T>(cs: seq<Condition<T>>, t: T, i: nat)
    requires i <= |cs| && (forall j | 0 <= j < i :: cs[j].kind != t) && (i < |cs| ==> cs[i].kind == t)
    ensures StatusOf(cs, t) == if i == |cs| then None else Some(cs[i].status)
    decreases i
  {
    if i > 0 {
      StatusOfIsFirst(cs[1..], t, i - 1);
    }
  }

  lemma {:induction false} NoStatusIff<T>(cs: seq<Condition<T>>, t: T)
    ensures StatusOf(cs, t).None? <==> forall i | 0 <= i < |cs| :: cs[i].kind != t
  {
    if cs != [] {
      NoStatusIff(cs[1..], t);
      assert forall i | 0 < i < |cs| :: cs[i] == cs[1..][i - 1];
      if StatusOf(cs, t).None? {
        forall i | 0 <= i < |cs| ensures cs[i].kind != t { assert i > 0 ==> cs[1..][i - 1].kind != t; }
      } else if cs[0].kind != t {
        var i :| 0 <= i < |cs[1..]| && cs[1..][i].kind == t;
        assert cs[i + 1].kind == t;
      }
    }
  }

  lemma {:induction false} UniqueTypesIff(cs: MachineConditions)
    ensures UniqueTypes(cs) <==> forall i, j | 0 <= i < j < |cs| :: cs[i].kind != cs[j].kind
  {
    if cs != [] {
      UniqueTypesIff(cs[1..]);
      NoStatusIff(cs[1..], cs[0].kind);
      assert forall i | 0 < i < |cs| :: cs[i] == cs[1..][i - 1];
      if UniqueTypes(cs) {
        forall i, j | 0 <= i < j < |cs| ensures cs[i].kind != cs[j].kind {
          assert i > 0 ==> cs[1..][i - 1].kind != cs[1..][j - 1].kind;
          assert cs[1..][j - 1].kind != cs[0].kind;
        }
      }
      if forall i, j | 0 <= i < j < |cs| :: cs[i].kind != cs[j].kind {
        forall i, j | 0 <= i < j < |cs[1..]| ensures cs[1..][i].kind != cs[1..][j].kind {
          assert cs[i + 1].kind != cs[j + 1].kind;
        }
        forall i | 0 <= i < |cs[1..]| ensures cs[1..][i].kind != cs[0].kind { assert cs[i + 1].kind != cs[0].kind; }
      }
    }
  }

  /** Setting a condition decides its own type, leaves every other type alone
      and keeps one entry per type. */
  lemma {:induction false} SetConditionEffect(cs: MachineConditions, c: Condition<MachineConditionType>)
    ensures forall t :: StatusOf(SetCondition(cs, c), t) == if t == c.kind then Some(c.status) else StatusOf(cs, t)
    ensures forall t :: ReasonOf(SetCondition(cs, c), t) == if t == c.kind then Some(c.reason) else ReasonOf(cs, t)
    ensures UniqueTypes(cs) ==> UniqueTypes(SetCondition(cs, c))
  {
    if cs != [] {
      SetConditionEffect(cs[1..], c);
      assert SetCondition(cs, c)[1..] == if cs[0].kind == c.kind then cs[1..] else SetCondition(cs[1..], c);
    }
  }

  /** The summary condition is True exactly when these five are. */
  predicate AllFiveTrue(cs: MachineConditions) {
    && StatusOf(cs, AgentReserved) == Some(True)
    && StatusOf(cs, AgentSpecSynced) == Some(True)
    && StatusOf(cs, AgentValidated) == Some(True)
    && StatusOf(cs, AgentRequirementsMet) == Some(True)
    && StatusOf(cs, AgentInstalled) == Some(True)
  }

  /** What the Agent itself reports for the four conditions that are copied. */
  predicate ReportsAllTrue(a: Agent) {
    var cs := a.status.conditions;
    && StatusOf(cs, SpecSynced) == Some(True)
    && StatusOf(cs, Validated) == Some(True)
    && StatusOf(cs, RequirementsMet) == Some(True)
    && StatusOf(cs, Installed) == Some(True)
  }

  function Mirror(a: Agent, t: AgentConditionType): Status {
    if StatusOf(a.status.conditions, t) == Some(True) then True else False
  }

  /** The four copied conditions show what the Agent reports, anything but True
      as False. */
  predicate Mirrors(cs: MachineConditions, a: Agent) {
    && StatusOf(cs, AgentReserved) == Some(True)
    && StatusOf(cs, AgentSpecSynced) == Some(Mirror(a, SpecSynced))
    && StatusOf(cs, AgentValidated) == Some(Mirror(a, Validated))
    && StatusOf(cs, AgentRequirementsMet) == Some(Mirror(a, RequirementsMet))
    && StatusOf(cs, AgentInstalled) == Some(Mirror(a, Installed))
  }

  predicate AllFiveFalse(cs: MachineConditions) {
    && StatusOf(cs, AgentReserved) == Some(False)
    && StatusOf(cs, AgentSpecSynced) == Some(False)
    && StatusOf(cs, AgentValidated) == Some(False)
    && StatusOf(cs, AgentRequirementsMet) == Some(False)
    && StatusOf(cs, AgentInstalled) == Some(False)
  }

  function ProviderID(agentRef: Option<Key>): Option<string> {
    if agentRef.None? then None else Some("agent://" + agentRef.value.name)
  }

  /** The status of an AgentMachine is consistent: ready only with an Agent and
      all five conditions, a provider ID that names the Agent, one condition per
      type. */
  predicate Consistent(m: Managed) {
    && (m.ready ==> m.agentRef.Some? && AllFiveTrue(m.conditions))
    && m.providerID == ProviderID(m.agentRef)
    && UniqueTypes(m.conditions)
    && (m.agentRef.None? ==> m.addresses == [])
  }

  // ---- Addresses -----------------------------------------------------------

  predicate HasSlash(s: string) {
    LastIndex(s, '/') >= 0
  }

  function ExternalAddress(addr: string): Address
    requires HasSlash(addr)
  {
    Address(ExternalIP, addr[..LastIndex(addr, '/')])
  }

  function ExternalIPs(addrs: seq<string>): seq<Address>
    requires forall i | 0 <= i < |addrs| :: HasSlash(addrs[i])
  {
    seq(|addrs|, i requires 0 <= i < |addrs| && HasSlash(addrs[i]) => ExternalAddress(addrs[i]))
  }

  predicate Wellformed(ifaces: seq<Interface>) {
    forall i | 0 <= i < |ifaces| && ifaces[i].hasCarrier ::
      forall j | 0 <= j < |ifaces[i].ipv4Addresses| :: HasSlash(ifaces[i].ipv4Addresses[j])
  }

  function CarrierIPs(ifaces: seq<Interface>): seq<Address>
    requires Wellformed(ifaces)
  {
    if ifaces == [] then []
    else
      var n := |ifaces| - 1;
      CarrierIPs(ifaces[..n]) + if ifaces[n].hasCarrier then ExternalIPs(ifaces[n].ipv4Addresses) else []
  }

  /** The name an Agent's node will have. */
  function Hostname(a: Agent): string {
    if a.spec.hostname == "" then a.status.inventory.hostname else a.spec.hostname
  }

  /** The addresses of an Agent; none when an IPv4 address has no prefix length,
      on which the source slices out of bounds and panics. */
  function AddressesOf(a: Agent): Option<seq<Address>> {
    if Wellformed(a.status.inventory.interfaces)
    then Some(CarrierIPs(a.status.inventory.interfaces) + [Address(InternalDNS, Hostname(a))])
    else None
  }

  /** How many addresses the carrier interfaces before the i-th have. */
  function Offset(ifaces: seq<Interface>, i: nat): nat
    requires i <= |ifaces|
  {
    if i == 0 then 0
    else Offset(ifaces, i - 1) + if ifaces[i - 1].hasCarrier then |ifaces[i - 1].ipv4Addresses| else 0
  }

  /** An external entry shows an address up to its last slash. */
  predicate Shows(entry: Address, addr: string) {
    && entry.kind == ExternalIP
    && |entry.address| < |addr| && addr[..|entry.address|] == entry.address && addr[|entry.address|] == '/'
    && Lacks(addr[|entry.address| + 1..], '/')
  }

  /** The addresses of an Agent, entry by entry: the j-th address of the i-th interface
      with carrier, in order, then the requested hostname, or without one that of the
      inventory. */
  ghost predicate AddressesFit(a: Agent, entries: seq<Address>) {
    var ifaces := a.status.inventory.interfaces;
    && |entries| == Offset(ifaces, |ifaces|) + 1
    && (forall i, j | 0 <= i < |ifaces| && ifaces[i].hasCarrier && 0 <= j < |ifaces[i].ipv4Addresses| ::
          Offset(ifaces, i) + j < |entries| && Shows(entries[Offset(ifaces, i) + j], ifaces[i].ipv4Addresses[j]))
    && entries[|entries| - 1].kind == InternalDNS
    && (a.spec.hostname != "" ==> entries[|entries| - 1].address == a.spec.hostname)
    && (a.spec.hostname == "" ==> entries[|entries| - 1].address == a.status.inventory.hostname)
  }

  /** There are none exactly when some IPv4 address of a carrier interface has no
      slash. */
  lemma AddressesLaw(a: Agent)
    ensures AddressesOf(a).Some? ==> AddressesFit(a, AddressesOf(a).value)
    ensures AddressesOf(a).None? <==> exists i, j ::
      && 0 <= i < |a.status.inventory.interfaces| && a.status.inventory.interfaces[i].hasCarrier
      && 0 <= j < |a.status.inventory.interfaces[i].ipv4Addresses|
      && Lacks(a.status.inventory.interfaces[i].ipv4Addresses[j], '/')
  {
    var ifaces := a.status.inventory.interfaces;
    if Wellformed(ifaces) {
      forall i, j | 0 <= i < |ifaces| && ifaces[i].hasCarrier && 0 <= j < |ifaces[i].ipv4Addresses|
        ensures Offset(ifaces, i) + j < |CarrierIPs(ifaces)|
                && Shows(CarrierIPs(ifaces)[Offset(ifaces, i) + j], ifaces[i].ipv4Addresses[j])
                && !Lacks(ifaces[i].ipv4Addresses[j], '/')
      {
        CarrierIPAt(ifaces, i, j);
        assert HasSlash(ifaces[i].ipv4Addresses[j]);
      }
      CarrierIPCount(ifaces);
    } else {
      var i :| 0 <= i < |ifaces| && ifaces[i].hasCarrier && !forall j | 0 <= j < |ifaces[i].ipv4Addresses| :: HasSlash(ifaces[i].ipv4Addresses[j]);
      var j :| 0 <= j < |ifaces[i].ipv4Addresses| && !HasSlash(ifaces[i].ipv4Addresses[j]);
      assert Lacks(ifaces[i].ipv4Addresses[j], '/');
    }
  }

  lemma {:induction false} OffsetPrefix(ifaces: seq<Interface>, n: nat, i: nat)
    requires i <= n <= |ifaces|
    ensures Offset(ifaces[..n], i) == Offset(ifaces, i)
    decreases i
  {
    if i > 0 { OffsetPrefix(ifaces, n, i - 1); }
  }

  lemma {:induction false} CarrierIPCount(ifaces: seq<Interface>)
    requires Wellformed(ifaces)
    ensures |CarrierIPs(ifaces)| == Offset(ifaces, |ifaces|)
  {
    if ifaces != [] {
      var n := |ifaces| - 1;
      CarrierIPCount(ifaces[..n]);
      OffsetPrefix(ifaces, n, n);
    }
  }

  lemma {:induction false} CarrierIPAt(ifaces: seq<Interface>, i: nat, j: nat)
    requires Wellformed(ifaces) && i < |ifaces| && ifaces[i].hasCarrier && j < |ifaces[i].ipv4Addresses|
    ensures Offset(ifaces, i) + j < |CarrierIPs(ifaces)|
    ensures Shows(CarrierIPs(ifaces)[Offset(ifaces, i) + j], ifaces[i].ipv4Addresses[j])
  {
    var n := |ifaces| - 1;
    var front := CarrierIPs(ifaces[..n]);
    OffsetPrefix(ifaces, n, if i < n then i else n);
    CarrierIPCount(ifaces[..n]);
    if i < n {
      CarrierIPAt(ifaces[..n], i, j);
      assert CarrierIPs(ifaces)[Offset(ifaces, i) + j] == front[Offset(ifaces, i) + j];
    } else {
      assert CarrierIPs(ifaces)[|front| + j] == ExternalIPs(ifaces[n].ipv4Addresses)[j];
    }
  }

  method GetAddresses(a: Agent) returns (r: Option<seq<Address>>)
    ensures r == AddressesOf(a)
    ensures r.Some? ==> AddressesFit(a, r.value)
  {
    var ifaces := a.status.inventory.interfaces;
    var addresses: seq<Address> := [];
    for i := 0 to |ifaces|
      invariant Wellformed(ifaces[..i]) && addresses == CarrierIPs(ifaces[..i])
    {
      assert ifaces[..i + 1][..i] == ifaces[..i];
      if !ifaces[i].hasCarrier { continue; }
      var addrs := ifaces[i].ipv4Addresses;
      var before := addresses;
      for j := 0 to |addrs|
        invariant forall k | 0 <= k < j :: HasSlash(addrs[k])
        invariant addresses == before + ExternalIPs(addrs[..j])
      {
        var cut := LastIndex(addrs[j], '/');
        if cut < 0 { return None; }
        assert ExternalIPs(addrs[..j + 1]) == ExternalIPs(addrs[..j]) + [ExternalAddress(addrs[j])];
        addresses := addresses + [Address(ExternalIP, addrs[j][..cut])];
      }
      assert addrs[..|addrs|] == addrs;
    }
    assert ifaces[..|ifaces|] == ifaces;
    var hostname := a.spec.hostname;
    if hostname == "" {
      hostname := a.status.inventory.hostname;
    }
    r := Some(addresses + [Address(InternalDNS, hostname)]);
    AddressesLaw(a);
  }

  /** One entry per IPv4 address on a carrier interface, all external. */
  lemma {:induction false} CarrierIPsExternal(ifaces: seq<Interface>)
    requires Wellformed(ifaces)
    ensures forall i | 0 <= i < |CarrierIPs(ifaces)| :: CarrierIPs(ifaces)[i].kind == ExternalIP
  {
    if ifaces != [] {
      CarrierIPsExternal(ifaces[..|ifaces| - 1]);
    }
  }

  // ---- The object in memory --------------------------------------------------

  class AgentMachineObject {
    const name: string
    const given: AgentMachine

    var finalizer: bool
    var providerID: Option<string>
    var ready: bool
    var agentRef: Option<Key>
    var addresses: seq<Address>
    var conditions: MachineConditions

    constructor (name: string, given: AgentMachine)
      ensures this.name == name && this.given == given && Content() == given.managed
    {
      this.name, this.given := name, given;
      var m := given.managed;
      finalizer, providerID, ready := m.finalizer, m.providerID, m.ready;
      agentRef, addresses, conditions := m.agentRef, m.addresses, m.conditions;
    }

    function Content(): Managed
      reads this
    {
      Managed(finalizer, providerID, ready, agentRef, addresses, conditions)
    }

    method Set(kind: MachineConditionType, status: Status, reason: string)
      modifies this`conditions
      ensures conditions == SetCondition(old(conditions), Condition(kind, status, reason))
      ensures forall t :: StatusOf(conditions, t) == if t == kind then Some(status) else StatusOf(old(conditions), t)
      ensures forall t :: ReasonOf(conditions, t) == if t == kind then Some(reason) else ReasonOf(old(conditions), t)
      ensures old(UniqueTypes(conditions)) ==> UniqueTypes(conditions)
    {
      SetConditionEffect(conditions, Condition(kind, status, reason));
      conditions := SetCondition(conditions, Condition(kind, status, reason));
    }

    method SetReserved(failed: bool) returns (passed: bool)
      modifies this`conditions
      ensures passed <==> agentRef.Some?
      ensures forall t :: StatusOf(conditions, t) == (
                if t == AgentReserved then Some(if agentRef.Some? then True else False) else StatusOf(old(conditions), t))
      ensures agentRef.None? ==>
        ReasonOf(conditions, AgentReserved) == Some(if failed then "AgentNotYetFound" else "NoSuitableAgents")
      ensures old(UniqueTypes(conditions)) ==> UniqueTypes(conditions)
    {
      if agentRef.None? {
        Set(AgentReserved, False, if failed then "AgentNotYetFound" else "NoSuitableAgents");
        return false;
      }
      Set(AgentReserved, True, "AgentReserved");
      return true;
    }

    method SetNotYetReserved()
      modifies this`conditions
      ensures forall t :: StatusOf(conditions, t) == (
                if t in {AgentSpecSynced, AgentValidated, AgentRequirementsMet, AgentInstalled} then Some(False)
                else StatusOf(old(conditions), t))
      ensures ReasonOf(conditions, AgentReserved) == ReasonOf(old(conditions), AgentReserved)
      ensures old(UniqueTypes(conditions)) ==> UniqueTypes(conditions)
    {
      Set(AgentSpecSynced, False, "AgentNotYetFound");
      Set(AgentValidated, False, "AgentNotYetFound");
      Set(AgentRequirementsMet, False, "AgentNotYetFound");
      Set(AgentInstalled, False, "AgentNotYetFound");
    }

    /** FindStatusCondition: the first entry of the type. */
    static method Find(cs: seq<Condition<AgentConditionType>>, t: AgentConditionType)
      returns (c: Option<Condition<AgentConditionType>>)
      ensures StatusOf(cs, t) == if c.None? then None else Some(c.value.status)
      ensures ReasonOf(cs, t) == if c.None? then None else Some(c.value.reason)
    {
      for i := 0 to |cs|
        invariant StatusOf(cs, t) == StatusOf(cs[i..], t) && ReasonOf(cs, t) == ReasonOf(cs[i..], t)
      {
        if cs[i].kind == t { return Some(cs[i]); }
        assert cs[i..][1..] == cs[i + 1..];
      }
      return None;
    }

    method CopyCondition(a: Agent, kind: MachineConditionType, source: AgentConditionType) returns (isTrue: bool)
      modifies this`conditions
      ensures isTrue <==> StatusOf(a.status.conditions, source) == Some(True)
      ensures forall t :: StatusOf(conditions, t) == (
                if t == kind then Some(if isTrue then True else False) else StatusOf(old(conditions), t))
      ensures ReasonOf(conditions, kind) ==
              if isTrue then Some("AgentConditionTrue")
              else if StatusOf(a.status.conditions, source).None? then Some("ConditionNotFound")
              else ReasonOf(a.status.conditions, source)
      ensures old(UniqueTypes(conditions)) ==> UniqueTypes(conditions)
    {
      var c := Find(a.status.conditions, source);
      if c.None? {
        Set(kind, False, "ConditionNotFound");
        return false;
      }
      if c.value.status == True {
        Set(kind, True, "AgentConditionTrue");
        return true;
      }
      Set(kind, False, c.value.reason);
      return false;
    }

    /** setStatus: the summary may fail, and then readiness is left as it was. */
    method Summarize(fails: bool) returns (ok: bool)
      modifies this`conditions, this`ready
      ensures ok == !fails
      ensures ok ==>
        && ready == old(AllFiveTrue(conditions))
        && StatusOf(conditions, Ready) == Some(if ready then True else False)
        && forall t | t != Ready ::
             StatusOf(conditions, t) == StatusOf(old(conditions), t) && ReasonOf(conditions, t) == ReasonOf(old(conditions), t)
      ensures !ok ==> ready == old(ready) && conditions == old(conditions)
      ensures old(UniqueTypes(conditions)) ==> UniqueTypes(conditions)
    {
      if fails { return false; }
      var summary := AllFiveTrue(conditions);
      Set(Ready, if summary then True else False, "Summary");
      ready := summary;
      return true;
    }

    /** The end of updateStatus for a reserved AgentMachine: the four conditions
        that the Agent reports, then the summary. */
    method ReportAgent(a: Agent, fails: bool) returns (ok: bool)
      requires UniqueTypes(conditions) && !ready && StatusOf(conditions, AgentReserved) == Some(True)
      modifies this`conditions, this`ready
      ensures UniqueTypes(conditions) && (ready ==> AllFiveTrue(conditions)) && Mirrors(conditions, a)
      ensures ok == !fails
      ensures ok ==> (ready <==> ReportsAllTrue(a))
      ensures !ok ==> !ready
    {
      var _ := CopyCondition(a, AgentSpecSynced, SpecSynced);
      var _ := CopyCondition(a, AgentValidated, Validated);
      var _ := CopyCondition(a, AgentRequirementsMet, RequirementsMet);
      var _ := CopyCondition(a, AgentInstalled, Installed);
      ok := Summarize(fails);
    }

    /** The end of updateStatus without an Agent. */
    method ReportNoAgent(fails: bool) returns (ok: bool)
      requires UniqueTypes(conditions) && !ready && StatusOf(conditions, AgentReserved) == Some(False)
      modifies this`conditions, this`ready
      ensures UniqueTypes(conditions) && !ready && AllFiveFalse(conditions) && ok == !fails
      ensures ReasonOf(conditions, AgentReserved) == ReasonOf(old(conditions), AgentReserved)
    {
      SetNotYetReserved();
      ok := Summarize(fails);
    }

    /** updateAgentMachineWithFoundAgent. On a malformed address the provider ID
        and the reference are already set when it panics. */
    method RecordAgent(key: Key, a: Agent) returns (panicked: bool)
      modifies this`providerID, this`agentRef, this`addresses
      ensures agentRef == Some(key) && providerID == ProviderID(agentRef)
      ensures panicked <==> AddressesOf(a).None?
      ensures addresses == if panicked then old(addresses) else AddressesOf(a).value
    {
      providerID := Some("agent://" + key.name);
      agentRef := Some(key);
      var found := GetAddresses(a);
      if found.None? { return true; }
      addresses := found.value;
      return false;
    }
  }
}
