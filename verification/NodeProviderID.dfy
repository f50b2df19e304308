/** The node controller: it gives the node of a ready AgentMachine the provider
    ID of the AgentMachine, once. */
module NodeProviderID {
  import opened Wrappers
  import opened Hub
  import opened AgentMachines
  import opened Protocol
  import opened Runs

  /** A node: `life` tells it from an earlier node of the same name. */
  datatype Node = Node(life: nat, version: nat, providerID: string)
  type Nodes = map<string, Node>

  datatype Result =
    | NotReady | NoName | NoClient | NodeMissing | Mismatch | AlreadySet | UpdateFailed | Done | Panicked

  datatype Write = Write(node: string, providerID: string)

  // ---- Which node --------------------------------------------------------------

  /** The address of the first internal DNS entry, or nothing. */
  function NodeName(addresses: seq<Address>): string {
    if addresses == [] then ""
    else if addresses[0].kind == InternalDNS then addresses[0].address
    else NodeName(addresses[1..])
  }

  /** It is that of the first entry of the kind. */
  lemma {:induction false} NodeNameIsFirst(addresses: seq<Address>, i: nat)
    requires i <= |addresses| && (forall j | 0 <= j < i :: addresses[j].kind != InternalDNS)
    requires i < |addresses| ==> addresses[i].kind == InternalDNS
    ensures NodeName(addresses) == if i == |addresses| then "" else addresses[i].address
    decreases i
  {
    if i > 0 {
      NodeNameIsFirst(addresses[1..], i - 1);
    }
  }

  lemma {:induction false} NodeNameAfterExternal(ips: seq<Address>, last: Address)
    requires forall i | 0 <= i < |ips| :: ips[i].kind == ExternalIP
    requires last.kind == InternalDNS
    ensures NodeName(ips + [last]) == last.address
  {
    if ips != [] {
      assert (ips + [last])[1..] == ips[1..] + [last];
      NodeNameAfterExternal(ips[1..], last);
    }
  }

  /** The two loops agree: of the addresses that the one controller computes from
      an Agent, the other one picks the requested hostname, else the one from the
      inventory. */
  lemma NodeNameIsHostname(a: Agent)
    requires AddressesOf(a).Some?
    ensures a.spec.hostname != "" ==> NodeName(AddressesOf(a).value) == a.spec.hostname
    ensures a.spec.hostname == "" ==> NodeName(AddressesOf(a).value) == a.status.inventory.hostname
  {
    var ifaces := a.status.inventory.interfaces;
    CarrierIPsExternal(ifaces);
    NodeNameAfterExternal(CarrierIPs(ifaces), Address(InternalDNS, Hostname(a)));
  }

  /** In every reachable state the node of an AgentMachine is named as its Agent
      was when it was reserved, unless its addresses could not be stored; and the
      provider ID is there and names the Agent. */
  lemma NodeOfReachable(v: World, m: string)
    requires Reachable(v) && m in v.ams && RefOf(v, m).Some?
    ensures var am := v.ams[m].managed;
            && am.providerID == Some("agent://" + am.agentRef.value.name)
            && (am.addresses == [] || exists i | i in v.history ::
                  var a := v.history[i].agent;
                  && v.history[i].key == am.agentRef.value
                  && NodeName(am.addresses) == if a.spec.hostname != "" then a.spec.hostname else a.status.inventory.hostname)
  {
    ReachableIsInv(v);
    var am := v.ams[m].managed;
    assert MachineOk(v, m, v.ams[m]);
    if am.addresses != [] {
      var i :| i in v.history && v.history[i].key == am.agentRef.value && AddressesOf(v.history[i].agent) == Some(am.addresses);
      NodeNameIsHostname(v.history[i].agent);
    }
  }

  // ---- The nodes over time -------------------------------------------------------

  /** Others may create, delete and update nodes, but once a node has a provider
      ID the API server does not let anybody change it. */
  predicate OthersMay(ns: Nodes, ns': Nodes) {
    forall n | n in ns && n in ns' ::
      && ns[n].life <= ns'[n].life
      && (ns'[n].life == ns[n].life ==>
            && ns[n].version <= ns'[n].version
            && (ns[n].version == ns'[n].version ==> ns'[n] == ns[n])
            && (ns[n].providerID != "" ==> ns'[n].providerID == ns[n].providerID))
  }

  /** The controller's only write: a node without a provider ID gets one. */
  predicate SetOnce(ns: Nodes, ns': Nodes, n: string, id: string) {
    && n in ns && ns[n].providerID == ""
    && ns' == ns[n := Node(ns[n].life, ns[n].version + 1, id)]
  }

  /** One step of a run of the nodes. */
  ghost predicate NodeStep(ns: Nodes, ns': Nodes) {
    OthersMay(ns, ns') || exists n, id :: SetOnce(ns, ns', n, id)
  }

  ghost predicate IsNodeRun(run: seq<Nodes>) {
    run != [] && forall i | 0 <= i < |run| - 1 :: NodeStep(run[i], run[i + 1])
  }

  /** The same node all the way. */
  predicate Lives(run: seq<Nodes>, n: string, life: nat) {
    forall i | 0 <= i < |run| :: n in run[i] && run[i][n].life == life
  }

  lemma {:induction false} OnceSetStaysSet(run: seq<Nodes>, n: string, life: nat, i: nat, j: nat)
    requires IsNodeRun(run) && Lives(run, n, life) && i <= j < |run|
    ensures run[i][n].providerID != "" ==> run[j][n].providerID == run[i][n].providerID
    decreases j - i
  {
    if i < j {
      assert NodeStep(run[i], run[i + 1]);
      OnceSetStaysSet(run, n, life, i + 1, j);
    }
  }

  /** The provider ID of a node changes at most once in its life, and then from
      empty. */
  lemma ChangesAtMostOnce(run: seq<Nodes>, n: string, life: nat, i: nat, j: nat, k: nat)
    requires IsNodeRun(run) && Lives(run, n, life) && i <= j <= k < |run|
    requires run[i][n].providerID != run[j][n].providerID
    ensures run[i][n].providerID == "" && run[k][n].providerID == run[j][n].providerID
  {
    OnceSetStaysSet(run, n, life, i, j);
    OnceSetStaysSet(run, n, life, j, k);
  }

  // ---- The controller ---------------------------------------------------------------

  class NodeProviderIDReconciler {
    var nodes: Nodes
    ghost var run: seq<Nodes>
    ghost var writes: seq<Write>
    ghost var faults: nat

    ghost predicate Valid()
      reads this
    {
      IsNodeRun(run) && run[|run| - 1] == nodes
    }

    constructor (nodes: Nodes)
      ensures Valid() && this.nodes == nodes && run == [nodes] && writes == [] && faults == 0
    {
      this.nodes, run, writes, faults := nodes, [nodes], [], 0;
    }

    method Others()
      requires Valid()
      modifies this`nodes, this`run
      ensures Valid() && OthersMay(old(nodes), nodes) && old(run) <= run
    {
      var ns: Nodes := *;
      if OthersMay(nodes, ns) { nodes, run := ns, run + [ns]; }
    }

    /** Update: accepted only for the node and version that were read. */
    method Update(name: string, read: Node, id: string) returns (ok: bool)
      requires Valid() && read.providerID == "" && id != ""
      requires name in nodes && nodes[name].life == read.life && nodes[name].version == read.version ==> nodes[name] == read
      modifies this
      ensures Valid() && old(run) <= run
      ensures ok ==> SetOnce(old(nodes), nodes, name, id) && writes == old(writes) + [Write(name, id)]
      ensures !ok ==> nodes == old(nodes) && writes == old(writes)
      ensures faults == old(faults) + if ok then 0 else 1
    {
      var up: bool := *;
      ok := up && name in nodes && nodes[name].life == read.life && nodes[name].version == read.version;
      if ok {
        var ns := nodes[name := Node(read.life, read.version + 1, id)];
        assert SetOnce(nodes, ns, name, id);
        nodes, run, writes := ns, run + [ns], writes + [Write(name, id)];
      } else {
        faults := faults + 1;
      }
    }

    /** Whether a call gets through. */
    method Call() returns (ok: bool)
      modifies this`faults
      ensures faults == old(faults) + if ok then 0 else 1
    {
      ok := *;
      if !ok { faults := faults + 1; }
    }

    /** setNodeProviderID. `read` is the node as it was read. It writes exactly
        when that node had no provider ID and the write was accepted, and then the
        stored node had none either. Unless a call fails, a named node that exists is
        read, and gets the provider ID if it had none. */
    method SetNodeProviderID(am: AgentMachine) returns (r: Result, ghost name: string, ghost read: Option<Node>)
      requires Valid()
      modifies this
      ensures Valid() && old(run) <= run
      ensures !r.NotReady? && name == NodeName(am.managed.addresses)
      ensures r.NoName? <==> name == ""
      ensures r.Panicked? ==> am.managed.providerID.None?
      ensures r.NoName? || r.NoClient? || r.NodeMissing? <==> read.None?
      ensures read.Some? && am.managed.providerID.Some? ==>
        var id := am.managed.providerID.value;
        && (r.Mismatch? <==> read.value.providerID != "" && read.value.providerID != id)
        && (r.AlreadySet? <==> read.value.providerID == id)
        && (r.Done? || r.UpdateFailed? <==> read.value.providerID == "" && id != "")
      ensures writes == old(writes) +
        if r.Done? && am.managed.providerID.Some? then [Write(name, am.managed.providerID.value)] else []
      ensures faults >= old(faults) && (r.NoClient? || r.UpdateFailed? ==> faults > old(faults))
      ensures r.NodeMissing? && faults == old(faults) ==> name !in nodes
      ensures r.Done? ==> am.managed.providerID.Some? && name in nodes && nodes[name].providerID == am.managed.providerID.value
    {
      var nodeName := "";
      name, read := NodeName(am.managed.addresses), None;
      var addresses := am.managed.addresses;
      for i := 0 to |addresses|
        invariant nodeName == "" && NodeName(addresses) == NodeName(addresses[i..])
      {
        if addresses[i].kind == InternalDNS {
          nodeName := addresses[i].address;
          break;
        }
        assert addresses[i..][1..] == addresses[i + 1..];
      }
      if nodeName == "" { return NoName, name, read; }
      var ok := Call();
      if !ok { return NoClient, name, read; }
      Others();
      ok := Call();
      if !ok || nodeName !in nodes { return NodeMissing, name, read; }
      var node := nodes[nodeName];
      read := Some(node);
      if am.managed.providerID.None? { return Panicked, name, read; }
      var id := am.managed.providerID.value;
      if node.providerID != "" && node.providerID != id { return Mismatch, name, read; }
      if node.providerID == id { return AlreadySet, name, read; }
      Others();
      ok := Update(nodeName, node, id);
      return if ok then Done else UpdateFailed, name, read;
    }

    /** Reconcile. Nothing is written for an AgentMachine that is not ready, and
        the provider ID of one whose status is consistent is never missing. */
    method Reconcile(am: Option<AgentMachine>) returns (r: Result)
      requires Valid()
      modifies this
      ensures Valid() && old(run) <= run
      ensures r.NotReady? <==> am.None? || !am.value.managed.ready
      ensures am.Some? && Consistent(am.value.managed) ==> !r.Panicked?
      ensures r.Done? ==> am.Some? && am.value.managed.ready && am.value.managed.providerID.Some?
      ensures faults == old(faults) ==> !r.NoClient? && !r.UpdateFailed?
      ensures r.NodeMissing? && faults == old(faults) ==> NodeName(am.value.managed.addresses) !in nodes
      ensures r.NoName? ==> NodeName(am.value.managed.addresses) == ""
      ensures writes == old(writes) +
        if r.Done? then [Write(NodeName(am.value.managed.addresses), am.value.managed.providerID.value)] else []
    {
      if am.None? || !am.value.managed.ready { return NotReady; }
      ghost var name, read;
      r, name, read := SetNodeProviderID(am.value);
    }
  }
}
