/** What a reconcile leaves on its Agent, read off the stored Agent: the claim with
    cluster, namespace and bootstrap data, and the data in place after a sync. */
module Delivery {
  import opened Wrappers
  import opened Hub
  import opened AgentEdits
  import opened AgentMachines
  import opened Protocol
  import opened Rely
  import opened Runs
  import opened Session
  import opened Bootstrap
  import opened Text

  /** What a reconcile reads beside the store: the bootstrap secret of the
      Machine, whether the token secret could be stored, and the ClusterDeployment
      reference of the AgentCluster, if it could be looked up. */
  datatype Inputs = Inputs(secret: Secret, tokenRef: Key, tokenStored: bool, cluster: Option<Key>, summaryFails: bool)

  /** How far the allocation part of a reconcile came. `read` is the Agent as the sync
      read it, `reported` as the status report did. */
  datatype Exit =
    | NotReached | BootstrapFailed | AlreadyReady | ClusterUnknown
    | ClusterUnnamed(reported: Option<Agent>) | NoAgentFound(searchFailed: bool) | AddressPanic
    | Completed(data: BootstrapData, read: Option<Agent>, reported: Option<Agent>)

  // ---- The Agent is held --------------------------------------------------------

  /** The Agent is held on, with its label and binding. */
  ghost predicate HeldOn(w: World, w': World, name: string, k: Key) {
    Keeps(w', name, k) && BindingStays(w, w', k) && (LabelOf(w, k) == Some(name) ==> LabelOf(w', k) == Some(name))
  }

  lemma HeldOnJoin(a: World, b: World, c: World, name: string, k: Key)
    requires HeldOn(a, b, name, k) && HeldOn(b, c, name, k)
    ensures HeldOn(a, c, name, k)
  {
  }

  lemma HeldOnLabel(w: World, w': World, name: string, k: Key)
    requires HeldOn(w, w', name, k)
    ensures LabelOf(w, k) == Some(name) ==> LabelOf(w', k) == Some(name)
  {
  }

  lemma HeldOnSame(w: World, name: string, k: Key)
    requires Keeps(w, name, k)
    ensures HeldOn(w, w, name, k)
  {
  }

  lemma HeldOnRelies(w: World, w': World, name: string, k: Key)
    requires Relies(name, w, w') && Keeps(w, name, k)
    ensures HeldOn(w, w', name, k)
  {
    assert KeptOn(w, w', name, k) && AgentLater(w, w', name, k);
  }

  lemma HeldOnRelabel(w: World, name: string, k: Key)
    requires OwnEnabled(w, name, Relabel(k))
    ensures HeldOn(w, OwnApply(w, name, Relabel(k)), name, k)
  {
  }

  lemma HeldStays(w: World, w': World, name: string, k: Key)
    requires HeldOn(w, w', name, k)
    ensures BindingStays(w, w', k)
  {
  }

  lemma AgesSame(w: World)
    ensures Ages(w, w)
  {
  }

  lemma HoldingKeeps(w: World, name: string, given: AgentMachine, agentRef: Option<Key>)
    requires Inv(w) && Reading(w, name, given) && Holding(w, name, given, agentRef)
    ensures Keeps(w, name, agentRef.value)
  {
    var k := agentRef.value;
    if !Backs(w, name, k) { assert RefOk(w, name, k); }
  }

  // ---- The claim ---------------------------------------------------------------

  /** The Agent shows the claim, field by field. */
  ghost predicate ClaimStands(w: World, k: Key, name: string, namespace: string, cluster: Key, data: BootstrapData) {
    && k in w.agents
    && RefLabel(w.agents[k].agent) == Some(name)
    && NamespaceOf(w.agents[k].agent) == Some(namespace)
    && w.agents[k].agent.spec.clusterRef == Some(cluster)
    && Carries(w.agents[k].agent.spec, data)
  }

  lemma ClaimIsShown(w: World, k: Key, a: Agent, name: string, namespace: string, cluster: Key, data: BootstrapData)
    ensures ClaimStands(PutAgent(w, k, Claimed(a, name, namespace, cluster, data)), k, name, namespace, cluster, data)
  {
    ClaimedFields(a, name, namespace, cluster, data);
  }

  lemma ClaimHeldOn(w: World, w': World, k: Key, name: string, namespace: string, cluster: Key, data: BootstrapData)
    requires ClaimStands(w, k, name, namespace, cluster, data) && HeldOn(w, w', name, k)
    ensures ClaimStands(w', k, name, namespace, cluster, data)
  {
  }

  // ---- The sync ----------------------------------------------------------------

  /** The Agent is held on, and its bootstrap data are as before or these. */
  ghost predicate SyncedOn(w: World, w': World, name: string, k: Key, data: BootstrapData) {
    && Keeps(w', name, k) && k in w.agents && k in w'.agents
    && (LabelOf(w, k) == Some(name) ==> LabelOf(w', k) == Some(name))
    && NamespaceOf(w'.agents[k].agent) == NamespaceOf(w.agents[k].agent)
    && w'.agents[k].agent.spec.clusterRef == w.agents[k].agent.spec.clusterRef
    && (Carries(w'.agents[k].agent.spec, data) || BindingStays(w, w', k))
  }

  lemma SyncIsShown(w: World, name: string, k: Key, data: BootstrapData)
    requires OwnEnabled(w, name, Sync(k, data)) && Keeps(w, name, k)
    ensures SyncedOn(w, OwnApply(w, name, Sync(k, data)), name, k, data)
    ensures Carries(OwnApply(w, name, Sync(k, data)).agents[k].agent.spec, data)
  {
    SyncedFields(w.agents[k].agent, data);
  }

  lemma HeldIsSynced(w: World, w': World, name: string, k: Key, data: BootstrapData)
    requires HeldOn(w, w', name, k)
    ensures SyncedOn(w, w', name, k, data)
  {
  }

  lemma SyncedOnJoin(a: World, b: World, c: World, name: string, k: Key, data: BootstrapData)
    requires SyncedOn(a, b, name, k, data) && SyncedOn(b, c, name, k, data)
    ensures SyncedOn(a, c, name, k, data)
  {
  }

  lemma ClaimSyncedOn(w: World, w': World, k: Key, name: string, namespace: string, cluster: Key, data: BootstrapData)
    requires ClaimStands(w, k, name, namespace, cluster, data) && SyncedOn(w, w', name, k, data)
    ensures ClaimStands(w', k, name, namespace, cluster, data)
  {
  }

  /** What a sync decides: either it is needed, or the data are in place. */
  lemma SyncSettles(data: BootstrapData, s: AgentSpec)
    ensures !NeedsSync(data, s) ==> Covered(data, s) && !s.approved
  {
    SyncNeededIff(data, s);
  }

  lemma CarriesCovers(data: BootstrapData, s: AgentSpec)
    ensures Carries(s, data) ==> Covered(data, s)
  {
  }

  /** The Agent had this content at some point between the two states. */
  ghost predicate ReadSince(w: World, w': World, k: Key, a: Agent) {
    exists v | v in w'.history :: w'.history[v] == Snapshot(k, a) && (k in w.agents ==> w.agents[k].version <= v)
  }

  lemma ReadNow(w: World, w': World, k: Key)
    requires Inv(w') && Ages(w, w') && k in w'.agents
    ensures ReadSince(w, w', k, w'.agents[k].agent)
  {
    assert w'.agents[k].version in w'.history;
  }

  lemma ReadSinceLater(w0: World, w: World, w': World, w'': World, k: Key, a: Agent)
    requires Ages(w0, w) && Ages(w', w'') && ReadSince(w, w', k, a)
    ensures ReadSince(w0, w'', k, a)
  {
  }

  /** The data are in place on an Agent that the sync read, all of them if it was
      approved; an Agent that could not be read does not exist. */
  ghost predicate ReadBack(w: World, w': World, k: Key, data: BootstrapData, read: Option<Agent>) {
    && (read.None? ==> !Alive(w', k))
    && (read.Some? ==>
          && ReadSince(w, w', k, read.value) && k in w'.agents
          && Covered(data, w'.agents[k].agent.spec)
          && (read.value.spec.approved ==> Carries(w'.agents[k].agent.spec, data)))
  }

  lemma ReadBackLater(
      w0: World, w: World, w': World, w'': World, name: string, k: Key, data: BootstrapData, read: Option<Agent>)
    requires Ages(w0, w) && Ages(w', w'') && BindingStays(w', w'', k) && ReadBack(w, w', k, data, read)
    ensures ReadBack(w0, w'', k, data, read)
  {
    if read.Some? { ReadSinceLater(w0, w, w', w'', k, read.value); }
  }

  /** Some version of the Agent has an IPv4 address without a slash on an interface with
      carrier. */
  ghost predicate HasBadAddress(w: World, k: Key) {
    exists v | v in w.history :: w.history[v].key == k && BadAddress(w.history[v].agent)
  }

  ghost predicate BadAddress(a: Agent) {
    exists i, j ::
      && 0 <= i < |a.status.inventory.interfaces| && a.status.inventory.interfaces[i].hasCarrier
      && 0 <= j < |a.status.inventory.interfaces[i].ipv4Addresses|
      && Lacks(a.status.inventory.interfaces[i].ipv4Addresses[j], '/')
  }

  lemma BadAddressLater(w: World, w': World, k: Key)
    requires Ages(w, w') && HasBadAddress(w, k)
    ensures HasBadAddress(w', k)
  {
  }

  /** The addresses are those of some version of the Agent, entry by entry. */
  ghost predicate Addressed(w: World, k: Key, addresses: seq<Address>) {
    exists v | v in w.history :: w.history[v].key == k && AddressesFit(w.history[v].agent, addresses)
  }

  lemma SavedIsAddressed(w: World, w': World, name: string, given: AgentMachine, m: Managed)
    requires CanSave(w, name, given, m) && Ages(w, w')
    ensures m.agentRef.Some? && m.addresses != [] ==> Addressed(w', m.agentRef.value, m.addresses)
  {
    hide AddressesFit;
    if m.agentRef.Some? && m.addresses != [] {
      var k := m.agentRef.value;
      var v :| v in w.history && w.history[v].key == k && AddressesOf(w.history[v].agent) == Some(m.addresses);
      AddressesLaw(w.history[v].agent);
      assert v in w'.history && w'.history[v] == w.history[v];
    }
  }

  // ---- The writes ----------------------------------------------------------------

  /** Every claim since `before` is for the cluster, the namespace and the secret that
      the reconcile was given, and so is the data of every sync. */
  ghost predicate WritesFit(namespace: string, inputs: Inputs, before: seq<Act>, after: seq<Act>) {
    forall i | |before| <= i < |after| ::
      && (after[i].Claim? ==>
            && inputs.cluster == Some(after[i].cluster) && after[i].namespace == namespace
            && SecretGives(inputs.secret, inputs.tokenRef, after[i].data))
      && (after[i].Sync? ==> SecretGives(inputs.secret, inputs.tokenRef, after[i].data))
  }

  /** Every Agent claimed since `before` shows its claim. */
  ghost predicate ClaimsStand(w: World, name: string, before: seq<Act>, after: seq<Act>) {
    forall i | |before| <= i < |after| && after[i].Claim? ::
      ClaimStands(w, after[i].agent, name, after[i].namespace, after[i].cluster, after[i].data)
  }

  /** What the allocation part delivers. */
  ghost predicate Delivered(
      name: string, namespace: string, inputs: Inputs, w: World, w': World,
      before: seq<Act>, after: seq<Act>, agentRef: Option<Key>, failed: bool, exit: Exit, clean: bool)
  {
    && before <= after
    && WritesFit(namespace, inputs, before, after)
    && ClaimsStand(w', name, before, after)
    && (exit.AddressPanic? ==> agentRef.Some? && HasBadAddress(w', agentRef.value))
    && (exit.Completed? || exit.ClusterUnnamed? ==> failed || agentRef.None? || LabelOf(w', agentRef.value) == Some(name))
    && (exit.Completed? ==>
          && agentRef.Some? && Keeps(w', name, agentRef.value) && SecretGives(inputs.secret, inputs.tokenRef, exit.data)
          && (exit.reported.Some? ==> ReadSince(w, w', agentRef.value, exit.reported.value))
          && (clean ==>
                && ReadBack(w, w', agentRef.value, exit.data, exit.read)
                && (failed ==> inputs.summaryFails || !Alive(w', agentRef.value))))
  }

  lemma DeliveredNothing(
      name: string, namespace: string, inputs: Inputs, w: World, w': World,
      acts: seq<Act>, after: seq<Act>, agentRef: Option<Key>, failed: bool, exit: Exit, clean: bool)
    requires !exit.AddressPanic? && (exit.ClusterUnnamed? ==> failed || agentRef.None? || LabelOf(w', agentRef.value) == Some(name))
    requires acts <= after && !exit.Completed? && forall i | |acts| <= i < |after| :: !after[i].Claim? && !after[i].Sync?
    ensures Delivered(name, namespace, inputs, w, w', acts, after, agentRef, failed, exit, clean)
  {
  }

  /** Acquiring an Agent delivers at most the claim. */
  lemma DeliveredClaim(
      name: string, namespace: string, inputs: Inputs, data: BootstrapData, w: World, w': World,
      acts: seq<Act>, after: seq<Act>, agentRef: Option<Key>, failed: bool, exit: Exit, clean: bool)
    requires inputs.cluster.Some? && SecretGives(inputs.secret, inputs.tokenRef, data)
    requires exit.NoAgentFound? || (exit.AddressPanic? && agentRef.Some? && HasBadAddress(w', agentRef.value))
    requires after == acts ||
      (agentRef.Some? && after == acts + [Claim(agentRef.value, namespace, inputs.cluster.value, data)]
       && ClaimStands(w', agentRef.value, name, namespace, inputs.cluster.value, data))
    ensures Delivered(name, namespace, inputs, w, w', acts, after, agentRef, failed, exit, clean)
  {
    hide SecretGives, ClaimStands;
  }

  /** The writes of the sync and of the status report. */
  ghost predicate SyncActs(before: seq<Act>, after: seq<Act>, k: Key, data: BootstrapData, wrote: bool) {
    var mid := before + if wrote then [Sync(k, data)] else [];
    after == mid || after == mid + [Relabel(k)]
  }

  /** The sync and the status report after that deliver the data. */
  lemma DeliveredSync(
      name: string, namespace: string, inputs: Inputs, data: BootstrapData, w0: World, w: World, w': World,
      acts: seq<Act>, mid: seq<Act>, after: seq<Act>, k: Key, wrote: bool, failed: bool, exit: Exit, clean: bool)
    requires inputs.cluster.Some? && SecretGives(inputs.secret, inputs.tokenRef, data)
    requires mid == acts ||
      (mid == acts + [Claim(k, namespace, inputs.cluster.value, data)]
       && ClaimStands(w, k, name, namespace, inputs.cluster.value, data))
    requires SyncActs(mid, after, k, data, wrote)
    requires Ages(w0, w) && Ages(w, w') && SyncedOn(w, w', name, k, data) && exit.Completed? && exit.data == data
    requires exit.reported.Some? ==> ReadSince(w, w', k, exit.reported.value)
    requires failed || LabelOf(w', k) == Some(name)
    requires clean ==> ReadBack(w, w', k, data, exit.read) && (failed ==> inputs.summaryFails || !Alive(w', k))
    ensures Delivered(name, namespace, inputs, w0, w', acts, after, Some(k), failed, exit, clean)
  {
    hide SecretGives, ClaimStands, ReadBack, ReadSince, Ages, Carries, Covered;
    AgesSame(w');
    BindingSame(w', k);
    if mid != acts { ClaimSyncedOn(w, w', k, name, namespace, inputs.cluster.value, data); }
    if exit.reported.Some? { ReadSinceLater(w0, w, w', w', k, exit.reported.value); }
    if clean { ReadBackLater(w0, w, w', w', name, k, data, exit.read); }
  }

  lemma BindingSame(w: World, k: Key)
    ensures k in w.agents ==> BindingStays(w, w, k)
  {
  }

  lemma DeliveredWeaker(
      name: string, namespace: string, inputs: Inputs, w: World, w': World,
      before: seq<Act>, after: seq<Act>, agentRef: Option<Key>, failed: bool, exit: Exit, clean: bool, cleaner: bool)
    requires Delivered(name, namespace, inputs, w, w', before, after, agentRef, failed, exit, clean) && (cleaner ==> clean)
    ensures Delivered(name, namespace, inputs, w, w', before, after, agentRef, failed, exit, cleaner)
  {
  }

  /** Seen from an earlier state. */
  lemma DeliveredBefore(
      name: string, namespace: string, inputs: Inputs, w0: World, w: World, w': World,
      before: seq<Act>, after: seq<Act>, agentRef: Option<Key>, failed: bool, exit: Exit, clean: bool)
    requires Delivered(name, namespace, inputs, w, w', before, after, agentRef, failed, exit, clean) && Ages(w0, w)
    ensures Delivered(name, namespace, inputs, w0, w', before, after, agentRef, failed, exit, clean)
  {
    hide SecretGives, WritesFit, ClaimsStand, ReadSince, Ages, Keeps, HasBadAddress;
    AgesSame(w');
    if exit.Completed? {
      var k := agentRef.value;
      if exit.reported.Some? { ReadSinceLater(w0, w, w', w', k, exit.reported.value); }
      if clean && exit.read.Some? { ReadSinceLater(w0, w, w', w', k, exit.read.value); }
    }
  }

  /** A later state, in which the Agents that were kept are held on. */
  lemma DeliveredLater(
      name: string, namespace: string, inputs: Inputs, w0: World, w: World, w': World, w'': World,
      before: seq<Act>, after: seq<Act>, agentRef: Option<Key>, failed: bool, exit: Exit, clean: bool)
    requires Delivered(name, namespace, inputs, w, w', before, after, agentRef, failed, exit, clean)
    requires Ages(w0, w) && Ages(w', w'')
    requires forall k | Keeps(w', name, k) :: StaysBound(w', w'', name, k)
    ensures WritesFit(namespace, inputs, before, after) && ClaimsStand(w'', name, before, after)
    ensures exit.AddressPanic? ==> agentRef.Some? && HasBadAddress(w'', agentRef.value)
    ensures exit.Completed? || exit.ClusterUnnamed? ==>
      failed || agentRef.None? || LabelOf(w'', agentRef.value) == Some(name)
    ensures exit.Completed? ==>
      && agentRef.Some? && SecretGives(inputs.secret, inputs.tokenRef, exit.data)
      && (exit.reported.Some? ==> ReadSince(w0, w'', agentRef.value, exit.reported.value))
      && (clean ==>
            && ReadBack(w0, w'', agentRef.value, exit.data, exit.read)
            && (failed ==> inputs.summaryFails || !Alive(w'', agentRef.value)))
  {
    hide SecretGives, ReadBack, ReadSince, Ages, HasBadAddress;
    if exit.AddressPanic? { BadAddressLater(w', w'', agentRef.value); }
    if agentRef.Some? && LabelOf(w', agentRef.value) == Some(name) { assert Keeps(w', name, agentRef.value); }
    forall i | |before| <= i < |after| && after[i].Claim?
      ensures ClaimStands(w'', after[i].agent, name, after[i].namespace, after[i].cluster, after[i].data)
    {
      assert ClaimStands(w', after[i].agent, name, after[i].namespace, after[i].cluster, after[i].data);
      assert Keeps(w', name, after[i].agent);
      assert StaysBound(w', w'', name, after[i].agent);
    }
    if exit.Completed? {
      var k := agentRef.value;
      assert StaysBound(w', w'', name, k);
      if exit.reported.Some? { ReadSinceLater(w0, w, w', w'', k, exit.reported.value); }
      if clean {
        ReadBackLater(w0, w, w', w'', name, k, exit.data, exit.read);
        DeadLater(w', w'', k);
      }
    }
  }

  lemma DeadLater(w: World, w': World, k: Key)
    requires Ages(w, w') && k in w.agents
    ensures Alive(w', k) ==> Alive(w, k)
  {
  }

  /** Label and binding of the Agent stay. */
  ghost predicate StaysBound(w: World, w': World, name: string, k: Key) {
    BindingStays(w, w', k) && (LabelOf(w, k) == Some(name) ==> LabelOf(w', k) == Some(name))
  }

  // ---- The result -----------------------------------------------------------------

  /** The Agent was approved in every version it had from the first state on. */
  ghost predicate ApprovedSince(w: World, w': World, k: Key) {
    forall v | v in w'.history && w'.history[v].key == k && (k in w.agents ==> w.agents[k].version <= v) ::
      w'.history[v].agent.spec.approved
  }

  /** Pool, token reference and headers of an existing Agent are what the secret gives
      if the Agent was approved all along; if not, it has every part that is set. */
  ghost predicate InPlace(w: World, w': World, k: Key, inputs: Inputs) {
    Alive(w', k) ==>
      exists data | SecretGives(inputs.secret, inputs.tokenRef, data) ::
        && var s := w'.agents[k].agent.spec;
        && Covered(data, s)
        && (ApprovedSince(w, w', k) ==>
              s.machineConfigPool == data.machineConfigPool && s.tokenRef == data.tokenRef && s.httpHeaders == data.httpHeaders)
  }

  lemma ReadBackIsInPlace(w: World, w': World, k: Key, inputs: Inputs, data: BootstrapData, read: Option<Agent>)
    requires SecretGives(inputs.secret, inputs.tokenRef, data) && ReadBack(w, w', k, data, read)
    ensures InPlace(w, w', k, inputs)
  {
    hide SecretGives, Covered;
    if Alive(w', k) && ApprovedSince(w, w', k) {
      var v :| v in w'.history && w'.history[v] == Snapshot(k, read.value) && (k in w.agents ==> w.agents[k].version <= v);
      assert w'.history[v].agent.spec.approved;
    }
  }
}
