/** The objects of the hub cluster that the controllers read and write.
    Each is a value: what one version of the object holds. */
module Hub {
  import opened Wrappers

  const REF_LABEL := "agentMachineRef"
  const REF_NAMESPACE := "agentMachineRefNamespace"
  const DELETE_HOOK := "pre-terminate.delete.hook.machine.cluster.x-k8s.io/agentmachine"
  const WAITING_FOR_HOOK := "WaitingForPreTerminateHook"
  const MACHINE_API_VERSIONS: set<string> := {"cluster.x-k8s.io/v1beta2", "cluster.x-k8s.io/v1beta1"}

  datatype Key = Key(namespace: string, name: string)

  datatype Status = True | False | Unknown
  datatype Condition<T> = Condition(kind: T, status: Status, reason: string)

  // ---- Agents -------------------------------------------------------------

  datatype AgentConditionType =
    | Bound | Connected | Validated | SpecSynced | RequirementsMet | Installed
    | OtherAgentCondition(text: string)

  datatype HostState =
    | DiscoveringUnbound | KnownUnbound | DisconnectedUnbound | InsufficientUnbound
    | DisabledUnbound | UnbindingPendingUserAction | Error
    | OtherState(text: string)

  datatype Interface = Interface(hasCarrier: bool, ipv4Addresses: seq<string>)
  datatype Inventory = Inventory(hostname: string, interfaces: seq<Interface>)

  datatype AgentSpec = AgentSpec(
    clusterRef: Option<Key>,
    role: string,
    hostname: string,
    machineConfigPool: string,
    approved: bool,
    tokenRef: Option<Key>,
    httpHeaders: map<string, string>)

  datatype AgentStatus = AgentStatus(
    conditions: seq<Condition<AgentConditionType>>,
    state: HostState,
    inventory: Inventory)

  datatype Agent = Agent(
    labels: map<string, string>,
    annotations: map<string, string>,
    spec: AgentSpec,
    status: AgentStatus)

  function RefLabel(a: Agent): Option<string> {
    if REF_LABEL in a.labels then Some(a.labels[REF_LABEL]) else None
  }

  /** The seven states in which a host counts as given back. */
  predicate Released(s: HostState) {
    !s.OtherState?
  }

  lemma ReleasedStates(s: HostState)
    ensures Released(s) <==> s in {
      DiscoveringUnbound, KnownUnbound, DisconnectedUnbound, InsufficientUnbound, DisabledUnbound,
      UnbindingPendingUserAction, Error}
  {
  }

  // ---- Label selectors ----------------------------------------------------

  datatype Requirement =
    | In(key: string, values: set<string>)
    | NotIn(key: string, values: set<string>)
    | Exists(key: string)
    | DoesNotExist(key: string)

  datatype Selector = Requirements(all: seq<Requirement>) | Malformed

  predicate Meets(r: Requirement, labels: map<string, string>) {
    match r
    case In(k, vs) => k in labels && labels[k] in vs
    case NotIn(k, vs) => k !in labels || labels[k] !in vs
    case Exists(k) => k in labels
    case DoesNotExist(k) => k !in labels
  }

  /** An absent selector matches everything; a malformed one nothing. */
  predicate Matches(s: Option<Selector>, labels: map<string, string>) {
    s.None? || (s.value.Requirements? && forall r | r in s.value.all :: Meets(r, labels))
  }

  /** A requirement asks for a label with one of the values, or for any; the other two
      kinds ask for the opposite. */
  lemma MeetsMeans(key: string, values: set<string>, labels: map<string, string>)
    ensures Meets(In(key, values), labels) <==> exists v | v in values :: (key, v) in labels.Items
    ensures Meets(NotIn(key, values), labels) <==> !Meets(In(key, values), labels)
    ensures Meets(Exists(key), labels) <==> exists v :: (key, v) in labels.Items
    ensures Meets(DoesNotExist(key), labels) <==> !Meets(Exists(key), labels)
  {
    if key in labels { assert (key, labels[key]) in labels.Items; }
  }

  // ---- Machines -----------------------------------------------------------

  /** A Cluster API Machine: its annotations, whether it is being deleted, the
      reason of its Deleting condition and the status of its v1beta1
      hook-succeeded condition. */
  datatype Machine = Machine(
    annotations: map<string, string>,
    deleting: bool,
    deletingReason: Option<string>,
    hookSucceeded: Option<Status>)

  /** Deletion has not come as far as the hook. */
  predicate Early(m: Machine) {
    m.deletingReason != Some(WAITING_FOR_HOOK) && m.hookSucceeded == None
  }

  /** The hook has been processed. */
  predicate Finished(m: Machine) {
    m.deletingReason != Some(WAITING_FOR_HOOK) && m.hookSucceeded == Some(True)
  }

  // ---- AgentMachines ------------------------------------------------------

  datatype MachineConditionType =
    | Ready | AgentReserved | AgentSpecSynced | AgentValidated | AgentRequirementsMet | AgentInstalled
    | OtherMachineCondition(text: string)

  datatype AddressType = ExternalIP | InternalDNS
  datatype Address = Address(kind: AddressType, address: string)

  datatype OwnerRef = OwnerRef(apiVersion: string, kind: string, name: string)

  /** What the controller itself writes on an AgentMachine. */
  datatype Managed = Managed(
    finalizer: bool,
    providerID: Option<string>,
    ready: bool,
    agentRef: Option<Key>,
    addresses: seq<Address>,
    conditions: seq<Condition<MachineConditionType>>)

  datatype AgentMachine = AgentMachine(
    namespace: string,
    owners: seq<OwnerRef>,
    selector: Option<Selector>,
    paused: bool,
    deleting: bool,
    managed: Managed)

  predicate IsMachineOwner(o: OwnerRef) {
    o.kind == "Machine" && o.apiVersion in MACHINE_API_VERSIONS
  }

  /** The Machine that owns an AgentMachine: the first owner of that kind. */
  function MachineKey(namespace: string, owners: seq<OwnerRef>): Option<Key> {
    if owners == [] then None
    else if IsMachineOwner(owners[0]) then Some(Key(namespace, owners[0].name))
    else MachineKey(namespace, owners[1..])
  }

  /** It is the first owner of kind Machine with one of the two API versions, in the
      namespace of the AgentMachine; without such an owner there is none. */
  lemma {:induction false} FirstMachineOwner(namespace: string, owners: seq<OwnerRef>, i: nat)
    requires i <= |owners|
    requires forall j | 0 <= j < i ::
      !(owners[j].kind == "Machine" && owners[j].apiVersion in {"cluster.x-k8s.io/v1beta2", "cluster.x-k8s.io/v1beta1"})
    requires i < |owners| ==>
      owners[i].kind == "Machine" && owners[i].apiVersion in {"cluster.x-k8s.io/v1beta2", "cluster.x-k8s.io/v1beta1"}
    ensures MachineKey(namespace, owners) == if i == |owners| then None else Some(Key(namespace, owners[i].name))
    decreases i
  {
    if i > 0 {
      FirstMachineOwner(namespace, owners[1..], i - 1);
    }
  }

  function OwnerKey(am: AgentMachine): Option<Key> {
    MachineKey(am.namespace, am.owners)
  }

  const FRESH := Managed(false, None, false, None, [], [])
}
