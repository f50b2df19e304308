/** The allocation protocol as a state machine: the store of the API server, the
    steps that controllers and environment take on it one API call at a time,
    and the invariant of every run. */
module Protocol {
  import opened Wrappers
  import opened Hub
  import opened AgentEdits
  import opened AgentMachines

  // ---- The store -------------------------------------------------------------

  datatype Stored = Stored(version: nat, alive: bool, agent: Agent)
  datatype Snapshot = Snapshot(key: Key, agent: Agent)

  /** The store of the API server. A deleted Agent stays in `agents` as not alive
      and is never created again. `history` has what every version held.
      `names` and `machineKeys` are the AgentMachine names and Machine keys used
      so far. `unbound` has the AgentMachines that unbound their Agent and did not
      take the delete hook off yet, with the version that the unbind wrote, `done`
      those that took it off. `pausedDeletions` has the AgentMachines that were
      stored paused and deleting at some point. */
  datatype World = World(
    agents: map<Key, Stored>,
    history: map<nat, Snapshot>,
    clock: nat,
    machines: map<Key, Machine>,
    machineKeys: set<Key>,
    ams: map<string, AgentMachine>,
    names: set<string>,
    unbound: map<string, nat>,
    done: set<string>,
    pausedDeletions: set<string>)

  predicate Alive(w: World, k: Key) {
    k in w.agents && w.agents[k].alive
  }

  /** The machine reference label of an Agent, the last one if it is deleted. */
  function LabelOf(w: World, k: Key): Option<string> {
    if k in w.agents then RefLabel(w.agents[k].agent) else None
  }

  function RefOf(w: World, name: string): Option<Key> {
    if name in w.ams then w.ams[name].managed.agentRef else None
  }

  predicate OwnerGone(w: World, am: AgentMachine) {
    OwnerKey(am).Some? && OwnerKey(am).value !in w.machines
  }

  predicate OwnerEarly(w: World, am: AgentMachine) {
    OwnerKey(am).Some? && OwnerKey(am).value in w.machines && Early(w.machines[OwnerKey(am).value])
  }

  predicate OwnerFinished(w: World, am: AgentMachine) {
    OwnerKey(am).Some? && OwnerKey(am).value in w.machines && Finished(w.machines[OwnerKey(am).value])
  }

  predicate Settled(w: World, am: AgentMachine) {
    OwnerGone(w, am) || OwnerFinished(w, am)
  }

  // ---- The steps -------------------------------------------------------------

  /** Why a reconcile takes the delete hook off its Machine. */
  datatype Reason =
    | PausedDeletion
    | NoAgentRef
    | AgentMissing(agent: Key)
    | AgentReleased(agent: Key, version: nat)

  /** The writes of an AgentMachine reconcile. */
  datatype Act =
    | Claim(agent: Key, namespace: string, cluster: Key, data: BootstrapData)
    | Sync(agent: Key, data: BootstrapData)
    | Relabel(agent: Key)
    | Unbind(agent: Key)
    | AddHook(machine: Key)
    | RemoveHook(machine: Key, wrote: bool, reason: Reason)
    | Save(managed: Managed)

  /** One step of a run: a write by the reconcile of one AgentMachine, or a
      change by anybody else. */
  datatype Event =
    | Own(name: string, act: Act)
    | AgentCreated(key: Key, agent: Agent)
    | AgentChanged(key: Key, agent: Agent)
    | AgentDeleted(key: Key)
    | MachineCreated(key: Key, machine: Machine)
    | MachineChanged(key: Key, machine: Machine)
    | MachineGone(key: Key)
    | AMCreated(name: string, am: AgentMachine)
    | AMChanged(name: string, am: AgentMachine)
    | AMGone(name: string)

  function PutAgent(w: World, k: Key, a: Agent): World {
    w.(agents := w.agents[k := Stored(w.clock, true, a)],
       history := w.history[w.clock := Snapshot(k, a)],
       clock := w.clock + 1)
  }

  function AddHookTo(m: Machine): Machine {
    m.(annotations := m.annotations[DELETE_HOOK := ""])
  }

  /** Writing the hook leaves the rest of the Machine alone. */
  lemma HookEdits(m: Machine)
    ensures DELETE_HOOK in AddHookTo(m).annotations && SameExcept(AddHookTo(m).annotations, m.annotations, DELETE_HOOK)
    ensures DELETE_HOOK !in RemoveHookFrom(m).annotations && SameExcept(RemoveHookFrom(m).annotations, m.annotations, DELETE_HOOK)
    ensures AddHookTo(m).(annotations := m.annotations) == m && RemoveHookFrom(m).(annotations := m.annotations) == m
  {
  }

  /** The Machine is being deleted and has no hook: it gets none any more. */
  predicate HookOff(m: Machine) {
    m.deleting && DELETE_HOOK !in m.annotations
  }

  predicate HookGone(w: World, m: Key) {
    m in w.machines ==> DELETE_HOOK !in w.machines[m].annotations
  }

  function RemoveHookFrom(m: Machine): Machine {
    m.(annotations := m.annotations - {DELETE_HOOK})
  }

  /** An unlabelled Agent whose binding to a cluster is reported: one that was
      reserved before Agents were labelled. It is not free. */
  predicate Pinned(a: Agent) {
    RefLabel(a).None? && a.spec.clusterRef.Some? && LastStatus(a.status.conditions, Bound) != Some(False)
  }

  /** The Agent belongs to this AgentMachine: by its label, or by a reference
      that has not been given up. */
  predicate Holds(w: World, name: string, k: Key) {
    LabelOf(w, k) == Some(name) || (RefOf(w, name) == Some(k) && name !in w.unbound && name !in w.done)
  }

  /** The AgentMachine holds the Agent for good: by the label, or by a stored reference
      that a finalizer protects and that has not been given up. */
  predicate Keeps(w: World, name: string, k: Key) {
    LabelOf(w, k) == Some(name) ||
    (k in w.agents && RefOf(w, name) == Some(k) && name in w.names && w.ams[name].managed.finalizer && name !in w.unbound && name !in w.done)
  }

  function NamespaceOf(a: Agent): Option<string> {
    if REF_NAMESPACE in a.annotations then Some(a.annotations[REF_NAMESPACE]) else None
  }

  /** What the controller writes on an Agent, but for the label, is the same. */
  predicate SameBinding(a: Agent, b: Agent) {
    && NamespaceOf(a) == NamespaceOf(b)
    && a.spec.clusterRef == b.spec.clusterRef
    && a.spec.machineConfigPool == b.spec.machineConfigPool
    && a.spec.tokenRef == b.spec.tokenRef && a.spec.httpHeaders == b.spec.httpHeaders
  }

  predicate BindingStays(w: World, w': World, k: Key) {
    k in w.agents && k in w'.agents && SameBinding(w.agents[k].agent, w'.agents[k].agent)
  }

  /** No existing Agent but this one is labelled for the AgentMachine. */
  predicate LabelledOnly(w: World, name: string, k: Key) {
    forall b | b in w.agents && Alive(w, b) && b != k :: LabelOf(w, b) != Some(name)
  }

  /** The label backs a reference from the AgentMachine to this Agent, and to no
      other that exists. */
  predicate Backs(w: World, name: string, k: Key) {
    LabelOf(w, k) == Some(name) && LabelledOnly(w, name, k)
  }

  /** No AgentMachine is between unbinding this Agent and removing its hook. */
  predicate NotBeingReleased(w: World, k: Key) {
    forall n | n in w.unbound :: RefOf(w, n) != Some(k)
  }

  predicate NobodyLabelled(w: World, name: string) {
    forall k | k in w.agents && Alive(w, k) :: LabelOf(w, k) != Some(name)
  }

  /** Agents labelled for the name of an AgentMachine are annotated with its
      namespace or not at all: names are not reused in another namespace. */
  predicate NamespaceFits(w: World, name: string, namespace: string) {
    forall k | k in w.agents && LabelOf(w, k) == Some(name) && REF_NAMESPACE in w.agents[k].agent.annotations ::
      w.agents[k].agent.annotations[REF_NAMESPACE] == namespace
  }

  predicate FromAgent(w: World, k: Key, addresses: seq<Address>) {
    addresses == [] || exists v | v in w.history :: w.history[v].key == k && AddressesOf(w.history[v].agent) == Some(addresses)
  }

  /** No trace of a binding. */
  predicate IsUnbound(a: Agent) {
    RefLabel(a) == None && a.spec.clusterRef == None
  }

  /** Why the hook may go. A host counts as released by a version that is not
      older than the unbind. */
  predicate ReasonHolds(w: World, name: string, r: Reason) {
    match r
    case PausedDeletion => name in w.pausedDeletions && (name in w.ams ==> w.ams[name].deleting)
    case NoAgentRef => RefOf(w, name) == None
    case AgentMissing(k) => !Alive(w, k) && (name in w.ams ==> RefOf(w, name) == Some(k))
    case AgentReleased(k, v) =>
      && v in w.history && w.history[v].key == k
      && IsUnbound(w.history[v].agent) && Released(w.history[v].agent.status.state)
      && (name in w.ams ==> RefOf(w, name) == Some(k) && name in w.unbound && w.unbound[name] <= v)
  }

  /** The finalizer is kept on an AgentMachine with an Agent until its hook is
      removed, its Machine is finished, or its Machine is gone. */
  predicate MayStore(w: World, name: string, before: Managed, after: Managed) {
    && name in w.ams
    && (after.finalizer || (!before.finalizer && after.agentRef.None?)
        || name in w.done || Settled(w, w.ams[name]))
  }

  /** What a claim meets: a free, valid Agent, and an AgentMachine without one. */
  predicate ClaimMeets(w: World, name: string, k: Key, ns: string) {
    && name in w.names && Alive(w, k)
    && RefLabel(w.agents[k].agent) == None && IsValid(w.agents[k].agent)
    && (name in w.ams ==> RefOf(w, name) == None && ns == w.ams[name].namespace)
    && NobodyLabelled(w, name)
  }

  predicate ClaimEnabled(w: World, name: string, k: Key, ns: string) {
    ClaimMeets(w, name, k, ns) && NotBeingReleased(w, k)
  }

  predicate UnbindEnabled(w: World, name: string, k: Key) {
    && Alive(w, k) && RefOf(w, name) == Some(k) && name !in w.done
    && OwnerKey(w.ams[name]).Some? && !OwnerEarly(w, w.ams[name])
  }

  function UnbindApply(w: World, name: string, k: Key): World
    requires UnbindEnabled(w, name, k)
  {
    PutAgent(w, k, Unbound(w.agents[k].agent)).(unbound := w.unbound[name := w.clock])
  }

  predicate RemoveHookEnabled(w: World, name: string, m: Key, wrote: bool, reason: Reason) {
    && name in w.names
    && (if wrote then m in w.machines && DELETE_HOOK in w.machines[m].annotations else HookGone(w, m))
    && (!reason.PausedDeletion? && m in w.machines ==> !Early(w.machines[m]))
    && (name in w.ams ==> OwnerKey(w.ams[name]) == Some(m))
    && ReasonHolds(w, name, reason)
  }

  function RemoveHookApply(w: World, name: string, m: Key, wrote: bool): World
    requires wrote ==> m in w.machines
  {
    w.(machines := if wrote then w.machines[m := RemoveHookFrom(w.machines[m])] else w.machines,
       unbound := w.unbound - {name}, done := w.done + {name})
  }

  /** The store after a patch: without a finalizer a deleted object disappears. */
  function Patched(w: World, name: string, after: Managed): World
    requires name in w.ams
  {
    if w.ams[name].deleting && !after.finalizer then w.(ams := w.ams - {name})
    else w.(ams := w.ams[name := w.ams[name].(managed := after)])
  }

  predicate SaveEnabled(w: World, name: string, after: Managed) {
    && name in w.ams
    && var before := w.ams[name].managed;
    && Consistent(after)
    && (before.agentRef == after.agentRef
        || (before.agentRef.None? && after.agentRef.Some? && Backs(w, name, after.agentRef.value)
            && OwnerKey(w.ams[name]).Some?))
    && (after.agentRef.Some? ==> FromAgent(w, after.agentRef.value, after.addresses))
    && MayStore(w, name, before, after)
  }

  function SaveApply(w: World, name: string, after: Managed): World
    requires SaveEnabled(w, name, after)
  {
    Patched(w, name, after)
  }

  predicate OwnEnabled(w: World, name: string, act: Act) {
    match act
    case Claim(k, ns, _, _) => ClaimEnabled(w, name, k, ns)
    case Sync(k, _) => Alive(w, k) && Holds(w, name, k)
    case Relabel(k) => Alive(w, k) && Holds(w, name, k)
    case Unbind(k) => UnbindEnabled(w, name, k)
    case AddHook(m) => m in w.machines && !w.machines[m].deleting && DELETE_HOOK !in w.machines[m].annotations
    case RemoveHook(m, wrote, reason) => RemoveHookEnabled(w, name, m, wrote, reason)
    case Save(after) => SaveEnabled(w, name, after)
  }

  function OwnApply(w: World, name: string, act: Act): World
    requires OwnEnabled(w, name, act)
  {
    match act
    case Claim(k, ns, cluster, data) => PutAgent(w, k, Claimed(w.agents[k].agent, name, ns, cluster, data))
    case Sync(k, data) => PutAgent(w, k, Synced(w.agents[k].agent, data))
    case Relabel(k) => PutAgent(w, k, Relabelled(w.agents[k].agent, name))
    case Unbind(k) => UnbindApply(w, name, k)
    case AddHook(m) => w.(machines := w.machines[m := AddHookTo(w.machines[m])])
    case RemoveHook(m, wrote, _) => RemoveHookApply(w, name, m, wrote)
    case Save(after) => SaveApply(w, name, after)
  }

  predicate SameOwnership(a: Agent, b: Agent) {
    RefLabel(a) == RefLabel(b) && SameBinding(a, b)
  }

  predicate Enabled(w: World, e: Event) {
    match e
    case Own(name, act) => OwnEnabled(w, name, act)
    case AgentCreated(k, a) => k !in w.agents && RefLabel(a).None? && REF_NAMESPACE !in a.annotations
    case AgentChanged(k, a) =>
      Alive(w, k) && SameOwnership(w.agents[k].agent, a) && (Pinned(w.agents[k].agent) ==> Pinned(a))
    case AgentDeleted(k) => Alive(w, k)
    case MachineCreated(k, m) => k !in w.machineKeys
    case MachineChanged(k, m) =>
      && k in w.machines
      && (w.machines[k].deleting ==> m.deleting)
      && (HookOff(w.machines[k]) ==> DELETE_HOOK !in m.annotations)
      && (Early(m) ==> Early(w.machines[k])) && (Finished(w.machines[k]) ==> Finished(m))
    case MachineGone(k) => k in w.machines
    case AMCreated(name, am) =>
      name !in w.names && am.managed == FRESH && !am.deleting && NamespaceFits(w, name, am.namespace)
    case AMChanged(name, am) =>
      && name in w.ams
      && var old_ := w.ams[name];
      && am.namespace == old_.namespace && am.managed == old_.managed
      && (OwnerKey(old_).Some? ==> OwnerKey(am) == OwnerKey(old_))
      && (old_.deleting ==> am.deleting) && (am.deleting ==> am.managed.finalizer)
    case AMGone(name) => name in w.ams && !w.ams[name].managed.finalizer
  }

  function KeySet(k: Option<Key>): set<Key> {
    if k.Some? then {k.value} else {}
  }

  function Apply(w: World, e: Event): World
    requires Enabled(w, e)
  {
    match e
    case Own(name, act) => OwnApply(w, name, act)
    case AgentCreated(k, a) => PutAgent(w, k, a)
    case AgentChanged(k, a) => PutAgent(w, k, a)
    case AgentDeleted(k) => w.(agents := w.agents[k := w.agents[k].(alive := false)])
    case MachineCreated(k, m) => w.(machines := w.machines[k := m], machineKeys := w.machineKeys + {k})
    case MachineChanged(k, m) => w.(machines := w.machines[k := m])
    case MachineGone(k) => w.(machines := w.machines - {k})
    case AMCreated(name, am) =>
      w.(ams := w.ams[name := am], names := w.names + {name}, machineKeys := w.machineKeys + KeySet(OwnerKey(am)))
    case AMChanged(name, am) =>
      w.(ams := w.ams[name := am], machineKeys := w.machineKeys + KeySet(OwnerKey(am)),
         pausedDeletions := w.pausedDeletions + if am.paused && am.deleting then {name} else {})
    case AMGone(name) => w.(ams := w.ams - {name})
  }

  // ---- The invariant -----------------------------------------------------------

  /** A version stands for one content, and the store holds recorded versions. */
  ghost predicate HistoryOk(w: World) {
    && (forall v | v in w.history :: v < w.clock && w.history[v].key in w.agents)
    && (forall k | k in w.agents ::
         w.agents[k].version in w.history && w.history[w.agents[k].version] == Snapshot(k, w.agents[k].agent))
  }

  /** At most one existing Agent is labelled for an AgentMachine. */
  ghost predicate LabelsUnique(w: World) {
    forall j, k | Alive(w, j) && Alive(w, k) && LabelOf(w, j).Some? && LabelOf(w, j) == LabelOf(w, k) :: j == k
  }

  /** A referenced Agent is labelled for its holder, or pinned to it; while it is
      being released it shows no binding, in a version that the unbind wrote or a
      later one. */
  ghost predicate RefOk(w: World, name: string, k: Key) {
    && k in w.agents
    && (name !in w.done && name in w.unbound ==> IsUnbound(w.agents[k].agent) && w.unbound[name] <= w.agents[k].version)
    && (name !in w.done && name !in w.unbound ==> LabelOf(w, k) == Some(name) || Pinned(w.agents[k].agent))
    && LabelledOnly(w, name, k)
  }

  ghost predicate MachineOk(w: World, name: string, am: AgentMachine) {
    && name in w.names
    && Consistent(am.managed)
    && (am.deleting ==> am.managed.finalizer)
    && (am.deleting && am.paused ==> name in w.pausedDeletions)
    && KeySet(OwnerKey(am)) <= w.machineKeys
    && (am.managed.agentRef.Some? ==>
          && OwnerKey(am).Some?
          && FromAgent(w, am.managed.agentRef.value, am.managed.addresses)
          && (am.managed.finalizer || name in w.done || Settled(w, am)))
    && (name in w.unbound ==> am.managed.agentRef.Some? && OwnerKey(am).Some? && !OwnerEarly(w, am))
  }

  ghost predicate RefsOk(w: World) {
    forall n | n in w.ams && RefOf(w, n).Some? :: RefOk(w, n, RefOf(w, n).value)
  }

  /** No two AgentMachines that have not given up their Agent share one. */
  ghost predicate Exclusive(w: World) {
    forall m, n | m in w.ams && n in w.ams && m !in w.done && n !in w.done && RefOf(w, m).Some? && RefOf(w, m) == RefOf(w, n) :: m == n
  }

  ghost predicate AnnotationsOk(w: World) {
    forall k | k in w.agents && REF_NAMESPACE in w.agents[k].agent.annotations :: LabelOf(w, k).Some?
  }

  ghost predicate Inv(w: World) {
    && HistoryOk(w)
    && LabelsUnique(w)
    && RefsOk(w)
    && Exclusive(w)
    && AnnotationsOk(w)
    && (forall n | n in w.ams :: MachineOk(w, n, w.ams[n]))
    && w.unbound.Keys !! w.done && w.unbound.Keys <= w.names && w.done <= w.names
    && w.machines.Keys <= w.machineKeys
  }

  /** The unbind of an AgentMachine is recorded alike. */
  predicate SameUnbind(w: World, w': World, name: string) {
    (name in w'.unbound <==> name in w.unbound) && (name in w.unbound && name in w'.unbound ==> w'.unbound[name] == w.unbound[name])
  }

  /** A step that leaves Agents as they are, except that some may be deleted. */
  predicate AgentsKept(w: World, w': World) {
    && w'.agents.Keys == w.agents.Keys
    && (forall k | k in w.agents :: w'.agents[k].agent == w.agents[k].agent && w'.agents[k].version == w.agents[k].version)
    && (forall k | k in w.agents :: w'.agents[k].alive ==> w.agents[k].alive)
    && w'.history == w.history && w'.clock == w.clock
  }
}
