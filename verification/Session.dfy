/** What the reconcile of an AgentMachine knows about the store from its own
    reads, and why that stays true while others take steps. */
module Session {
  import opened Wrappers
  import opened Hub
  import opened AgentEdits
  import opened AgentMachines
  import opened Protocol
  import opened Rely
  import opened ApiServer

  /** The stored AgentMachine still has what the reconcile read, or is gone. */
  ghost predicate Reading(w: World, name: string, given: AgentMachine) {
    && name in w.names
    && (name in w.ams ==> SameMachine(given, w.ams[name]))
    && (given.managed.finalizer ==> name in w.ams)
    && KeySet(OwnerKey(given)) <= w.machineKeys
    && Consistent(given.managed)
    && (given.deleting ==> given.managed.finalizer)
    && (given.deleting && given.paused ==> name in w.pausedDeletions)
    && (given.managed.agentRef.Some? ==>
          && OwnerKey(given).Some?
          && FromAgent(w, given.managed.agentRef.value, given.managed.addresses)
          && (given.managed.finalizer || name in w.done || Settled(w, given)))
  }

  lemma StartReading(w: World, name: string)
    requires Inv(w) && name in w.ams
    ensures Reading(w, name, w.ams[name]) && CanSave(w, name, w.ams[name], w.ams[name].managed)
  {
    assert MachineOk(w, name, w.ams[name]);
  }

  /** An AgentMachine that gave up its Agent has a Machine that shows it. */
  ghost predicate Settling(w: World, name: string, given: AgentMachine) {
    && (name in w.done ==> Settled(w, given))
    && (name in w.unbound ==> OwnerKey(given).Some? && !OwnerEarly(w, given))
  }

  ghost predicate SettledIfDone(w: World, name: string) {
    name in w.ams && name in w.done ==> Settled(w, w.ams[name])
  }

  lemma StartSettling(w: World, name: string)
    requires Inv(w) && name in w.ams && SettledIfDone(w, name)
    ensures Settling(w, name, w.ams[name])
  {
    assert MachineOk(w, name, w.ams[name]);
  }

  lemma SettlingStays(w: World, w': World, name: string, given: AgentMachine)
    requires Relies(name, w, w') && KeySet(OwnerKey(given)) <= w.machineKeys && Settling(w, name, given)
    ensures Settling(w', name, given)
  {
    if name in w.done { SettledStays(w, w', name, given); }
    if name in w.unbound { assert MachineLater(w, w', OwnerKey(given).value); }
  }

  lemma SettledIfDoneStays(w: World, w': World, name: string)
    requires Relies(name, w, w') && Inv(w) && SettledIfDone(w, name)
    ensures SettledIfDone(w', name)
  {
    if name in w'.ams && name in w'.done {
      assert name in w.ams && SameMachine(w.ams[name], w'.ams[name]);
      assert MachineOk(w, name, w.ams[name]);
      SettledStays(w, w', name, w.ams[name]);
    }
  }

  /** The Machine has not gone back from what the reconcile read. */
  ghost predicate MachineSeen(w: World, key: Key, m: Machine) {
    && key in w.machineKeys
    && (key in w.machines ==>
          && (Early(w.machines[key]) ==> Early(m)) && (Finished(m) ==> Finished(w.machines[key]))
          && (m.deleting ==> w.machines[key].deleting) && (HookOff(m) ==> HookOff(w.machines[key])))
  }

  /** The reference in memory is the stored one, or is backed by the label. */
  ghost predicate Backed(w: World, name: string, given: AgentMachine, agentRef: Option<Key>) {
    || agentRef == given.managed.agentRef
    || (given.managed.agentRef.None? && agentRef.Some? && Backs(w, name, agentRef.value) && OwnerKey(given).Some?)
  }

  /** The object in memory may be written back. */
  ghost predicate CanSave(w: World, name: string, given: AgentMachine, m: Managed) {
    && Consistent(m)
    && Backed(w, name, given, m.agentRef)
    && (m.agentRef.Some? ==> FromAgent(w, m.agentRef.value, m.addresses))
    && (m.finalizer || (!given.managed.finalizer && m.agentRef.None?) || name in w.done || Settled(w, given))
  }

  lemma SaveIsEnabled(w: World, name: string, given: AgentMachine, m: Managed)
    requires Reading(w, name, given) && CanSave(w, name, given, m) && name in w.ams
    ensures SaveEnabled(w, name, m)
  {
  }

  /** The reconcile holds the Agent it references in memory. */
  ghost predicate Holding(w: World, name: string, given: AgentMachine, agentRef: Option<Key>) {
    && agentRef.Some? && Backed(w, name, given, agentRef)
    && name !in w.unbound && name !in w.done
    && (given.managed.agentRef.Some? ==> given.managed.finalizer)
  }

  lemma HoldingHolds(w: World, name: string, given: AgentMachine, agentRef: Option<Key>)
    requires Reading(w, name, given) && Holding(w, name, given, agentRef)
    ensures Holds(w, name, agentRef.value)
  {
  }

  // ---- While others take steps ----------------------------------------------

  lemma FromAgentStays(w: World, w': World, k: Key, addresses: seq<Address>)
    requires HistoryGrows(w, w') && FromAgent(w, k, addresses)
    ensures FromAgent(w', k, addresses)
  {
  }

  lemma SettledStays(w: World, w': World, name: string, given: AgentMachine)
    requires Relies(name, w, w') && KeySet(OwnerKey(given)) <= w.machineKeys && Settled(w, given)
    ensures Settled(w', given)
  {
    assert MachineLater(w, w', OwnerKey(given).value);
  }

  lemma ReadingStays(w: World, w': World, name: string, given: AgentMachine)
    requires Relies(name, w, w') && Reading(w, name, given)
    ensures Reading(w', name, given)
  {
    if given.managed.agentRef.Some? {
      FromAgentStays(w, w', given.managed.agentRef.value, given.managed.addresses);
      if Settled(w, given) { SettledStays(w, w', name, given); }
    }
  }

  lemma MachineSeenStays(w: World, w': World, name: string, key: Key, m: Machine)
    requires Relies(name, w, w') && MachineSeen(w, key, m)
    ensures MachineSeen(w', key, m)
  {
    assert MachineLater(w, w', key);
  }

  lemma BacksStays(w: World, w': World, name: string, k: Key)
    requires Relies(name, w, w') && Backs(w, name, k)
    ensures Backs(w', name, k)
  {
    assert k in w.agents && AgentLater(w, w', name, k);
    forall b | b in w'.agents && Alive(w', b) && b != k ensures LabelOf(w', b) != Some(name) {
      assert b in w.agents ==> AgentLater(w, w', name, b);
    }
  }

  lemma NobodyLabelledStays(w: World, w': World, name: string)
    requires Relies(name, w, w') && NobodyLabelled(w, name)
    ensures NobodyLabelled(w', name)
  {
    forall b | b in w'.agents && Alive(w', b) ensures LabelOf(w', b) != Some(name) {
      assert b in w.agents ==> AgentLater(w, w', name, b);
    }
  }

  lemma CanSaveStays(w: World, w': World, name: string, given: AgentMachine, m: Managed)
    requires Relies(name, w, w') && Reading(w, name, given) && CanSave(w, name, given, m)
    ensures CanSave(w', name, given, m)
  {
    if m.agentRef.Some? {
      FromAgentStays(w, w', m.agentRef.value, m.addresses);
      if Backs(w, name, m.agentRef.value) { BacksStays(w, w', name, m.agentRef.value); }
    }
    if Settled(w, given) { SettledStays(w, w', name, given); }
  }

  lemma HoldingStays(w: World, w': World, name: string, given: AgentMachine, agentRef: Option<Key>)
    requires Relies(name, w, w') && Reading(w, name, given) && Holding(w, name, given, agentRef)
    ensures Holding(w', name, given, agentRef)
  {
    if Backs(w, name, agentRef.value) { BacksStays(w, w', name, agentRef.value); }
  }

  lemma ReasonStays(w: World, w': World, name: string, given: AgentMachine, r: Reason)
    requires Relies(name, w, w') && Reading(w, name, given) && ReasonHolds(w, name, r)
    requires r.AgentMissing? ==> r.agent in w.agents
    ensures ReasonHolds(w', name, r)
  {
    ReadingStays(w, w', name, given);
    if r.AgentMissing? { assert AgentLater(w, w', name, r.agent); }
  }

  // ---- After the reconcile's own steps -----------------------------------------

  /** A reconcile's own writes, other than storing the AgentMachine, keep what it
      read and what it may store. An unbind needs the reference to be stored. */
  lemma OwnKeeps(w: World, name: string, act: Act, given: AgentMachine, m: Managed)
    requires Inv(w) && OwnEnabled(w, name, act) && !act.Save?
    requires Reading(w, name, given) && CanSave(w, name, given, m)
    requires act.Unbind? || act.Claim? ==> m.agentRef == given.managed.agentRef
    ensures Reading(OwnApply(w, name, act), name, given)
    ensures CanSave(OwnApply(w, name, act), name, given, m)
  {
    if act.AddHook? || act.RemoveHook? {
      HookWriteKeeps(w, name, act, given, m);
    } else {
      AgentWriteKeeps(w, name, act, given, m);
    }
  }

  lemma HookWriteKeeps(w: World, name: string, act: Act, given: AgentMachine, m: Managed)
    requires OwnEnabled(w, name, act) && (act.AddHook? || act.RemoveHook?)
    requires Reading(w, name, given) && CanSave(w, name, given, m)
    ensures Reading(OwnApply(w, name, act), name, given)
    ensures CanSave(OwnApply(w, name, act), name, given, m)
  {
    var w' := OwnApply(w, name, act);
    assert forall j :: Alive(w', j) == Alive(w, j) && LabelOf(w', j) == LabelOf(w, j);
    assert Settled(w', given) == Settled(w, given);
  }

  lemma AgentWriteKeeps(w: World, name: string, act: Act, given: AgentMachine, m: Managed)
    requires Inv(w) && OwnEnabled(w, name, act) && (act.Claim? || act.Sync? || act.Relabel? || act.Unbind?)
    requires Reading(w, name, given) && CanSave(w, name, given, m)
    requires act.Unbind? || act.Claim? ==> m.agentRef == given.managed.agentRef
    ensures Reading(OwnApply(w, name, act), name, given)
    ensures CanSave(OwnApply(w, name, act), name, given, m)
  {
    hide Inv, OwnEnabled, OwnApply, CanSave, Reading;
    AgentWriteFrame(w, name, act, given);
    WriteKeepsReading(w, OwnApply(w, name, act), name, given);
    WriteKeepsCanSave(w, name, act, given, m);
  }

  /** What a write to an Agent leaves alone. */
  ghost predicate AgentsOnly(w: World, w': World) {
    && HistoryGrows(w, w')
    && w'.names == w.names && w'.ams == w.ams && w'.machines == w.machines && w'.machineKeys == w.machineKeys
    && w'.done == w.done && w'.pausedDeletions == w.pausedDeletions
  }

  lemma AgentWriteFrame(w: World, name: string, act: Act, given: AgentMachine)
    requires Inv(w) && OwnEnabled(w, name, act) && (act.Claim? || act.Sync? || act.Relabel? || act.Unbind?)
    ensures AgentsOnly(w, OwnApply(w, name, act))
  {
  }

  lemma WriteKeepsReading(w: World, w': World, name: string, given: AgentMachine)
    requires AgentsOnly(w, w') && Reading(w, name, given)
    ensures Reading(w', name, given)
  {
    assert Settled(w', given) == Settled(w, given);
    if given.managed.agentRef.Some? {
      FromAgentStays(w, w', given.managed.agentRef.value, given.managed.addresses);
    }
  }

  lemma WriteKeepsCanSave(w: World, name: string, act: Act, given: AgentMachine, m: Managed)
    requires OwnEnabled(w, name, act) && (act.Claim? || act.Sync? || act.Relabel? || act.Unbind?)
    requires AgentsOnly(w, OwnApply(w, name, act)) && Reading(w, name, given) && CanSave(w, name, given, m)
    requires act.Unbind? || act.Claim? ==> m.agentRef == given.managed.agentRef
    ensures CanSave(OwnApply(w, name, act), name, given, m)
  {
    var w' := OwnApply(w, name, act);
    assert Settled(w', given) == Settled(w, given);
    if m.agentRef.Some? {
      FromAgentStays(w, w', m.agentRef.value, m.addresses);
      if Backs(w, name, m.agentRef.value) && m.agentRef != given.managed.agentRef {
        BacksOwn(w, name, act, m.agentRef.value);
      }
    }
  }

  lemma BacksOwn(w: World, name: string, act: Act, k: Key)
    requires OwnEnabled(w, name, act) && (act.Sync? || act.Relabel?) && Backs(w, name, k)
    requires RefOf(w, name) == None || name !in w.ams
    ensures Backs(OwnApply(w, name, act), name, k)
  {
    var w' := OwnApply(w, name, act);
    assert act.agent == k;
    assert forall j | j != k :: Alive(w', j) == Alive(w, j) && LabelOf(w', j) == LabelOf(w, j);
  }
}
