/** What the reconcile of one AgentMachine may rely on while everybody else
    takes steps. */
module Rely {
  import opened Wrappers
  import opened Hub
  import opened AgentEdits
  import opened AgentMachines
  import opened Protocol

  /** A step that the reconcile of `name` does not take itself. */
  predicate Foreign(name: string, e: Event) {
    !(e.Own? && e.name == name)
  }

  ghost predicate SameMachine(a: AgentMachine, b: AgentMachine) {
    && a.managed == b.managed && a.namespace == b.namespace
    && (OwnerKey(a).Some? ==> OwnerKey(b) == OwnerKey(a))
    && (a.deleting ==> b.deleting)
  }

  /** A Machine is not recreated and does not go back in its deletion. */
  ghost predicate MachineLater(w: World, w': World, k: Key) {
    && (k !in w.machines ==> k !in w'.machines)
    && (k in w.machines && k in w'.machines ==>
          && (Early(w'.machines[k]) ==> Early(w.machines[k])) && (Finished(w.machines[k]) ==> Finished(w'.machines[k]))
          && (w.machines[k].deleting ==> w'.machines[k].deleting)
          && (HookOff(w.machines[k]) ==> HookOff(w'.machines[k])))
  }

  ghost predicate AgentLater(w: World, w': World, name: string, k: Key) {
    && k in w'.agents && (Alive(w', k) ==> Alive(w, k)) && (k in w.agents ==> w.agents[k].version <= w'.agents[k].version)
    && (LabelOf(w', k) == Some(name) <==> LabelOf(w, k) == Some(name))
  }

  /** An Agent that is kept is kept on, with the same binding. */
  ghost predicate KeptOn(w: World, w': World, name: string, k: Key) {
    Keeps(w', name, k) && BindingStays(w, w', k)
  }

  ghost predicate HistoryGrows(w: World, w': World) {
    forall v | v in w.history :: v in w'.history && w'.history[v] == w.history[v]
  }

  ghost predicate Relies(name: string, w: World, w': World) {
    && w.names <= w'.names && w.machineKeys <= w'.machineKeys
    && SameUnbind(w, w', name)
    && (name in w'.done <==> name in w.done)
    && (name in w.pausedDeletions ==> name in w'.pausedDeletions)
    && (name in w.names && name in w'.ams ==> name in w.ams && SameMachine(w.ams[name], w'.ams[name]))
    && (name in w.names && name in w.ams && w.ams[name].managed.finalizer ==> name in w'.ams)
    && (forall k | k in w.agents :: AgentLater(w, w', name, k))
    && (forall k | k in w'.agents && k !in w.agents :: LabelOf(w', k) != Some(name))
    && (forall k | Keeps(w, name, k) :: KeptOn(w, w', name, k))
    && HistoryGrows(w, w')
    && (forall k | k in w.machineKeys :: MachineLater(w, w', k))
  }

  lemma ReliesReflexive(name: string, w: World)
    ensures Relies(name, w, w)
  {
  }

  lemma ReliesTransitive(name: string, a: World, b: World, c: World)
    requires Relies(name, a, b) && Relies(name, b, c)
    ensures Relies(name, a, c)
  {
    forall k | k in a.agents ensures AgentLater(a, c, name, k) {
      assert AgentLater(a, b, name, k) && AgentLater(b, c, name, k);
    }
    forall k | Keeps(a, name, k) ensures KeptOn(a, c, name, k) {
      assert KeptOn(a, b, name, k) && KeptOn(b, c, name, k);
    }
    forall k | k in c.agents && k !in a.agents ensures LabelOf(c, k) != Some(name) {
      assert k in b.agents ==> AgentLater(b, c, name, k);
    }
    forall k | k in a.machineKeys ensures MachineLater(a, c, k) {
      assert MachineLater(a, b, k) && MachineLater(b, c, k);
    }
  }

  /** A write to one Agent that neither gives nor takes the label of `name`. */
  lemma PutRelies(name: string, w: World, k: Key, a: Agent, w': World)
    requires HistoryOk(w) && (k in w.agents ==> Alive(w, k))
    requires RefLabel(a) == Some(name) <==> LabelOf(w, k) == Some(name)
    requires Keeps(w, name, k) ==> SameBinding(w.agents[k].agent, a)
    requires SameUnbind(w, w', name)
    requires w' == PutAgent(w, k, a).(unbound := w'.unbound)
    ensures Relies(name, w, w')
  {
    hide AgentLater, HistoryGrows, MachineLater, KeptOn;
    forall j | Keeps(w, name, j) ensures KeptOn(w, w', name, j) {
      PutKeptOn(name, w, k, a, w', j);
    }
    forall j ensures j in w.agents ==> AgentLater(w, w', name, j) {
      PutAgentLater(name, w, k, a, w', j);
    }
    PutHistory(w, k, a, w');
    SameMachines(w, w');
  }

  lemma PutKeptOn(name: string, w: World, k: Key, a: Agent, w': World, j: Key)
    requires RefLabel(a) == Some(name) <==> LabelOf(w, k) == Some(name)
    requires Keeps(w, name, k) ==> SameBinding(w.agents[k].agent, a)
    requires SameUnbind(w, w', name) && w' == PutAgent(w, k, a).(unbound := w'.unbound)
    ensures Keeps(w, name, j) ==> KeptOn(w, w', name, j)
  {
  }

  lemma PutAgentLater(name: string, w: World, k: Key, a: Agent, w': World, j: Key)
    requires HistoryOk(w)
    requires (k in w.agents ==> Alive(w, k)) && w'.agents == PutAgent(w, k, a).agents
    requires RefLabel(a) == Some(name) <==> LabelOf(w, k) == Some(name)
    ensures j in w.agents ==> AgentLater(w, w', name, j)
  {
  }

  lemma PutHistory(w: World, k: Key, a: Agent, w': World)
    requires HistoryOk(w) && w'.history == PutAgent(w, k, a).history
    ensures HistoryGrows(w, w')
  {
  }

  lemma SameMachines(w: World, w': World)
    requires w'.machines == w.machines
    ensures forall k :: MachineLater(w, w', k)
  {
  }

  /** A step on the AgentMachines or Machines. */
  lemma KeptRelies(name: string, w: World, w': World)
    requires AgentsKept(w, w') && w.names <= w'.names && w.machineKeys <= w'.machineKeys
    requires SameUnbind(w, w', name) && (name in w'.done <==> name in w.done)
    requires name in w.pausedDeletions ==> name in w'.pausedDeletions
    requires name in w.names && name in w'.ams ==> name in w.ams && SameMachine(w.ams[name], w'.ams[name])
    requires name in w.names && name in w.ams && w.ams[name].managed.finalizer ==> name in w'.ams
    requires forall k | k in w.machineKeys :: MachineLater(w, w', k)
    ensures Relies(name, w, w')
  {
    hide MachineLater;
    forall j | j in w.agents ensures AgentLater(w, w', name, j) {
    }
    forall j | Keeps(w, name, j) ensures KeptOn(w, w', name, j) {
    }
  }

  lemma OwnWriteRelies(name: string, w: World, n: string, act: Act)
    requires Inv(w) && OwnEnabled(w, n, act) && n != name
    requires act.Claim? || act.Sync? || act.Relabel? || act.Unbind?
    ensures Relies(name, w, OwnApply(w, n, act))
  {
    var w' := OwnApply(w, n, act);
    var k := act.agent;
    var a := w.agents[k].agent;
    KeptFromOthers(name, w, n, act);
    if act.Claim? {
      PutRelies(name, w, k, Claimed(a, n, act.namespace, act.cluster, act.data), w');
    } else if act.Sync? {
      PutRelies(name, w, k, Synced(a, act.data), w');
    } else if act.Relabel? {
      HeldByOne(w, n, k);
      PutRelies(name, w, k, Relabelled(a, n), w');
    } else {
      assert RefOk(w, n, k);
      PutRelies(name, w, k, Unbound(a), w');
    }
  }

  /** Nobody else writes the binding of an Agent that is kept. */
  lemma KeptFromOthers(name: string, w: World, n: string, act: Act)
    requires Inv(w) && OwnEnabled(w, n, act) && n != name
    requires act.Claim? || act.Sync? || act.Relabel? || act.Unbind?
    ensures Keeps(w, name, act.agent) ==>
      act.agent in w.agents && SameBinding(w.agents[act.agent].agent, OwnApply(w, n, act).agents[act.agent].agent)
  {
    var k := act.agent;
    if Keeps(w, name, k) && !act.Relabel? {
      KeptIsHeld(w, name, k);
      RefShows(w, n, k);
    }
  }

  lemma RefShows(w: World, n: string, k: Key)
    requires Inv(w)
    ensures RefOf(w, n) == Some(k) && n !in w.done ==> LabelOf(w, k) == None || LabelOf(w, k) == Some(n)
  {
    if RefOf(w, n) == Some(k) { assert RefOk(w, n, k); }
  }

  lemma KeptIsHeld(w: World, name: string, k: Key)
    requires Inv(w) && Keeps(w, name, k)
    ensures LabelOf(w, k) == Some(name) || (Pinned(w.agents[k].agent) && RefOf(w, name) == Some(k) && name in w.ams && name !in w.done)
  {
    assert LabelOf(w, k) != Some(name) ==> RefOk(w, name, k);
  }

  lemma SaveRelies(name: string, w: World, n: string, after: Managed)
    requires n != name && SaveEnabled(w, n, after)
    ensures Relies(name, w, SaveApply(w, n, after))
  {
    hide MachineLater;
    SameMachines(w, SaveApply(w, n, after));
    KeptRelies(name, w, SaveApply(w, n, after));
  }

  lemma RemoveHookRelies(name: string, w: World, n: string, m: Key, wrote: bool, reason: Reason)
    requires n != name && RemoveHookEnabled(w, n, m, wrote, reason)
    ensures Relies(name, w, RemoveHookApply(w, n, m, wrote))
  {
    KeptRelies(name, w, RemoveHookApply(w, n, m, wrote));
  }

  lemma AddHookRelies(name: string, w: World, n: string, m: Key)
    requires OwnEnabled(w, n, AddHook(m))
    ensures Relies(name, w, OwnApply(w, n, AddHook(m)))
  {
    KeptRelies(name, w, OwnApply(w, n, AddHook(m)));
  }

  lemma OwnRelies(name: string, w: World, n: string, act: Act)
    requires Inv(w) && OwnEnabled(w, n, act) && n != name
    ensures Relies(name, w, OwnApply(w, n, act))
  {
    if act.AddHook? { AddHookRelies(name, w, n, act.machine); }
    else if act.RemoveHook? { RemoveHookRelies(name, w, n, act.machine, act.wrote, act.reason); }
    else if act.Save? { SaveRelies(name, w, n, act.managed); }
    else { OwnWriteRelies(name, w, n, act); }
  }

  /** An Agent that an AgentMachine holds is not labelled for another one. */
  lemma HeldByOne(w: World, n: string, k: Key)
    requires Inv(w) && Holds(w, n, k)
    ensures LabelOf(w, k) == Some(n) || LabelOf(w, k) == None
  {
    assert LabelOf(w, k) != Some(n) ==> RefOk(w, n, k);
  }

  lemma AgentEventRelies(name: string, w: World, e: Event)
    requires Inv(w) && Enabled(w, e) && (e.AgentCreated? || e.AgentChanged? || e.AgentDeleted?)
    ensures Relies(name, w, Apply(w, e))
  {
    hide OwnEnabled, OwnApply, Consistent, FromAgent, LabelledOnly, MachineLater, RefsOk, LabelsUnique, AnnotationsOk, MachineOk;
    SameMachines(w, Apply(w, e));
    if e.AgentDeleted? {
      KeptRelies(name, w, Apply(w, e));
    } else {
      PutRelies(name, w, e.key, e.agent, Apply(w, e));
    }
  }

  lemma MachineEventRelies(name: string, w: World, e: Event)
    requires Inv(w) && Enabled(w, e) && (e.MachineCreated? || e.MachineChanged? || e.MachineGone?)
    ensures Relies(name, w, Apply(w, e))
  {
    hide OwnEnabled, OwnApply, Consistent, FromAgent, LabelledOnly;
    KeptRelies(name, w, Apply(w, e));
  }

  lemma AMEventRelies(name: string, w: World, e: Event)
    requires Inv(w) && Enabled(w, e) && (e.AMCreated? || e.AMChanged? || e.AMGone?)
    ensures Relies(name, w, Apply(w, e))
  {
    hide OwnEnabled, OwnApply, Consistent, FromAgent, LabelledOnly, MachineLater;
    SameMachines(w, Apply(w, e));
    KeptRelies(name, w, Apply(w, e));
  }

  /** Whatever step somebody else takes, `name` can rely on it. */
  lemma StepRelies(name: string, w: World, e: Event)
    requires Inv(w) && Enabled(w, e) && Foreign(name, e)
    ensures Relies(name, w, Apply(w, e))
  {
    if e.Own? {
      OwnRelies(name, w, e.name, e.act);
    } else if e.AgentCreated? || e.AgentChanged? || e.AgentDeleted? {
      AgentEventRelies(name, w, e);
    } else if e.MachineCreated? || e.MachineChanged? || e.MachineGone? {
      MachineEventRelies(name, w, e);
    } else {
      AMEventRelies(name, w, e);
    }
  }
}
