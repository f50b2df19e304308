/** Every step keeps the invariant of the allocation protocol. */
module ProtocolInvariant {
  import opened Wrappers
  import opened Hub
  import opened AgentEdits
  import opened AgentMachines
  import opened Protocol

  /** What a write to one Agent leaves alone. */
  lemma PutFrame(w: World, k: Key, a: Agent)
    requires HistoryOk(w)
    ensures var w' := PutAgent(w, k, a);
            && HistoryOk(w')
            && Alive(w', k) && LabelOf(w', k) == RefLabel(a)
            && (forall j | j != k :: Alive(w', j) == Alive(w, j))
            && (forall j | j != k :: LabelOf(w', j) == LabelOf(w, j))
            && (forall n :: RefOf(w', n) == RefOf(w, n))
            && (forall v | v in w.history :: v in w'.history && w'.history[v] == w.history[v])
  {
  }

  lemma FromAgentKeeps(w: World, w': World, k: Key, addresses: seq<Address>)
    requires FromAgent(w, k, addresses)
    requires forall v | v in w.history :: v in w'.history && w'.history[v] == w.history[v]
    ensures FromAgent(w', k, addresses)
  {
  }

  /** A write that keeps or drops the label, or gives it a name no other existing
      Agent has, keeps labels unique. */
  lemma PutLabels(w: World, k: Key, a: Agent)
    requires HistoryOk(w) && LabelsUnique(w) && AnnotationsOk(w)
    requires RefLabel(a).Some? && !(Alive(w, k) && LabelOf(w, k) == RefLabel(a)) ==> LabelledOnly(w, RefLabel(a).value, k)
    requires REF_NAMESPACE in a.annotations ==> RefLabel(a).Some?
    ensures LabelsUnique(PutAgent(w, k, a)) && AnnotationsOk(PutAgent(w, k, a))
  {
    PutFrame(w, k, a);
    var w' := PutAgent(w, k, a);
    forall i, j | Alive(w', i) && Alive(w', j) && LabelOf(w', i).Some? && LabelOf(w', i) == LabelOf(w', j) ensures i == j {
      assert i != k ==> Alive(w, i) && LabelOf(w, i) == LabelOf(w', i);
      assert j != k ==> Alive(w, j) && LabelOf(w, j) == LabelOf(w', j);
    }
    forall j | j in w'.agents && REF_NAMESPACE in w'.agents[j].agent.annotations ensures LabelOf(w', j).Some? {
      assert j != k ==> LabelOf(w, j) == LabelOf(w', j);
    }
  }

  /** A reference to any Agent survives a write that does not touch the Agent and
      does not label another one for the same AgentMachine. */
  lemma PutRefElsewhere(w: World, k: Key, a: Agent, n: string)
    requires HistoryOk(w) && n in w.ams && RefOf(w, n).Some? && RefOk(w, n, RefOf(w, n).value)
    requires RefOf(w, n) != Some(k) && RefLabel(a) != Some(n)
    ensures RefOk(PutAgent(w, k, a), n, RefOf(w, n).value)
  {
    PutFrame(w, k, a);
    var w' := PutAgent(w, k, a);
    forall b | b in w'.agents && Alive(w', b) && b != RefOf(w, n).value ensures LabelOf(w', b) != Some(n) {
      assert b != k ==> Alive(w, b) && LabelOf(w, b) == LabelOf(w', b);
    }
  }

  /** A write that keeps the label, and keeps a pinned Agent pinned, keeps every
      reference. */
  lemma PutSameLabel(w: World, k: Key, a: Agent, n: string)
    requires HistoryOk(w) && Alive(w, k) && n in w.ams && RefOf(w, n).Some? && RefOk(w, n, RefOf(w, n).value)
    requires RefLabel(a) == LabelOf(w, k) && a.spec.clusterRef == w.agents[k].agent.spec.clusterRef
    requires Pinned(w.agents[k].agent) ==> Pinned(a)
    ensures RefOk(PutAgent(w, k, a), n, RefOf(w, n).value)
  {
    PutFrame(w, k, a);
    var w' := PutAgent(w, k, a);
    forall b | b in w'.agents && Alive(w', b) && b != RefOf(w, n).value ensures LabelOf(w', b) != Some(n) {
      assert Alive(w, b) && LabelOf(w, b) == LabelOf(w', b);
    }
  }

  lemma PutMachines(w: World, k: Key, a: Agent)
    requires Inv(w)
    ensures var w' := PutAgent(w, k, a);
            (forall n | n in w'.ams :: MachineOk(w', n, w'.ams[n])) && Exclusive(w')
  {
    PutFrame(w, k, a);
    var w' := PutAgent(w, k, a);
    forall n | n in w'.ams ensures MachineOk(w', n, w'.ams[n]) {
      var m := w.ams[n].managed;
      assert MachineOk(w, n, w.ams[n]);
      if m.agentRef.Some? { FromAgentKeeps(w, w', m.agentRef.value, m.addresses); }
    }
    forall m, n | m in w'.ams && n in w'.ams && m !in w'.done && n !in w'.done && RefOf(w', m).Some? && RefOf(w', m) == RefOf(w', n)
      ensures m == n
    {
      assert RefOf(w, m) == RefOf(w, n);
    }
  }

  lemma SameLabelWriteKeeps(w: World, k: Key, a: Agent)
    requires Inv(w) && Alive(w, k)
    requires RefLabel(a) == LabelOf(w, k) && a.spec.clusterRef == w.agents[k].agent.spec.clusterRef
    requires Pinned(w.agents[k].agent) ==> Pinned(a)
    requires REF_NAMESPACE in a.annotations ==> RefLabel(a).Some?
    ensures Inv(PutAgent(w, k, a))
  {
    PutFrame(w, k, a);
    PutLabels(w, k, a);
    PutMachines(w, k, a);
    var w' := PutAgent(w, k, a);
    forall n | n in w'.ams && RefOf(w', n).Some? ensures RefOk(w', n, RefOf(w', n).value) {
      assert RefOk(w, n, RefOf(w, n).value);
      PutSameLabel(w, k, a, n);
    }
  }

  /** A write that labels an Agent for `name`, when nobody else may hold it. */
  lemma LabellingWriteKeeps(w: World, k: Key, a: Agent, name: string)
    requires Inv(w) && Alive(w, k)
    requires RefLabel(a) == Some(name) && LabelledOnly(w, name, k)
    requires RefOf(w, name) == None || (RefOf(w, name) == Some(k) && name !in w.unbound)
    requires forall n | n in w.ams && n != name && n !in w.done :: RefOf(w, n) != Some(k)
    ensures Inv(PutAgent(w, k, a))
  {
    PutFrame(w, k, a);
    PutLabels(w, k, a);
    PutMachines(w, k, a);
    var w' := PutAgent(w, k, a);
    forall n | n in w'.ams && RefOf(w', n).Some? ensures RefOk(w', n, RefOf(w', n).value) {
      assert RefOk(w, n, RefOf(w, n).value);
      if RefOf(w, n) != Some(k) {
        PutRefElsewhere(w, k, a, n);
      } else {
        forall b | b in w'.agents && Alive(w', b) && b != k ensures LabelOf(w', b) != Some(n) {
          assert Alive(w, b) && LabelOf(w, b) == LabelOf(w', b);
        }
      }
    }
  }

  lemma ClaimKeeps(w: World, name: string, act: Act)
    requires Inv(w) && act.Claim? && OwnEnabled(w, name, act)
    ensures Inv(OwnApply(w, name, act))
  {
    var k := act.agent;
    var a := Claimed(w.agents[k].agent, name, act.namespace, act.cluster, act.data);
    forall n | n in w.ams && n != name && n !in w.done ensures RefOf(w, n) != Some(k) {
      assert RefOf(w, n) == Some(k) ==> RefOk(w, n, k);
    }
    LabellingWriteKeeps(w, k, a, name);
  }

  lemma SyncKeeps(w: World, name: string, act: Act)
    requires Inv(w) && act.Sync? && OwnEnabled(w, name, act)
    ensures Inv(OwnApply(w, name, act))
  {
    SameLabelWriteKeeps(w, act.agent, Synced(w.agents[act.agent].agent, act.data));
  }

  lemma RelabelKeeps(w: World, name: string, act: Act)
    requires Inv(w) && act.Relabel? && OwnEnabled(w, name, act)
    ensures Inv(OwnApply(w, name, act))
  {
    var k := act.agent;
    var a := Relabelled(w.agents[k].agent, name);
    if LabelOf(w, k) == Some(name) {
      SameLabelWriteKeeps(w, k, a);
    } else {
      assert RefOf(w, name) == Some(k) && RefOk(w, name, k);
      forall n | n in w.ams && n != name && n !in w.done ensures RefOf(w, n) != Some(k) {
        assert name in w.ams && name !in w.done;
      }
      LabellingWriteKeeps(w, k, a, name);
    }
  }

  lemma UnbindRefs(w: World, name: string, k: Key)
    requires Inv(w) && UnbindEnabled(w, name, k)
    ensures RefsOk(UnbindApply(w, name, k))
  {
    var a := Unbound(w.agents[k].agent);
    PutFrame(w, k, a);
    var u, w' := PutAgent(w, k, a), UnbindApply(w, name, k);
    forall n | n in w'.ams && RefOf(w', n).Some? ensures RefOk(w', n, RefOf(w', n).value) {
      assert RefOf(w, n) == RefOf(w', n) && RefOk(w, n, RefOf(w, n).value);
      UnbindRef(w, name, k, n);
    }
  }

  lemma UnbindRef(w: World, name: string, k: Key, n: string)
    requires Inv(w) && UnbindEnabled(w, name, k)
    requires n in w.ams && RefOf(w, n).Some? && RefOk(w, n, RefOf(w, n).value)
    ensures RefOk(UnbindApply(w, name, k), n, RefOf(w, n).value)
  {
    var a, r := Unbound(w.agents[k].agent), RefOf(w, n).value;
    PutFrame(w, k, a);
    var u, w' := PutAgent(w, k, a), UnbindApply(w, name, k);
    if r != k {
      PutRefElsewhere(w, k, a, n);
      RefUnboundElsewhere(u, name, w.clock, n, r);
    } else {
      assert n == name || n in w.done;
      assert forall b | b in w'.agents && b != k :: Alive(w', b) == Alive(w, b) && LabelOf(w, b) == LabelOf(w', b);
    }
  }

  lemma RefUnboundElsewhere(u: World, name: string, v: nat, n: string, r: Key)
    requires RefOk(u, n, r) && n != name
    ensures RefOk(u.(unbound := u.unbound[name := v]), n, r)
  {
    var w' := u.(unbound := u.unbound[name := v]);
    assert forall b :: Alive(w', b) == Alive(u, b) && LabelOf(w', b) == LabelOf(u, b);
  }

  lemma UnbindKeeps(w: World, name: string, k: Key)
    requires Inv(w) && UnbindEnabled(w, name, k)
    ensures Inv(UnbindApply(w, name, k))
  {
    var a := Unbound(w.agents[k].agent);
    PutLabels(w, k, a);
    PutMachines(w, k, a);
    PutFrame(w, k, a);
    UnbindRefs(w, name, k);
    var u := PutAgent(w, k, a);
    UnboundFrame(u, name, w.clock);
    assert MachineOk(w, name, w.ams[name]);
    UnboundMachines(u, name, w.clock);
  }

  lemma UnboundMachines(u: World, name: string, v: nat)
    requires forall n | n in u.ams :: MachineOk(u, n, u.ams[n])
    requires RefOf(u, name).Some? && OwnerKey(u.ams[name]).Some? && !OwnerEarly(u, u.ams[name])
    ensures var w' := u.(unbound := u.unbound[name := v]); forall n | n in w'.ams :: MachineOk(w', n, w'.ams[n])
  {
    var w' := u.(unbound := u.unbound[name := v]);
    forall n | n in w'.ams ensures MachineOk(w', n, w'.ams[n]) {
      assert MachineOk(u, n, u.ams[n]);
    }
  }

  /** The bookkeeping of an unbind touches only these parts of the invariant. */
  lemma UnboundFrame(u: World, name: string, v: nat)
    requires HistoryOk(u) && LabelsUnique(u) && AnnotationsOk(u) && Exclusive(u)
    ensures var w' := u.(unbound := u.unbound[name := v]);
            HistoryOk(w') && LabelsUnique(w') && AnnotationsOk(w') && Exclusive(w')
  {
    var w' := u.(unbound := u.unbound[name := v]);
    assert forall j :: Alive(w', j) == Alive(u, j) && LabelOf(w', j) == LabelOf(u, j);
    assert forall n :: RefOf(w', n) == RefOf(u, n);
  }

  lemma AgentCreatedKeeps(w: World, e: Event)
    requires Inv(w) && e.AgentCreated? && Enabled(w, e)
    ensures Inv(Apply(w, e))
  {
    var k, a := e.key, e.agent;
    PutFrame(w, k, a);
    PutLabels(w, k, a);
    PutMachines(w, k, a);
    var w' := PutAgent(w, k, a);
    forall n | n in w'.ams && RefOf(w', n).Some? ensures RefOk(w', n, RefOf(w', n).value) {
      assert RefOk(w, n, RefOf(w, n).value);
      PutRefElsewhere(w, k, a, n);
    }
  }

  lemma AgentChangedKeeps(w: World, e: Event)
    requires Inv(w) && e.AgentChanged? && Enabled(w, e)
    ensures Inv(Apply(w, e))
  {
    assert REF_NAMESPACE in e.agent.annotations ==> LabelOf(w, e.key).Some?;
    SameLabelWriteKeeps(w, e.key, e.agent);
  }

  lemma AgentsKeptFrame(w: World, w': World)
    requires Inv(w) && AgentsKept(w, w')
    ensures HistoryOk(w') && LabelsUnique(w') && AnnotationsOk(w')
    ensures forall j :: LabelOf(w', j) == LabelOf(w, j) && (Alive(w', j) ==> Alive(w, j))
  {
    assert forall j :: LabelOf(w', j) == LabelOf(w, j) && (Alive(w', j) ==> Alive(w, j));
  }

  /** References survive such a step when `unbound` and `done` stay, or when an
      AgentMachine moves to `done`. */
  lemma RefKept(w: World, w': World, n: string, k: Key)
    requires Inv(w) && AgentsKept(w, w') && RefOk(w, n, k)
    requires n !in w'.done ==> n !in w.done && SameUnbind(w, w', n)
    ensures RefOk(w', n, k)
  {
    AgentsKeptFrame(w, w');
  }

  /** A step that keeps the Agents, adds or changes no reference and gives up
      only whole AgentMachines keeps the rest of the invariant. */
  lemma KeptStep(w: World, w': World)
    requires Inv(w) && AgentsKept(w, w')
    requires forall n | n in w'.ams && RefOf(w', n).Some? ::
      && n in w.ams && RefOf(w', n) == RefOf(w, n)
      && (n !in w'.done ==> n !in w.done && SameUnbind(w, w', n))
    requires forall n | n in w'.ams :: MachineOk(w', n, w'.ams[n])
    requires w'.unbound.Keys !! w'.done && w'.unbound.Keys <= w'.names && w'.done <= w'.names
    requires w'.machines.Keys <= w'.machineKeys
    ensures Inv(w')
  {
    forall n | n in w'.ams && RefOf(w', n).Some? ensures RefOk(w', n, RefOf(w', n).value) {
      assert RefOk(w, n, RefOf(w, n).value);
      RefKept(w, w', n, RefOf(w, n).value);
    }
    Assemble(w, w');
  }

  lemma Assemble(w: World, w': World)
    requires Inv(w) && AgentsKept(w, w') && RefsOk(w') && Exclusive(w')
    requires forall n | n in w'.ams :: MachineOk(w', n, w'.ams[n])
    requires w'.unbound.Keys !! w'.done && w'.unbound.Keys <= w'.names && w'.done <= w'.names
    requires w'.machines.Keys <= w'.machineKeys
    ensures Inv(w')
  {
    AgentsKeptFrame(w, w');
  }

  lemma AgentDeletedMachines(w: World, e: Event)
    requires Inv(w) && e.AgentDeleted? && Enabled(w, e)
    ensures forall n | n in Apply(w, e).ams :: MachineOk(Apply(w, e), n, Apply(w, e).ams[n])
  {
    hide OwnEnabled, OwnApply, Consistent, LabelledOnly;
    var w' := Apply(w, e);
    forall n | n in w'.ams ensures MachineOk(w', n, w'.ams[n]) { assert MachineOk(w, n, w.ams[n]); }
  }

  lemma AgentDeletedKeeps(w: World, e: Event)
    requires Inv(w) && e.AgentDeleted? && Enabled(w, e)
    ensures Inv(Apply(w, e))
  {
    hide MachineOk, Consistent, FromAgent;
    hide OwnEnabled, OwnApply;
    AgentDeletedMachines(w, e);
    KeptStep(w, Apply(w, e));
  }

  lemma AddHookMachines(w: World, name: string, act: Act)
    requires Inv(w) && act.AddHook? && OwnEnabled(w, name, act)
    ensures forall n | n in OwnApply(w, name, act).ams :: MachineOk(OwnApply(w, name, act), n, OwnApply(w, name, act).ams[n])
  {
    var w' := OwnApply(w, name, act);
    forall n | n in w'.ams ensures MachineOk(w', n, w'.ams[n]) { assert MachineOk(w, n, w.ams[n]); }
  }

  lemma AddHookKeeps(w: World, name: string, act: Act)
    requires Inv(w) && act.AddHook? && OwnEnabled(w, name, act)
    ensures Inv(OwnApply(w, name, act))
  {
    hide MachineOk, Consistent, FromAgent;
    AddHookMachines(w, name, act);
    KeptStep(w, OwnApply(w, name, act));
  }

  lemma RemoveHookMachines(w: World, name: string, act: Act)
    requires Inv(w) && act.RemoveHook? && OwnEnabled(w, name, act)
    ensures forall n | n in OwnApply(w, name, act).ams :: MachineOk(OwnApply(w, name, act), n, OwnApply(w, name, act).ams[n])
  {
    var w' := OwnApply(w, name, act);
    forall n | n in w'.ams ensures MachineOk(w', n, w'.ams[n]) { assert MachineOk(w, n, w.ams[n]); }
  }

  lemma RemoveHookKeeps(w: World, name: string, act: Act)
    requires Inv(w) && act.RemoveHook? && OwnEnabled(w, name, act)
    ensures Inv(OwnApply(w, name, act))
  {
    hide MachineOk, Consistent, FromAgent;
    RemoveHookMachines(w, name, act);
    KeptStep(w, OwnApply(w, name, act));
  }

  lemma MachineEventMachines(w: World, e: Event)
    requires Inv(w) && (e.MachineCreated? || e.MachineChanged? || e.MachineGone?) && Enabled(w, e)
    ensures forall n | n in Apply(w, e).ams :: MachineOk(Apply(w, e), n, Apply(w, e).ams[n])
  {
    hide OwnEnabled, OwnApply, Consistent, LabelledOnly;
    var w' := Apply(w, e);
    forall n | n in w'.ams ensures MachineOk(w', n, w'.ams[n]) { assert MachineOk(w, n, w.ams[n]); }
  }

  lemma MachineEventKeeps(w: World, e: Event)
    requires Inv(w) && (e.MachineCreated? || e.MachineChanged? || e.MachineGone?) && Enabled(w, e)
    ensures Inv(Apply(w, e))
  {
    hide MachineOk, Consistent, FromAgent;
    hide OwnEnabled, OwnApply;
    MachineEventMachines(w, e);
    KeptStep(w, Apply(w, e));
  }

  lemma AMCreatedMachines(w: World, e: Event)
    requires Inv(w) && e.AMCreated? && Enabled(w, e)
    ensures forall n | n in Apply(w, e).ams :: MachineOk(Apply(w, e), n, Apply(w, e).ams[n])
  {
    hide OwnEnabled, OwnApply, LabelledOnly;
    var w' := Apply(w, e);
    forall n | n in w'.ams ensures MachineOk(w', n, w'.ams[n]) { assert n in w.ams ==> MachineOk(w, n, w.ams[n]); }
  }

  lemma AMCreatedKeeps(w: World, e: Event)
    requires Inv(w) && e.AMCreated? && Enabled(w, e)
    ensures Inv(Apply(w, e))
  {
    hide MachineOk, Consistent, FromAgent;
    hide OwnEnabled, OwnApply;
    AMCreatedMachines(w, e);
    KeptStep(w, Apply(w, e));
  }

  /** An AgentMachine is as good as before when the Machines and the history are the
      same and the bookkeeping only grows. */
  lemma MachineFrame(w: World, w': World, n: string, am: AgentMachine)
    requires MachineOk(w, n, am)
    requires w'.history == w.history && w'.machines == w.machines && w'.unbound == w.unbound
    requires w.names <= w'.names && w.machineKeys <= w'.machineKeys
    requires w.done <= w'.done && w.pausedDeletions <= w'.pausedDeletions
    ensures MachineOk(w', n, am)
  {
    assert Settled(w', am) == Settled(w, am) && OwnerEarly(w', am) == OwnerEarly(w, am);
  }

  lemma ChangedMachine(w: World, e: Event)
    requires Inv(w) && e.AMChanged? && Enabled(w, e)
    ensures MachineOk(Apply(w, e), e.name, e.am)
  {
    hide OwnEnabled, OwnApply, LabelledOnly, HistoryOk, LabelsUnique, RefsOk, Exclusive, AnnotationsOk;
    var before, w' := w.ams[e.name], Apply(w, e);
    assert MachineOk(w, e.name, before);
    assert OwnerKey(before).Some? ==> Settled(w', e.am) == Settled(w, before) && OwnerEarly(w', e.am) == OwnerEarly(w, before);
  }

  lemma AMChangedMachines(w: World, e: Event)
    requires Inv(w) && e.AMChanged? && Enabled(w, e)
    ensures forall n | n in Apply(w, e).ams :: MachineOk(Apply(w, e), n, Apply(w, e).ams[n])
  {
    hide OwnEnabled, OwnApply, MachineOk;
    ChangedMachine(w, e);
    var w' := Apply(w, e);
    forall n | n in w'.ams && n != e.name ensures MachineOk(w', n, w'.ams[n]) {
      MachineFrame(w, w', n, w.ams[n]);
    }
  }

  lemma AMChangedKeeps(w: World, e: Event)
    requires Inv(w) && e.AMChanged? && Enabled(w, e)
    ensures Inv(Apply(w, e))
  {
    hide MachineOk, Consistent, FromAgent;
    hide OwnEnabled, OwnApply;
    AMChangedMachines(w, e);
    KeptStep(w, Apply(w, e));
  }

  lemma AMGoneMachines(w: World, e: Event)
    requires Inv(w) && e.AMGone? && Enabled(w, e)
    ensures forall n | n in Apply(w, e).ams :: MachineOk(Apply(w, e), n, Apply(w, e).ams[n])
  {
    hide OwnEnabled, OwnApply, Consistent, LabelledOnly;
    var w' := Apply(w, e);
    forall n | n in w'.ams ensures MachineOk(w', n, w'.ams[n]) { assert MachineOk(w, n, w.ams[n]); }
  }

  lemma AMGoneKeeps(w: World, e: Event)
    requires Inv(w) && e.AMGone? && Enabled(w, e)
    ensures Inv(Apply(w, e))
  {
    hide MachineOk, Consistent, FromAgent;
    hide OwnEnabled, OwnApply;
    AMGoneMachines(w, e);
    KeptStep(w, Apply(w, e));
  }

  lemma SaveRefs(w: World, name: string, after: Managed)
    requires Inv(w) && SaveEnabled(w, name, after)
    ensures RefsOk(SaveApply(w, name, after))
  {
    hide Inv, SaveEnabled, RefOk;
    forall n | n in SaveApply(w, name, after).ams && RefOf(SaveApply(w, name, after), n).Some?
      ensures RefOk(SaveApply(w, name, after), n, RefOf(SaveApply(w, name, after), n).value)
    {
      SaveRef(w, name, after, n);
    }
  }

  lemma SaveFrame(w: World, name: string, after: Managed, n: string)
    requires SaveEnabled(w, name, after) && n in SaveApply(w, name, after).ams
    ensures var w' := SaveApply(w, name, after);
            && AgentsKept(w, w') && w'.unbound == w.unbound && w'.done == w.done && n in w.ams
            && RefOf(w', n) == (if n == name then after.agentRef else RefOf(w, n))
            && (RefOf(w, name).Some? ==> after.agentRef == RefOf(w, name))
  {
    hide FromAgent, MayStore, Consistent, Backs;
  }

  lemma SaveRef(w: World, name: string, after: Managed, n: string)
    requires Inv(w) && SaveEnabled(w, name, after)
    requires n in SaveApply(w, name, after).ams && RefOf(SaveApply(w, name, after), n).Some?
    ensures RefOk(SaveApply(w, name, after), n, RefOf(SaveApply(w, name, after), n).value)
  {
    hide SaveEnabled, SaveApply, RefOk, AgentsKept, HistoryOk, LabelsUnique, Exclusive, AnnotationsOk, MachineOk;
    SaveFrame(w, name, after, n);
    if n != name || RefOf(w, n).Some? {
      RefKept(w, SaveApply(w, name, after), n, RefOf(w, n).value);
    } else {
      FirstRef(w, name, after);
    }
  }

  lemma FirstRef(w: World, name: string, after: Managed)
    requires Inv(w) && SaveEnabled(w, name, after) && RefOf(w, name) == None && after.agentRef.Some?
    ensures RefOk(SaveApply(w, name, after), name, after.agentRef.value)
  {
    hide LabelsUnique, Exclusive, AnnotationsOk, RefsOk, Consistent, FromAgent, MayStore;
    AgentsKeptFrame(w, SaveApply(w, name, after));
    assert MachineOk(w, name, w.ams[name]);
  }

  /** An AgentMachine that stores its first reference shares it with nobody. */
  lemma SaveNewRef(w: World, name: string, after: Managed, n: string)
    requires Inv(w) && SaveEnabled(w, name, after)
    requires RefOf(w, name) == None && after.agentRef.Some?
    requires n in w.ams && n != name && n !in w.done
    ensures RefOf(w, n) != after.agentRef
  {
    assert RefOf(w, n).Some? ==> RefOk(w, n, RefOf(w, n).value);
  }

  lemma SaveExclusive(w: World, name: string, after: Managed)
    requires Inv(w) && SaveEnabled(w, name, after)
    ensures Exclusive(SaveApply(w, name, after))
  {
    hide HistoryOk, LabelsUnique, RefsOk, AnnotationsOk, MachineOk, Consistent, FromAgent, MayStore, Backs;
    var w' := SaveApply(w, name, after);
    forall n | n in w'.ams && n != name && n !in w.done ensures RefOf(w', n) == RefOf(w, n) {
    }
    if RefOf(w, name) == None && after.agentRef.Some? {
      forall n | n in w.ams && n != name && n !in w.done ensures RefOf(w, n) != after.agentRef {
        SaveNewRef(w, name, after, n);
      }
    }
  }

  lemma SavedMachine(w: World, name: string, after: Managed)
    requires SaveEnabled(w, name, after) && MachineOk(w, name, w.ams[name])
    requires w.ams[name].deleting ==> after.finalizer
    ensures MachineOk(SaveApply(w, name, after), name, w.ams[name].(managed := after))
  {
  }

  lemma OtherMachine(w: World, name: string, after: Managed, n: string, am: AgentMachine)
    requires SaveEnabled(w, name, after) && MachineOk(w, n, am)
    ensures MachineOk(SaveApply(w, name, after), n, am)
  {
  }

  lemma SaveMachines(w: World, name: string, after: Managed)
    requires Inv(w) && SaveEnabled(w, name, after)
    ensures var w' := SaveApply(w, name, after); forall n | n in w'.ams :: MachineOk(w', n, w'.ams[n])
  {
    var w' := SaveApply(w, name, after);
    forall n | n in w'.ams ensures MachineOk(w', n, w'.ams[n]) {
      assert MachineOk(w, n, w.ams[n]);
      if n == name { SavedMachine(w, name, after); } else { OtherMachine(w, name, after, n, w.ams[n]); }
    }
  }

  lemma SaveKeeps(w: World, name: string, after: Managed)
    requires Inv(w) && SaveEnabled(w, name, after)
    ensures Inv(SaveApply(w, name, after))
  {
    SaveRefs(w, name, after);
    SaveExclusive(w, name, after);
    SaveMachines(w, name, after);
    Assemble(w, SaveApply(w, name, after));
  }

  /** Every step keeps the invariant. */
  lemma StepKeepsInv(w: World, e: Event)
    requires Inv(w) && Enabled(w, e)
    ensures Inv(Apply(w, e))
  {
    match e {
      case Own(name, act) => {
        match act {
          case Claim(_, _, _, _) => ClaimKeeps(w, name, act);
          case Sync(_, _) => SyncKeeps(w, name, act);
          case Relabel(_) => RelabelKeeps(w, name, act);
          case Unbind(k) => UnbindKeeps(w, name, k);
          case AddHook(_) => AddHookKeeps(w, name, act);
          case RemoveHook(_, _, _) => RemoveHookKeeps(w, name, act);
          case Save(after) => SaveKeeps(w, name, after);
        }
      }
      case AgentCreated(_, _) => AgentCreatedKeeps(w, e);
      case AgentChanged(_, _) => AgentChangedKeeps(w, e);
      case AgentDeleted(_) => AgentDeletedKeeps(w, e);
      case MachineCreated(_, _) => MachineEventKeeps(w, e);
      case MachineChanged(_, _) => MachineEventKeeps(w, e);
      case MachineGone(_) => MachineEventKeeps(w, e);
      case AMCreated(_, _) => AMCreatedKeeps(w, e);
      case AMChanged(_, _) => AMChangedKeeps(w, e);
      case AMGone(_) => AMGoneKeeps(w, e);
    }
  }
}
