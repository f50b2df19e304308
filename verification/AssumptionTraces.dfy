/** Why the assumptions of the allocation protocol are needed, and one failure
    that they do not exclude: an Agent that is never given back. */
module AssumptionTraces {
  import opened Wrappers
  import opened Hub
  import opened AgentEdits
  import opened AgentMachines
  import opened Protocol
  import opened ProtocolInvariant
  import opened Runs
  import opened AgentMachineController

  // ---- A claim between an unbind and the removal of the hook ------------------

  /** The store after a claim that meets all that the code checks. */
  function Taken(w: World, k: Key, b: string, ns: string, cluster: Key, data: BootstrapData): World
    requires ClaimMeets(w, b, k, ns)
  {
    PutAgent(w, k, Claimed(w.agents[k].agent, b, ns, cluster, data))
  }

  /** If another AgentMachine claims an Agent that is still being released, and
      stores the claim, the releasing reconcile can unbind the Agent again on its
      next pass, because it tests that there is a label and not whose it is. The
      new owner then references an Agent that shows no sign of it. */
  lemma ReleaseStripsNewOwner(
      w: World, a: string, b: string, k: Key, ns: string, cluster: Key, data: BootstrapData, m: Managed)
    requires Inv(w) && a in w.unbound && RefOf(w, a) == Some(k) && ClaimMeets(w, b, k, ns)
    requires OwnEnabled(Taken(w, k, b, ns, cluster, data), b, Save(m)) && m.agentRef == Some(k) && m.finalizer
    requires b !in w.unbound && b !in w.done
    ensures var stored := OwnApply(Taken(w, k, b, ns, cluster, data), b, Save(m));
            && OwnEnabled(stored, a, Unbind(k))
            && var stripped := OwnApply(stored, a, Unbind(k));
            RefOf(stripped, b) == Some(k) && IsUnbound(stripped.agents[k].agent) && !RefsOk(stripped)
  {
    hide HistoryOk, LabelsUnique, Exclusive, AnnotationsOk, Consistent, FromAgent;
    var stored := OwnApply(Taken(w, k, b, ns, cluster, data), b, Save(m));
    assert MachineOk(w, a, w.ams[a]);
    var stripped := OwnApply(stored, a, Unbind(k));
    assert !RefOk(stripped, b, k);
  }

  // ---- An Agent that is never given back --------------------------------------

  /** The Agent carries the name of an AgentMachine that no longer exists. */
  ghost predicate Leaked(w: World, name: string, k: Key) {
    Alive(w, k) && LabelOf(w, k) == Some(name) && name in w.names && name !in w.ams
  }

  /** The Agent is bound, from before Agents were labelled, and no AgentMachine that
      could give it back references it. */
  ghost predicate Stranded(w: World, k: Key) {
    Alive(w, k) && Pinned(w.agents[k].agent) && forall n | n in w.ams && n !in w.done :: RefOf(w, n) != Some(k)
  }

  /** Nobody will give the Agent back. */
  ghost predicate Lost(w: World, name: string, k: Key) {
    Leaked(w, name, k) || Stranded(w, k)
  }

  lemma LeakOwnStep(w: World, n: string, act: Act, name: string, k: Key)
    requires Inv(w) && OwnEnabled(w, n, act)
    ensures Leaked(w, name, k) ==> Leaked(OwnApply(w, n, act), name, k)
  {
    hide HistoryOk, LabelsUnique, Exclusive, AnnotationsOk, MachineOk, Consistent, FromAgent, Settled;
    if (act.Unbind? || act.Relabel?) && act.agent == k {
      assert RefOf(w, n) == Some(k) ==> RefOk(w, n, k);
    }
  }

  lemma StrandedOwnStep(w: World, n: string, act: Act, k: Key)
    requires Inv(w) && OwnEnabled(w, n, act)
    ensures Stranded(w, k) ==> Stranded(OwnApply(w, n, act), k)
  {
    hide HistoryOk, LabelsUnique, Exclusive, AnnotationsOk, MachineOk, Consistent, FromAgent, Settled;
  }

  lemma LeakStep(w: World, e: Event, name: string, k: Key)
    requires Inv(w) && Enabled(w, e) && Lost(w, name, k)
    ensures k in Apply(w, e).agents
    ensures Lost(Apply(w, e), name, k) || !Alive(Apply(w, e), k)
    ensures Leaked(w, name, k) ==> Leaked(Apply(w, e), name, k) || !Alive(Apply(w, e), k)
  {
    hide Inv, OwnEnabled, OwnApply;
    if e.Own? {
      LeakOwnStep(w, e.name, e.act, name, k);
      StrandedOwnStep(w, e.name, e.act, k);
    }
  }

  /** Once leaked, an Agent stays leaked until somebody deletes it: no reconcile of
      any AgentMachine unbinds it, relabels it or claims it. */
  lemma {:induction false} LeakIsPermanent(v: World, more: seq<Event>, name: string, k: Key)
    requires Inv(v) && IsRun(v, more) && Lost(v, name, k)
    ensures Inv(After(v, more)) && k in After(v, more).agents
    ensures Alive(After(v, more), k) ==> Lost(After(v, more), name, k)
    ensures Leaked(v, name, k) && Alive(After(v, more), k) ==> Leaked(After(v, more), name, k)
    decreases |more|
  {
    hide Inv, Enabled, Apply;
    if more != [] {
      var front, e := more[..|more| - 1], more[|more| - 1];
      LastStep(v, more);
      LeakIsPermanent(v, front, name, k);
      var u := After(v, front);
      StepKeepsInv(u, e);
      if Alive(u, k) { LeakStep(u, e, name, k); } else { InvHistory(u); AgesStep(u, e); }
    }
  }

  // ---- A Machine lookup that fails although the Machine exists ------------------

  /** A failed lookup of a Machine that exists makes the patch drop the finalizer of
      a deleted AgentMachine. That patch is one that the protocol forbids; what it
      leaves keeps the rest of the invariant; and the Agent, which was bound, stays
      bound to nobody, whatever happens next, until it is deleted. */
  lemma LookupErrorLeaks(v: World, name: string, key: Key, k: Key, more: seq<Event>)
    requires Reachable(v) && name in v.ams && v.ams[name].deleting && RefOf(v, name) == Some(k)
    requires OwnerKey(v.ams[name]) == Some(key) && key in v.machines && !Finished(v.machines[key])
    requires name !in v.unbound && name !in v.done && Alive(v, k)
    requires var patched := Patched(v, name, AfterFailedLookup(v.ams[name])); IsRun(patched, more)
    ensures !MayStore(v, name, v.ams[name].managed, AfterFailedLookup(v.ams[name]))
    ensures var patched := Patched(v, name, AfterFailedLookup(v.ams[name]));
            && Inv(patched) && Lost(patched, name, k)
            && (forall n | n in patched.ams && n !in patched.done :: RefOf(patched, n) != Some(k))
            && (Alive(After(patched, more), k) ==> Lost(After(patched, more), name, k))
  {
    hide IsRun, After, Inv;
    ReachableIsInv(v);
    DroppedIsLost(v, name, k);
    GoneKeepsInv(v, name);
    LeakIsPermanent(Patched(v, name, AfterFailedLookup(v.ams[name])), more, name, k);
  }

  lemma DroppedIsLost(v: World, name: string, k: Key)
    requires Inv(v) && name in v.ams && RefOf(v, name) == Some(k) && name !in v.unbound && name !in v.done && Alive(v, k)
    ensures v.ams[name].managed.finalizer || Settled(v, v.ams[name])
    ensures var gone := v.(ams := v.ams - {name});
            Lost(gone, name, k) && forall n | n in gone.ams && n !in gone.done :: RefOf(gone, n) != Some(k)
  {
    hide HistoryOk, LabelsUnique, AnnotationsOk, Consistent, FromAgent;
    assert RefOk(v, name, k) && MachineOk(v, name, v.ams[name]);
  }

  lemma GoneKeepsInv(v: World, name: string)
    requires Inv(v) && name in v.ams
    ensures Inv(v.(ams := v.ams - {name}))
  {
    var v' := v.(ams := v.ams - {name});
    forall n | n in v'.ams ensures MachineOk(v', n, v'.ams[n]) { assert MachineOk(v, n, v.ams[n]); }
    KeptStep(v, v');
  }

  // ---- When an Agent leaks ------------------------------------------------------

  predicate IsClaim(e: Event, m: string, k: Key) {
    e.Own? && e.name == m && e.act.Claim? && e.act.agent == k
  }

  predicate StoresRef(e: Event, m: string) {
    e.Own? && e.name == m && e.act.Save? && e.act.managed.agentRef.Some?
  }

  /** A write of the run claimed the Agent for the AgentMachine. */
  ghost predicate ClaimedIn(es: seq<Event>, m: string, k: Key) {
    exists i | 0 <= i < |es| :: IsClaim(es[i], m, k)
  }

  /** No patch of the run stored a reference, and there was none to begin with. */
  ghost predicate NeverStored(w: World, es: seq<Event>, m: string) {
    RefOf(w, m) == None && forall i | 0 <= i < |es| :: !StoresRef(es[i], m)
  }

  lemma RefOwnStep(v: World, n: string, act: Act, m: string)
    requires OwnEnabled(v, n, act)
    ensures RefOf(v, m) == None && !StoresRef(Own(n, act), m) ==> RefOf(OwnApply(v, n, act), m) == None
    ensures m in OwnApply(v, n, act).ams && (RefOf(v, m).Some? || StoresRef(Own(n, act), m)) ==>
      RefOf(OwnApply(v, n, act), m).Some?
    ensures OwnApply(v, n, act).ams.Keys <= v.ams.Keys && OwnApply(v, n, act).names == v.names
    ensures StoresRef(Own(n, act), m) ==> m in v.ams
  {
  }

  lemma RefStep(v: World, e: Event, m: string)
    requires Enabled(v, e) && v.ams.Keys <= v.names
    ensures RefOf(v, m) == None && !StoresRef(e, m) ==> RefOf(Apply(v, e), m) == None
    ensures m in Apply(v, e).ams && (RefOf(v, m).Some? || StoresRef(e, m)) ==> RefOf(Apply(v, e), m).Some?
    ensures Apply(v, e).ams.Keys <= Apply(v, e).names && v.names <= Apply(v, e).names
    ensures StoresRef(e, m) ==> m in v.ams
    ensures m in Apply(v, e).ams && m in v.names ==> m in v.ams
  {
    hide OwnEnabled, OwnApply;
    if e.Own? { RefOwnStep(v, e.name, e.act, m); }
  }

  lemma NeverStoredStep(w: World, es: seq<Event>, m: string)
    requires es != []
    ensures NeverStored(w, es, m) <==> NeverStored(w, es[..|es| - 1], m) && !StoresRef(es[|es| - 1], m)
  {
    assert forall i | 0 <= i < |es| - 1 :: es[..|es| - 1][i] == es[i];
  }

  lemma NothingStored(w: World, m: string)
    requires Init(w)
    ensures NeverStored(w, [], m) <==> RefOf(w, m) == None
    ensures w.ams.Keys <= w.names
  {
  }

  /** What a reference in `v` tells about the patches of a run up to there. */
  ghost predicate Tells(v: World, never: bool, m: string) {
    && (never ==> RefOf(v, m) == None)
    && (m in v.ams ==> (RefOf(v, m) == None <==> never))
    && v.ams.Keys <= v.names
    && (!never ==> m in v.names)
  }

  lemma TellsStep(v: World, e: Event, never: bool, m: string)
    requires Enabled(v, e) && Tells(v, never, m)
    ensures Tells(Apply(v, e), never && !StoresRef(e, m), m)
  {
    hide Enabled, Apply;
    RefStep(v, e, m);
  }

  /** A stored AgentMachine has no reference exactly when no patch stored one. */
  lemma {:induction false} StoredRefStays(w: World, es: seq<Event>, m: string)
    requires Init(w) && IsRun(w, es)
    ensures Tells(After(w, es), NeverStored(w, es, m), m)
    decreases |es|
  {
    hide Enabled, Apply, NeverStored;
    if es == [] {
      NothingStored(w, m);
    } else {
      var front, e := es[..|es| - 1], es[|es| - 1];
      LastStep(w, es);
      StoredRefStays(w, front, m);
      TellsStep(After(w, front), e, NeverStored(w, front, m), m);
      NeverStoredStep(w, es, m);
    }
  }

  lemma LabelOwnStep(v: World, n: string, act: Act, m: string, k: Key)
    requires Inv(v) && OwnEnabled(v, n, act) && RefOf(v, m) == None
    ensures LabelOf(OwnApply(v, n, act), k) == Some(m) <==> LabelOf(v, k) == Some(m) || IsClaim(Own(n, act), m, k)
  {
    hide HistoryOk, LabelsUnique, Exclusive, AnnotationsOk, MachineOk, Consistent, FromAgent, Settled;
    if (act.Unbind? || act.Relabel?) && act.agent == k {
      assert RefOf(v, n) == Some(k) ==> RefOk(v, n, k);
    }
  }

  lemma LabelStep(v: World, e: Event, m: string, k: Key)
    requires Inv(v) && Enabled(v, e) && RefOf(v, m) == None
    ensures LabelOf(Apply(v, e), k) == Some(m) <==> LabelOf(v, k) == Some(m) || IsClaim(e, m, k)
  {
    hide OwnEnabled, OwnApply;
    if e.Own? { LabelOwnStep(v, e.name, e.act, m, k); }
  }

  /** An Agent that no patch recorded is labelled for the AgentMachine exactly if it
      was to begin with or a claim of the run was accepted. */
  lemma {:induction false} LabelComesFromClaim(w: World, es: seq<Event>, m: string, k: Key)
    requires Init(w) && IsRun(w, es) && NeverStored(w, es, m)
    ensures LabelOf(After(w, es), k) == Some(m) <==> LabelOf(w, k) == Some(m) || ClaimedIn(es, m, k)
    decreases |es|
  {
    if es != [] {
      hide Init, Inv, Enabled, Apply;
      var front, e := es[..|es| - 1], es[|es| - 1];
      assert es == front + [e];
      LastStep(w, es);
      LabelComesFromClaim(w, front, m, k);
      StoredRefStays(w, front, m);
      RunKeepsInv(w, front);
      LabelStep(After(w, front), e, m, k);
      assert ClaimedIn(es, m, k) <==> ClaimedIn(front, m, k) || IsClaim(e, m, k) by {
        if ClaimedIn(front, m, k) {
          var i :| 0 <= i < |front| && IsClaim(front[i], m, k);
          assert IsClaim(es[i], m, k);
        }
        assert es[|es| - 1] == e;
      }
    }
  }

  /** A stored AgentMachine without a reference has a labelled Agent exactly when the
      Agent exists and its label, or the accepted claim that set it, was never
      followed by a patch that stored a reference. */
  lemma UnrecordedClaims(w: World, es: seq<Event>, m: string, k: Key)
    requires Init(w) && IsRun(w, es) && m in After(w, es).ams
    ensures RefOf(After(w, es), m) == None && Alive(After(w, es), k) && LabelOf(After(w, es), k) == Some(m) <==>
            && NeverStored(w, es, m) && Alive(After(w, es), k)
            && (LabelOf(w, k) == Some(m) || ClaimedIn(es, m, k))
  {
    StoredRefStays(w, es, m);
    if NeverStored(w, es, m) { LabelComesFromClaim(w, es, m, k); }
  }

  /** An AgentMachine that is deleted before its first reference is stored: at the
      hook its reconcile takes the hook off and drops the finalizer. An Agent that
      exists leaks by that exactly when it was labelled to begin with or claimed in
      the run. */
  lemma NilReferenceLeaks(w: World, es: seq<Event>, v: World, name: string, key: Key, k: Key)
    requires Init(w) && IsRun(w, es) && v == After(w, es)
    requires name in v.ams && v.ams[name].deleting && RefOf(v, name) == None
    requires OwnerKey(v.ams[name]) == Some(key) && key in v.machines
    requires !Early(v.machines[key]) && DELETE_HOOK in v.machines[key].annotations && Alive(v, k)
    ensures OwnEnabled(v, name, RemoveHook(key, true, NoAgentRef))
    ensures var saved, u := v.ams[name].managed.(finalizer := false), OwnApply(v, name, RemoveHook(key, true, NoAgentRef));
            OwnEnabled(u, name, Save(saved))
    ensures var saved, u := v.ams[name].managed.(finalizer := false), OwnApply(v, name, RemoveHook(key, true, NoAgentRef));
            Leaked(OwnApply(u, name, Save(saved)), name, k) <==> LabelOf(w, k) == Some(name) || ClaimedIn(es, name, k)
  {
    hide Init, IsRun, After, Inv, OwnEnabled, OwnApply, NeverStored, ClaimedIn;
    RunKeepsInv(w, es);
    StoredRefStays(w, es, name);
    UnrecordedClaims(w, es, name, k);
    NilReferenceSteps(v, name, key, k);
  }

  lemma NilReferenceSteps(v: World, name: string, key: Key, k: Key)
    requires Inv(v) && name in v.ams && v.ams[name].deleting && RefOf(v, name) == None
    requires OwnerKey(v.ams[name]) == Some(key) && key in v.machines
    requires !Early(v.machines[key]) && DELETE_HOOK in v.machines[key].annotations && Alive(v, k)
    ensures OwnEnabled(v, name, RemoveHook(key, true, NoAgentRef))
    ensures var saved, u := v.ams[name].managed.(finalizer := false), OwnApply(v, name, RemoveHook(key, true, NoAgentRef));
            OwnEnabled(u, name, Save(saved))
    ensures var saved, u := v.ams[name].managed.(finalizer := false), OwnApply(v, name, RemoveHook(key, true, NoAgentRef));
            Leaked(OwnApply(u, name, Save(saved)), name, k) <==> LabelOf(v, k) == Some(name)
  {
    assert MachineOk(v, name, v.ams[name]);
    var u := RemoveHookApply(v, name, key, true);
    assert SaveEnabled(u, name, v.ams[name].managed.(finalizer := false));
  }

  // ---- The failures happen --------------------------------------------------------

  const AGENT_KEY := Key("hosts", "host-1")
  const MACHINE_KEY := Key("cluster", "machine-1")
  const OTHER_KEY := Key("cluster", "machine-2")

  const FREE_AGENT := Agent(
    map[], map[], AgentSpec(None, "", "", "", true, None, map[]),
    AgentStatus(
      [Condition(Validated, True, ""), Condition(Connected, True, ""), Condition(Bound, False, "")],
      KnownUnbound, Inventory("", [])))

  const NEW_MACHINE := Machine(map[], false, None, None)
  const HOOKED_MACHINE := AddHookTo(NEW_MACHINE)
  const WAITING_MACHINE := HOOKED_MACHINE.(deleting := true, deletingReason := Some(WAITING_FOR_HOOK))

  function NewAM(machine: string): AgentMachine {
    AgentMachine("cluster", [OwnerRef("cluster.x-k8s.io/v1beta1", "Machine", machine)], None, false, false, FRESH)
  }

  const KEPT := FRESH.(finalizer := true)
  const REFERENCED := Managed(true, ProviderID(Some(AGENT_KEY)), false, Some(AGENT_KEY), [], [])
  const DEPLOYMENT := Key("cluster", "deployment")
  const CLAIM := Claim(AGENT_KEY, "cluster", DEPLOYMENT, NO_BOOTSTRAP_DATA)

  /** The free Agent is valid. */
  lemma FreeAgentIsValid()
    ensures IsValid(FREE_AGENT)
  {
    var cs := FREE_AGENT.status.conditions;
    LastStatusIsLast(cs, Validated, 0);
    LastStatusIsLast(cs, Connected, 1);
    LastStatusIsLast(cs, Bound, 2);
  }

  lemma StartRun() returns (w: World, es: seq<Event>)
    ensures w == EMPTY_HUB && IsRun(EMPTY_HUB, es) && w == After(EMPTY_HUB, es)
  {
    return EMPTY_HUB, [];
  }

  /** One more step of a run. */
  lemma Extend(w: World, es: seq<Event>, e: Event) returns (w': World, es': seq<Event>)
    requires IsRun(EMPTY_HUB, es) && w == After(EMPTY_HUB, es) && Enabled(w, e)
    ensures IsRun(EMPTY_HUB, es') && w' == After(EMPTY_HUB, es') && w' == Apply(w, e)
  {
    RunStep(EMPTY_HUB, es, e);
    return Apply(w, e), es + [e];
  }

  /** The only Agent is this one, the only existing Machine the hooked one, and the
      AgentMachines "am" and "bm" are as given. */
  predicate Stands(w: World, a: Agent, machine: Machine, am: AgentMachine, bm: AgentMachine) {
    && w.agents.Keys == {AGENT_KEY} && Alive(w, AGENT_KEY) && w.agents[AGENT_KEY].agent == a
    && w.machines == map[MACHINE_KEY := machine]
    && w.ams == map["am" := am, "bm" := bm] && w.names == {"am", "bm"}
    && w.done == {}
  }

  /** A hub with one free Agent, one Machine and two AgentMachines. */
  lemma Registered() returns (w: World, es: seq<Event>)
    ensures IsRun(EMPTY_HUB, es) && w == After(EMPTY_HUB, es) && w.unbound == map[]
    ensures Stands(w, FREE_AGENT, NEW_MACHINE, NewAM("machine-1"), NewAM("machine-2"))
  {
    hide IsRun, After;
    w, es := StartRun();
    w, es := Extend(w, es, AgentCreated(AGENT_KEY, FREE_AGENT));
    w, es := Extend(w, es, MachineCreated(MACHINE_KEY, NEW_MACHINE));
    w, es := Extend(w, es, AMCreated("am", NewAM("machine-1")));
    w, es := Extend(w, es, AMCreated("bm", NewAM("machine-2")));
  }

  /** The first reconcile adds hook and finalizer. */
  lemma Hooked() returns (w: World, es: seq<Event>)
    ensures IsRun(EMPTY_HUB, es) && w == After(EMPTY_HUB, es) && w.unbound == map[]
    ensures Stands(w, FREE_AGENT, HOOKED_MACHINE, NewAM("machine-1").(managed := KEPT), NewAM("machine-2"))
  {
    hide IsRun, After;
    w, es := Registered();
    w, es := Extend(w, es, Own("am", AddHook(MACHINE_KEY)));
    w, es := Extend(w, es, Own("am", Save(KEPT)));
  }

  /** The second claims the Agent, but its patch fails. */
  lemma ClaimUnrecorded() returns (w: World, es: seq<Event>)
    ensures IsRun(EMPTY_HUB, es) && w == After(EMPTY_HUB, es) && w.unbound == map[]
    ensures Stands(w, Claimed(FREE_AGENT, "am", "cluster", DEPLOYMENT, NO_BOOTSTRAP_DATA), HOOKED_MACHINE,
                   NewAM("machine-1").(managed := KEPT), NewAM("machine-2"))
  {
    hide IsRun, After, AgentEdits.LastStatus, AgentEdits.IsValid;
    FreeAgentIsValid();
    w, es := Hooked();
    w, es := Extend(w, es, Own("am", CLAIM));
  }

  /** A run that leaks: the Agent is claimed, the patch that would store the reference
      fails, and then the AgentMachine and its Machine are deleted. At the hook its
      reconcile finds no reference, takes the hook off and drops the finalizer. */
  lemma LeakHappens() returns (es: seq<Event>)
    ensures Init(EMPTY_HUB) && IsRun(EMPTY_HUB, es) && Leaked(After(EMPTY_HUB, es), "am", AGENT_KEY)
    ensures MACHINE_KEY in After(EMPTY_HUB, es).machines && HookGone(After(EMPTY_HUB, es), MACHINE_KEY)
  {
    hide IsRun, After, Inv;
    InitHolds();
    var w;
    w, es := DeletedUnrecorded();
    w, es := Extend(w, es, Own("am", RemoveHook(MACHINE_KEY, true, NoAgentRef)));
    w, es := Extend(w, es, Own("am", Save(FRESH)));
  }

  lemma DeletedUnrecorded() returns (w: World, es: seq<Event>)
    ensures IsRun(EMPTY_HUB, es) && w == After(EMPTY_HUB, es)
    ensures Stands(w, Claimed(FREE_AGENT, "am", "cluster", DEPLOYMENT, NO_BOOTSTRAP_DATA), WAITING_MACHINE,
                   NewAM("machine-1").(deleting := true, managed := KEPT), NewAM("machine-2"))
  {
    hide IsRun, After, Inv;
    w, es := ClaimUnrecorded();
    w, es := Extend(w, es, AMChanged("am", NewAM("machine-1").(deleting := true, managed := KEPT)));
    w, es := Extend(w, es, MachineChanged(MACHINE_KEY, WAITING_MACHINE));
  }

  /** A run to the point between the unbind and the removal of the hook, where the
      claim of "bm" meets all that the code checks: what `ReleaseStripsNewOwner` is
      about can happen. */
  lemma StripHappens() returns (es: seq<Event>)
    ensures Init(EMPTY_HUB) && IsRun(EMPTY_HUB, es)
    ensures var w := After(EMPTY_HUB, es);
            && Inv(w) && "am" in w.unbound && RefOf(w, "am") == Some(AGENT_KEY)
            && ClaimMeets(w, "bm", AGENT_KEY, "cluster")
            && OwnEnabled(Taken(w, AGENT_KEY, "bm", "cluster", DEPLOYMENT, NO_BOOTSTRAP_DATA), "bm", Save(REFERENCED))
            && "bm" !in w.unbound && "bm" !in w.done
  {
    hide IsRun, After, Inv, AgentEdits.LastStatus, AgentEdits.IsValid;
    InitHolds();
    var w;
    w, es := UnbindHappens();
    RunKeepsInv(EMPTY_HUB, es);
    StripMeets(w);
  }

  lemma WaitingRecorded() returns (w: World, es: seq<Event>)
    ensures IsRun(EMPTY_HUB, es) && w == After(EMPTY_HUB, es) && w.unbound == map[]
    ensures Stands(w, Claimed(FREE_AGENT, "am", "cluster", DEPLOYMENT, NO_BOOTSTRAP_DATA), WAITING_MACHINE,
                   NewAM("machine-1").(managed := REFERENCED), NewAM("machine-2"))
  {
    hide IsRun, After, Inv, AgentEdits.LastStatus, AgentEdits.IsValid;
    w, es := ClaimUnrecorded();
    w, es := Extend(w, es, Own("am", Save(REFERENCED)));
    w, es := Extend(w, es, MachineChanged(MACHINE_KEY, WAITING_MACHINE));
  }

  lemma UnbindHappens() returns (w: World, es: seq<Event>)
    ensures IsRun(EMPTY_HUB, es) && w == After(EMPTY_HUB, es) && w.unbound.Keys == {"am"}
    ensures Stands(w, Unbound(Claimed(FREE_AGENT, "am", "cluster", DEPLOYMENT, NO_BOOTSTRAP_DATA)), WAITING_MACHINE,
                   NewAM("machine-1").(managed := REFERENCED), NewAM("machine-2"))
  {
    hide IsRun, After, Inv, AgentEdits.LastStatus, AgentEdits.IsValid;
    w, es := WaitingRecorded();
    w, es := Extend(w, es, Own("am", Unbind(AGENT_KEY)));
  }

  lemma StripMeets(w: World)
    requires w.agents.Keys == {AGENT_KEY} && Alive(w, AGENT_KEY)
    requires w.agents[AGENT_KEY].agent == Unbound(Claimed(FREE_AGENT, "am", "cluster", DEPLOYMENT, NO_BOOTSTRAP_DATA))
    requires "bm" in w.ams && w.ams["bm"] == NewAM("machine-2") && "bm" in w.names
    ensures ClaimMeets(w, "bm", AGENT_KEY, "cluster")
    ensures OwnEnabled(Taken(w, AGENT_KEY, "bm", "cluster", DEPLOYMENT, NO_BOOTSTRAP_DATA), "bm", Save(REFERENCED))
  {
    FreeAgentIsValid();
    assert w.agents[AGENT_KEY].agent.status == FREE_AGENT.status;
  }
}
