/** What holds in every run of the allocation protocol, however the reconciles of
    any number of AgentMachines and the environment interleave. */
module Runs {
  import opened Wrappers
  import opened Hub
  import opened AgentEdits
  import opened AgentMachines
  import opened Protocol
  import opened ProtocolInvariant

  // ---- Runs ------------------------------------------------------------------

  /** The state after some events. */
  ghost function After(w: World, es: seq<Event>): World
    decreases |es|
  {
    if es == [] then w else Step(After(w, es[..|es| - 1]), es[|es| - 1])
  }

  ghost function Step(w: World, e: Event): World {
    if Enabled(w, e) then Apply(w, e) else w
  }

  /** Every event is enabled when it happens. */
  ghost predicate IsRun(w: World, es: seq<Event>)
    decreases |es|
  {
    es == [] || (IsRun(w, es[..|es| - 1]) && Enabled(After(w, es[..|es| - 1]), es[|es| - 1]))
  }

  lemma RunStep(w: World, es: seq<Event>, e: Event)
    requires IsRun(w, es) && Enabled(After(w, es), e)
    ensures IsRun(w, es + [e]) && After(w, es + [e]) == Step(After(w, es), e)
  {
    var longer := es + [e];
    assert longer[..|longer| - 1] == es && longer[|longer| - 1] == e;
  }

  lemma LastStep(w: World, es: seq<Event>)
    requires IsRun(w, es) && es != []
    ensures var v, e := After(w, es[..|es| - 1]), es[|es| - 1];
            IsRun(w, es[..|es| - 1]) && Enabled(v, e) && After(w, es) == Apply(v, e)
  {
  }

  lemma {:induction false} PrefixIsRun(w: World, es: seq<Event>, i: nat)
    requires IsRun(w, es) && i <= |es|
    ensures IsRun(w, es[..i])
    ensures i < |es| ==> Enabled(After(w, es[..i]), es[i])
    decreases |es|
  {
    if i < |es| {
      var front := es[..|es| - 1];
      assert i < |es| - 1 ==> front[..i] == es[..i] && front[i] == es[i];
      assert i == |es| - 1 ==> front == es[..i];
      PrefixIsRun(w, front, i);
    } else {
      assert es[..i] == es;
    }
  }

  /** An AgentMachine that already has an Agent when the run starts. */
  ghost predicate Reserved(w: World, name: string, am: AgentMachine) {
    && am.managed.agentRef.Some?
    && var k := am.managed.agentRef.value;
    && k in w.agents && (LabelOf(w, k) == Some(name) || Pinned(w.agents[k].agent)) && LabelledOnly(w, name, k)
    && am.managed.finalizer && OwnerKey(am).Some?
    && FromAgent(w, k, am.managed.addresses)
  }

  /** A hub that is new, restored or upgraded: every AgentMachine is either fresh
      or has an Agent of its own, and no two Agents are labelled alike. */
  ghost predicate Init(w: World) {
    && HistoryOk(w) && LabelsUnique(w) && AnnotationsOk(w)
    && w.unbound == map[] && w.done == {}
    && (forall n :: n in w.pausedDeletions <==> n in w.ams && w.ams[n].paused && w.ams[n].deleting)
    && w.ams.Keys <= w.names && w.machines.Keys <= w.machineKeys
    && (forall n | n in w.ams ::
          && (w.ams[n].managed == FRESH || Reserved(w, n, w.ams[n]))
          && Consistent(w.ams[n].managed)
          && NamespaceFits(w, n, w.ams[n].namespace)
          && (w.ams[n].deleting ==> w.ams[n].managed.finalizer)
          && KeySet(OwnerKey(w.ams[n])) <= w.machineKeys)
    && (forall m, n | m in w.ams && n in w.ams && RefOf(w, m).Some? && RefOf(w, m) == RefOf(w, n) :: m == n)
  }

  const EMPTY_HUB := World(map[], map[], 0, map[], {}, map[], {}, map[], {}, {})

  lemma InitHolds()
    ensures Init(EMPTY_HUB)
  {
  }

  lemma InitIsInv(w: World)
    requires Init(w)
    ensures Inv(w)
  {
    forall n | n in w.ams && RefOf(w, n).Some? ensures RefOk(w, n, RefOf(w, n).value) {
      assert Reserved(w, n, w.ams[n]);
    }
  }

  /** The invariant holds throughout every run. */
  lemma {:induction false} RunKeepsInv(w: World, es: seq<Event>)
    requires Init(w) && IsRun(w, es)
    ensures Inv(After(w, es))
    decreases |es|
  {
    if es == [] {
      InitIsInv(w);
    } else {
      RunKeepsInv(w, es[..|es| - 1]);
      StepKeepsInv(After(w, es[..|es| - 1]), es[|es| - 1]);
    }
  }

  /** A state that some run gets to. */
  ghost predicate Reachable(v: World) {
    exists w, es :: Init(w) && IsRun(w, es) && After(w, es) == v
  }

  lemma ReachableIsInv(v: World)
    requires Reachable(v)
    ensures Inv(v)
  {
    var w, es :| Init(w) && IsRun(w, es) && After(w, es) == v;
    RunKeepsInv(w, es);
  }

  // ---- Allocation ----------------------------------------------------------------

  /** Two AgentMachines that have not given up their Agent never reference the
      same one, and a referenced Agent is labelled for its holder, unless the
      holder has unbound it or it was reserved before Agents were labelled. */
  lemma ExclusiveAllocation(v: World, m: string, k: Key)
    requires Reachable(v) && m in v.ams && RefOf(v, m) == Some(k) && m !in v.done
    ensures forall n | n in v.ams && n !in v.done && RefOf(v, n) == Some(k) :: n == m
    ensures k in v.agents
    ensures m in v.unbound ==> IsUnbound(v.agents[k].agent)
    ensures m !in v.unbound ==> LabelOf(v, k) == Some(m) || Pinned(v.agents[k].agent)
  {
    ReachableIsInv(v);
    assert RefOk(v, m, k);
  }

  /** However often the patch of the AgentMachine fails, at most one existing
      Agent carries its name, and if it references an Agent it is that one. */
  lemma OneLabelledAgent(v: World, m: string, j: Key, k: Key)
    requires Reachable(v) && Alive(v, j) && LabelOf(v, j) == Some(m)
    ensures Alive(v, k) && LabelOf(v, k) == Some(m) ==> k == j
    ensures RefOf(v, m).Some? ==> RefOf(v, m) == Some(j)
  {
    ReachableIsInv(v);
    assert RefOf(v, m).Some? ==> RefOk(v, m, RefOf(v, m).value);
  }

  /** A claim takes an Agent that nobody else holds, and not for an AgentMachine
      that already has one. */
  lemma ClaimIsFresh(v: World, m: string, act: Act, n: string)
    requires Reachable(v) && act.Claim? && OwnEnabled(v, m, act)
    ensures !Holds(v, n, act.agent) && RefOf(v, m) == None
  {
    ReachableIsInv(v);
    assert RefOf(v, n) == Some(act.agent) ==> RefOk(v, n, act.agent);
  }

  /** Relabelling changes nothing but for an Agent reserved before labels. */
  lemma RelabelOnlyPinned(v: World, m: string, k: Key)
    requires Reachable(v) && OwnEnabled(v, m, Relabel(k))
    ensures LabelOf(v, k) == Some(m) || (Pinned(v.agents[k].agent) && LabelOf(v, k) == None)
  {
    ReachableIsInv(v);
    assert LabelOf(v, k) != Some(m) ==> RefOk(v, m, k);
  }

  // ---- Agents over time ------------------------------------------------------------

  /** Agents do not disappear, deleted ones do not come back, versions grow and stay
      recorded. */
  ghost predicate Ages(w: World, w': World) {
    && (forall k | k in w.agents :: k in w'.agents && (Alive(w', k) ==> Alive(w, k)) && w.agents[k].version <= w'.agents[k].version)
    && (forall v | v in w.history :: v in w'.history && w'.history[v] == w.history[v])
  }

  lemma AgesPut(w: World, k: Key, a: Agent)
    requires HistoryOk(w) && (k in w.agents ==> Alive(w, k))
    ensures Ages(w, PutAgent(w, k, a))
  {
  }

  lemma AgesKept(w: World, w': World)
    ensures w'.agents == w.agents && w'.history == w.history ==> Ages(w, w')
  {
  }

  lemma AgesOwnStep(w: World, n: string, act: Act)
    requires HistoryOk(w) && OwnEnabled(w, n, act)
    ensures Ages(w, OwnApply(w, n, act))
  {
    hide HistoryOk, Claimed, Synced, Relabelled, Unbound, IsValid, Consistent, FromAgent, ReasonHolds, Backs, MayStore;
    AgesKept(w, OwnApply(w, n, act));
    match act
    case Claim(k, ns, cluster, data) => AgesPut(w, k, Claimed(w.agents[k].agent, n, ns, cluster, data));
    case Sync(k, data) => AgesPut(w, k, Synced(w.agents[k].agent, data));
    case Relabel(k) => AgesPut(w, k, Relabelled(w.agents[k].agent, n));
    case Unbind(k) => AgesPut(w, k, Unbound(w.agents[k].agent));
    case _ =>
  }

  lemma AgesStep(w: World, e: Event)
    requires HistoryOk(w) && Enabled(w, e)
    ensures Ages(w, Apply(w, e))
  {
    hide HistoryOk, OwnEnabled, OwnApply, Consistent, NamespaceFits, Pinned, SameOwnership, HookOff, Early, Finished;
    AgesKept(w, Apply(w, e));
    match e
    case Own(n, act) => AgesOwnStep(w, n, act);
    case AgentCreated(k, a) => AgesPut(w, k, a);
    case AgentChanged(k, a) => AgesPut(w, k, a);
    case _ =>
  }

  lemma AgesJoin(a: World, b: World, c: World)
    requires Ages(a, b) && Ages(b, c)
    ensures Ages(a, c)
  {
  }

  lemma {:induction false} AgesOverRun(start: World, es: seq<Event>, es': seq<Event>)
    requires Init(start) && IsRun(start, es') && es <= es'
    ensures Ages(After(start, es), After(start, es'))
    decreases |es'|
  {
    if es != es' {
      hide Init, Inv, Enabled, Apply, Ages;
      var front, e := es'[..|es'| - 1], es'[|es'| - 1];
      LastStep(start, es');
      AgesOverRun(start, es, front);
      RunKeepsInv(start, front);
      InvHistory(After(start, front));
      AgesStep(After(start, front), e);
      AgesJoin(After(start, es), After(start, front), After(start, es'));
    }
  }

  lemma InvHistory(w: World)
    requires Inv(w)
    ensures HistoryOk(w)
  {
  }

  // ---- Readiness -------------------------------------------------------------------

  /** In every reachable state a ready AgentMachine has an Agent, all five
      conditions are True, its provider ID names the Agent, and its conditions
      have one entry per type. */
  lemma ReadyMeansReserved(v: World, m: string)
    requires Reachable(v) && m in v.ams
    ensures var am := v.ams[m].managed;
            && (am.ready ==>
                  && am.agentRef.Some? && am.providerID == Some("agent://" + am.agentRef.value.name)
                  && forall t | t in {AgentReserved, AgentSpecSynced, AgentValidated, AgentRequirementsMet, AgentInstalled} ::
                       StatusOf(am.conditions, t) == Some(True))
            && (am.providerID.Some? <==> am.agentRef.Some?)
            && UniqueTypes(am.conditions)
  {
    ReachableIsInv(v);
    assert MachineOk(v, m, v.ams[m]);
  }

  // ---- Deletion ----------------------------------------------------------------------

  ghost predicate RemovesHook(e: Event, m: string) {
    e.Own? && e.name == m && e.act.RemoveHook?
  }

  /** An AgentMachine counts as done only after it took the hook off: at that point
      everything that a removal needs held, and then the Machine had no hook. */
  lemma {:induction false} DoneMeansHookRemoved(w: World, es: seq<Event>, m: string) returns (i: nat)
    requires Init(w) && IsRun(w, es) && m in After(w, es).done
    ensures i < |es| && RemovesHook(es[i], m) && Enabled(After(w, es[..i]), es[i])
    ensures HookGone(Apply(After(w, es[..i]), es[i]), es[i].act.machine)
    decreases |es|
  {
    var front := es[..|es| - 1];
    if RemovesHook(es[|es| - 1], m) {
      i := |es| - 1;
      PrefixIsRun(w, es, i);
      RemovalTakesHook(After(w, es[..i]), es[i], m);
    } else {
      StepDone(After(w, front), es[|es| - 1], m);
      i := DoneMeansHookRemoved(w, front, m);
      assert front[..i] == es[..i];
    }
  }

  lemma RemovalTakesHook(v: World, e: Event, m: string)
    requires Enabled(v, e) && RemovesHook(e, m)
    ensures HookGone(Apply(v, e), e.act.machine)
  {
  }

  /** The AgentMachine is stored paused and deleting. */
  predicate PausedInDeletion(w: World, m: string) {
    m in w.ams && w.ams[m].paused && w.ams[m].deleting
  }

  lemma {:induction false} PausedDeletionHappened(w: World, es: seq<Event>, m: string) returns (j: nat)
    requires Init(w) && IsRun(w, es) && m in After(w, es).pausedDeletions
    ensures j <= |es| && PausedInDeletion(After(w, es[..j]), m)
    decreases |es|
  {
    if es == [] {
      j := 0;
      InitPaused(w, m);
    } else {
      hide Init, Enabled, Apply, PausedInDeletion;
      var front := es[..|es| - 1];
      LastStep(w, es);
      PausedStep(After(w, front), es[|es| - 1], m);
      assert es[..|es|] == es;
      if PausedInDeletion(After(w, es), m) {
        j := |es|;
      } else {
        j := PausedDeletionHappened(w, front, m);
        assert front[..j] == es[..j];
      }
    }
  }

  lemma InitPaused(w: World, m: string)
    requires Init(w)
    ensures m in w.pausedDeletions <==> PausedInDeletion(w, m)
  {
  }

  lemma PausedStep(v: World, e: Event, m: string)
    requires Enabled(v, e) && m in Apply(v, e).pausedDeletions
    ensures m in v.pausedDeletions || PausedInDeletion(Apply(v, e), m)
  {
    hide OwnEnabled;
  }

  /** The version that `unbound` keeps is the one that an unbind of the AgentMachine
      wrote. */
  lemma {:induction false} UnboundMeansUnbind(w: World, es: seq<Event>, m: string) returns (j: nat)
    requires Init(w) && IsRun(w, es) && m in After(w, es).unbound
    ensures j < |es| && es[j].Own? && es[j].name == m && es[j].act.Unbind?
    ensures After(w, es[..j]).clock == After(w, es).unbound[m]
    decreases |es|
  {
    var front, e := es[..|es| - 1], es[|es| - 1];
    if e.Own? && e.name == m && e.act.Unbind? {
      j := |es| - 1;
    } else {
      StepUnbound(After(w, front), e, m);
      j := UnboundMeansUnbind(w, front, m);
      assert front[..j] == es[..j];
    }
  }

  lemma StepUnbound(w: World, e: Event, m: string)
    requires Enabled(w, e) && !(e.Own? && e.name == m && e.act.Unbind?) && m in Apply(w, e).unbound
    ensures m in w.unbound && w.unbound[m] == Apply(w, e).unbound[m]
  {
  }

  /** The Agent has been given back: it does not exist, or a version not older than
      the unbind shows its host released, without label and cluster, and so is the
      stored Agent still without them. */
  ghost predicate GivenBack(v: World, m: string, k: Key) {
    !Alive(v, k) ||
    (&& m in v.unbound && IsUnbound(v.agents[k].agent)
     && exists n | n in v.history :: v.unbound[m] <= n && v.history[n].key == k && IsUnbound(v.history[n].agent)
                                     && Released(v.history[n].agent.status.state))
  }

  /** Unless an AgentMachine was stored paused and deleting before, every removal of
      the hook of its Machine comes once the Machine has come to the hook, and only
      if there is no Agent or it has been given back; and it does remove the hook. */
  lemma UnpausedRemoval(w: World, es: seq<Event>, i: nat, m: string)
    requires Init(w) && IsRun(w, es) && i < |es| && RemovesHook(es[i], m)
    requires forall j | 0 <= j <= i :: !PausedInDeletion(After(w, es[..j]), m)
    ensures var v, key := After(w, es[..i]), es[i].act.machine;
            && HookGone(After(w, es[..i + 1]), key)
            && (key in v.machines ==>
                  v.machines[key].deletingReason == Some(WAITING_FOR_HOOK) || v.machines[key].hookSucceeded != None)
            && (m in v.ams ==>
                  OwnerKey(v.ams[m]) == Some(key) && (RefOf(v, m) == None || GivenBack(v, m, RefOf(v, m).value)))
  {
    hide Init, Inv, PausedInDeletion, GivenBack;
    var before, upto := es[..i], es[..i + 1];
    hide IsRun, Enabled, Apply;
    PrefixIsRun(w, es, i);
    var v := After(w, before);
    assert upto[..i] == before;
    RunKeepsInv(w, before);
    assert forall j | 0 <= j <= i :: before[..j] == es[..j];
    if m in v.pausedDeletions { var _ := PausedDeletionHappened(w, before, m); }
    RemovalMeans(v, es[i], m);
  }

  lemma RemovalMeans(v: World, e: Event, m: string)
    requires Inv(v) && Enabled(v, e) && RemovesHook(e, m) && m !in v.pausedDeletions
    ensures HookGone(Apply(v, e), e.act.machine)
    ensures e.act.machine in v.machines ==> !Early(v.machines[e.act.machine])
    ensures m in v.ams ==>
      OwnerKey(v.ams[m]) == Some(e.act.machine) && (RefOf(v, m) == None || GivenBack(v, m, RefOf(v, m).value))
  {
    hide Inv, GivenBack, Early, IsUnbound;
    RemovalTakesHook(v, e, m);
    if m in v.ams && RefOf(v, m).Some? { ReasonMeansGivenBack(v, m, e.act.reason); }
  }

  lemma ReasonMeansGivenBack(v: World, m: string, r: Reason)
    requires Inv(v) && m in v.ams && RefOf(v, m).Some? && ReasonHolds(v, m, r)
    ensures r.PausedDeletion? || GivenBack(v, m, RefOf(v, m).value)
  {
    assert RefOk(v, m, RefOf(v, m).value);
    if r.AgentReleased? { assert r.version in v.history; }
  }

  lemma StepDone(w: World, e: Event, m: string)
    requires Enabled(w, e) && !RemovesHook(e, m)
    ensures m in Apply(w, e).done <==> m in w.done
  {
  }

  /** The finalizer goes, or the AgentMachine with it, only by its own patch, and
      only after its hook was removed, with its Machine gone, or with a Machine whose
      hook succeeded and that no longer waits at it. */
  lemma FinalizerKept(w: World, es: seq<Event>, v: World, e: Event, m: string)
    requires Init(w) && IsRun(w, es) && v == After(w, es) && Enabled(v, e)
    requires FinalizerStored(v, m) && !FinalizerStored(Apply(v, e), m)
    ensures e.Own? && e.name == m && e.act.Save?
    ensures (exists i | 0 <= i < |es| :: RemovesHook(es[i], m)) ||
      (var key := OwnerKey(v.ams[m]);
       && key.Some?
       && (key.value in v.machines ==>
             && v.machines[key.value].hookSucceeded == Some(True)
             && v.machines[key.value].deletingReason != Some(WAITING_FOR_HOOK)))
  {
    RunKeepsInv(w, es);
    assert MachineOk(v, m, v.ams[m]);
    FinalizerStep(v, e, m);
    if m in v.done {
      var i := DoneMeansHookRemoved(w, es, m);
    }
  }

  predicate FinalizerStored(w: World, m: string) {
    m in w.ams && w.ams[m].managed.finalizer
  }

  lemma FinalizerStep(v: World, e: Event, m: string)
    requires Enabled(v, e) && m in v.ams && v.ams[m].managed.finalizer
    requires m in v.names
    requires m !in Apply(v, e).ams || !Apply(v, e).ams[m].managed.finalizer
    ensures e.Own? && e.name == m && e.act.Save? && (m in v.done || Settled(v, v.ams[m]))
  {
  }

  /** When a stored AgentMachine that is not a paused one takes the hook off
      because its Agent was released or is missing, no existing Agent carries
      its name any more: nothing stays bound to it. */
  lemma ReleaseIsComplete(v: World, m: string, act: Act, k: Key)
    requires Reachable(v) && act.RemoveHook? && OwnEnabled(v, m, act)
    requires act.reason == AgentMissing(k) || (act.reason.AgentReleased? && act.reason.agent == k)
    requires m in v.ams && m !in v.done
    ensures NobodyLabelled(v, m)
    ensures forall n | n in v.ams && n !in v.done && n != m :: RefOf(v, n) != Some(k)
  {
    ReachableIsInv(v);
    assert RefOk(v, m, k);
  }

  /** An Agent that was unbound and whose hook is still on has no trace of a binding,
      in every reachable state. */
  lemma ReleasingIsUnbound(v: World, m: string, k: Key)
    requires Reachable(v) && m in v.unbound && RefOf(v, m) == Some(k)
    ensures k in v.agents && IsUnbound(v.agents[k].agent)
  {
    ReachableIsInv(v);
    assert RefOk(v, m, k);
  }

  /** From its unbind on, through any steps of anybody, the Agent stays unbound until
      the AgentMachine has taken its hook off. */
  lemma {:induction false} NeverRebound(w: World, es: seq<Event>, more: seq<Event>, m: string)
    requires Init(w) && IsRun(w, es + more) && m in After(w, es).unbound
    ensures var v := After(w, es + more);
            m in v.done ||
            (m in v.unbound && (RefOf(v, m).Some? ==> RefOf(v, m).value in v.agents && IsUnbound(v.agents[RefOf(v, m).value].agent)))
    decreases |more|
  {
    var all := es + more;
    if more == [] {
      assert all == es;
    } else {
      var front := more[..|more| - 1];
      assert all[..|all| - 1] == es + front;
      NeverRebound(w, es, front, m);
      ReleaseGoesOn(After(w, es + front), all[|all| - 1], m);
    }
    var v := After(w, all);
    if m in v.unbound && RefOf(v, m).Some? { ReleasingIsUnbound(v, m, RefOf(v, m).value); }
  }

  lemma ReleaseGoesOn(v: World, e: Event, m: string)
    requires Enabled(v, e) && (m in v.done || m in v.unbound)
    ensures m in Apply(v, e).done || m in Apply(v, e).unbound
  {
  }

  /** How far the release of the Agent of an AgentMachine has come, read off the
      stored Agent and the hook of the Machine: bound, unbound, released, hook gone. */
  ghost function Phase(w: World, m: string): nat {
    if m !in w.ams || OwnerKey(w.ams[m]).None? || HookGone(w, OwnerKey(w.ams[m]).value) then 3
    else if RefOf(w, m) == None || !Alive(w, RefOf(w, m).value) then 2
    else
      var a := w.agents[RefOf(w, m).value].agent;
      if !IsUnbound(a) then 0 else if Released(a.status.state) then 2 else 1
  }

  /** While the Machine is being deleted, no write of any reconcile takes the release
      of a stored Agent back: nobody binds it again, and nobody puts the hook back. */
  lemma ReleaseAdvances(v: World, n: string, act: Act, m: string)
    requires Reachable(v) && OwnEnabled(v, n, act)
    requires m in v.ams && RefOf(v, m).Some? && OwnerKey(v.ams[m]).Some?
    requires var key := OwnerKey(v.ams[m]).value;
             (key in v.machines ==> v.machines[key].deleting) && (m in v.done ==> HookGone(v, key))
    ensures Phase(OwnApply(v, n, act), m) >= Phase(v, m)
  {
    hide Inv, OwnEnabled, OwnApply, HookGone;
    ReachableIsInv(v);
    var k := RefOf(v, m).value;
    StaysOwned(v, n, act, m);
    InvHistory(v);
    AgesOwnStep(v, n, act);
    if HookGone(v, OwnerKey(v.ams[m]).value) {
      HookStaysOff(v, n, act, m);
    } else if Alive(v, k) && IsUnbound(v.agents[k].agent) {
      NobodyBinds(v, n, act, m, k);
    }
  }

  lemma StaysOwned(v: World, n: string, act: Act, m: string)
    requires Inv(v) && OwnEnabled(v, n, act) && m in v.ams && RefOf(v, m).Some?
    ensures RefOf(v, m).value in v.agents
    ensures m in OwnApply(v, n, act).ams ==>
      OwnerKey(OwnApply(v, n, act).ams[m]) == OwnerKey(v.ams[m]) && RefOf(OwnApply(v, n, act), m) == RefOf(v, m)
  {
    assert RefOk(v, m, RefOf(v, m).value);
  }

  lemma HookStaysOff(v: World, n: string, act: Act, m: string)
    requires OwnEnabled(v, n, act) && m in v.ams && OwnerKey(v.ams[m]).Some?
    requires var key := OwnerKey(v.ams[m]).value; HookGone(v, key) && (key in v.machines ==> v.machines[key].deleting)
    ensures Phase(OwnApply(v, n, act), m) == 3
  {
  }

  /** An Agent under release that shows no binding gets none from any reconcile, and
      its host's state is not written either. */
  lemma NobodyBinds(v: World, n: string, act: Act, m: string, k: Key)
    requires Inv(v) && OwnEnabled(v, n, act)
    requires m in v.ams && m !in v.done && RefOf(v, m) == Some(k) && Alive(v, k) && IsUnbound(v.agents[k].agent)
    ensures var v' := OwnApply(v, n, act);
            Alive(v', k) && IsUnbound(v'.agents[k].agent)
            && v'.agents[k].agent.status == v.agents[k].agent.status
            && (m in v'.ams ==> RefOf(v', m) == Some(k))
  {
    hide HistoryOk, LabelsUnique, Exclusive, AnnotationsOk, MachineOk, Consistent, FromAgent;
    assert RefOk(v, m, k);
    assert m in v.unbound;
    HoldingMeansBound(v, n, k);
  }

  /** Who holds an Agent holds one that shows a binding. */
  lemma HoldingMeansBound(v: World, n: string, k: Key)
    requires Inv(v)
    ensures Holds(v, n, k) ==> k in v.agents && !IsUnbound(v.agents[k].agent)
  {
    if RefOf(v, n) == Some(k) { assert RefOk(v, n, k); }
  }
}
