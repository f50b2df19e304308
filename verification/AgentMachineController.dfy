/** The AgentMachine reconcile: deletion hook first, then allocation, bootstrap
    sync and status. Other actors may take steps before every API call. */
module AgentMachineController {
  import opened Wrappers
  import opened Hub
  import opened AgentEdits
  import opened AgentMachines
  import opened Protocol
  import opened Rely
  import opened ApiServer
  import opened Runs
  import opened Session
  import opened Bootstrap
  import opened Delivery

  /** What the deletion hook tells the reconcile to do. */
  datatype HookResult = Continue | Stop(requeue: bool) | HookFailed

  /** The Machine is at the hook, and the AgentMachine is not paused. */
  predicate AtHook(given: AgentMachine, m: Machine) {
    !given.paused && !Early(m) && !Finished(m)
  }

  predicate IsReleaseAct(a: Act) {
    a.AddHook? || a.Unbind? || a.RemoveHook?
  }

  /** The refused writes for the valid Agents of a list, in order. */
  function Refused(items: seq<Item>): seq<Attempt> {
    if items == [] then []
    else
      var n := |items| - 1;
      Refused(items[..n]) + if IsValid(items[n].agent) then [Attempt(items[n].key, items[n].version, false)] else []
  }

  predicate NoneValid(items: seq<Item>) {
    forall it | it in items :: !IsValid(it.agent)
  }

  /** List by list, one after the other. */
  lemma {:induction false} RefusedJoin(a: seq<Item>, b: seq<Item>)
    ensures Refused(a + b) == Refused(a) + Refused(b)
    decreases |b|
  {
    if b == [] {
      assert a + b == a;
    } else {
      var n := |b| - 1;
      RefusedJoin(a, b[..n]);
      assert (a + b)[..|a + b| - 1] == a + b[..n];
    }
  }

  /** An attempt for every item whose Agent is approved and ends up validated,
      connected and not bound, refused, and for no other. */
  lemma {:induction false} RefusedAre(items: seq<Item>, t: Attempt)
    ensures t in Refused(items) <==> exists it | it in items ::
      it.agent.spec.approved
      && EndsWith(it.agent.status.conditions, Validated, True)
      && EndsWith(it.agent.status.conditions, Connected, True)
      && EndsWith(it.agent.status.conditions, Bound, False)
      && t == Attempt(it.key, it.version, false)
  {
    if items != [] {
      var n := |items| - 1;
      RefusedAre(items[..n], t);
      IsValidIff(items[n].agent);
      hide IsValid, EndsWith;
      assert forall it :: it in items <==> it in items[..n] || it == items[n];
    }
  }

  /** What the patch carries when the Machine lookup failed: the finalizer of a deleted
      AgentMachine is dropped. */
  function AfterFailedLookup(am: AgentMachine): Managed {
    if am.deleting then am.managed.(finalizer := false) else am.managed
  }

  /** The first owner that is a Machine. */
  method FindMachineOwner(namespace: string, owners: seq<OwnerRef>) returns (key: Option<Key>)
    ensures key == MachineKey(namespace, owners)
  {
    for i := 0 to |owners|
      invariant MachineKey(namespace, owners) == MachineKey(namespace, owners[i..])
    {
      if owners[i].kind == "Machine" && owners[i].apiVersion in MACHINE_API_VERSIONS {
        return Some(Key(namespace, owners[i].name));
      }
      assert owners[i..][1..] == owners[i + 1..];
    }
    return None;
  }

  class Reconciler {
    const api: Server

    constructor (api: Server)
      ensures this.api == api
    {
      this.api := api;
    }

    /** The reconcile of this object is under way: what it read still stands, and
        what it has in memory may be stored. */
    ghost predicate Ongoing(am: AgentMachineObject)
      reads this, api, am
    {
      api.Valid() && Reading(api.world, am.name, am.given) && CanSave(api.world, am.name, am.given, am.Content())
    }

    /** Others run before the next API call. */
    method Yield(am: AgentMachineObject)
      requires Ongoing(am)
      modifies api`world, api`events
      ensures Ongoing(am) && Relies(am.name, old(api.world), api.world)
      ensures api.Acts(am.name) == old(api.Acts(am.name)) && old(api.events) <= api.events
    {
      api.Interfere(am.name);
      ReadingStays(old(api.world), api.world, am.name, am.given);
      CanSaveStays(old(api.world), api.world, am.name, am.given, am.Content());
    }

    method WriteMachine(am: AgentMachineObject, key: Key, read: Machine, updated: Machine, act: Act) returns (ok: bool)
      requires Ongoing(am) && (act.AddHook? || act.RemoveHook?)
      requires key in api.world.machines && api.world.machines[key] == read ==>
        OwnEnabled(api.world, am.name, act) && OwnApply(api.world, am.name, act).machines == api.world.machines[key := updated]
      modifies api
      ensures Ongoing(am) && api.start == old(api.start) && old(api.events) <= api.events
      ensures api.attempts == old(api.attempts)
      ensures ok ==>
        && old(key in api.world.machines && api.world.machines[key] == read && OwnEnabled(api.world, am.name, act))
        && api.world == OwnApply(old(api.world), am.name, act)
        && api.Acts(am.name) == old(api.Acts(am.name)) + [act] && api.faults == old(api.faults)
      ensures !ok ==> api.world == old(api.world) && api.faults > old(api.faults)
                      && api.Acts(am.name) == old(api.Acts(am.name))
    {
      ok := api.UpdateMachine(am.name, key, read, updated, act);
      if ok { OwnKeeps(old(api.world), am.name, act, am.given, am.Content()); }
    }

    // ---- Deletion hook ---------------------------------------------------------

    /** removeHookAndFinalizer: takes the hook off if the Machine as read has it,
        then drops the finalizer. Afterwards both are gone, or both are as before. */
    method RemoveHookAndFinalizer(am: AgentMachineObject, key: Key, m: Machine, reason: Reason) returns (ok: bool)
      requires Ongoing(am) && OwnerKey(am.given) == Some(key) && MachineSeen(api.world, key, m)
      requires DELETE_HOOK in m.annotations || m.deleting
      requires reason.PausedDeletion? || !Early(m)
      requires ReasonHolds(api.world, am.name, reason) && (reason.AgentMissing? ==> reason.agent in api.world.agents)
      modifies api, am`finalizer
      ensures Ongoing(am) && api.start == old(api.start) && old(api.events) <= api.events
      ensures ok ==>
        && BothGone(api.world, am, key, m) && api.faults == old(api.faults)
        && api.Acts(am.name) == old(api.Acts(am.name)) + [RemoveHook(key, DELETE_HOOK in m.annotations, reason)]
      ensures !ok ==> am.finalizer == old(am.finalizer) && api.faults > old(api.faults)
                      && api.Acts(am.name) == old(api.Acts(am.name))
                      && SameRelease(am.name, old(api.world), api.world)
    {
      hide Protocol.Inv, Runs.Init, Runs.IsRun, Runs.After, Session.Reading, ApiServer.ActsOf;
      hide Protocol.ReasonHolds, Session.Backed, Protocol.FromAgent, AgentMachines.Consistent;
      Yield(am);
      ReasonStays(old(api.world), api.world, am.name, am.given, reason);
      MachineSeenStays(old(api.world), api.world, am.name, key, m);
      RemoveHookIsEnabled(api.world, am.name, am.given, key, m, reason);
      ok := TakeHookOff(am, key, m, reason);
      if !ok { return; }
      FinalizerSet(api.world, am.name, am.given, am.Content(), false);
      am.finalizer := false;
    }

    method TakeHookOff(am: AgentMachineObject, key: Key, m: Machine, reason: Reason) returns (ok: bool)
      requires Ongoing(am) && MachineSeen(api.world, key, m) && (DELETE_HOOK in m.annotations || m.deleting)
      requires HookOff(m) ==> RemoveHookEnabled(api.world, am.name, key, false, reason)
      requires key in api.world.machines && DELETE_HOOK in api.world.machines[key].annotations ==>
        RemoveHookEnabled(api.world, am.name, key, true, reason)
      modifies api
      ensures Ongoing(am) && api.start == old(api.start) && old(api.events) <= api.events
      ensures if ok then api.faults == old(api.faults) else api.faults > old(api.faults) && api.world == old(api.world)
      ensures ok ==> am.name in api.world.done && HookGone(api.world, key)
      ensures ok && m.deleting && key in api.world.machines ==> HookOff(api.world.machines[key])
      ensures api.Acts(am.name) == old(api.Acts(am.name)) +
        if ok then [RemoveHook(key, DELETE_HOOK in m.annotations, reason)] else []
    {
      hide Protocol.Inv, Runs.Init, Runs.IsRun, Runs.After, Session.Reading, Session.CanSave, ApiServer.ActsOf;
      hide Protocol.ReasonHolds;
      if DELETE_HOOK in m.annotations {
        ok := WriteMachine(am, key, m, RemoveHookFrom(m), RemoveHook(key, true, reason));
      } else {
        ghost var w := api.world;
        api.NoteHookAbsent(am.name, key, reason);
        OwnKeeps(w, am.name, RemoveHook(key, false, reason), am.given, am.Content());
        ok := true;
      }
    }

    /** Reads an Agent and writes one back: the version ties the two together. */
    method WriteAgent(am: AgentMachineObject, it: Item, updated: Agent, act: Act) returns (ok: bool)
      requires Ongoing(am) && Recorded(api.world, it)
      requires act.Claim? || act.Sync? || act.Unbind?
      requires act.Unbind? || act.Claim? ==> am.agentRef == am.given.managed.agentRef
      requires Alive(api.world, it.key) && api.world.agents[it.key].agent == it.agent && Admitted(api.world, it.key, updated) ==>
        OwnEnabled(api.world, am.name, act) && OwnApply(api.world, am.name, act).agents == PutAgent(api.world, it.key, updated).agents
      modifies api
      ensures Ongoing(am) && api.start == old(api.start) && old(api.events) <= api.events
      ensures api.attempts == old(api.attempts) + [Attempt(it.key, it.version, ok)] && api.listed == old(api.listed)
      ensures ok ==>
        && old(Alive(api.world, it.key) && api.world.agents[it.key].agent == it.agent && OwnEnabled(api.world, am.name, act))
        && api.world == OwnApply(old(api.world), am.name, act)
        && api.Acts(am.name) == old(api.Acts(am.name)) + [act] && api.faults == old(api.faults)
      ensures !ok ==> api.world == old(api.world) && api.faults > old(api.faults)
                      && api.Acts(am.name) == old(api.Acts(am.name))
    {
      if Current(api.world, it.key, it.version) { VersionMeansContent(api.world, it); }
      ok := api.UpdateAgent(am.name, it.key, it.version, updated, act);
      if ok { OwnKeeps(old(api.world), am.name, act, am.given, am.Content()); }
    }

    /** Adds the delete hook to a Machine that is not being deleted. */
    method EnsureHook(am: AgentMachineObject, key: Key, m: Machine) returns (ok: bool, m': Machine)
      requires Ongoing(am) && MachineSeen(api.world, key, m)
      modifies api
      ensures Ongoing(am) && api.start == old(api.start) && old(api.events) <= api.events
      ensures Relies(am.name, old(api.world), api.world) && MachineSeen(api.world, key, m')
      ensures m' == if ok && !m.deleting then m.(annotations := m'.annotations) else m
      ensures ok && !m.deleting ==> DELETE_HOOK in m'.annotations
      ensures ok ==> api.faults == old(api.faults)
      ensures !ok ==> api.faults > old(api.faults)
      ensures api.Acts(am.name) == old(api.Acts(am.name)) +
        (if ok && DELETE_HOOK !in m.annotations && !m.deleting then [AddHook(key)] else [])
    {
      hide Protocol.Inv, Runs.Init, Runs.IsRun, Runs.After, Session.Reading, Session.CanSave, ApiServer.ActsOf;
      ok, m' := true, m;
      if DELETE_HOOK !in m.annotations && !m.deleting {
        Yield(am);
        MachineSeenStays(old(api.world), api.world, am.name, key, m);
        ghost var w := api.world;
        ok := WriteMachine(am, key, m, AddHookTo(m), AddHook(key));
        if ok {
          m' := AddHookTo(m);
          AddHookKeepsRely(am.name, old(api.world), w, key);
        }
      } else {
        ReliesReflexive(am.name, api.world);
      }
    }

    lemma AddHookKeepsRely(name: string, before: World, w: World, key: Key)
      requires Relies(name, before, w) && OwnEnabled(w, name, AddHook(key))
      ensures Relies(name, before, OwnApply(w, name, AddHook(key)))
    {
      AddHookRelies(name, w, name, key);
      ReliesTransitive(name, before, w, OwnApply(w, name, AddHook(key)));
    }

    /** The Agent is unbound: the write if it is still labelled or bound, else
        nothing. `version` is the version that shows it. */
    method UnbindAgent(am: AgentMachineObject, key: Key, m: Machine, it: Item) returns (ok: bool, version: nat)
      requires Ongoing(am) && Recorded(api.world, it) && MachineSeen(api.world, key, m)
      requires AtStoredAgent(api.world, am, key, it.key) && !Early(m)
      requires IsUnbound(it.agent) ==> am.name in api.world.unbound && api.world.unbound[am.name] <= it.version
      modifies api
      ensures Ongoing(am) && api.start == old(api.start) && old(api.events) <= api.events
      ensures ok ==> api.faults == old(api.faults)
                     && (Released(it.agent.status.state) ==>
                           ReasonHolds(api.world, am.name, AgentReleased(it.key, version)))
      ensures !ok ==> api.faults > old(api.faults)
      ensures am.name !in api.world.done && (ok ==> am.name in api.world.unbound)
      ensures MachineSeen(api.world, key, m)
      ensures api.Acts(am.name) == old(api.Acts(am.name)) +
        (if ok && !IsUnbound(it.agent) then [Unbind(it.key)] else [])
    {
      hide Protocol.Inv, Runs.Init, Session.CanSave, Runs.IsRun, Runs.After;
      ok, version := true, it.version;
      if RefLabel(it.agent).Some? || it.agent.spec.clusterRef.Some? {
        Yield(am);
        MachineSeenStays(old(api.world), api.world, am.name, key, m);
        ghost var w := api.world;
        version := api.world.clock;
        if Alive(w, it.key) { UnbindIsEnabled(w, am.name, am.given, key, m, it.key); }
        ok := WriteAgent(am, it, Unbound(it.agent), Unbind(it.key));
        if ok { UnbindShowsRelease(w, am.name, it.key); }
      }
    }

    /** The cleanup of an AgentMachine whose Machine waits at the hook: unbind the
        Agent, then take the hook off once the host is released. `seen` is the
        Agent as it was read. */
    method ReleaseAgent(am: AgentMachineObject, key: Key, m: Machine) returns (r: HookResult, ghost seen: AgentRead)
      requires Ongoing(am) && MachineSeen(api.world, key, m) && AtHook(am.given, m)
      requires DELETE_HOOK in m.annotations || m.deleting
      requires am.agentRef.Some? && AtStoredAgent(api.world, am, key, am.agentRef.value) && am.finalizer
      modifies api, am`finalizer
      ensures Ongoing(am) && api.start == old(api.start) && old(api.events) <= api.events
      ensures r != Continue && (r.HookFailed? <==> api.faults > old(api.faults)) && api.faults >= old(api.faults)
      ensures ReleaseActs(old(api.Acts(am.name)), api.Acts(am.name))
      ensures Justified(am.given, Some(m), Some(seen), old(api.Acts(am.name)), api.Acts(am.name))
      ensures HasRemoval(old(api.Acts(am.name)), api.Acts(am.name)) ==> BothGone(api.world, am, key, m)
      ensures !HasRemoval(old(api.Acts(am.name)), api.Acts(am.name)) ==> am.finalizer && am.name !in api.world.done
      ensures !r.HookFailed? ==>
        && (HasRemoval(old(api.Acts(am.name)), api.Acts(am.name)) <==> Finishable(am.given, Some(seen)))
        && (r.requeue <==> !Finishable(am.given, Some(seen)))
        && (r.requeue ==> am.name in api.world.unbound)
    {
      hide Rely.SameMachine, Rely.MachineLater, Rely.AgentLater, Rely.HistoryGrows, Protocol.FromAgent, Protocol.LabelledOnly;
      hide Protocol.Inv, Runs.Init, Runs.IsRun, Runs.After, Session.CanSave, Session.Reading, Session.MachineSeen;
      hide Protocol.ReasonHolds, ApiServer.ActsOf;
      var k := am.agentRef.value;
      ghost var acts := api.Acts(am.name);
      Yield(am);
      MachineSeenStays(old(api.world), api.world, am.name, key, m);
      var read := api.GetAgent(k);
      seen := read;
      ghost var w := api.world;
      match read {
        case ReadFailed => return HookFailed, seen;
        case NotFound =>
          StoredAgentExists(w, am.name, am.given, k);
          var ok := RemoveHookAndFinalizer(am, key, m, AgentMissing(k));
          RemovalActs(am.given, Some(m), Some(seen), acts, acts, api.Acts(am.name));
          return if ok then Stop(false) else HookFailed, seen;
        case Found(v, a) =>
          UnboundByMe(w, am.name, am.given, k, v, a);
          var ok, version := UnbindAgent(am, key, m, Item(k, v, a));
          ghost var unbound := api.Acts(am.name);
          if !ok { return HookFailed, seen; }
          if !Released(a.status.state) { return Stop(true), seen; }
          ok := RemoveHookAndFinalizer(am, key, m, AgentReleased(k, version));
          RemovalActs(am.given, Some(m), Some(seen), acts, unbound, api.Acts(am.name));
          return if ok then Stop(false) else HookFailed, seen;
      }
    }

    /** handleDeletionHook. Whatever fails, it makes only release writes, and takes
        the hook off only for a paused deletion, or at the hook with nothing left to
        release. Hook and finalizer go together; a finalizer alone goes with a
        finished Machine. Unless a call fails, a reconcile at the hook ends with
        neither exactly when there is nothing left to release, and with the Agent
        unbound if there is. */
    method HandleDeletionHook(am: AgentMachineObject, key: Key, machine: Machine)
      returns (r: HookResult, ghost seen: Option<AgentRead>)
      requires Ongoing(am) && am.Content() == am.given.managed && OwnerKey(am.given) == Some(key)
      requires MachineSeen(api.world, key, machine) && Fits(api.world, am, machine)
      modifies api, am`finalizer
      ensures Ongoing(am) && api.start == old(api.start) && old(api.events) <= api.events
      ensures r.HookFailed? <==> api.faults > old(api.faults)
      ensures api.faults >= old(api.faults)
      ensures !r.HookFailed? ==> (r.Continue? <==> if am.given.paused then !am.given.deleting else Early(machine))
      ensures r.Continue? ==> am.finalizer && Relies(am.name, old(api.world), api.world)
      ensures r.Continue? && !am.given.paused ==> am.name !in api.world.unbound && am.name !in api.world.done
      ensures !r.HookFailed? && !machine.deleting && DELETE_HOOK !in machine.annotations ==>
        |api.Acts(am.name)| > |old(api.Acts(am.name))| && api.Acts(am.name)[|old(api.Acts(am.name))|] == AddHook(key)
      ensures ReleaseActs(old(api.Acts(am.name)), api.Acts(am.name))
      ensures Justified(am.given, Some(machine), seen, old(api.Acts(am.name)), api.Acts(am.name))
      ensures HasRemoval(old(api.Acts(am.name)), api.Acts(am.name)) ==> BothGone(api.world, am, key, machine)
      ensures !am.finalizer && old(am.finalizer) && !HasRemoval(old(api.Acts(am.name)), api.Acts(am.name)) ==>
        Finished(machine) && !am.given.paused
      ensures !r.HookFailed? && !am.given.paused ==>
        (r.Continue? <==> machine.deletingReason != Some(WAITING_FOR_HOOK) && machine.hookSucceeded == None)
      ensures old(am.finalizer) && !am.finalizer && !HasRemoval(old(api.Acts(am.name)), api.Acts(am.name)) ==>
        machine.deletingReason != Some(WAITING_FOR_HOOK) && machine.hookSucceeded == Some(True)
      ensures !am.given.paused && !r.HookFailed?
              && (machine.deletingReason == Some(WAITING_FOR_HOOK) || machine.hookSucceeded in {Some(False), Some(Unknown)}) ==>
        HasRemoval(old(api.Acts(am.name)), api.Acts(am.name)) || (r == Stop(true) && StoredUnbound(api.world, am))
      ensures AtHook(am.given, machine) && !r.HookFailed? ==>
        && (HasRemoval(old(api.Acts(am.name)), api.Acts(am.name)) <==> Finishable(am.given, seen))
        && (!Finishable(am.given, seen) ==> am.finalizer && am.name in api.world.unbound && r == Stop(true))
      ensures r == Stop(true) ==> AtHook(am.given, machine) && !Finishable(am.given, seen)
      ensures am.given.paused && am.given.deleting && !r.HookFailed? ==> HasRemoval(old(api.Acts(am.name)), api.Acts(am.name))
    {
      hide Rely.MachineLater, Rely.AgentLater, Rely.HistoryGrows, Protocol.FromAgent, Protocol.LabelledOnly;
      hide Protocol.Inv, Runs.Init, Runs.IsRun, Runs.After, Session.MachineSeen, ApiServer.ActsOf, Session.CanSave;
      hide Session.Reading, ReleaseActs, Justified, HasRemoval;
      seen := None;
      ghost var before := api.Acts(am.name);
      var added, m := EnsureHook(am, key, machine);
      ghost var acts, w := api.Acts(am.name), api.world;
      HookActs(am.given, Some(machine), seen, before, acts, key);
      if !added { return HookFailed, seen; }
      DeletedHasFinalizer(api.world, am.name, am.given);
      if !am.given.deleting && !am.finalizer {
        FinalizerSet(api.world, am.name, am.given, am.Content(), true);
        am.finalizer := true;
      }
      r, seen := AfterHook(am, key, m);
      ReleaseActsJoin(am.given, machine, m, seen, before, acts, api.Acts(am.name));
    }

    /** handleDeletionHook once the Machine has its hook. */
    method AfterHook(am: AgentMachineObject, key: Key, m: Machine) returns (r: HookResult, ghost seen: Option<AgentRead>)
      requires Ongoing(am) && am.Content() == am.given.managed.(finalizer := true) && OwnerKey(am.given) == Some(key)
      requires MachineSeen(api.world, key, m) && Fits(api.world, am, m) && (DELETE_HOOK in m.annotations || m.deleting)
      requires am.given.deleting ==> am.given.managed.finalizer
      modifies api, am`finalizer
      ensures Ongoing(am) && api.start == old(api.start) && old(api.events) <= api.events
      ensures r.HookFailed? <==> api.faults > old(api.faults)
      ensures api.faults >= old(api.faults)
      ensures !r.HookFailed? ==> (r.Continue? <==> if am.given.paused then !am.given.deleting else Early(m))
      ensures r.Continue? ==> am.finalizer && api.world == old(api.world)
      ensures r.Continue? && !am.given.paused ==> am.name !in api.world.unbound && am.name !in api.world.done
      ensures !r.HookFailed? && !am.given.paused ==>
        (r.Continue? <==> m.deletingReason != Some(WAITING_FOR_HOOK) && m.hookSucceeded == None)
      ensures !HasRemoval(old(api.Acts(am.name)), api.Acts(am.name)) && !am.finalizer ==>
        m.deletingReason != Some(WAITING_FOR_HOOK) && m.hookSucceeded == Some(True)
      ensures !am.given.paused && !r.HookFailed?
              && (m.deletingReason == Some(WAITING_FOR_HOOK) || m.hookSucceeded in {Some(False), Some(Unknown)}) ==>
        HasRemoval(old(api.Acts(am.name)), api.Acts(am.name)) || (r == Stop(true) && StoredUnbound(api.world, am))
      ensures ReleaseActs(old(api.Acts(am.name)), api.Acts(am.name))
      ensures Justified(am.given, Some(m), seen, old(api.Acts(am.name)), api.Acts(am.name))
      ensures HasRemoval(old(api.Acts(am.name)), api.Acts(am.name)) ==> BothGone(api.world, am, key, m)
      ensures !HasRemoval(old(api.Acts(am.name)), api.Acts(am.name)) && !am.finalizer ==> Finished(m) && !am.given.paused
      ensures AtHook(am.given, m) && !r.HookFailed? ==>
        && (HasRemoval(old(api.Acts(am.name)), api.Acts(am.name)) <==> Finishable(am.given, seen))
        && (!Finishable(am.given, seen) ==> am.finalizer && am.name in api.world.unbound && r == Stop(true))
      ensures r == Stop(true) ==> AtHook(am.given, m) && !Finishable(am.given, seen)
      ensures am.given.paused && am.given.deleting && !r.HookFailed? ==> HasRemoval(old(api.Acts(am.name)), api.Acts(am.name))
    {
      hide Rely.MachineLater, Rely.AgentLater, Rely.HistoryGrows, Protocol.FromAgent, Protocol.LabelledOnly;
      hide Protocol.Inv, Runs.Init, Runs.IsRun, Runs.After, Session.MachineSeen, ApiServer.ActsOf, Session.CanSave;
      hide ReleaseActs, Justified, HasRemoval;
      seen := None;
      ghost var acts := api.Acts(am.name);
      HookActs(am.given, Some(m), seen, acts, acts, key);
      if am.given.paused {
        if !am.given.deleting { return Continue, seen; }
        var ok := RemoveHookAndFinalizer(am, key, m, PausedDeletion);
        RemovalActs(am.given, Some(m), seen, acts, acts, api.Acts(am.name));
        return if ok then Stop(false) else HookFailed, seen;
      }
      var waiting := m.deletingReason == Some(WAITING_FOR_HOOK);
      if !waiting {
        if m.hookSucceeded == None { return Continue, seen; }
        if m.hookSucceeded == Some(True) {
          FinishedMeansSettled(api.world, am.given, key, m);
          FinalizerSet(api.world, am.name, am.given, am.Content(), false);
          am.finalizer := false;
          return Stop(false), seen;
        }
      }
      if am.agentRef == None {
        var ok := RemoveHookAndFinalizer(am, key, m, NoAgentRef);
        RemovalActs(am.given, Some(m), seen, acts, acts, api.Acts(am.name));
        return if ok then Stop(false) else HookFailed, seen;
      }
      ghost var agent;
      r, agent := ReleaseAgent(am, key, m);
      seen := Some(agent);
      UnboundIsStored(api.world, am.name, am.given);
    }

    /** The object keeps its finalizer and its Agent, which was unbound, and the stored
        Agent has neither label nor cluster. */
    ghost predicate StoredUnbound(w: World, am: AgentMachineObject)
      reads am
    {
      am.finalizer && am.agentRef == am.given.managed.agentRef && am.name in w.unbound && AgentFree(w, am.agentRef)
    }

    /** Neither finalizer nor hook is left, and a Machine that is being deleted gets
        no hook any more. */
    ghost predicate BothGone(w: World, am: AgentMachineObject, key: Key, m: Machine)
      reads am
    {
      && !am.finalizer && am.name in w.done && HookGone(w, key)
      && (m.deleting && key in w.machines ==> HookOff(w.machines[key]))
    }

    /** What a Machine read tells about the AgentMachine. */
    ghost predicate Fits(w: World, am: AgentMachineObject, m: Machine)
      reads am
    {
      && (am.name in w.done ==> Finished(m))
      && (am.name in w.unbound ==> !Early(m))
      && (am.given.managed.agentRef.Some? ==> am.given.managed.finalizer || Finished(m))
    }

    /** The stored AgentMachine references this Agent, and cannot disappear. */
    ghost predicate AtStoredAgent(w: World, am: AgentMachineObject, key: Key, k: Key)
      reads am
    {
      && am.agentRef == am.given.managed.agentRef == Some(k)
      && OwnerKey(am.given) == Some(key)
      && am.given.managed.finalizer && am.name !in w.done
    }

    // ---- Allocation --------------------------------------------------------------

    /** updateFoundAgent. `w` is the store the write met: if it was accepted, the
        Agent was at that instant what the list showed, so it was unlabelled,
        matched the selector and was valid, however old the list was. */
    method UpdateFoundAgent(am: AgentMachineObject, it: Item, cluster: Key, data: BootstrapData)
      returns (ok: bool, claimed: Item, ghost w: World)
      requires Ongoing(am) && am.agentRef.None? && am.given.managed.agentRef.None?
      requires Recorded(api.world, it) && IsCandidate(am.given, it) && NobodyLabelled(api.world, am.name)
      modifies api
      ensures Ongoing(am) && api.start == old(api.start) && old(api.events) <= api.events
      ensures Relies(am.name, old(api.world), w) && Ages(old(api.world), api.world)
      ensures SameRelease(am.name, old(api.world), api.world)
      ensures api.attempts == old(api.attempts) + [Attempt(it.key, it.version, ok)] && api.listed == old(api.listed)
      ensures ok ==>
        && w.agents[it.key].agent == it.agent && Matches(am.given.selector, it.agent.labels) && ClaimEnabled(w, am.name, it.key, am.given.namespace)
        && claimed.key == it.key
        && claimed.agent == Claimed(it.agent, am.name, am.given.namespace, cluster, data)
        && api.world == PutAgent(w, it.key, claimed.agent)
        && ClaimStands(api.world, it.key, am.name, am.given.namespace, cluster, data)
        && Recorded(api.world, claimed) && Backs(api.world, am.name, it.key)
        && api.faults == old(api.faults)
        && api.Acts(am.name) == old(api.Acts(am.name)) + [Claim(it.key, am.given.namespace, cluster, data)]
      ensures !ok ==> NobodyLabelled(api.world, am.name) && api.world == w && api.faults > old(api.faults)
                      && api.Acts(am.name) == old(api.Acts(am.name))
    {
      hide Protocol.Inv, Runs.Init, Runs.IsRun, Runs.After, Session.CanSave, ApiServer.ActsOf, Ages;
      Yield(am);
      NobodyLabelledStays(old(api.world), api.world, am.name);
      w := api.world;
      ghost var events := api.events;
      AgesOverRun(api.start, old(api.events), events);
      var updated := Claimed(it.agent, am.name, am.given.namespace, cluster, data);
      claimed := Item(it.key, api.world.clock, updated);
      ok := WriteAgent(am, it, updated, Claim(it.key, am.given.namespace, cluster, data));
      AgesOverRun(api.start, events, api.events);
      AgesJoin(old(api.world), w, api.world);
      if ok {
        ClaimBacks(w, am.name, it.key, updated);
        ClaimIsShown(w, it.key, it.agent, am.name, am.given.namespace, cluster, data);
      }
    }

    /** findAgentWithAgentMachineLabel: the Agent that an interrupted reconcile
        already labelled for this AgentMachine. */
    method FindLabelledAgent(am: AgentMachineObject) returns (found: Option<Item>, failed: bool)
      requires Ongoing(am)
      modifies api
      ensures Ongoing(am) && api.start == old(api.start) && old(api.events) <= api.events
      ensures Relies(am.name, old(api.world), api.world)
      ensures api.attempts == old(api.attempts) && api.Acts(am.name) == old(api.Acts(am.name))
      ensures found.Some? ==> Recorded(api.world, found.value) && Backs(api.world, am.name, found.value.key) && !failed
      ensures found.None? && !failed ==> NobodyLabelled(api.world, am.name)
      ensures if failed then api.faults > old(api.faults) else api.faults == old(api.faults)
    {
      hide Protocol.Inv, Runs.Init, Runs.IsRun, Runs.After, Session.CanSave, Session.Reading, ApiServer.ActsOf;
      Yield(am);
      var labelled := api.ListLabelled(am.name);
      match labelled {
        case ListFailed => return None, true;
        case ListNotFound => return None, false;
        case Listed(items) =>
          if items == [] { return None, false; }
          ListedBacks(api.world, am.name, items[0]);
          return Some(items[0]), false;
      }
    }

    /** The claim loop of findAgent: the valid Agents of a list are tried in order
        until a write is accepted. */
    method ClaimFirstValid(am: AgentMachineObject, items: seq<Item>, cluster: Key, data: BootstrapData)
      returns (found: Option<Item>, ghost tried: nat)
      requires Ongoing(am) && am.agentRef.None? && am.given.managed.agentRef.None?
      requires AllFree(api.world, am.given, items) && NobodyLabelled(api.world, am.name)
      modifies api
      ensures Ongoing(am) && api.start == old(api.start) && old(api.events) <= api.events
      ensures Ages(old(api.world), api.world) && SameRelease(am.name, old(api.world), api.world)
      ensures api.faults >= old(api.faults) && api.listed == old(api.listed)
      ensures found.None? && api.faults == old(api.faults) ==> NoneValid(items)
      ensures found.Some? ==>
        && Recorded(api.world, found.value) && Backs(api.world, am.name, found.value.key)
        && tried < |items| && IsValid(items[tried].agent) && found.value.key == items[tried].key
        && found.value.agent == Claimed(items[tried].agent, am.name, am.given.namespace, cluster, data)
        && ClaimStands(api.world, found.value.key, am.name, am.given.namespace, cluster, data)
        && api.attempts == old(api.attempts) + Refused(items[..tried]) + [Attempt(items[tried].key, items[tried].version, true)]
        && api.Acts(am.name) == old(api.Acts(am.name)) + [Claim(found.value.key, am.given.namespace, cluster, data)]
      ensures found.None? ==>
        && api.attempts == old(api.attempts) + Refused(items) && api.Acts(am.name) == old(api.Acts(am.name))
        && NobodyLabelled(api.world, am.name)
    {
      hide Protocol.Inv, Runs.Init, Runs.IsRun, Runs.After, Session.CanSave, Session.Reading, ApiServer.ActsOf;
      hide Protocol.Backs, Protocol.NobodyLabelled, Protocol.ClaimEnabled, ClaimStands, Ages, AgentEdits.IsValid;
      hide AgentEdits.Claimed, Hub.Matches, Session.Backed;
      AgesSame(api.world);
      for i := 0 to |items|
        invariant Ongoing(am) && api.start == old(api.start) && old(api.events) <= api.events
        invariant NobodyLabelled(api.world, am.name) && AllFree(api.world, am.given, items)
        invariant api.attempts == old(api.attempts) + Refused(items[..i]) && Ages(old(api.world), api.world)
        invariant SameRelease(am.name, old(api.world), api.world) && api.faults >= old(api.faults)
        invariant api.Acts(am.name) == old(api.Acts(am.name)) && api.listed == old(api.listed)
        invariant api.faults == old(api.faults) ==> NoneValid(items[..i])
      {
        assert items[..i + 1][..i] == items[..i];
        var valid := IsValidAgent(items[i].agent);
        if valid {
          ghost var before := api.world;
          ghost var now;
          var ok, claimed;
          ok, claimed, now := UpdateFoundAgent(am, items[i], cluster, data);
          AgesJoin(old(api.world), before, api.world);
          if ok { return Some(claimed), i; }
          AllFreeStays(before, now, am.name, am.given, items);
        }
      }
      assert items[..|items|] == items;
      return None, |items|;
    }

    /** findAgent. An Agent already labelled for the AgentMachine is adopted and
        nothing is written; only when none exists are free Agents tried. */
    method FindAgent(am: AgentMachineObject, cluster: Key, data: BootstrapData) returns (found: Option<Item>, failed: bool)
      requires Ongoing(am) && am.agentRef.None? && am.given.managed.agentRef.None?
      modifies api
      ensures Ongoing(am) && api.start == old(api.start) && old(api.events) <= api.events
      ensures SameRelease(am.name, old(api.world), api.world) && (failed ==> found.None?)
      ensures found.Some? ==> Recorded(api.world, found.value) && Backs(api.world, am.name, found.value.key)
      ensures found.None? ==> api.Acts(am.name) == old(api.Acts(am.name))
      ensures found.None? && !failed ==> NobodyLabelled(api.world, am.name)
      ensures failed ==> api.faults > old(api.faults) || am.given.selector == Some(Malformed)
      ensures found.None? && am.given.selector == Some(Malformed) ==> failed
      ensures api.faults >= old(api.faults)
      ensures api.Acts(am.name) == old(api.Acts(am.name)) ||
        (found.Some? && api.Acts(am.name) == old(api.Acts(am.name)) + [Claim(found.value.key, am.given.namespace, cluster, data)]
         && ClaimStands(api.world, found.value.key, am.name, am.given.namespace, cluster, data))
      ensures found.None? && !failed ==>
        api.attempts == old(api.attempts) + Refused(api.listed)
        && (api.faults == old(api.faults) ==> NoneValid(api.listed))
      ensures api.Acts(am.name) != old(api.Acts(am.name)) ==> exists i | 0 <= i < |api.listed| ::
        api.attempts == old(api.attempts) + Refused(api.listed[..i]) +
          [Attempt(api.listed[i].key, api.listed[i].version, true)]
      ensures api.faults == old(api.faults) ==> forall k | LabelOf(old(api.world), k) == Some(am.name) && Alive(api.world, k) ::
        found.Some? && found.value.key == k && api.Acts(am.name) == old(api.Acts(am.name))
    {
      hide Protocol.Inv, Runs.Init, Runs.IsRun, Runs.After, Session.CanSave, Session.Reading, ApiServer.ActsOf;
      hide Protocol.Backs, Protocol.NobodyLabelled, ClaimStands;
      found, failed := FindLabelledAgent(am);
      if failed { return; }
      if found.Some? {
        LabelledIsFound(old(api.world), api.world, am.name, found.value.key);
        return;
      }
      LabelledIsDead(old(api.world), api.world, am.name);
      if am.given.selector.Some? && am.given.selector.value.Malformed? { return None, true; }
      ghost var w := api.world;
      Yield(am);
      NobodyLabelledStays(w, api.world, am.name);
      var listed := api.ListFree(am.given.selector);
      if !listed.Listed? { return None, true; }
      ghost var tried;
      found, tried := ClaimFirstValid(am, listed.items, cluster, data);
    }

    // ---- Sync and status -----------------------------------------------------------

    /** updateAgentIfNeeded. It writes exactly when the Agent as read needs the
        sync, and then the stored Agent differs from it in nothing else. Afterwards
        the data are in place. Without a failed call it fails only for an Agent that
        does not exist. */
    method UpdateAgentIfNeeded(am: AgentMachineObject, data: BootstrapData) returns (ok: bool, ghost read: Option<Agent>)
      requires Ongoing(am) && Holding(api.world, am.name, am.given, am.agentRef)
      modifies api
      ensures Ongoing(am) && api.start == old(api.start) && old(api.events) <= api.events
      ensures Holding(api.world, am.name, am.given, am.agentRef)
      ensures SyncedOn(old(api.world), api.world, am.name, am.agentRef.value, data)
      ensures ok ==>
        && read.Some? && api.faults == old(api.faults)
        && api.Acts(am.name) == old(api.Acts(am.name)) +
             (if NeedsSync(data, read.value.spec) then [Sync(am.agentRef.value, data)] else [])
        && (NeedsSync(data, read.value.spec) ==>
              Alive(api.world, am.agentRef.value)
              && api.world.agents[am.agentRef.value].agent == Synced(read.value, data))
      ensures !ok ==> api.Acts(am.name) == old(api.Acts(am.name))
      ensures api.faults == old(api.faults) ==> ReadBack(old(api.world), api.world, am.agentRef.value, data, read)
      ensures !ok && api.faults == old(api.faults) ==> read.None?
      ensures api.faults >= old(api.faults)
    {
      hide Protocol.Inv, Runs.Init, Runs.IsRun, Runs.After, Session.Reading, Session.CanSave, ApiServer.ActsOf;
      hide Session.Backed, AgentEdits.NeedsSync, Protocol.FromAgent, Rely.SameMachine, Rely.MachineLater, Rely.AgentLater;
      hide Protocol.Keeps, Protocol.BindingStays, AgentEdits.Covered, AgentEdits.Carries, SyncedOn, ReadSince, Ages, Rely.KeptOn;
      assert am.agentRef.Some?;
      hide HeldOn, Rely.HistoryGrows, Rely.Relies, Session.Holding;
      read := None;
      var k := am.agentRef.value;
      ghost var before := api.world;
      HoldingKeeps(before, am.name, am.given, am.agentRef);
      Yield(am);
      HoldingStays(before, api.world, am.name, am.given, am.agentRef);
      HeldOnRelies(before, api.world, am.name, k);
      HeldIsSynced(before, api.world, am.name, k, data);
      var got := api.GetAgent(k);
      if !got.Found? { return false, read; }
      read := Some(got.agent);
      ghost var w, events := api.world, api.events;
      AgesOverRun(api.start, old(api.events), events);
      ReadNow(before, w, k);
      SyncSettles(data, got.agent.spec);
      if !NeedsSync(data, got.agent.spec) { return true, read; }
      ok := WriteSync(am, Item(k, got.version, got.agent), data);
      SyncedOnJoin(before, w, api.world, am.name, k, data);
      if ok {
        CarriesCovers(data, api.world.agents[k].agent.spec);
        AgesOverRun(api.start, events, api.events);
        AgesSame(before);
        ReadSinceLater(before, before, w, api.world, k, got.agent);
      }
    }

    /** The write of updateAgentIfNeeded, to the Agent as it was read. */
    method WriteSync(am: AgentMachineObject, it: Item, data: BootstrapData) returns (ok: bool)
      requires Ongoing(am) && Holding(api.world, am.name, am.given, am.agentRef) && am.agentRef == Some(it.key)
      requires Recorded(api.world, it)
      modifies api
      ensures Ongoing(am) && api.start == old(api.start) && old(api.events) <= api.events
      ensures Holding(api.world, am.name, am.given, am.agentRef)
      ensures SyncedOn(old(api.world), api.world, am.name, it.key, data)
      ensures ok ==>
        && api.faults == old(api.faults) && api.Acts(am.name) == old(api.Acts(am.name)) + [Sync(it.key, data)]
        && Alive(api.world, it.key) && api.world.agents[it.key].agent == Synced(it.agent, data)
        && Carries(api.world.agents[it.key].agent.spec, data)
      ensures !ok ==> api.faults > old(api.faults) && api.Acts(am.name) == old(api.Acts(am.name))
    {
      hide Protocol.Inv, Runs.Init, Runs.IsRun, Runs.After, Session.Reading, Session.CanSave, ApiServer.ActsOf;
      hide Session.Backed, AgentEdits.NeedsSync, Protocol.FromAgent, Rely.SameMachine, Rely.MachineLater, Rely.AgentLater;
      hide Protocol.Keeps, Protocol.BindingStays, AgentEdits.Carries, SyncedOn, Rely.KeptOn;
      hide HeldOn, Rely.HistoryGrows, Rely.Relies, Session.Holding;
      var k := it.key;
      ghost var before := api.world;
      HoldingKeeps(before, am.name, am.given, am.agentRef);
      Yield(am);
      HoldingStays(before, api.world, am.name, am.given, am.agentRef);
      HeldOnRelies(before, api.world, am.name, k);
      HeldIsSynced(before, api.world, am.name, k, data);
      RecordedStays(before, api.world, am.name, it);
      HoldingHolds(api.world, am.name, am.given, am.agentRef);
      HoldingKeeps(api.world, am.name, am.given, am.agentRef);
      ghost var w := api.world;
      ok := WriteAgent(am, it, Synced(it.agent, data), Sync(k, data));
      if ok {
        HoldingWritten(w, am.name, Sync(k, data), am.given, am.Content());
        SyncIsShown(w, am.name, k, data);
        SyncedOnJoin(before, w, api.world, am.name, k, data);
      }
    }

    /** ensureAgentLabeled. */
    method EnsureAgentLabeled(am: AgentMachineObject, a: Agent) returns (ok: bool)
      requires Ongoing(am) && Holding(api.world, am.name, am.given, am.agentRef)
      modifies api
      ensures Ongoing(am) && api.start == old(api.start) && old(api.events) <= api.events
      ensures Holding(api.world, am.name, am.given, am.agentRef)
      ensures ok ==>
        && api.faults == old(api.faults)
        && api.Acts(am.name) == old(api.Acts(am.name)) +
             (if am.name != "" && RefLabel(a) == Some(am.name) then [] else [Relabel(am.agentRef.value)])
        && (RefLabel(a) != Some(am.name) ==> LabelOf(api.world, am.agentRef.value) == Some(am.name))
      ensures !ok ==> api.faults > old(api.faults) && api.Acts(am.name) == old(api.Acts(am.name))
      ensures HeldOn(old(api.world), api.world, am.name, am.agentRef.value)
    {
      hide Protocol.Inv, Runs.Init, Runs.IsRun, Runs.After, Session.Reading, Session.CanSave, ApiServer.ActsOf;
      assert am.agentRef.Some?;
      hide Session.Backed, HeldOn, Session.Holding, Protocol.Keeps;
      HoldingKeeps(api.world, am.name, am.given, am.agentRef);
      HeldOnSame(api.world, am.name, am.agentRef.value);
      var holder := RefLabel(a);
      if holder.Some? && holder.value != "" && holder.value == am.name { return true; }
      ok := WriteLabel(am);
    }

    /** The patch of ensureAgentLabeled. */
    method WriteLabel(am: AgentMachineObject) returns (ok: bool)
      requires Ongoing(am) && Holding(api.world, am.name, am.given, am.agentRef)
      modifies api
      ensures Ongoing(am) && api.start == old(api.start) && old(api.events) <= api.events
      ensures Holding(api.world, am.name, am.given, am.agentRef)
      ensures ok ==>
        && api.faults == old(api.faults) && api.Acts(am.name) == old(api.Acts(am.name)) + [Relabel(am.agentRef.value)]
        && LabelOf(api.world, am.agentRef.value) == Some(am.name)
      ensures !ok ==> api.faults > old(api.faults) && api.Acts(am.name) == old(api.Acts(am.name))
      ensures HeldOn(old(api.world), api.world, am.name, am.agentRef.value)
    {
      hide Protocol.Inv, Runs.Init, Runs.IsRun, Runs.After, Session.Reading, Session.CanSave, ApiServer.ActsOf;
      assert am.agentRef.Some?;
      hide Session.Backed, HeldOn, Protocol.Keeps, Session.Holding, Rely.Relies, Rely.AgentLater;
      var k := am.agentRef.value;
      ghost var before := api.world;
      HoldingKeeps(before, am.name, am.given, am.agentRef);
      Yield(am);
      HoldingStays(before, api.world, am.name, am.given, am.agentRef);
      HoldingHolds(api.world, am.name, am.given, am.agentRef);
      HeldOnRelies(before, api.world, am.name, k);
      ghost var w := api.world;
      ok := api.PatchLabel(am.name, k);
      if ok {
        OwnKeeps(w, am.name, Relabel(k), am.given, am.Content());
        HoldingWritten(w, am.name, Relabel(k), am.given, am.Content());
        HeldOnRelabel(w, am.name, k);
        HeldOnJoin(before, w, api.world, am.name, k);
      }
    }

    /** updateStatus. When it completes, the conditions show what the Agent reports,
        and the AgentMachine is ready exactly when it has an Agent that reports all
        four conditions True; on every error it is not ready. */
    method UpdateStatus(am: AgentMachineObject, failed: bool, summaryFails: bool) returns (ok: bool, ghost seen: Option<Agent>)
      requires Ongoing(am)
      requires am.agentRef.Some? ==> Holding(api.world, am.name, am.given, am.agentRef)
      modifies api, am`ready, am`conditions
      ensures Ongoing(am) && api.start == old(api.start) && old(api.events) <= api.events
      ensures ok ==> (am.ready <==> seen.Some? && ReportsAllTrue(seen.value)) && (seen.Some? <==> am.agentRef.Some?)
      ensures ok && am.ready ==> forall t | t in {SpecSynced, Validated, RequirementsMet, Installed} ::
        StatusOf(seen.value.status.conditions, t) == Some(True)
      ensures ok && !am.ready && seen.Some? ==> exists t | t in {SpecSynced, Validated, RequirementsMet, Installed} ::
        StatusOf(seen.value.status.conditions, t) != Some(True)
      ensures ok ==> if seen.Some? then Mirrors(am.conditions, seen.value) else AllFiveFalse(am.conditions)
      ensures ok && am.agentRef.Some? ==> LabelOf(api.world, am.agentRef.value) == Some(am.name)
      ensures api.faults >= old(api.faults) && (am.agentRef.None? ==> api.listed == old(api.listed))
      ensures !ok ==> !am.ready
      ensures am.agentRef.None? ==>
        && ok == !summaryFails
        && ReasonOf(am.conditions, AgentReserved) == Some(if failed then "AgentNotYetFound" else "NoSuitableAgents")
      ensures !ok && api.faults == old(api.faults) && am.agentRef.Some? ==> summaryFails || !Alive(api.world, am.agentRef.value)
      ensures am.agentRef.Some? ==> HeldOn(old(api.world), api.world, am.name, am.agentRef.value)
      ensures seen.Some? ==> am.agentRef.Some? && ReadSince(old(api.world), api.world, am.agentRef.value, seen.value)
      ensures api.Acts(am.name) == old(api.Acts(am.name)) ||
        (am.agentRef.Some? && api.Acts(am.name) == old(api.Acts(am.name)) + [Relabel(am.agentRef.value)])
    {
      hide Protocol.Inv, Runs.Init, Runs.IsRun, Runs.After, Session.Reading, ApiServer.ActsOf;
      hide Session.CanSave, Session.Holding, AgentMachines.UniqueTypes, AgentMachines.StatusOf;
      hide Protocol.Keeps, HeldOn, ReadSince, Ages, Rely.KeptOn, Rely.AgentLater;
      seen := None;
      ghost var m, before := am.Content(), api.world;
      CanSaveConsistent(api.world, am.name, am.given, m);
      am.ready := false;
      var passed := am.SetReserved(failed);
      if !passed {
        ok := am.ReportNoAgent(summaryFails);
        StatusSet(api.world, am.name, am.given, m, am.Content());
        return;
      }
      StatusSet(api.world, am.name, am.given, m, am.Content());
      var k := am.agentRef.value;
      HoldingKeeps(before, am.name, am.given, am.agentRef);
      Yield(am);
      HoldingStays(before, api.world, am.name, am.given, am.agentRef);
      HeldOnRelies(before, api.world, am.name, k);
      var got := api.GetAgent(k);
      if !got.Found? { return false, seen; }
      seen := Some(got.agent);
      ghost var w, events := api.world, api.events;
      AgesOverRun(api.start, old(api.events), events);
      ReadNow(before, w, k);
      ok := EnsureAgentLabeled(am, got.agent);
      HeldOnJoin(before, w, api.world, am.name, k);
      HeldOnLabel(w, api.world, am.name, k);
      AgesOverRun(api.start, events, api.events);
      AgesSame(before);
      ReadSinceLater(before, before, w, api.world, k, got.agent);
      if !ok { return; }
      m := am.Content();
      ok := am.ReportAgent(got.agent, summaryFails);
      StatusSet(api.world, am.name, am.given, m, am.Content());
    }

    // ---- The reconcile ---------------------------------------------------------------

    /** The part of Reconcile after the deletion hook let it continue, up to the
        cluster lookup. An Agent that is already labelled for the AgentMachine becomes
        its Agent, unless a call fails; a reserved Agent is never given up; and the
        writes are at most one claim, one sync and one relabel of that Agent, in this
        order. */
    method Allocate(am: AgentMachineObject, inputs: Inputs) returns (requeue: bool, failed: bool, ghost exit: Exit)
      requires Ongoing(am) && am.name !in api.world.unbound && am.name !in api.world.done
      requires am.finalizer && am.Content() == am.given.managed.(finalizer := true) && OwnerKey(am.given).Some?
      requires am.given.managed.agentRef.Some? ==> am.given.managed.finalizer
      modifies api, am
      ensures Ongoing(am) && api.start == old(api.start) && old(api.events) <= api.events
      ensures am.finalizer && !exit.NotReached? && api.faults >= old(api.faults) && (requeue <==> exit.ClusterUnnamed?)
      ensures Allocated(inputs, am.given.managed, am.Content(), failed, exit)
      ensures exit.NoAgentFound? && am.given.selector != Some(Malformed) && api.faults == old(api.faults) ==> NoneValid(api.listed)
      ensures AllocationActs(old(api.Acts(am.name)), api.Acts(am.name), am.agentRef)
      ensures IsEarly(exit) ==> api.Acts(am.name) == old(api.Acts(am.name))
      ensures Delivered(am.name, am.given.namespace, inputs, old(api.world), api.world,
                        old(api.Acts(am.name)), api.Acts(am.name), am.agentRef, failed, exit, api.faults == old(api.faults))
      ensures api.faults == old(api.faults) && Searched(am.given, exit) ==>
        Adopts(am.name, old(api.world), api.world, am.agentRef)
    {
      hide Protocol.Inv, Runs.Init, Runs.IsRun, Runs.After, Session.Reading, Session.CanSave, ApiServer.ActsOf;
      hide AllocationActs, Adopts, StatusFits, Bootstrap.Usable, Delivered, SecretGives;
      ghost var acts, w, k, ns := api.Acts(am.name), api.world, am.agentRef, am.given.namespace;
      AllocationSteps(acts, acts, acts, acts, am.agentRef);
      var parsed := ProcessBootstrapData(inputs.secret, inputs.tokenRef, inputs.tokenStored);
      if !parsed.Parsed? {
        DeliveredNothing(am.name, ns, inputs, w, w, acts, acts, k, true, BootstrapFailed, true);
        return false, true, BootstrapFailed;
      }
      if am.ready {
        DeliveredNothing(am.name, ns, inputs, w, w, acts, acts, k, false, AlreadyReady, true);
        return false, false, AlreadyReady;
      }
      if inputs.cluster.None? {
        DeliveredNothing(am.name, ns, inputs, w, w, acts, acts, k, true, ClusterUnknown, true);
        return false, true, ClusterUnknown;
      }
      requeue, failed, exit := AllocateFor(am, inputs, parsed.data);
    }

    /** The rest of Reconcile, for a known cluster. */
    method AllocateFor(am: AgentMachineObject, inputs: Inputs, data: BootstrapData)
      returns (requeue: bool, failed: bool, ghost exit: Exit)
      requires Ongoing(am) && am.name !in api.world.unbound && am.name !in api.world.done && OwnerKey(am.given).Some?
      requires am.finalizer && !am.ready && am.agentRef == am.given.managed.agentRef && am.addresses == am.given.managed.addresses
      requires am.given.managed.agentRef.Some? ==> am.given.managed.finalizer
      requires inputs.cluster.Some? && SecretGives(inputs.secret, inputs.tokenRef, data)
      modifies api, am
      ensures Ongoing(am) && api.start == old(api.start) && old(api.events) <= api.events
      ensures am.finalizer && api.faults >= old(api.faults) && (requeue <==> exit.ClusterUnnamed?)
      ensures if inputs.cluster.value.name == "" then exit.ClusterUnnamed?
              else exit.Completed? || (am.given.managed.agentRef.None? && (exit.NoAgentFound? || exit.AddressPanic?))
      ensures StatusFits(inputs.summaryFails, am.given.managed, am.Content(), failed, exit)
      ensures exit.NoAgentFound? && am.given.selector != Some(Malformed) && api.faults == old(api.faults) ==> NoneValid(api.listed)
      ensures AllocationActs(old(api.Acts(am.name)), api.Acts(am.name), am.agentRef)
      ensures Delivered(am.name, am.given.namespace, inputs, old(api.world), api.world,
                        old(api.Acts(am.name)), api.Acts(am.name), am.agentRef, failed, exit, api.faults == old(api.faults))
      ensures api.faults == old(api.faults) && Searched(am.given, exit) ==>
        Adopts(am.name, old(api.world), api.world, am.agentRef)
    {
      hide Protocol.Inv, Runs.Init, Runs.IsRun, Runs.After, Session.Reading, Session.Holding, Protocol.Backs;
      hide Session.CanSave, ApiServer.ActsOf, AgentMachines.AllFiveFalse, AgentMachines.Mirrors, AgentEdits.NeedsSync;
      hide AllocationActs, SyncActs, Adopts, Ages, Ongoing, Delivered, SecretGives, ReadBack, ClaimStands, SyncedOn, ReadSince;
      ghost var before, acts := api.world, api.Acts(am.name);
      var cluster := inputs.cluster.value;
      requeue, failed := false, false;
      if am.agentRef.Some? { StoredIsHeld(api.world, am.name, am.given, am.agentRef); }
      if cluster.name == "" {
        ghost var reported;
        var ok;
        ok, reported := UpdateStatus(am, true, inputs.summaryFails);
        AllocationSteps(acts, acts, acts, api.Acts(am.name), am.agentRef);
        exit := ClusterUnnamed(reported);
        DeliveredNothing(am.name, am.given.namespace, inputs, before, api.world, acts, api.Acts(am.name), am.agentRef, !ok, exit,
                         api.faults == old(api.faults));
        return true, !ok, exit;
      }
      if am.agentRef.None? {
        var found;
        found, failed, exit := Acquire(am, cluster, data, inputs.summaryFails);
        AllocationSteps(acts, api.Acts(am.name), api.Acts(am.name), api.Acts(am.name), am.agentRef);
        if !found {
          DeliveredClaim(am.name, am.given.namespace, inputs, data, before, api.world, acts, api.Acts(am.name), am.agentRef,
                         failed, exit, api.faults == old(api.faults));
          return;
        }
      } else {
        AgesSame(before);
      }
      ghost var found, claimed, wrote, faults := api.world, api.Acts(am.name), false, api.faults;
      failed, exit, wrote := SyncAndReport(am, data, inputs.summaryFails);
      SyncActsSteps(acts, claimed, api.Acts(am.name), am.agentRef.value, data, wrote);
      DeliveredSync(am.name, am.given.namespace, inputs, data, before, found, api.world, acts, claimed, api.Acts(am.name),
                    am.agentRef.value, wrote, failed, exit, api.faults == faults);
      DeliveredWeaker(am.name, am.given.namespace, inputs, before, api.world, acts, api.Acts(am.name), am.agentRef, failed, exit,
                      api.faults == faults, api.faults == old(api.faults));
      if Adopts(am.name, before, found, am.agentRef) { AdoptsUntil(am.name, before, found, api.world, am.agentRef); }
    }

    /** The part of Reconcile that finds an Agent for an AgentMachine without one. An
        error of the search is not returned: without an Agent the reconcile fails
        exactly when the status summary does. */
    method Acquire(am: AgentMachineObject, cluster: Key, data: BootstrapData, summaryFails: bool)
      returns (found: bool, failed: bool, ghost exit: Exit)
      requires Ongoing(am) && am.name !in api.world.unbound && am.name !in api.world.done && OwnerKey(am.given).Some?
      requires am.agentRef.None? && am.given.managed.agentRef.None? && am.finalizer && !am.ready
      modifies api, am
      ensures Ongoing(am) && api.start == old(api.start) && old(api.events) <= api.events
      ensures am.finalizer && api.faults >= old(api.faults) && (found ==> !failed)
      ensures found ==> am.agentRef.Some? && Holding(api.world, am.name, am.given, am.agentRef) && !am.ready && am.addresses != []
      ensures !found && exit.AddressPanic? ==>
        failed && !am.ready && am.agentRef.Some? && am.addresses == old(am.addresses) && HasBadAddress(api.world, am.agentRef.value)
      ensures !found && exit.NoAgentFound? && am.given.selector != Some(Malformed) && api.faults == old(api.faults) ==>
        NoneValid(api.listed)
      ensures !found ==> exit.NoAgentFound? || exit.AddressPanic?
      ensures !found && exit.NoAgentFound? ==>
        && am.agentRef.None? && !am.ready && (failed || AllFiveFalse(am.conditions)) && (failed <==> summaryFails)
        && ReasonOf(am.conditions, AgentReserved) == Some(if exit.searchFailed then "AgentNotYetFound" else "NoSuitableAgents")
        && (exit.searchFailed ==> api.faults > old(api.faults) || am.given.selector == Some(Malformed))
        && (am.given.selector == Some(Malformed) ==> exit.searchFailed)
      ensures am.agentRef.None? ==> api.Acts(am.name) == old(api.Acts(am.name))
      ensures am.agentRef.Some? ==>
        || api.Acts(am.name) == old(api.Acts(am.name))
        || (api.Acts(am.name) == old(api.Acts(am.name)) + [Claim(am.agentRef.value, am.given.namespace, cluster, data)]
            && ClaimStands(api.world, am.agentRef.value, am.name, am.given.namespace, cluster, data))
      ensures Ages(old(api.world), api.world)
      ensures api.faults == old(api.faults) ==> Adopts(am.name, old(api.world), api.world, am.agentRef)
    {
      hide Protocol.Inv, Runs.Init, Runs.IsRun, Runs.After, Session.Reading, Session.Holding, Protocol.Backs;
      hide Session.CanSave, ApiServer.ActsOf, AgentMachines.AllFiveFalse, AgentMachines.Mirrors, ClaimStands, Ages;
      exit := NotReached;
      var item, gone := FindAgent(am, cluster, data);
      AgesOverRun(api.start, old(api.events), api.events);
      if item.None? {
        ghost var mid, events := api.world, api.events;
        var ok, _ := UpdateStatus(am, gone, summaryFails);
        AgesOverRun(api.start, events, api.events);
        AgesOverRun(api.start, old(api.events), api.events);
        if Adopts(am.name, old(api.world), mid, None) { AdoptsUntil(am.name, old(api.world), mid, api.world, None); }
        return false, !ok, NoAgentFound(gone);
      }
      var panicked := Record(am, item.value);
      return !panicked, panicked, if panicked then AddressPanic else NotReached;
    }

    /** Takes over the Agent that was found. */
    method Record(am: AgentMachineObject, it: Item) returns (panicked: bool)
      requires Ongoing(am) && am.agentRef.None? && am.given.managed.agentRef.None? && am.finalizer && !am.ready
      requires am.name !in api.world.unbound && am.name !in api.world.done && OwnerKey(am.given).Some?
      requires Recorded(api.world, it) && Backs(api.world, am.name, it.key)
      modifies am`providerID, am`agentRef, am`addresses
      ensures Ongoing(am) && am.agentRef == Some(it.key) && Holding(api.world, am.name, am.given, am.agentRef)
      ensures if panicked then BadAddress(it.agent) && am.addresses == old(am.addresses) else am.addresses != []
    {
      hide Protocol.Inv, Runs.Init, Runs.IsRun, Runs.After, Session.Reading;
      panicked := am.RecordAgent(it.key, it.agent);
      AddressesLaw(it.agent);
    }

    /** The end of Reconcile for an AgentMachine with an Agent: sync, then status.
        `wrote` tells whether the sync was written. */
    method SyncAndReport(am: AgentMachineObject, data: BootstrapData, summaryFails: bool)
      returns (failed: bool, ghost exit: Exit, ghost wrote: bool)
      requires Ongoing(am) && am.agentRef.Some? && Holding(api.world, am.name, am.given, am.agentRef)
      modifies api, am`ready, am`conditions
      ensures Ongoing(am) && api.start == old(api.start) && old(api.events) <= api.events
      ensures api.faults >= old(api.faults) && exit.Completed? && exit.data == data
      ensures failed ==> !am.ready
      ensures failed || LabelOf(api.world, am.agentRef.value) == Some(am.name)
      ensures !failed ==>
        exit.reported.Some? && (am.ready <==> ReportsAllTrue(exit.reported.value)) && Mirrors(am.conditions, exit.reported.value)
      ensures SyncActs(old(api.Acts(am.name)), api.Acts(am.name), am.agentRef.value, data, wrote)
      ensures api.faults == old(api.faults) && exit.read.Some? ==> (wrote <==> NeedsSync(data, exit.read.value.spec))
      ensures Ages(old(api.world), api.world)
      ensures SyncedOn(old(api.world), api.world, am.name, am.agentRef.value, data)
      ensures exit.reported.Some? ==> ReadSince(old(api.world), api.world, am.agentRef.value, exit.reported.value)
      ensures api.faults == old(api.faults) ==>
        && ReadBack(old(api.world), api.world, am.agentRef.value, data, exit.read)
        && (failed ==> summaryFails || !Alive(api.world, am.agentRef.value))
    {
      hide Protocol.Inv, Runs.Init, Runs.IsRun, Runs.After, Session.Reading, Session.Holding;
      hide Session.CanSave, ApiServer.ActsOf, AgentMachines.Mirrors, AgentMachines.AllFiveFalse, AgentEdits.NeedsSync;
      hide SyncedOn, ReadBack, ReadSince, Ages, HeldOn, Protocol.Keeps, Protocol.BindingStays;
      ghost var read, reported;
      ghost var before, k := api.world, am.agentRef.value;
      var synced, ok;
      synced, read := UpdateAgentIfNeeded(am, data);
      wrote := synced && NeedsSync(data, read.value.spec);
      ghost var w, events, faults := api.world, api.events, api.faults;
      ok, reported := UpdateStatus(am, !synced, summaryFails);
      AgesOverRun(api.start, old(api.events), events);
      AgesOverRun(api.start, events, api.events);
      AgesJoin(before, w, api.world);
      AgesSame(before);
      HeldIsSynced(w, api.world, am.name, k, data);
      SyncedOnJoin(before, w, api.world, am.name, k, data);
      HeldStays(w, api.world, am.name, k);
      if reported.Some? { AgesSame(api.world); ReadSinceLater(before, w, api.world, api.world, k, reported.value); }
      if faults == old(api.faults) { ReadBackLater(before, before, w, api.world, am.name, k, data, read); }
      return !ok, Completed(data, read, reported), wrote;
    }

    /** Reconcile between reading the AgentMachine and its deferred patch. A panic
        counts as a failure: the patch runs all the same. `machine` and `seen` are
        the Machine and the Agent that the deletion hook read, `hooked` the writes
        up to there. */
    method Process(am: AgentMachineObject, inputs: Inputs)
      returns (requeue: bool, failed: bool, ghost machine: Option<Machine>, ghost seen: Option<AgentRead>,
               ghost exit: Exit, ghost hooked: seq<Act>)
      requires Ongoing(am) && am.Content() == am.given.managed && Settling(api.world, am.name, am.given)
      modifies api, am
      ensures Ongoing(am) && api.start == old(api.start) && old(api.events) <= api.events
      ensures api.faults >= old(api.faults) && old(api.Acts(am.name)) <= api.Acts(am.name)
      ensures Justified(am.given, machine, seen, old(api.Acts(am.name)), api.Acts(am.name))
      ensures HasRemoval(old(api.Acts(am.name)), api.Acts(am.name)) ==>
        machine.Some? && OwnerKey(am.given).Some? && BothGone(api.world, am, OwnerKey(am.given).value, machine.value)
      ensures am.given.managed.finalizer && !am.finalizer && !HasRemoval(old(api.Acts(am.name)), api.Acts(am.name)) ==>
        if machine.None? then am.given.deleting && OwnerGone(api.world, am.given) else Finished(machine.value) && !am.given.paused
      ensures machine.Some? && am.given.managed.finalizer && !am.finalizer
              && !HasRemoval(old(api.Acts(am.name)), api.Acts(am.name)) ==>
        machine.value.deletingReason != Some(WAITING_FOR_HOOK) && machine.value.hookSucceeded == Some(True)
      ensures machine.Some? && !am.given.paused && api.faults == old(api.faults)
              && (machine.value.deletingReason == Some(WAITING_FOR_HOOK)
                  || machine.value.hookSucceeded in {Some(False), Some(Unknown)}) ==>
        HasRemoval(old(api.Acts(am.name)), api.Acts(am.name)) || (requeue && StoredUnbound(api.world, am))
      ensures machine.Some? && AtHook(am.given, machine.value) ==>
        && exit.NotReached? && ReleaseActs(old(api.Acts(am.name)), api.Acts(am.name))
        && am.Content() == am.given.managed.(finalizer := am.finalizer)
        && (api.faults == old(api.faults) ==>
              && (HasRemoval(old(api.Acts(am.name)), api.Acts(am.name)) <==> Finishable(am.given, seen))
              && (!Finishable(am.given, seen) ==> am.finalizer && am.name in api.world.unbound && requeue))
      ensures machine.None? ==>
        && api.Acts(am.name) == old(api.Acts(am.name))
        && (OwnerKey(am.given).None? ==>
              && (failed <==> inputs.summaryFails) && am.agentRef.None? && !am.ready
              && (failed || AllFiveFalse(am.conditions)))
        && (OwnerKey(am.given).None? || (failed && OwnerGone(api.world, am.given) && am.Content() == AfterFailedLookup(am.given)))
        && exit.NotReached?
      ensures machine.Some? && !am.given.paused && Early(machine.value) && api.faults == old(api.faults) ==> !exit.NotReached?
      ensures exit.NoAgentFound? && am.given.selector != Some(Malformed) && api.faults == old(api.faults) ==> NoneValid(api.listed)
      ensures machine.Some? && exit.NotReached? ==> (failed <==> api.faults > old(api.faults))
      ensures requeue <==>
        exit.ClusterUnnamed? || (machine.Some? && exit.NotReached? && !failed && AtHook(am.given, machine.value) && !Finishable(am.given, seen))
      ensures am.given.paused ==> exit.NotReached?
      ensures !exit.NotReached? ==>
        && am.finalizer
        && ReleaseActs(old(api.Acts(am.name)), hooked) && AllocationActs(hooked, api.Acts(am.name), am.agentRef)
        && Allocated(inputs, am.given.managed, am.Content(), failed, exit)
        && Delivered(am.name, am.given.namespace, inputs, old(api.world), api.world,
                     hooked, api.Acts(am.name), am.agentRef, failed, exit, api.faults == old(api.faults))
        && (api.faults == old(api.faults) && Searched(am.given, exit) ==>
              Adopts(am.name, old(api.world), api.world, am.agentRef))
    {
      hide Rely.SameMachine, Rely.MachineLater, Rely.AgentLater, Rely.HistoryGrows, Protocol.FromAgent, Protocol.LabelledOnly;
      hide Protocol.Inv, Runs.Init, Runs.IsRun, Runs.After, Session.CanSave, ApiServer.ActsOf;
      hide Session.Holding, Session.Backed, Allocated, AllocationActs, Adopts, Delivered, Ages, AgentMachines.AllFiveFalse;
      hide Rely.Relies, NoneValid, Searched, Finishable, AgentFree;
      requeue, failed, machine, seen, exit, hooked := false, false, None, None, NotReached, [];
      ghost var before, acts := api.world, api.Acts(am.name);
      HookActs(am.given, machine, seen, acts, acts, Key("", ""));
      var key := FindMachineOwner(am.given.namespace, am.given.owners);
      if key.None? {
        NoOwnerNoAgent(before, am.name, am.given);
        var ok, _ := UpdateStatus(am, false, inputs.summaryFails);
        failed := !ok;
        return;
      }
      Yield(am);
      SettlingStays(before, api.world, am.name, am.given);
      var found := api.GetMachine(key.value);
      if found.None? {
        if am.given.deleting {
          FinalizerSet(api.world, am.name, am.given, am.Content(), false);
          am.finalizer := false;
        }
        failed := true;
        return;
      }
      machine := found;
      ghost var w, events := api.world, api.events;
      AgesOverRun(api.start, old(api.events), events);
      requeue, failed, seen, exit, hooked := ProcessMachine(am, key.value, found.value, inputs);
      if !exit.NotReached? {
        DeliveredBefore(am.name, am.given.namespace, inputs, before, w, api.world, hooked, api.Acts(am.name), am.agentRef,
                        failed, exit, api.faults == old(api.faults));
      }
      if !exit.NotReached? && api.faults == old(api.faults) && Searched(am.given, exit) {
        AgesOverRun(api.start, events, api.events);
        AdoptsLater(am.name, before, w, api.world, api.world, am.agentRef);
      }
    }

    /** The part of Process with the Machine at hand. */
    method ProcessMachine(am: AgentMachineObject, key: Key, machine: Machine, inputs: Inputs)
      returns (requeue: bool, failed: bool, ghost seen: Option<AgentRead>, ghost exit: Exit, ghost hooked: seq<Act>)
      requires Ongoing(am) && am.Content() == am.given.managed && OwnerKey(am.given) == Some(key)
      requires MachineSeen(api.world, key, machine) && Fits(api.world, am, machine)
      modifies api, am
      ensures Ongoing(am) && api.start == old(api.start) && old(api.events) <= api.events
      ensures api.faults >= old(api.faults) && old(api.Acts(am.name)) <= api.Acts(am.name)
      ensures Justified(am.given, Some(machine), seen, old(api.Acts(am.name)), api.Acts(am.name))
      ensures HasRemoval(old(api.Acts(am.name)), api.Acts(am.name)) ==> BothGone(api.world, am, key, machine)
      ensures am.given.managed.finalizer && !am.finalizer && !HasRemoval(old(api.Acts(am.name)), api.Acts(am.name)) ==>
        Finished(machine) && !am.given.paused
      ensures am.given.managed.finalizer && !am.finalizer && !HasRemoval(old(api.Acts(am.name)), api.Acts(am.name)) ==>
        machine.deletingReason != Some(WAITING_FOR_HOOK) && machine.hookSucceeded == Some(True)
      ensures !am.given.paused && api.faults == old(api.faults)
              && (machine.deletingReason == Some(WAITING_FOR_HOOK) || machine.hookSucceeded in {Some(False), Some(Unknown)}) ==>
        HasRemoval(old(api.Acts(am.name)), api.Acts(am.name)) || (requeue && StoredUnbound(api.world, am))
      ensures AtHook(am.given, machine) ==>
        && exit.NotReached? && ReleaseActs(old(api.Acts(am.name)), api.Acts(am.name))
        && am.Content() == am.given.managed.(finalizer := am.finalizer)
        && (api.faults == old(api.faults) ==>
              && (HasRemoval(old(api.Acts(am.name)), api.Acts(am.name)) <==> Finishable(am.given, seen))
              && (!Finishable(am.given, seen) ==> am.finalizer && am.name in api.world.unbound && requeue))
      ensures !am.given.paused && Early(machine) && api.faults == old(api.faults) ==> !exit.NotReached?
      ensures exit.NoAgentFound? && am.given.selector != Some(Malformed) && api.faults == old(api.faults) ==> NoneValid(api.listed)
      ensures exit.NotReached? ==> (failed <==> api.faults > old(api.faults))
      ensures requeue <==>
        exit.ClusterUnnamed? || (exit.NotReached? && !failed && AtHook(am.given, machine) && !Finishable(am.given, seen))
      ensures am.given.paused ==> exit.NotReached?
      ensures !exit.NotReached? ==>
        && am.finalizer
        && ReleaseActs(old(api.Acts(am.name)), hooked) && AllocationActs(hooked, api.Acts(am.name), am.agentRef)
        && Allocated(inputs, am.given.managed, am.Content(), failed, exit)
        && Delivered(am.name, am.given.namespace, inputs, old(api.world), api.world,
                     hooked, api.Acts(am.name), am.agentRef, failed, exit, api.faults == old(api.faults))
        && (api.faults == old(api.faults) && Searched(am.given, exit) ==>
              Adopts(am.name, old(api.world), api.world, am.agentRef))
    {
      hide Rely.SameMachine, Rely.MachineLater, Rely.AgentLater, Rely.HistoryGrows, Protocol.FromAgent, Protocol.LabelledOnly;
      hide Protocol.Inv, Runs.Init, Runs.IsRun, Runs.After, Session.CanSave, ApiServer.ActsOf, Session.MachineSeen;
      hide Session.Holding, Session.Backed, Allocated, AllocationActs, Adopts, ReleaseActs, Justified, HasRemoval;
      hide Delivered, Ages;
      requeue, failed, exit := false, false, NotReached;
      ghost var before, acts := api.world, api.Acts(am.name);
      var r;
      r, seen := HandleDeletionHook(am, key, machine);
      hooked := api.Acts(am.name);
      ReleaseIsLonger(acts, hooked);
      if !r.Continue? {
        requeue, failed := r.Stop? && r.requeue, r.HookFailed?;
        return;
      }
      if am.given.paused { return; }
      ghost var w, events := api.world, api.events;
      AgesOverRun(api.start, old(api.events), events);
      requeue, failed, exit := Allocate(am, inputs);
      DeliveredBefore(am.name, am.given.namespace, inputs, before, w, api.world, hooked, api.Acts(am.name), am.agentRef,
                      failed, exit, api.faults == old(api.faults));
      AllocationIsNoRemoval(am.given, Some(machine), seen, acts, hooked, api.Acts(am.name), am.agentRef);
      AgesOverRun(api.start, events, api.events);
      if api.faults == old(api.faults) && Searched(am.given, exit) {
        AdoptsLater(am.name, before, w, api.world, api.world, am.agentRef);
      }
    }

    /** The deferred patch, and what others did before it. */
    method Patch(am: AgentMachineObject) returns (ok: bool)
      requires Ongoing(am)
      modifies api
      ensures api.Valid() && api.start == old(api.start) && old(api.events) <= api.events
      ensures api.Acts(am.name) == old(api.Acts(am.name)) + if ok then [Save(am.Content())] else []
      ensures (if ok then api.faults == old(api.faults) else api.faults > old(api.faults)) && api.listed == old(api.listed)
      ensures ok && am.name in api.world.ams ==> api.world.ams[am.name].managed == am.Content()
      ensures ok && am.finalizer ==> am.name in api.world.ams
      ensures ok && !am.finalizer && am.given.deleting ==> am.name !in api.world.ams
      ensures SameRelease(am.name, old(api.world), api.world)
      ensures forall k | k in old(api.world).machineKeys ::
        k in old(api.world).machines && k in api.world.machines && HookOff(old(api.world).machines[k]) ==>
          HookOff(api.world.machines[k])
      ensures forall k | k in old(api.world).machineKeys && k !in old(api.world).machines :: k !in api.world.machines
      ensures forall k | Keeps(old(api.world), am.name, k) :: StaysBound(old(api.world), api.world, am.name, k)
    {
      hide Protocol.Inv, Runs.Init, Runs.IsRun, Runs.After, Session.CanSave, ApiServer.ActsOf;
      hide Protocol.SaveEnabled, Rely.AgentLater, Rely.HistoryGrows, Protocol.Keeps, Rely.KeptOn;
      Yield(am);
      ghost var w := api.world;
      forall k | Keeps(old(api.world), am.name, k) ensures StaysBound(old(api.world), w, am.name, k) {
        HeldOnRelies(old(api.world), w, am.name, k);
      }
      assert forall k | k in old(api.world).machineKeys :: MachineLater(old(api.world), w, k);
      if am.name in w.ams { SaveIsEnabled(w, am.name, am.given, am.Content()); }
      ok := api.PatchAgentMachine(am.name, am.Content());
    }

    /** The patch, by what the store shows then. */
    method Store(am: AgentMachineObject, ghost machine: Option<Machine>) returns (ok: bool)
      requires Ongoing(am)
      modifies api
      ensures api.Valid() && api.start == old(api.start) && old(api.events) <= api.events
      ensures api.Acts(am.name) == old(api.Acts(am.name)) + if ok then [Save(am.Content())] else []
      ensures (if ok then api.faults == old(api.faults) else api.faults > old(api.faults)) && api.listed == old(api.listed)
      ensures ok && am.name in api.world.ams ==> api.world.ams[am.name].managed == am.Content()
      ensures ok && am.finalizer ==> am.name in api.world.ams
      ensures ok && !am.finalizer ==> Finalized(api.world, am.name, am.given)
      ensures ok && am.finalizer && old(am.name in api.world.unbound) && am.agentRef == am.given.managed.agentRef && am.agentRef.Some? ==>
        Releasing(api.world, am.name, am.given)
      ensures OwnerKey(am.given).Some? && machine.Some?
              && BothGone(old(api.world), am, OwnerKey(am.given).value, machine.value) ==>
        HookStaysGone(api.world, am.given, machine.value)
      ensures forall k | Keeps(old(api.world), am.name, k) :: StaysBound(old(api.world), api.world, am.name, k)
    {
      hide Protocol.Inv, Runs.Init, Runs.IsRun, Runs.After, Session.CanSave, ApiServer.ActsOf, Session.Reading;
      hide Protocol.Keeps, StaysBound, AgentFree;
      KeyKnown(api.world, am.name, am.given);
      ok := Patch(am);
      if am.name in api.world.unbound && RefOf(api.world, am.name).Some? {
        StoreIsUnbound(am.name, RefOf(api.world, am.name).value);
      }
    }

    /** Reconcile. It starts from any reachable store, and what it does, together
        with what others do meanwhile, is again a run. The Machine of an
        AgentMachine that removed its hook must be finished or gone by the time the
        AgentMachine is reconciled again. `written` is what the patch carries,
        `hooked` and `made` are the writes up to the end of the deletion hook
        and up to the patch.

        Whatever fails, the hook goes only for a paused deletion or at the hook with
        nothing left to release, and the finalizer with it, or with a Machine that is
        finished or gone. */
    method Reconcile(name: string, inputs: Inputs)
      returns (requeue: bool, failed: bool, ghost given: Option<AgentMachine>, ghost machine: Option<Machine>,
               ghost seen: Option<AgentRead>, ghost exit: Exit, ghost written: Managed,
               ghost hooked: seq<Act>, ghost made: seq<Act>)
      requires api.Valid()
      requires name in api.world.ams && name in api.world.done ==> Settled(api.world, api.world.ams[name])
      modifies api
      ensures api.Valid() && api.start == old(api.start) && old(api.events) <= api.events
      ensures given.None? ==> api.Acts(name) == old(api.Acts(name)) && exit.NotReached? && machine.None?
      ensures given.Some? ==>
        && Justified(given.value, machine, seen, old(api.Acts(name)), api.Acts(name))
        && old(api.Acts(name)) <= made
        && (api.Acts(name) == made || api.Acts(name) == made + [Save(written)])
        && (HasRemoval(old(api.Acts(name)), api.Acts(name)) ==>
              machine.Some? && !written.finalizer && HookStaysGone(api.world, given.value, machine.value))
        && (given.value.managed.finalizer && !written.finalizer && !HasRemoval(old(api.Acts(name)), api.Acts(name)) ==>
              if machine.None? then given.value.deleting else Finished(machine.value) && !given.value.paused)
      ensures given.Some? && machine.Some? && given.value.managed.finalizer && !written.finalizer
              && !HasRemoval(old(api.Acts(name)), api.Acts(name)) ==>
        machine.value.deletingReason != Some(WAITING_FOR_HOOK) && machine.value.hookSucceeded == Some(True)
      ensures given.Some? && machine.Some? && !given.value.paused && api.faults == old(api.faults)
              && (machine.value.deletingReason == Some(WAITING_FOR_HOOK)
                  || machine.value.hookSucceeded in {Some(False), Some(Unknown)}) ==>
        || (HasRemoval(old(api.Acts(name)), api.Acts(name)) && Finalized(api.world, name, given.value))
        || (requeue && Releasing(api.world, name, given.value))
      ensures given.Some? && machine.Some? && AtHook(given.value, machine.value) ==>
        && ReleaseActs(old(api.Acts(name)), made)
        && written == given.value.managed.(finalizer := written.finalizer)
        && (api.faults == old(api.faults) ==>
              && (HasRemoval(old(api.Acts(name)), api.Acts(name)) <==> Finishable(given.value, seen))
              && (Finishable(given.value, seen) ==> Finalized(api.world, name, given.value))
              && (!Finishable(given.value, seen) ==> requeue && Releasing(api.world, name, given.value)))
      ensures given.Some? && machine.Some? && !given.value.paused && Early(machine.value) && api.faults == old(api.faults) ==>
        !exit.NotReached?
      ensures !exit.NotReached? ==>
        && Allocated(inputs, given.value.managed, written, failed, exit)
        && ReleaseActs(old(api.Acts(name)), hooked) && AllocationActs(hooked, made, written.agentRef)
        && Achieved(name, given.value, inputs, old(api.world), api.world, hooked, made, written, failed, exit,
                    api.faults == old(api.faults))
      ensures given.Some? && machine.None? ==>
        if OwnerKey(given.value).Some?
        then failed && written == given.value.managed.(finalizer := given.value.managed.finalizer && !given.value.deleting)
        else (failed <==> inputs.summaryFails) && written.agentRef.None? && !written.ready
             && (failed || AllFiveFalse(written.conditions))
      ensures machine.Some? && exit.NotReached? && api.faults == old(api.faults) ==> !failed
      ensures machine.Some? && exit.NotReached? && api.faults > old(api.faults) ==> failed || api.Acts(name) == made
      ensures exit.ClusterUnnamed? ==> requeue
      ensures requeue && !exit.ClusterUnnamed? ==>
        given.Some? && machine.Some? && !failed && AtHook(given.value, machine.value) && !Finishable(given.value, seen)
      ensures exit.NoAgentFound? && given.value.selector != Some(Malformed) && api.faults == old(api.faults) ==>
        NoneValid(api.listed)
      ensures !exit.NotReached? && api.faults == old(api.faults) ==>
        name in api.world.ams && api.world.ams[name].managed == written
      ensures name in api.world.ams && name !in api.world.done && RefOf(api.world, name).Some? ==>
        forall n | n in api.world.ams && n !in api.world.done && RefOf(api.world, n) == RefOf(api.world, name) :: n == name
    {
      hide Protocol.Inv, Runs.Init, Runs.IsRun, Runs.After, Session.CanSave, ApiServer.ActsOf, Runs.Reachable;
      hide Session.Reading, Session.Settling, Protocol.SaveEnabled, Allocated, AllocationActs, Adopts, Ages;
      hide Justified, HasRemoval, ReleaseActs, Protocol.IsUnbound, Session.SettledIfDone, Protocol.HookGone;
      hide Delivered, Protocol.Keeps, StaysBound;
      hide Rely.SameMachine, Rely.MachineLater, Rely.AgentLater, Rely.HistoryGrows, Protocol.Settled;
      hide Achieved, NoneValid, AgentMachines.AllFiveFalse, Finalized, Releasing, HookStaysGone, Searched;
      hide ReadBack, Hub.Early, Hub.Finished, Protocol.HookOff, Hub.MachineKey, Session.Backed;
      requeue, failed, given, machine, seen, exit, written := false, false, None, None, None, NotReached, FRESH;
      hooked, made := [], [];
      api.Interfere(name);
      SettledIfDoneStays(old(api.world), api.world, name);
      ghost var w0, events := api.world, api.events;
      var got := api.GetAgentMachine(name);
      if got.None? { StoreIsExclusive(name); return; }
      given := got;
      var am := new AgentMachineObject(name, got.value);
      StartReading(api.world, name);
      StartSettling(api.world, name);
      requeue, failed, machine, seen, exit, hooked := Process(am, inputs);
      written, made := am.Content(), api.Acts(name);
      ghost var clean := api.faults == old(api.faults);
      ghost var w1, events1 := api.world, api.events;
      var saved := Store(am, machine);
      SaveIsNoRemoval(given.value, machine, seen, old(api.Acts(name)), made, api.Acts(name), written);
      StoreIsExclusive(name);
      AgesOverRun(api.start, old(api.events), events);
      AgesOverRun(api.start, events, events1);
      AgesOverRun(api.start, events1, api.events);
      if !exit.NotReached? {
        Achieves(name, given.value, inputs, old(api.world), w0, w1, api.world, hooked, made, written, failed, exit,
                 clean, api.faults == old(api.faults));
      }
    }

    /** What holds in every run holds of the store. */
    lemma StoreIsExclusive(name: string)
      requires api.Valid()
      ensures name in api.world.ams && name !in api.world.done && RefOf(api.world, name).Some? ==>
        forall n | n in api.world.ams && n !in api.world.done && RefOf(api.world, n) == RefOf(api.world, name) :: n == name
    {
      if name in api.world.ams && name !in api.world.done && RefOf(api.world, name).Some? {
        api.IsReachable();
        ExclusiveAllocation(api.world, name, RefOf(api.world, name).value);
      }
    }

    lemma StoreIsUnbound(name: string, k: Key)
      requires api.Valid() && name in api.world.unbound && RefOf(api.world, name) == Some(k)
      ensures AgentFree(api.world, Some(k))
    {
      api.IsReachable();
      ReleasingIsUnbound(api.world, name, k);
    }
  }

  /** The Machine has no hook and, if it is being deleted, gets none any more. */
  ghost predicate HookStaysGone(w: World, given: AgentMachine, m: Machine) {
    OwnerKey(given).Some? &&
    (m.deleting && OwnerKey(given).value in w.machines ==> HookOff(w.machines[OwnerKey(given).value]))
  }

  /** The stored AgentMachine has no finalizer, or is gone, as it is if deleted. */
  predicate Finalized(w: World, name: string, given: AgentMachine) {
    (name in w.ams ==> !w.ams[name].managed.finalizer) && (given.deleting ==> name !in w.ams)
  }

  /** The AgentMachine keeps its finalizer and its Agent, which is unbound. */
  predicate Releasing(w: World, name: string, given: AgentMachine) {
    && name in w.ams && w.ams[name].managed.finalizer
    && RefOf(w, name) == given.managed.agentRef && AgentFree(w, given.managed.agentRef)
  }

  function Rank(a: Act): nat {
    if a.Claim? then 0 else if a.Sync? then 1 else if a.Relabel? then 2 else 3
  }

  /** The writes since `before` are a claim, a sync and a relabel of this Agent, each
      at most once and in this order. */
  ghost predicate AllocationActs(before: seq<Act>, after: seq<Act>, agentRef: Option<Key>) {
    && before <= after
    && (forall i | |before| <= i < |after| :: Rank(after[i]) < 3 && agentRef == Some(after[i].agent))
    && (forall i, j | |before| <= i < j < |after| :: Rank(after[i]) < Rank(after[j]))
  }

  lemma AllocationSteps(a: seq<Act>, b: seq<Act>, c: seq<Act>, d: seq<Act>, agentRef: Option<Key>)
    requires b == a || (|b| == |a| + 1 && a <= b && b[|a|].Claim? && agentRef == Some(b[|a|].agent))
    requires c == b || (|c| == |b| + 1 && b <= c && c[|b|].Sync? && agentRef == Some(c[|b|].agent))
    requires d == c || (|d| == |c| + 1 && c <= d && d[|c|].Relabel? && agentRef == Some(d[|c|].agent))
    ensures AllocationActs(a, d, agentRef)
  {
  }

  lemma SyncActsSteps(a: seq<Act>, b: seq<Act>, d: seq<Act>, k: Key, data: BootstrapData, wrote: bool)
    requires b == a || (|b| == |a| + 1 && a <= b && b[|a|].Claim? && b[|a|].agent == k)
    requires SyncActs(b, d, k, data, wrote)
    ensures AllocationActs(a, d, Some(k))
  {
    AllocationSteps(a, b, b + if wrote then [Sync(k, data)] else [], d, Some(k));
  }

  /** How far the allocation part comes is decided by what it finds. */
  predicate ExitFits(inputs: Inputs, before: Managed, exit: Exit) {
    if !Usable(inputs.secret, inputs.tokenStored) then exit.BootstrapFailed?
    else if before.ready then exit.AlreadyReady?
    else if inputs.cluster.None? then exit.ClusterUnknown?
    else if inputs.cluster.value.name == "" then exit.ClusterUnnamed?
    else exit.Completed? || (before.agentRef.None? && (exit.NoAgentFound? || exit.AddressPanic?))
  }

  /** The exits before the cluster is known. */
  predicate IsEarly(exit: Exit) {
    exit.BootstrapFailed? || exit.AlreadyReady? || exit.ClusterUnknown?
  }

  /** The AgentMachine keeps an Agent that it has, and its status fits the Agent that
      was read last, or it is not ready. Without an Agent only a failing summary
      makes the reconcile fail, whatever happened to the search. */
  ghost predicate StatusFits(summaryFails: bool, before: Managed, after: Managed, failed: bool, exit: Exit) {
    && (before.agentRef.Some? ==> after.agentRef == before.agentRef && after.addresses == before.addresses)
    && (exit.Completed? ==> after.agentRef.Some? && (before.agentRef.None? ==> after.addresses != []))
    && (exit.AddressPanic? ==> failed && after.agentRef.Some? && !after.ready && after.addresses == before.addresses)
    && (exit.NoAgentFound? ==>
          && after.agentRef.None? && (failed <==> summaryFails)
          && ReasonOf(after.conditions, AgentReserved) == Some(if exit.searchFailed then "AgentNotYetFound" else "NoSuitableAgents"))
    && (exit.ClusterUnnamed? ==>
          && (after.agentRef.None? ==> ReasonOf(after.conditions, AgentReserved) == Some("AgentNotYetFound"))
          && after.agentRef == before.agentRef && (after.agentRef.None? ==> (failed <==> summaryFails))
          && (!failed ==>
                if after.agentRef.None? then !after.ready && AllFiveFalse(after.conditions)
                else exit.reported.Some? && (after.ready <==> ReportsAllTrue(exit.reported.value))
                     && Mirrors(after.conditions, exit.reported.value)))
    && (exit.ClusterUnnamed? || exit.NoAgentFound? || exit.Completed? ==>
          && (failed ==> !after.ready)
          && (exit.Completed? && !failed ==>
                exit.reported.Some? && (after.ready <==> ReportsAllTrue(exit.reported.value))
                && Mirrors(after.conditions, exit.reported.value))
          && (exit.NoAgentFound? && !failed ==> !after.ready && AllFiveFalse(after.conditions)))
  }

  /** What the allocation part makes of the AgentMachine: a ready one stays as it is,
      and its exit is decided by what it finds. */
  ghost predicate Allocated(inputs: Inputs, before: Managed, after: Managed, failed: bool, exit: Exit) {
    && ExitFits(inputs, before, exit)
    && (IsEarly(exit) ==> after == before.(finalizer := true) && (failed <==> !exit.AlreadyReady?))
    && (!IsEarly(exit) ==> StatusFits(inputs.summaryFails, before, after, failed, exit))
  }

  /** What a reconcile with an allocation part leaves behind, read off the stored Agent.
      Every claim is for the given cluster, namespace and secret, and stands. An
      Agent that was labelled for the AgentMachine becomes its Agent. New
      addresses are those of the Agent. After a complete reconcile the Agent is labelled
      for the AgentMachine and, unless a call failed, has the bootstrap data, or does
      not exist. */
  ghost predicate Achieved(
      name: string, given: AgentMachine, inputs: Inputs, w: World, w': World,
      hooked: seq<Act>, made: seq<Act>, written: Managed, failed: bool, exit: Exit, clean: bool)
  {
    && WritesFit(given.namespace, inputs, hooked, made) && ClaimsStand(w', name, hooked, made)
    && (clean && Searched(given, exit) ==> Adopts(name, w, w', written.agentRef))
    && (exit.AddressPanic? ==> written.agentRef.Some? && HasBadAddress(w', written.agentRef.value))
    && (exit.Completed? || exit.ClusterUnnamed? ==>
          failed || written.agentRef.None? || LabelOf(w', written.agentRef.value) == Some(name))
    && (exit.Completed? ==>
          && written.agentRef.Some?
          && var k := written.agentRef.value;
          && (given.managed.agentRef.None? ==> Addressed(w', k, written.addresses))
          && (exit.reported.Some? ==> ReadSince(w, w', k, exit.reported.value))
          && (clean ==> InPlace(w, w', k, inputs) && (failed ==> inputs.summaryFails || !Alive(w', k))))
  }

  lemma Achieves(
      name: string, given: AgentMachine, inputs: Inputs, w0: World, w: World, w': World, w'': World,
      hooked: seq<Act>, made: seq<Act>, written: Managed, failed: bool, exit: Exit, clean: bool, cleaner: bool)
    requires Delivered(name, given.namespace, inputs, w, w', hooked, made, written.agentRef, failed, exit, clean)
    requires Allocated(inputs, given.managed, written, failed, exit) && CanSave(w', name, given, written)
    requires Relies(name, w0, w) && Ages(w0, w) && Ages(w, w') && Ages(w', w'') && (cleaner ==> clean)
    requires clean && Searched(given, exit) ==> Adopts(name, w, w', written.agentRef)
    requires forall k | Keeps(w', name, k) :: StaysBound(w', w'', name, k)
    ensures Achieved(name, given, inputs, w0, w'', hooked, made, written, failed, exit, cleaner)
  {
    hide CanSave, Addressed, HasBadAddress, Delivered, Ages, WritesFit, ClaimsStand, InPlace, ReadBack, ReadSince;
    hide Relies, Adopts, Searched;
    if clean && Searched(given, exit) { AdoptsLater(name, w0, w, w', w'', written.agentRef); }
    DeliveredLater(name, given.namespace, inputs, w0, w, w', w'', hooked, made, written.agentRef, failed, exit, clean);
    SavedIsAddressed(w', w'', name, given, written);
    if exit.Completed? && clean {
      ReadBackIsInPlace(w0, w'', written.agentRef.value, inputs, exit.data, exit.read);
    }
  }

  /** The reconcile looked for an Agent. */
  predicate Searched(given: AgentMachine, exit: Exit) {
    given.managed.agentRef.None? && (exit.NoAgentFound? || exit.AddressPanic? || exit.Completed?)
  }

  /** The Agent labelled for the AgentMachine, if it still exists, is its Agent. */
  ghost predicate Adopts(name: string, w: World, w': World, agentRef: Option<Key>) {
    forall k | LabelOf(w, k) == Some(name) && Alive(w', k) :: agentRef == Some(k)
  }

  lemma AdoptsUntil(name: string, w: World, w': World, w'': World, agentRef: Option<Key>)
    requires Ages(w, w') && Ages(w', w'') && Adopts(name, w, w', agentRef)
    ensures Adopts(name, w, w'', agentRef)
  {
    forall k | LabelOf(w, k) == Some(name) && Alive(w'', k) ensures agentRef == Some(k) {
      assert k in w.agents;
    }
  }

  lemma AdoptsLater(name: string, w0: World, w: World, w': World, w'': World, agentRef: Option<Key>)
    requires Relies(name, w0, w) && Ages(w, w') && Ages(w', w'') && Adopts(name, w, w', agentRef)
    ensures Adopts(name, w0, w'', agentRef)
  {
    forall k | LabelOf(w0, k) == Some(name) && Alive(w'', k) ensures agentRef == Some(k) {
      assert AgentLater(w0, w, name, k);
    }
  }

  /** The Agent has neither label nor cluster. */
  predicate AgentFree(w: World, agentRef: Option<Key>) {
    && agentRef.Some? && agentRef.value in w.agents
    && REF_LABEL !in w.agents[agentRef.value].agent.labels
    && w.agents[agentRef.value].agent.spec.clusterRef == None
  }

  lemma UnboundIsStored(w: World, name: string, given: AgentMachine)
    requires Inv(w) && Reading(w, name, given)
    ensures name in w.unbound && given.managed.agentRef.Some? && given.managed.finalizer ==> AgentFree(w, given.managed.agentRef)
  {
    if name in w.unbound && given.managed.agentRef.Some? && given.managed.finalizer {
      assert RefOk(w, name, given.managed.agentRef.value);
    }
  }

  /** No Agent is left to release: there is none, it does not exist, or its host is
      in one of the released states. */
  ghost predicate Finishable(given: AgentMachine, seen: Option<AgentRead>) {
    given.managed.agentRef.None? ||
    (seen.Some? && (seen.value.NotFound? || (seen.value.Found? && Released(seen.value.agent.status.state))))
  }

  lemma RemoveHookIsEnabled(w: World, name: string, given: AgentMachine, key: Key, m: Machine, reason: Reason)
    requires Reading(w, name, given) && OwnerKey(given) == Some(key) && ReasonHolds(w, name, reason)
    requires MachineSeen(w, key, m) && (reason.PausedDeletion? || !Early(m))
    ensures HookOff(m) ==> RemoveHookEnabled(w, name, key, false, reason)
    ensures key in w.machines && DELETE_HOOK in w.machines[key].annotations ==> RemoveHookEnabled(w, name, key, true, reason)
  {
  }

  lemma DeletedHasFinalizer(w: World, name: string, given: AgentMachine)
    requires Reading(w, name, given)
    ensures given.deleting ==> given.managed.finalizer
  {
  }

  lemma ReleaseIsLonger(a: seq<Act>, b: seq<Act>)
    requires ReleaseActs(a, b)
    ensures a <= b
  {
  }

  lemma NoOwnerNoAgent(w: World, name: string, given: AgentMachine)
    requires Reading(w, name, given)
    ensures OwnerKey(given).None? ==> given.managed.agentRef.None?
  {
  }

  lemma KeyKnown(w: World, name: string, given: AgentMachine)
    requires Reading(w, name, given)
    ensures OwnerKey(given).Some? ==> OwnerKey(given).value in w.machineKeys
  {
    assert OwnerKey(given).Some? ==> OwnerKey(given).value in KeySet(OwnerKey(given));
  }

  lemma StoredIsHeld(w: World, name: string, given: AgentMachine, agentRef: Option<Key>)
    requires agentRef.Some? && agentRef == given.managed.agentRef && given.managed.finalizer
    requires name !in w.unbound && name !in w.done
    ensures Holding(w, name, given, agentRef)
  {
  }

  lemma HoldingWritten(w: World, name: string, act: Act, given: AgentMachine, m: Managed)
    requires OwnEnabled(w, name, act) && (act.Sync? || act.Relabel?)
    requires Holding(w, name, given, m.agentRef) && CanSave(OwnApply(w, name, act), name, given, m)
    ensures Holding(OwnApply(w, name, act), name, given, m.agentRef)
  {
  }

  lemma CanSaveConsistent(w: World, name: string, given: AgentMachine, m: Managed)
    requires CanSave(w, name, given, m)
    ensures Consistent(m)
  {
  }

  /** Readiness and conditions do not decide whether the object may be stored. */
  lemma StatusSet(w: World, name: string, given: AgentMachine, m: Managed, m': Managed)
    requires CanSave(w, name, given, m)
    requires m' == m.(ready := m'.ready, conditions := m'.conditions) && Consistent(m')
    ensures CanSave(w, name, given, m')
  {
  }

  ghost predicate SameRelease(name: string, w: World, w': World) {
    SameUnbind(w, w', name) && (name in w'.done <==> name in w.done)
  }

  lemma LabelledIsFound(w: World, w': World, name: string, k: Key)
    requires Relies(name, w, w') && Backs(w', name, k)
    ensures forall j | LabelOf(w, j) == Some(name) && Alive(w', j) :: j == k
  {
    forall j | LabelOf(w, j) == Some(name) && Alive(w', j) ensures j == k {
      assert AgentLater(w, w', name, j);
    }
  }

  lemma LabelledIsDead(w: World, w': World, name: string)
    requires Relies(name, w, w') && NobodyLabelled(w', name)
    ensures forall j | LabelOf(w, j) == Some(name) :: j in w'.agents && !Alive(w', j)
  {
    forall j | LabelOf(w, j) == Some(name) ensures j in w'.agents && !Alive(w', j) {
      assert AgentLater(w, w', name, j);
    }
  }

  /** The list of free Agents: recorded snapshots that match and are unlabelled. */
  ghost predicate AllFree(w: World, given: AgentMachine, items: seq<Item>) {
    forall i | 0 <= i < |items| :: Recorded(w, items[i]) && IsFree(given, items[i])
  }

  lemma RecordedStays(w: World, w': World, name: string, it: Item)
    requires Relies(name, w, w') && Recorded(w, it)
    ensures Recorded(w', it)
  {
  }

  lemma AllFreeStays(w: World, w': World, name: string, given: AgentMachine, items: seq<Item>)
    requires Relies(name, w, w') && AllFree(w, given, items)
    ensures AllFree(w', given, items)
  {
  }

  /** An Agent that the list of free Agents may show. */
  predicate IsFree(given: AgentMachine, it: Item) {
    Matches(given.selector, it.agent.labels) && RefLabel(it.agent) == None
  }

  predicate IsCandidate(given: AgentMachine, it: Item) {
    IsFree(given, it) && IsValid(it.agent)
  }

  lemma ClaimBacks(w: World, name: string, k: Key, a: Agent)
    requires NobodyLabelled(w, name) && RefLabel(a) == Some(name)
    ensures Backs(PutAgent(w, k, a), name, k)
  {
    var w' := PutAgent(w, k, a);
    assert forall j | j != k :: Alive(w', j) == Alive(w, j) && LabelOf(w', j) == LabelOf(w, j);
  }

  lemma ListedBacks(w: World, name: string, it: Item)
    requires Inv(w) && ListedFor(w, name, it)
    ensures Recorded(w, it) && Backs(w, name, it.key)
  {
  }

  /** The writes since `before` are all part of a release. */
  ghost predicate ReleaseActs(before: seq<Act>, after: seq<Act>) {
    before <= after && forall i | |before| <= i < |after| :: IsReleaseAct(after[i])
  }

  /** Every hook removal since `before` is for a paused deletion, or at the hook with
      nothing left to release. */
  ghost predicate Justified(
      given: AgentMachine, machine: Option<Machine>, seen: Option<AgentRead>, before: seq<Act>, after: seq<Act>)
  {
    forall i | |before| <= i < |after| && after[i].RemoveHook? ::
      if after[i].reason.PausedDeletion? then given.paused && given.deleting
      else machine.Some? && AtHook(given, machine.value) && Finishable(given, seen)
  }

  /** The writes since `before` take a hook off. */
  ghost predicate HasRemoval(before: seq<Act>, after: seq<Act>) {
    exists i | |before| <= i < |after| :: after[i].RemoveHook?
  }

  lemma HookActs(given: AgentMachine, machine: Option<Machine>, seen: Option<AgentRead>, a: seq<Act>, b: seq<Act>, key: Key)
    requires b == a || b == a + [AddHook(key)]
    ensures ReleaseActs(a, b) && !HasRemoval(a, b) && Justified(given, machine, seen, a, b)
  {
  }

  lemma RemovalActs(
      given: AgentMachine, machine: Option<Machine>, seen: Option<AgentRead>, a: seq<Act>, b: seq<Act>, c: seq<Act>)
    requires ReleaseActs(a, b) && !HasRemoval(a, b)
    requires c == b || (|c| == |b| + 1 && b <= c && c[|b|].RemoveHook?)
    requires c != b ==> if c[|b|].reason.PausedDeletion? then given.paused && given.deleting
                        else machine.Some? && AtHook(given, machine.value) && Finishable(given, seen)
    ensures ReleaseActs(a, c) && Justified(given, machine, seen, a, c) && (HasRemoval(a, c) <==> c != b)
  {
    assert forall i | 0 <= i < |b| :: c[i] == b[i];
  }

  lemma ReleaseActsJoin(
      given: AgentMachine, m0: Machine, m: Machine, seen: Option<AgentRead>, a: seq<Act>, b: seq<Act>, c: seq<Act>)
    requires ReleaseActs(a, b) && !HasRemoval(a, b) && ReleaseActs(b, c) && Justified(given, Some(m), seen, b, c)
    requires AtHook(given, m) ==> AtHook(given, m0)
    ensures ReleaseActs(a, c) && Justified(given, Some(m0), seen, a, c) && (HasRemoval(a, c) <==> HasRemoval(b, c))
    ensures a <= b <= c
  {
    assert forall i | 0 <= i < |b| :: c[i] == b[i];
  }

  /** An allocation takes no hook off. */
  lemma AllocationIsNoRemoval(
      given: AgentMachine, machine: Option<Machine>, seen: Option<AgentRead>,
      a: seq<Act>, b: seq<Act>, c: seq<Act>, agentRef: Option<Key>)
    requires ReleaseActs(a, b) && Justified(given, machine, seen, a, b) && AllocationActs(b, c, agentRef)
    ensures a <= c && Justified(given, machine, seen, a, c) && (HasRemoval(a, c) <==> HasRemoval(a, b))
  {
    assert forall i | 0 <= i < |b| :: c[i] == b[i];
  }

  /** Neither is the patch. */
  lemma SaveIsNoRemoval(
      given: AgentMachine, machine: Option<Machine>, seen: Option<AgentRead>, a: seq<Act>, b: seq<Act>, c: seq<Act>, m: Managed)
    requires a <= b && Justified(given, machine, seen, a, b) && (c == b || c == b + [Save(m)])
    ensures Justified(given, machine, seen, a, c) && (HasRemoval(a, c) <==> HasRemoval(a, b))
  {
    assert forall i | 0 <= i < |b| :: c[i] == b[i];
  }

  lemma FinalizerSet(w: World, name: string, given: AgentMachine, m: Managed, kept: bool)
    requires CanSave(w, name, given, m) && (kept || Settled(w, given) || name in w.done)
    ensures CanSave(w, name, given, m.(finalizer := kept))
  {
  }

  lemma FinishedMeansSettled(w: World, given: AgentMachine, key: Key, m: Machine)
    requires MachineSeen(w, key, m) && Finished(m) && OwnerKey(given) == Some(key)
    ensures Settled(w, given)
  {
  }

  lemma StoredAgentExists(w: World, name: string, given: AgentMachine, k: Key)
    requires Inv(w) && Reading(w, name, given) && given.managed.agentRef == Some(k) && given.managed.finalizer
    ensures k in w.agents && (!Alive(w, k) ==> ReasonHolds(w, name, AgentMissing(k)))
  {
    assert RefOk(w, name, k);
  }

  /** A referenced Agent that shows no trace of the binding was unbound by its
      AgentMachine. */
  lemma UnboundByMe(w: World, name: string, given: AgentMachine, k: Key, v: nat, a: Agent)
    requires Inv(w) && Reading(w, name, given) && given.managed.agentRef == Some(k) && given.managed.finalizer
    requires name !in w.done && Current(w, k, v) && a == w.agents[k].agent
    ensures IsUnbound(a) ==> name in w.unbound && w.unbound[name] <= v
  {
    assert RefOk(w, name, k);
  }

  lemma UnbindIsEnabled(w: World, name: string, given: AgentMachine, key: Key, m: Machine, k: Key)
    requires Reading(w, name, given) && MachineSeen(w, key, m) && !Early(m) && Alive(w, k)
    requires given.managed.agentRef == Some(k) && OwnerKey(given) == Some(key)
    requires given.managed.finalizer && name !in w.done
    ensures UnbindEnabled(w, name, k)
  {
  }

  lemma UnbindShowsRelease(w: World, name: string, k: Key)
    requires UnbindEnabled(w, name, k)
    ensures Released(w.agents[k].agent.status.state) ==>
      ReasonHolds(UnbindApply(w, name, k), name, AgentReleased(k, w.clock))
  {
  }
}
