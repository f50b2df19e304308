/** The API server as the reconcile of one AgentMachine meets it: every call may
    fail, others take steps between two calls, and a list of free Agents may be
    arbitrarily old. The server records the run that the calls make up. */
module ApiServer {
  import opened Wrappers
  import opened Hub
  import opened AgentEdits
  import opened Protocol
  import opened Runs
  import opened Rely
  import ProtocolInvariant

  datatype Item = Item(key: Key, version: nat, agent: Agent)
  datatype AgentRead = Found(version: nat, agent: Agent) | NotFound | ReadFailed
  datatype ListRead = Listed(items: seq<Item>) | ListNotFound | ListFailed

  /** An Update of an Agent and whether it was accepted. */
  datatype Attempt = Attempt(key: Key, version: nat, accepted: bool)

  /** The writes of one AgentMachine's reconciles in a run. */
  ghost function ActsOf(es: seq<Event>, name: string): seq<Act> {
    if es == [] then []
    else
      var e := es[|es| - 1];
      ActsOf(es[..|es| - 1], name) + if Foreign(name, e) then [] else [e.act]
  }

  lemma ActsStep(es: seq<Event>, e: Event, name: string)
    ensures ActsOf(es + [e], name) == ActsOf(es, name) + if Foreign(name, e) then [] else [e.act]
  {
    var longer := es + [e];
    assert longer[..|longer| - 1] == es && longer[|longer| - 1] == e;
  }

  predicate Current(w: World, k: Key, version: nat) {
    Alive(w, k) && w.agents[k].version == version
  }

  /** An Agent that is being released is not given to anybody yet. This is an
      assumption on the schedule, not a check that the API server makes. */
  predicate Admitted(w: World, k: Key, updated: Agent) {
    LabelOf(w, k) == None && RefLabel(updated).Some? ==> NotBeingReleased(w, k)
  }

  /** A snapshot that the history recorded. */
  predicate Recorded(w: World, it: Item) {
    it.version in w.history && w.history[it.version] == Snapshot(it.key, it.agent)
  }

  /** An entry of a current list of the Agents labelled for an AgentMachine. */
  predicate ListedFor(w: World, name: string, it: Item) {
    Current(w, it.key, it.version) && it.agent == w.agents[it.key].agent && LabelOf(w, it.key) == Some(name)
  }

  function LabelledKeys(w: World, name: string): (ks: set<Key>)
    ensures ks == {} ==> NobodyLabelled(w, name)
    ensures forall k | k in ks :: Alive(w, k) && LabelOf(w, k) == Some(name)
  {
    var ks := set k | k in w.agents && Alive(w, k) && LabelOf(w, k) == Some(name);
    assert forall k | k in w.agents && Alive(w, k) && LabelOf(w, k) == Some(name) :: k in ks;
    ks
  }

  /** Same version, same content: an accepted write met the Agent that was read,
      however long ago. */
  lemma VersionMeansContent(w: World, it: Item)
    requires Inv(w) && Recorded(w, it) && Current(w, it.key, it.version)
    ensures w.agents[it.key].agent == it.agent
  {
    assert w.history[w.agents[it.key].version] == Snapshot(it.key, w.agents[it.key].agent);
  }

  class Server {
    var world: World
    ghost var start: World
    ghost var events: seq<Event>
    ghost var attempts: seq<Attempt>
    ghost var listed: seq<Item>
    ghost var faults: nat

    ghost predicate Valid()
      reads this
    {
      Init(start) && IsRun(start, events) && world == After(start, events) && Inv(world)
    }

    ghost function Acts(name: string): seq<Act>
      reads this
    {
      ActsOf(events, name)
    }

    constructor (start: World)
      requires Init(start)
      ensures Valid() && world == start && events == [] && attempts == [] && listed == [] && faults == 0
    {
      this.start, world := start, start;
      events, attempts, listed, faults := [], [], [], 0;
      InitIsInv(start);
    }

    /** The store is always one that some run gets to. */
    lemma IsReachable()
      requires Valid()
      ensures Reachable(world)
    {
    }

    /** Applies one step and records it. */
    method Take(e: Event)
      requires Valid() && Enabled(world, e)
      modifies this`world, this`events
      ensures Valid() && world == Apply(old(world), e) && events == old(events) + [e]
      ensures forall n :: Acts(n) == old(Acts(n)) + if Foreign(n, e) then [] else [e.act]
    {
      ProtocolInvariant.StepKeepsInv(world, e);
      RunStep(start, events, e);
      forall n ensures ActsOf(events + [e], n) == ActsOf(events, n) + if Foreign(n, e) then [] else [e.act] {
        ActsStep(events, e, n);
      }
      world, events := Apply(world, e), events + [e];
    }

    /** Everybody but the reconcile of `name` takes any number of steps. */
    method Interfere(name: string)
      requires Valid()
      modifies this`world, this`events
      ensures Valid() && Relies(name, old(world), world)
      ensures Acts(name) == old(Acts(name)) && old(events) <= events
    {
      ReliesReflexive(name, world);
      var n: nat := *;
      while n > 0
        invariant Valid() && Relies(name, old(world), world)
        invariant Acts(name) == old(Acts(name)) && old(events) <= events
      {
        var e: Event := *;
        if Foreign(name, e) && Enabled(world, e) {
          ghost var before := world;
          StepRelies(name, world, e);
          Take(e);
          ReliesTransitive(name, old(world), before, world);
        }
        n := n - 1;
      }
    }

    // ---- Reads ---------------------------------------------------------------

    method GetAgentMachine(name: string) returns (r: Option<AgentMachine>)
      requires Valid()
      modifies this`faults
      ensures Valid()
      ensures r.Some? ==> name in world.ams && r.value == world.ams[name] && faults == old(faults)
      ensures r.None? ==> name !in world.ams || faults > old(faults)
    {
      var up: bool := *;
      if up && name in world.ams { return Some(world.ams[name]); }
      faults := faults + 1;
      return None;
    }

    /** A Machine lookup fails only when the Machine does not exist. */
    method GetMachine(key: Key) returns (r: Option<Machine>)
      ensures r == if key in world.machines then Some(world.machines[key]) else None
    {
      r := if key in world.machines then Some(world.machines[key]) else None;
    }

    method GetAgent(key: Key) returns (r: AgentRead)
      requires Valid()
      modifies this`faults
      ensures Valid()
      ensures r.Found? ==> Current(world, key, r.version) && r.agent == world.agents[key].agent
                           && Recorded(world, Item(key, r.version, r.agent))
      ensures r.NotFound? ==> !Alive(world, key)
      ensures if r.ReadFailed? then faults > old(faults) else faults == old(faults)
    {
      var up: bool := *;
      if !up { faults := faults + 1; return ReadFailed; }
      if !Alive(world, key) { return NotFound; }
      return Found(world.agents[key].version, world.agents[key].agent);
    }

    /** The Agents labelled for an AgentMachine, as they are now. The kind being
        unknown to the server counts as an empty list. */
    method ListLabelled(name: string) returns (r: ListRead)
      requires Valid()
      modifies this`faults
      ensures Valid()
      ensures r.Listed? ==>
        && (forall i | 0 <= i < |r.items| :: ListedFor(world, name, r.items[i]))
        && (r.items == [] ==> NobodyLabelled(world, name))
      ensures r.ListNotFound? ==> NobodyLabelled(world, name)
      ensures if r.ListFailed? then faults > old(faults) else faults == old(faults)
    {
      var up: bool := *;
      if !up { faults := faults + 1; return ListFailed; }
      var rest := LabelledKeys(world, name);
      if rest == {} {
        var known: bool := *;
        return if known then Listed([]) else ListNotFound;
      }
      var items: seq<Item> := [];
      while rest != {}
        invariant rest <= LabelledKeys(world, name) && (items == [] ==> rest != {})
        invariant forall i | 0 <= i < |items| :: ListedFor(world, name, items[i])
        decreases |rest|
      {
        var k :| k in rest;
        items := items + [Item(k, world.agents[k].version, world.agents[k].agent)];
        rest := rest - {k};
      }
      return Listed(items);
    }

    /** Unlabelled Agents that match a selector, each as some version had it. The last
        such list is kept in `listed`. */
    method ListFree(selector: Option<Selector>) returns (r: ListRead)
      requires Valid()
      modifies this`faults, this`listed
      ensures Valid()
      ensures r.Listed? ==> forall i | 0 <= i < |r.items| ::
        && var it := r.items[i];
        Recorded(world, it) && Matches(selector, it.agent.labels) && RefLabel(it.agent) == None
      ensures !r.ListNotFound? && (r.Listed? ==> listed == r.items)
      ensures if r.ListFailed? then faults > old(faults) else faults == old(faults)
    {
      var up: bool := *;
      if !up { faults := faults + 1; return ListFailed; }
      var items: seq<Item> := [];
      var n: nat := *;
      while n > 0
        invariant forall i | 0 <= i < |items| ::
          Recorded(world, items[i]) && Matches(selector, items[i].agent.labels) && RefLabel(items[i].agent) == None
      {
        var v: nat := *;
        if v in world.history {
          var s := world.history[v];
          if Matches(selector, s.agent.labels) && RefLabel(s.agent) == None {
            items := items + [Item(s.key, v, s.agent)];
          }
        }
        n := n - 1;
      }
      listed := items;
      return Listed(items);
    }

    // ---- Writes ----------------------------------------------------------------

    /** Update of an Agent: accepted only at the version that was read. `act` is
        the step that the write amounts to. */
    method UpdateAgent(name: string, key: Key, version: nat, updated: Agent, act: Act) returns (ok: bool)
      requires Valid()
      requires Current(world, key, version) && Admitted(world, key, updated) ==>
        OwnEnabled(world, name, act) && OwnApply(world, name, act).agents == PutAgent(world, key, updated).agents
      modifies this
      ensures Valid() && start == old(start) && listed == old(listed)
      ensures attempts == old(attempts) + [Attempt(key, version, ok)]
      ensures ok ==>
        && old(Current(world, key, version)) && old(OwnEnabled(world, name, act))
        && world == OwnApply(old(world), name, act)
        && Acts(name) == old(Acts(name)) + [act] && old(events) <= events && faults == old(faults)
      ensures !ok ==> world == old(world) && events == old(events) && faults > old(faults)
    {
      hide Inv, Init, IsRun, After, OwnEnabled, OwnApply;
      var up: bool := *;
      ok := up && Current(world, key, version) && Admitted(world, key, updated);
      if ok { Take(Own(name, act)); } else { faults := faults + 1; }
      attempts := attempts + [Attempt(key, version, ok)];
    }

    /** Merge patch of an Agent's label: not tied to a version. */
    method PatchLabel(name: string, key: Key) returns (ok: bool)
      requires Valid()
      requires Alive(world, key) ==> OwnEnabled(world, name, Relabel(key))
      modifies this
      ensures Valid() && start == old(start) && attempts == old(attempts) && listed == old(listed)
      ensures ok ==>
        && old(OwnEnabled(world, name, Relabel(key))) && world == OwnApply(old(world), name, Relabel(key))
        && Acts(name) == old(Acts(name)) + [Relabel(key)] && old(events) <= events && faults == old(faults)
      ensures !ok ==> world == old(world) && events == old(events) && faults > old(faults)
    {
      var up: bool := *;
      ok := up && Alive(world, key);
      if ok { Take(Own(name, Relabel(key))); } else { faults := faults + 1; }
    }

    /** Update of a Machine: accepted only if it is still what was read. */
    method UpdateMachine(name: string, key: Key, read: Machine, updated: Machine, act: Act) returns (ok: bool)
      requires Valid()
      requires key in world.machines && world.machines[key] == read ==>
        OwnEnabled(world, name, act) && OwnApply(world, name, act).machines == world.machines[key := updated]
      modifies this
      ensures Valid() && start == old(start) && attempts == old(attempts) && listed == old(listed)
      ensures ok ==>
        && old(key in world.machines && world.machines[key] == read && OwnEnabled(world, name, act))
        && world == OwnApply(old(world), name, act)
        && Acts(name) == old(Acts(name)) + [act] && old(events) <= events && faults == old(faults)
      ensures !ok ==> world == old(world) && events == old(events) && faults > old(faults)
    {
      hide Inv, Init, IsRun, After, OwnEnabled, OwnApply;
      var up: bool := *;
      ok := up && key in world.machines && world.machines[key] == read;
      if ok { Take(Own(name, act)); } else { faults := faults + 1; }
    }

    /** Notes that the hook needed no write because it was already absent. */
    method NoteHookAbsent(name: string, key: Key, reason: Reason)
      requires Valid() && OwnEnabled(world, name, RemoveHook(key, false, reason))
      modifies this`world, this`events
      ensures Valid() && world == OwnApply(old(world), name, RemoveHook(key, false, reason))
      ensures Acts(name) == old(Acts(name)) + [RemoveHook(key, false, reason)] && old(events) <= events
    {
      Take(Own(name, RemoveHook(key, false, reason)));
    }

    /** The deferred patch of the AgentMachine: it fails or applies in full. */
    method PatchAgentMachine(name: string, managed: Managed) returns (ok: bool)
      requires Valid()
      requires name in world.ams ==> OwnEnabled(world, name, Save(managed))
      modifies this
      ensures Valid() && start == old(start) && attempts == old(attempts) && listed == old(listed)
      ensures ok ==>
        && old(OwnEnabled(world, name, Save(managed))) && world == OwnApply(old(world), name, Save(managed))
        && Acts(name) == old(Acts(name)) + [Save(managed)] && old(events) <= events && faults == old(faults)
      ensures !ok ==> world == old(world) && events == old(events) && faults > old(faults)
    {
      var up: bool := *;
      ok := up && name in world.ams;
      if ok { Take(Own(name, Save(managed))); } else { faults := faults + 1; }
    }
  }
}
