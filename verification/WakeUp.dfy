/** Which AgentMachines an event on an Agent wakes up. */
module WakeUp {
  import opened Wrappers
  import opened Hub
  import opened AgentEdits
  import opened Protocol
  import opened ProtocolInvariant
  import opened Runs

  // ---- The namespace annotation ------------------------------------------------

  ghost predicate NamespacesOk(w: World) {
    forall n | n in w.ams :: NamespaceFits(w, n, w.ams[n].namespace)
  }

  /** A write to one Agent keeps what `n` needs, if it does. */
  lemma NamespacePut(w: World, k: Key, a: Agent, w': World, n: string, ns: string)
    requires NamespaceFits(w, n, ns) && w'.agents == PutAgent(w, k, a).agents
    requires RefLabel(a) == Some(n) && REF_NAMESPACE in a.annotations ==> a.annotations[REF_NAMESPACE] == ns
    ensures NamespaceFits(w', n, ns)
  {
  }

  lemma NamespaceOwnWrite(w: World, name: string, act: Act, n: string)
    requires Inv(w) && NamespacesOk(w) && OwnEnabled(w, name, act) && n in w.ams
    requires act.Claim? || act.Sync? || act.Relabel? || act.Unbind?
    ensures NamespaceFits(OwnApply(w, name, act), n, w.ams[n].namespace)
  {
    var k, ns, w' := act.agent, w.ams[n].namespace, OwnApply(w, name, act);
    assert NamespaceFits(w, n, ns);
    if act.Relabel? {
      assert RefOf(w, name) == Some(k) ==> RefOk(w, name, k);
    }
    NamespacePut(w, k, w'.agents[k].agent, w', n, ns);
  }

  lemma NamespaceKept(w: World, w': World, n: string, ns: string)
    requires AgentsKept(w, w') && NamespaceFits(w, n, ns)
    ensures NamespaceFits(w', n, ns)
  {
  }

  lemma NamespaceAgentEvent(w: World, e: Event, n: string)
    requires Enabled(w, e) && (e.AgentCreated? || e.AgentChanged?) && n in w.ams
    requires NamespaceFits(w, n, w.ams[n].namespace)
    ensures NamespaceFits(Apply(w, e), n, w.ams[n].namespace)
  {
    hide OwnEnabled, OwnApply;
    NamespacePut(w, e.key, e.agent, Apply(w, e), n, w.ams[n].namespace);
  }

  lemma NamespaceOwn(w: World, name: string, act: Act, n: string)
    requires Inv(w) && NamespacesOk(w) && OwnEnabled(w, name, act) && n in OwnApply(w, name, act).ams
    ensures NamespaceFits(OwnApply(w, name, act), n, OwnApply(w, name, act).ams[n].namespace)
  {
    hide Inv, NamespaceFits;
    if act.Claim? || act.Sync? || act.Relabel? || act.Unbind? {
      NamespaceOwnWrite(w, name, act, n);
    } else {
      NamespaceKept(w, OwnApply(w, name, act), n, w.ams[n].namespace);
    }
  }

  lemma NamespaceStep(w: World, e: Event, n: string)
    requires Inv(w) && NamespacesOk(w) && Enabled(w, e) && n in Apply(w, e).ams
    ensures NamespaceFits(Apply(w, e), n, Apply(w, e).ams[n].namespace)
  {
    hide Inv, NamespaceFits, OwnEnabled;
    if e.Own? {
      NamespaceOwn(w, e.name, e.act, n);
    } else if e.AgentCreated? || e.AgentChanged? {
      NamespaceAgentEvent(w, e, n);
    } else {
      NamespaceKept(w, Apply(w, e), n, Apply(w, e).ams[n].namespace);
    }
  }

  lemma StepKeepsNamespaces(w: World, e: Event)
    requires Inv(w) && NamespacesOk(w) && Enabled(w, e)
    ensures NamespacesOk(Apply(w, e))
  {
    forall n | n in Apply(w, e).ams ensures NamespaceFits(Apply(w, e), n, Apply(w, e).ams[n].namespace) {
      NamespaceStep(w, e, n);
    }
  }

  /** In every run, an annotation names the namespace of the AgentMachine that the
      label names. */
  lemma {:induction false} RunKeepsNamespaces(w: World, es: seq<Event>)
    requires Init(w) && IsRun(w, es)
    ensures NamespacesOk(After(w, es))
    decreases |es|
  {
    if es != [] {
      RunKeepsNamespaces(w, es[..|es| - 1]);
      RunKeepsInv(w, es[..|es| - 1]);
      StepKeepsNamespaces(After(w, es[..|es| - 1]), es[|es| - 1]);
    }
  }

  lemma ReachableNamespaces(v: World)
    requires Reachable(v)
    ensures NamespacesOk(v)
  {
    var w, es :| Init(w) && IsRun(w, es) && After(w, es) == v;
    RunKeepsNamespaces(w, es);
  }

  // ---- The map function ------------------------------------------------------------

  /** The AgentMachines of one namespace, or of all, in some order. */
  ghost predicate IsList(w: World, namespace: Option<string>, names: seq<string>) {
    && (forall i, j | 0 <= i < j < |names| :: names[i] != names[j])
    && (forall n :: n in names <==> n in w.ams && (namespace.Some? ==> w.ams[n].namespace == namespace.value))
  }

  /** The first AgentMachine of a list that references the Agent. */
  function FirstWithRef(w: World, names: seq<string>, k: Key): seq<string> {
    if names == [] then []
    else if RefOf(w, names[0]) == Some(k) then [names[0]]
    else FirstWithRef(w, names[1..], k)
  }

  function WithoutRef(w: World, names: seq<string>): seq<string> {
    if names == [] then []
    else
      var n := |names| - 1;
      WithoutRef(w, names[..n]) + if RefOf(w, names[n]).None? then [names[n]] else []
  }

  /** mapAgentToAgentMachine: `event` is the Agent as the event shows it, `current`
      as it is read again, `names` the answer of the List call. */
  method MapAgentToAgentMachine(
      w: World, k: Key, event: Agent, current: Option<Agent>, names: Option<seq<string>>)
    returns (reply: seq<string>)
    requires names.Some? ==> forall n | n in names.value :: n in w.ams
    ensures names.None? ==> reply == []
    ensures names.Some? && REF_NAMESPACE in event.annotations ==> reply == FirstWithRef(w, names.value, k)
    ensures names.Some? && REF_NAMESPACE !in event.annotations ==>
      reply == if current.Some? && IsValid(current.value) then WithoutRef(w, names.value) else []
  {
    if names.None? { return []; }
    reply := [];
    var all := names.value;
    if REF_NAMESPACE in event.annotations {
      for i := 0 to |all|
        invariant reply == [] && FirstWithRef(w, all, k) == FirstWithRef(w, all[i..], k)
      {
        var agentRef := w.ams[all[i]].managed.agentRef;
        if agentRef.Some? && agentRef.value.namespace == k.namespace && agentRef.value.name == k.name {
          return [all[i]];
        }
        assert all[i..][1..] == all[i + 1..];
      }
    } else {
      if current.None? { return []; }
      var valid := IsValidAgent(current.value);
      if !valid { return []; }
      for i := 0 to |all|
        invariant reply == WithoutRef(w, all[..i])
      {
        assert all[..i + 1][..i] == all[..i];
        if w.ams[all[i]].managed.agentRef.None? { reply := reply + [all[i]]; }
      }
      assert all[..|all|] == all;
    }
  }

  // ---- Who is woken ------------------------------------------------------------------

  /** The reply is the first AgentMachine of the list whose reference names the Agent,
      and empty if none does. */
  lemma {:induction false} FirstWithRefIs(w: World, names: seq<string>, k: Key, i: nat)
    requires i <= |names| && (forall j | 0 <= j < i :: !(names[j] in w.ams && w.ams[names[j]].managed.agentRef == Some(k)))
    requires i < |names| ==> names[i] in w.ams && w.ams[names[i]].managed.agentRef == Some(k)
    ensures FirstWithRef(w, names, k) == if i == |names| then [] else [names[i]]
    decreases i
  {
    if i > 0 {
      FirstWithRefIs(w, names[1..], k, i - 1);
    }
  }

  lemma {:induction false} FirstWithRefFinds(w: World, names: seq<string>, k: Key, n: string)
    requires n in names && RefOf(w, n) == Some(k)
    ensures var reply := FirstWithRef(w, names, k);
            |reply| == 1 && reply[0] in names && RefOf(w, reply[0]) == Some(k)
  {
    if RefOf(w, names[0]) != Some(k) {
      assert n in names[1..];
      FirstWithRefFinds(w, names[1..], k, n);
    }
  }

  /** An event on a mapped Agent whose holder has stored its reference wakes
      exactly one AgentMachine: the holder, or one that already gave up the Agent
      and took its hook off. If no such one is left it is the holder. */
  lemma WakesHolder(v: World, k: Key, n: string, names: seq<string>)
    requires Reachable(v)
    requires n in v.ams && n !in v.done && RefOf(v, n) == Some(k) && LabelOf(v, k) == Some(n)
    requires REF_NAMESPACE in v.agents[k].agent.annotations
    requires IsList(v, Some(v.agents[k].agent.annotations[REF_NAMESPACE]), names)
    ensures var reply := FirstWithRef(v, names, k);
            && |reply| == 1 && (reply[0] == n || (reply[0] in v.done && RefOf(v, reply[0]) == Some(k)))
            && ((forall m | m in v.done :: RefOf(v, m) != Some(k)) ==> reply == [n])
  {
    ReachableIsInv(v);
    ReachableNamespaces(v);
    assert NamespaceFits(v, n, v.ams[n].namespace);
    FirstWithRefFinds(v, names, k, n);
  }

  /** An annotated Agent is labelled, in every reachable state. */
  lemma AnnotatedMeansLabelled(v: World, k: Key)
    requires Reachable(v) && k in v.agents && REF_NAMESPACE in v.agents[k].agent.annotations
    ensures LabelOf(v, k).Some?
  {
    ReachableIsInv(v);
  }

  lemma {:induction false} WithoutRefIs(w: World, names: seq<string>, n: string)
    ensures n in WithoutRef(w, names) <==> n in names && RefOf(w, n).None?
  {
    if names != [] {
      var front := names[..|names| - 1];
      WithoutRefIs(w, front, n);
      assert names == front + [names[|names| - 1]];
    }
  }

  /** An event on an unmapped valid Agent wakes exactly the AgentMachines without
      an Agent. */
  lemma WakesWaiting(w: World, names: seq<string>, n: string)
    requires IsList(w, None, names)
    ensures n in WithoutRef(w, names) <==> n in w.ams && RefOf(w, n).None?
  {
    WithoutRefIs(w, names, n);
  }
}
