/** What the AgentMachine controller does to the content of an Agent: the edits
    it writes, the test for a free Agent, and the test that decides whether a
    bootstrap change has to be written. */
module AgentEdits {
  import opened Wrappers
  import opened Hub

  datatype BootstrapData = BootstrapData(
    machineConfigPool: string,
    tokenRef: Option<Key>,
    httpHeaders: map<string, string>)

  const NO_BOOTSTRAP_DATA := BootstrapData("", None, map[])

  // ---- The edits ----------------------------------------------------------

  function SyncedSpec(s: AgentSpec, data: BootstrapData): AgentSpec {
    s.(machineConfigPool := data.machineConfigPool, tokenRef := data.tokenRef, httpHeaders := data.httpHeaders)
  }

  function Synced(a: Agent, data: BootstrapData): Agent {
    a.(spec := SyncedSpec(a.spec, data))
  }

  function Relabelled(a: Agent, name: string): Agent {
    a.(labels := a.labels[REF_LABEL := name])
  }

  function Claimed(a: Agent, name: string, namespace: string, cluster: Key, data: BootstrapData): Agent {
    a.(labels := a.labels[REF_LABEL := name],
       annotations := a.annotations[REF_NAMESPACE := namespace],
       spec := SyncedSpec(a.spec, data).(clusterRef := Some(cluster)))
  }

  function Unbound(a: Agent): Agent {
    a.(labels := a.labels - {REF_LABEL},
       annotations := a.annotations - {REF_NAMESPACE},
       spec := SyncedSpec(a.spec, NO_BOOTSTRAP_DATA).(clusterRef := None))
  }

  // ---- The edits, field by field ----------------------------------------------

  /** The spec carries this bootstrap data, and no other. */
  predicate Carries(s: AgentSpec, data: BootstrapData) {
    s.machineConfigPool == data.machineConfigPool && s.tokenRef == data.tokenRef && s.httpHeaders == data.httpHeaders
  }

  /** Everything in a spec that is not bootstrap data or the cluster reference. */
  predicate SameRest(s: AgentSpec, t: AgentSpec) {
    s.role == t.role && s.hostname == t.hostname && s.approved == t.approved
  }

  ghost predicate SameExcept(m: map<string, string>, n: map<string, string>, key: string) {
    forall k | k != key :: (k in m <==> k in n) && (k in m && k in n ==> m[k] == n[k])
  }

  /** A claim sets label, annotation, cluster reference and bootstrap data, each to
      what it was given, and nothing else. */
  lemma ClaimedFields(a: Agent, name: string, namespace: string, cluster: Key, data: BootstrapData)
    ensures var c := Claimed(a, name, namespace, cluster, data);
            && REF_LABEL in c.labels && c.labels[REF_LABEL] == name && SameExcept(c.labels, a.labels, REF_LABEL)
            && REF_NAMESPACE in c.annotations && c.annotations[REF_NAMESPACE] == namespace
            && SameExcept(c.annotations, a.annotations, REF_NAMESPACE)
            && c.spec.clusterRef == Some(cluster) && Carries(c.spec, data) && SameRest(c.spec, a.spec)
            && c.status == a.status
  {
  }

  /** A sync sets the bootstrap data, replacing what was there, and nothing else. */
  lemma SyncedFields(a: Agent, data: BootstrapData)
    ensures var s := Synced(a, data);
            && Carries(s.spec, data) && SameRest(s.spec, a.spec) && s.spec.clusterRef == a.spec.clusterRef
            && s.labels == a.labels && s.annotations == a.annotations && s.status == a.status
  {
  }

  lemma RelabelledFields(a: Agent, name: string)
    ensures var r := Relabelled(a, name);
            && REF_LABEL in r.labels && r.labels[REF_LABEL] == name && SameExcept(r.labels, a.labels, REF_LABEL)
            && r.annotations == a.annotations && r.spec == a.spec && r.status == a.status
  {
  }

  /** An unbind takes label, annotation, cluster reference and bootstrap data off, and
      nothing else. */
  lemma UnboundFields(a: Agent)
    ensures var u := Unbound(a);
            && REF_LABEL !in u.labels && SameExcept(u.labels, a.labels, REF_LABEL)
            && REF_NAMESPACE !in u.annotations && SameExcept(u.annotations, a.annotations, REF_NAMESPACE)
            && u.spec.clusterRef == None && u.spec.machineConfigPool == "" && u.spec.tokenRef == None
            && u.spec.httpHeaders == map[] && SameRest(u.spec, a.spec) && u.status == a.status
  {
  }

  // ---- Bind / unbind round trip --------------------------------------------

  /** What can happen to a claimed Agent before it is unbound. The last one is
      the agent's own service reporting a new status. */
  datatype Edit =
    | SyncWith(data: BootstrapData)
    | LabelFor(name: string)
    | Report(status: AgentStatus)

  function EditedOnce(a: Agent, e: Edit): Agent {
    match e
    case SyncWith(data) => Synced(a, data)
    case LabelFor(name) => Relabelled(a, name)
    case Report(status) => a.(status := status)
  }

  function Edited(a: Agent, edits: seq<Edit>): Agent
    decreases |edits|
  {
    if edits == [] then a else Edited(EditedOnce(a, edits[0]), edits[1..])
  }

  /** Free of everything a claim writes. */
  predicate Pristine(a: Agent) {
    REF_LABEL !in a.labels && REF_NAMESPACE !in a.annotations &&
    a.spec == SyncedSpec(a.spec, NO_BOOTSTRAP_DATA).(clusterRef := None)
  }

  predicate SameButStatus(a: Agent, b: Agent) {
    a.labels == b.labels && a.annotations == b.annotations && a.spec == b.spec
  }

  lemma {:induction false} UnboundForgetsEdits(a: Agent, edits: seq<Edit>)
    ensures SameButStatus(Unbound(Edited(a, edits)), Unbound(a))
    decreases |edits|
  {
    if edits != [] {
      var a' := EditedOnce(a, edits[0]);
      assert a'.labels - {REF_LABEL} == a.labels - {REF_LABEL};
      UnboundForgetsEdits(a', edits[1..]);
    }
  }

  /** A claim, any syncs, relabels and status reports, then an unbind give back
      the labels, annotations and spec from before, exactly when the claimed
      Agent was free of what a claim writes. */
  lemma BindUnbindRoundTrip(
      a: Agent, name: string, namespace: string, cluster: Key, data: BootstrapData, edits: seq<Edit>)
    ensures SameButStatus(Unbound(Edited(Claimed(a, name, namespace, cluster, data), edits)), a) <==> Pristine(a)
  {
    var c := Claimed(a, name, namespace, cluster, data);
    UnboundForgetsEdits(c, edits);
    assert SameButStatus(Unbound(c), Unbound(a));
    assert REF_LABEL !in a.labels ==> a.labels - {REF_LABEL} == a.labels;
    assert REF_NAMESPACE !in a.annotations ==> a.annotations - {REF_NAMESPACE} == a.annotations;
    assert REF_LABEL !in Unbound(a).labels && REF_NAMESPACE !in Unbound(a).annotations;
  }

  // ---- Which Agents are free ------------------------------------------------

  /** The status of the last condition of a type; the list may repeat a type. */
  function LastStatus(cs: seq<Condition<AgentConditionType>>, t: AgentConditionType): Option<Status> {
    if cs == [] then None
    else if cs[|cs| - 1].kind == t then Some(cs[|cs| - 1].status)
    else LastStatus(cs[..|cs| - 1], t)
  }

  predicate IsValid(a: Agent) {
    var cs := a.status.conditions;
    a.spec.approved
    && LastStatus(cs, Validated) == Some(True)
    && LastStatus(cs, Connected) == Some(True)
    && LastStatus(cs, Bound) == Some(False)
  }

  method IsValidAgent(a: Agent) returns (r: bool)
    ensures r == IsValid(a)
  {
    var cs := a.status.conditions;
    var valid, notBound, connected := false, false, false;
    for i := 0 to |cs|
      invariant notBound <==> LastStatus(cs[..i], Bound) == Some(False)
      invariant connected <==> LastStatus(cs[..i], Connected) == Some(True)
      invariant valid <==> LastStatus(cs[..i], Validated) == Some(True)
    {
      assert cs[..i + 1][..i] == cs[..i];
      match cs[i].kind
      case Bound => notBound := cs[i].status == False;
      case Connected => connected := cs[i].status == True;
      case Validated => valid := cs[i].status == True;
      case _ =>
    }
    assert cs[..|cs|] == cs;
    r := a.spec.approved && valid && connected && notBound;
  }

  /** The last occurrence decides: a later entry of a type overrides all
      earlier ones, and entries of other types do not matter. */
  lemma {:induction false} LastStatusIsLast(
      cs: seq<Condition<AgentConditionType>>, t: AgentConditionType, i: nat)
    requires i < |cs| && cs[i].kind == t
    requires forall j | i < j < |cs| :: cs[j].kind != t
    ensures LastStatus(cs, t) == Some(cs[i].status)
  {
    if i < |cs| - 1 {
      LastStatusIsLast(cs[..|cs| - 1], t, i);
    }
  }

  /** The condition list ends up with this status for the type: some condition has it,
      and none of the type comes later. */
  ghost predicate EndsWith(cs: seq<Condition<AgentConditionType>>, t: AgentConditionType, s: Status) {
    exists i | 0 <= i < |cs| :: cs[i].kind == t && cs[i].status == s && forall j | i < j < |cs| :: cs[j].kind != t
  }

  lemma {:induction false} LastStatusAt(cs: seq<Condition<AgentConditionType>>, t: AgentConditionType) returns (i: nat)
    requires LastStatus(cs, t).Some?
    ensures i < |cs| && cs[i].kind == t && LastStatus(cs, t) == Some(cs[i].status)
    ensures forall j | i < j < |cs| :: cs[j].kind != t
  {
    i := |cs| - 1;
    if cs[i].kind != t {
      i := LastStatusAt(cs[..i], t);
    }
  }

  lemma LastStatusIff(cs: seq<Condition<AgentConditionType>>, t: AgentConditionType, s: Status)
    ensures LastStatus(cs, t) == Some(s) <==> EndsWith(cs, t, s)
  {
    if EndsWith(cs, t, s) {
      var i :| 0 <= i < |cs| && cs[i].kind == t && cs[i].status == s && forall j | i < j < |cs| :: cs[j].kind != t;
      LastStatusIsLast(cs, t, i);
    }
    if LastStatus(cs, t).Some? {
      var i := LastStatusAt(cs, t);
    }
  }

  /** A valid Agent is approved, and its conditions end up validated, connected and
      not bound: all four are needed. */
  lemma IsValidIff(a: Agent)
    ensures IsValid(a) <==>
            && a.spec.approved
            && EndsWith(a.status.conditions, Validated, True)
            && EndsWith(a.status.conditions, Connected, True)
            && EndsWith(a.status.conditions, Bound, False)
  {
    LastStatusIff(a.status.conditions, Validated, True);
    LastStatusIff(a.status.conditions, Connected, True);
    LastStatusIff(a.status.conditions, Bound, False);
  }

  // ---- Bootstrap sync -------------------------------------------------------

  /** A Go value as the derivative comparison sees it. */
  datatype Value =
    | Text(s: string)
    | Flag(b: bool)
    | Pointer(target: Option<Value>)
    | Dict(entries: map<string, Value>)
    | Record(fields: seq<Value>)

  /** DeepDerivative: unset parts of `a`, that is empty strings, nil pointers and
      empty maps, are ignored. A bool is never unset. */
  predicate Derivative(a: Value, b: Value)
    decreases a
  {
    match (a, b)
    case (Text(s), Text(t)) => s == "" || s == t
    case (Flag(x), Flag(y)) => x == y
    case (Pointer(p), Pointer(q)) => p.None? || (q.Some? && Derivative(p.value, q.value))
    case (Dict(m), Dict(n)) => forall k | k in m :: k in n && Derivative(m[k], n[k])
    case (Record(f), Record(g)) => |f| == |g| && forall i | 0 <= i < |f| :: Derivative(f[i], g[i])
    case _ => false
  }

  lemma {:induction false} DerivativeReflexive(a: Value)
    ensures Derivative(a, a)
    decreases a
  {
    match a
    case Text(_) =>
    case Flag(_) =>
    case Pointer(p) => if p.Some? { DerivativeReflexive(p.value); }
    case Dict(m) => forall k | k in m ensures Derivative(m[k], m[k]) { DerivativeReflexive(m[k]); }
    case Record(f) => forall i | 0 <= i < |f| ensures Derivative(f[i], f[i]) { DerivativeReflexive(f[i]); }
  }

  function KeyValue(k: Option<Key>): Value {
    Pointer(if k.None? then None else Some(Record([Text(k.value.namespace), Text(k.value.name)])))
  }

  function SpecValue(s: AgentSpec): Value {
    Record([
      KeyValue(s.clusterRef), Text(s.role), Text(s.hostname), Text(s.machineConfigPool), Flag(s.approved),
      KeyValue(s.tokenRef), Dict(map k | k in s.httpHeaders :: Text(s.httpHeaders[k]))])
  }

  /** The spec that the controller compares with the stored one: bootstrap data
      and zero values everywhere else. */
  function DesiredSpec(data: BootstrapData): AgentSpec {
    AgentSpec(None, "", "", data.machineConfigPool, false, data.tokenRef, data.httpHeaders)
  }

  predicate NeedsSync(data: BootstrapData, s: AgentSpec) {
    !Derivative(SpecValue(DesiredSpec(data)), SpecValue(s))
  }

  predicate TextCovered(wanted: string, stored: string) {
    wanted == "" || wanted == stored
  }

  /** The stored spec already has every set part of the bootstrap data. */
  predicate Covered(data: BootstrapData, s: AgentSpec) {
    && TextCovered(data.machineConfigPool, s.machineConfigPool)
    && (data.tokenRef.None? ||
        (s.tokenRef.Some? && TextCovered(data.tokenRef.value.namespace, s.tokenRef.value.namespace)
         && TextCovered(data.tokenRef.value.name, s.tokenRef.value.name)))
    && forall k | k in data.httpHeaders :: k in s.httpHeaders && TextCovered(data.httpHeaders[k], s.httpHeaders[k])
  }

  lemma KeyDerivative(a: Option<Key>, b: Option<Key>)
    ensures Derivative(KeyValue(a), KeyValue(b)) <==>
            (a.None? || (b.Some? && TextCovered(a.value.namespace, b.value.namespace)
                         && TextCovered(a.value.name, b.value.name)))
  {
    if a.Some? && b.Some? {
      var f, g := [Text(a.value.namespace), Text(a.value.name)], [Text(b.value.namespace), Text(b.value.name)];
      assert Derivative(KeyValue(a), KeyValue(b)) == Derivative(Record(f), Record(g));
      assert Derivative(f[0], g[0]) == TextCovered(a.value.namespace, b.value.namespace);
      assert Derivative(f[1], g[1]) == TextCovered(a.value.name, b.value.name);
    }
  }

  lemma HeadersDerivative(m: map<string, string>, n: map<string, string>)
    ensures Derivative(Dict(map k | k in m :: Text(m[k])), Dict(map k | k in n :: Text(n[k]))) <==>
            forall k | k in m :: k in n && TextCovered(m[k], n[k])
  {
    var d, e := map k | k in m :: Text(m[k]), map k | k in n :: Text(n[k]);
    assert forall k | k in m && k in n :: Derivative(d[k], e[k]) == TextCovered(m[k], n[k]);
    if Derivative(Dict(d), Dict(e)) {
      forall k | k in m ensures k in n && TextCovered(m[k], n[k]) { assert k in d; }
    }
  }

  lemma RecordDerivative(f: seq<Value>, g: seq<Value>)
    requires |f| == |g| == 7
    ensures Derivative(Record(f), Record(g)) <==>
            && Derivative(f[0], g[0]) && Derivative(f[1], g[1]) && Derivative(f[2], g[2]) && Derivative(f[3], g[3])
            && Derivative(f[4], g[4]) && Derivative(f[5], g[5]) && Derivative(f[6], g[6])
  {
    assert Derivative(Record(f), Record(g)) <==> forall i | 0 <= i < 7 :: Derivative(f[i], g[i]);
  }

  /** A sync is skipped exactly when the Agent is not approved and already has
      the data: the zero `approved` of the desired spec is compared, not ignored. */
  lemma SyncNeededIff(data: BootstrapData, s: AgentSpec)
    ensures NeedsSync(data, s) <==> s.approved || !Covered(data, s)
  {
    var f, g := SpecValue(DesiredSpec(data)).fields, SpecValue(s).fields;
    RecordDerivative(f, g);
    KeyDerivative(None, s.clusterRef);
    KeyDerivative(data.tokenRef, s.tokenRef);
    HeadersDerivative(data.httpHeaders, s.httpHeaders);
    hide KeyValue, Derivative;
    FlatDerivative("", s.role);
    FlatDerivative("", s.hostname);
    FlatDerivative(data.machineConfigPool, s.machineConfigPool);
    FlagDerivative(s.approved);
  }

  lemma FlatDerivative(wanted: string, stored: string)
    ensures Derivative(Text(wanted), Text(stored)) == TextCovered(wanted, stored)
  {
  }

  lemma FlagDerivative(stored: bool)
    ensures Derivative(Flag(false), Flag(stored)) == !stored
  {
  }

  /** The spec after one pass of the sync. */
  function AfterSync(data: BootstrapData, s: AgentSpec): AgentSpec {
    if NeedsSync(data, s) then SyncedSpec(s, data) else s
  }

  /** The sync reaches a fixed point in one pass: the data is then in place, a
      second pass with the same data changes nothing, and no other field moved.
      It also stops writing exactly when the Agent is not approved. */
  lemma SyncConverges(data: BootstrapData, s: AgentSpec)
    ensures var s' := AfterSync(data, s);
            && Covered(data, s')
            && AfterSync(data, s') == s'
            && (NeedsSync(data, s') <==> s.approved)
            && s' == s.(machineConfigPool := s'.machineConfigPool, tokenRef := s'.tokenRef, httpHeaders := s'.httpHeaders)
  {
    SyncNeededIff(data, s);
    SyncNeededIff(data, AfterSync(data, s));
  }

  /** Without bootstrap data an unapproved Agent is left alone; an approved one,
      and every claimed Agent is approved, has all three fields cleared. */
  lemma EmptyDataSync(s: AgentSpec)
    ensures AfterSync(NO_BOOTSTRAP_DATA, s) == s <==> !s.approved || s == SyncedSpec(s, NO_BOOTSTRAP_DATA)
    ensures s.approved ==> AfterSync(NO_BOOTSTRAP_DATA, s) == SyncedSpec(s, NO_BOOTSTRAP_DATA)
  {
    SyncNeededIff(NO_BOOTSTRAP_DATA, s);
  }
}
