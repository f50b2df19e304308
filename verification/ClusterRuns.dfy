/** AgentClusters and their ClusterDeployments over time: what one reconcile may
    do to the store, and what holds in every run of reconciles and of changes by
    others. */
module ClusterRuns {
  import opened Wrappers
  import opened Hub
  import opened OwnerReferences
  import opened Text
  import IgnitionEndpoint

  const AGENT_CLUSTER_REF := "agentClusterRef"
  const API_GROUP := "capi-provider" + (".agent-install" + ".openshift.io")
  const API_VERSION := API_GROUP + "/v1beta1"
  const CLUSTER_API_VERSIONS: set<string> := {"cluster.x-k8s.io/v1beta2", "cluster.x-k8s.io/v1beta1"}

  datatype Endpoint = Endpoint(host: string, port: int)
  datatype IgnitionSource = IgnitionSource(url: string, ca: Option<Key>)

  datatype AgentCluster = AgentCluster(
    uid: string,
    owners: Owners,
    deleting: bool,
    paused: bool,
    endpoint: Endpoint,
    ignition: Option<IgnitionSource>,
    finalizer: bool,
    ready: bool,
    deploymentRef: Key)

  datatype ControlPlane = ControlPlane(
    clusterName: string, baseDomain: string, pullSecret: string, kubeConfig: string, kubeadminPassword: Option<string>)

  datatype ClusterDeployment = ClusterDeployment(
    owners: Owners, labels: map<string, string>, installName: string, clusterID: string, controlPlane: ControlPlane)

  datatype ClusterInstall = ClusterInstall(deployment: string, ignition: Option<IgnitionSource>)

  datatype Store = Store(
    clusters: map<Key, AgentCluster>,
    deployments: map<Key, ClusterDeployment>,
    installs: map<Key, ClusterInstall>)

  // ---- Ownership -----------------------------------------------------------------

  /** The owner reference of an AgentCluster. */
  function Me(k: Key, c: AgentCluster): OwnerReference {
    OwnerReference(API_VERSION, "AgentCluster", k.name, c.uid)
  }

  predicate HasRef(c: AgentCluster) {
    c.deploymentRef.name != ""
  }

  predicate IsLabelled(d: ClusterDeployment, name: string) {
    name != "" && AGENT_CLUSTER_REF in d.labels && d.labels[AGENT_CLUSTER_REF] == name
  }

  predicate IsAdopted(d: ClusterDeployment, me: OwnerReference) {
    IsOwnedBy(d.owners, me) && IsLabelled(d, me.name)
  }

  function Adopted(d: ClusterDeployment, me: OwnerReference): ClusterDeployment {
    d.(owners := Changed(d.owners, IsLabelled(d, me.name), me, Adopt),
       labels := if IsAdopted(d, me) then d.labels else d.labels[AGENT_CLUSTER_REF := me.name])
  }

  function Orphaned(d: ClusterDeployment, me: OwnerReference): ClusterDeployment {
    d.(owners := Changed(d.owners, IsLabelled(d, me.name), me, Orphan))
  }

  /** Everything but owners and labels is the same. */
  predicate SameSpec(d: ClusterDeployment, d': ClusterDeployment) {
    d'.installName == d.installName && d'.clusterID == d.clusterID && d'.controlPlane == d.controlPlane
  }

  /** The ClusterDeployment of an AgentCluster. Its cluster ID is the UID of the
      first owner of the AgentCluster. */
  function NewDeployment(k: Key, c: AgentCluster, cp: ControlPlane): ClusterDeployment
    requires c.owners != []
  {
    ClusterDeployment([Me(k, c)], map[AGENT_CLUSTER_REF := k.name], k.name, c.owners[0].uid, cp)
  }

  /** The parts of a ClusterDeployment that was made for an AgentCluster. */
  predicate MadeFor(d: ClusterDeployment, k: Key, c: AgentCluster, cp: ControlPlane) {
    && c.owners != [] && d.clusterID == c.owners[0].uid
    && d.installName == k.name && d.controlPlane == cp
    && |d.owners| == 1 && d.owners[0].kind == "AgentCluster" && d.owners[0].name == k.name && d.owners[0].uid == c.uid
    && d.labels == map[AGENT_CLUSTER_REF := k.name]
  }

  function InstallIgnition(lib: IgnitionEndpoint.Library, source: Option<IgnitionSource>): Option<IgnitionSource> {
    if source.None? || IgnitionEndpoint.IgnitionEndpointURLForACI(lib, source.value.url) == "" then None
    else Some(IgnitionSource(IgnitionEndpoint.IgnitionEndpointURLForACI(lib, source.value.url), source.value.ca))
  }

  function NewInstall(lib: IgnitionEndpoint.Library, d: Key, c: AgentCluster): ClusterInstall {
    ClusterInstall(d.name, InstallIgnition(lib, c.ignition))
  }

  predicate EndpointValid(c: AgentCluster) {
    c.endpoint.host != "" && c.endpoint.port != 0
  }

  lemma MeParses(k: Key, c: AgentCluster)
    ensures Parses(Me(k, c)) && Group(Me(k, c).apiVersion) == Some(API_GROUP)
  {
    assert Lacks("capi-provider", '/') && Lacks(".agent-install", '/') && Lacks(".openshift.io", '/');
    assert Lacks(API_GROUP, '/') && Lacks("v1beta1", '/');
    GroupOfParts(API_GROUP, "v1beta1", "");
    assert API_VERSION == API_GROUP + "/" + "v1beta1";
  }

  /** Adopting ends with the ClusterDeployment owned and labelled, changes nobody
      else's entry, no other label and nothing else, and a second time changes nothing.
      If it was not owned and labelled before, an entry agrees in version and UID. */
  lemma AdoptedIsAdopted(d: ClusterDeployment, k: Key, c: AgentCluster)
    requires k.name != ""
    ensures var me := Me(k, c);
            && IsAdopted(Adopted(d, me), me)
            && (!IsAdopted(d, me) ==> me in Adopted(d, me).owners)
            && SameSpec(d, Adopted(d, me))
            && OthersOf(Adopted(d, me).owners, me) == OthersOf(d.owners, me)
            && Adopted(d, me).labels - {AGENT_CLUSTER_REF} == d.labels - {AGENT_CLUSTER_REF}
            && Adopted(Adopted(d, me), me) == Adopted(d, me)
  {
    MeParses(k, c);
    ChangeEffect(d.owners, IsLabelled(d, k.name), Me(k, c), Adopt);
    UpsertWrites(d.owners, Me(k, c));
  }

  /** A created ClusterDeployment needs no adoption. */
  lemma NewIsAdopted(k: Key, c: AgentCluster, cp: ControlPlane)
    requires c.owners != [] && k.name != ""
    ensures var d := NewDeployment(k, c, cp);
            IsAdopted(d, Me(k, c)) && Adopted(d, Me(k, c)) == d && Agreeing(d.owners, Me(k, c))
  {
    MeParses(k, c);
    assert SameObject(NewDeployment(k, c, cp).owners[0], Me(k, c));
  }

  // ---- One reconcile ---------------------------------------------------------------

  /** What a ready AgentCluster has when it becomes ready. */
  predicate ReadyBasis(s: Store, k: Key, c: AgentCluster) {
    && HasRef(c) && c.deploymentRef in s.deployments && c.deploymentRef in s.installs
    && IsAdopted(s.deployments[c.deploymentRef], Me(k, c))
    && EndpointValid(c)
  }

  /** The reconciled AgentCluster: its reference is set once, it does not become
      unready, and becomes ready only with everything in place. A new reference
      names a ClusterDeployment labelled for it, or its own key. */
  predicate ClusterStep(s: Store, s': Store, k: Key, c: AgentCluster, c': AgentCluster) {
    && c' == c.(finalizer := c'.finalizer, ready := c'.ready, deploymentRef := c'.deploymentRef)
    && (HasRef(c) ==> c'.deploymentRef == c.deploymentRef)
    && (c.ready ==> c'.ready)
    && (c'.ready && !c.ready ==> ReadyBasis(s', k, c') && !c.deleting && !c.paused)
    && (HasRef(c') && !HasRef(c) ==>
          c'.deploymentRef == k ||
          (c'.deploymentRef in s.deployments && IsLabelled(s.deployments[c'.deploymentRef], k.name)))
  }

  /** Only the referenced ClusterDeployment changes: it is adopted, within one
      namespace, or orphaned while the AgentCluster is paused. */
  predicate DeploymentStep(k: Key, c: AgentCluster, at: Key, d: ClusterDeployment, d': ClusterDeployment) {
    d' == d ||
    (HasRef(c) && at == c.deploymentRef &&
     ((!c.deleting && !c.paused && at.namespace == k.namespace && d' == Adopted(d, Me(k, c))) ||
      (c.paused && d' == Orphaned(d, Me(k, c)))))
  }

  /** What one reconcile of the AgentCluster `k` may do to the store. */
  ghost predicate Step(lib: IgnitionEndpoint.Library, s: Store, s': Store, k: Key) {
    && k in s.clusters
    && var c := s.clusters[k];
    && (forall j | j in s.clusters && j != k :: j in s'.clusters && s'.clusters[j] == s.clusters[j])
    && s'.clusters.Keys <= s.clusters.Keys
    && (k in s'.clusters ==> ClusterStep(s, s', k, c, s'.clusters[k]))
    && (k !in s'.clusters ==> c.deleting)
    && (forall at | at in s.deployments :: at in s'.deployments && DeploymentStep(k, c, at, s.deployments[at], s'.deployments[at]))
    && (forall at | at in s'.deployments && at !in s.deployments ::
          at == k && !HasRef(c) && c.owners != [] && !c.deleting && !c.paused
          && exists cp :: s'.deployments[at] == NewDeployment(k, c, cp))
    && (forall at | at in s.installs :: at in s'.installs && s'.installs[at] == s.installs[at])
    && (forall at | at in s'.installs && at !in s.installs ::
          HasRef(c) && at == c.deploymentRef && at in s.deployments && s'.installs[at] == NewInstall(lib, at, c))
  }

  // ---- Runs --------------------------------------------------------------------------

  /** One move of a run. `lost`: the create call of the reconcile failed otherwise
      than with AlreadyExists. */
  datatype Move = Reconciled(key: Key, lost: bool) | Others

  predicate Fresh(c: AgentCluster) {
    !c.ready && !HasRef(c)
  }

  /** Others do not write the status of an AgentCluster; a new one is fresh. */
  ghost predicate OthersStep(s: Store, s': Store) {
    forall k | k in s'.clusters ::
      var c' := s'.clusters[k];
      if k in s.clusters && s.clusters[k].uid == c'.uid
      then c'.ready == s.clusters[k].ready && c'.deploymentRef == s.clusters[k].deploymentRef
      else Fresh(c')
  }

  ghost predicate Moves(lib: IgnitionEndpoint.Library, s: Store, s': Store, m: Move) {
    match m
    case Others => OthersStep(s, s')
    case Reconciled(k, lost) => Step(lib, s, s', k) && (!lost ==> NewRefExists(s, s', k))
  }

  /** A reference that the reconcile set names an existing ClusterDeployment. */
  ghost predicate NewRefExists(s: Store, s': Store, k: Key) {
    k in s.clusters && k in s'.clusters && !HasRef(s.clusters[k]) && HasRef(s'.clusters[k]) ==>
      s'.clusters[k].deploymentRef in s'.deployments
  }

  ghost predicate IsRun(lib: IgnitionEndpoint.Library, run: seq<Store>, moves: seq<Move>) {
    |run| == |moves| + 1 && forall i | 0 <= i < |moves| :: Moves(lib, run[i], run[i + 1], moves[i])
  }

  predicate Same(s: Store, s': Store, k: Key) {
    k in s.clusters && k in s'.clusters && s.clusters[k].uid == s'.clusters[k].uid
  }

  /** The same AgentCluster exists from one point of a run to another. */
  ghost predicate Lives(run: seq<Store>, k: Key, i: nat, j: nat)
    requires i <= j < |run|
  {
    k in run[i].clusters && forall n | i <= n < j :: Same(run[n], run[n + 1], k)
  }

  lemma StatusMove(lib: IgnitionEndpoint.Library, s: Store, s': Store, m: Move, k: Key)
    requires Moves(lib, s, s', m) && Same(s, s', k)
    ensures HasRef(s.clusters[k]) ==> s'.clusters[k].deploymentRef == s.clusters[k].deploymentRef
    ensures s.clusters[k].ready ==> s'.clusters[k].ready
  {
  }

  /** The reference is written once, and Ready never falls. */
  lemma {:induction false} RefWriteOnce(
      lib: IgnitionEndpoint.Library, run: seq<Store>, moves: seq<Move>, k: Key, i: nat, j: nat)
    requires IsRun(lib, run, moves) && i <= j < |run| && Lives(run, k, i, j)
    ensures k in run[j].clusters
    ensures HasRef(run[i].clusters[k]) ==> run[j].clusters[k].deploymentRef == run[i].clusters[k].deploymentRef
    ensures run[i].clusters[k].ready ==> run[j].clusters[k].ready
    decreases j - i
  {
    if i < j {
      StatusMove(lib, run[i], run[i + 1], moves[i], k);
      RefWriteOnce(lib, run, moves, k, i + 1, j);
    }
  }

  /** The step that makes an AgentCluster ready has its ClusterDeployment existing,
      owned and labelled, an AgentClusterInstall under the same key, and a valid
      endpoint; and the reference it has is the one it keeps. */
  lemma BecomesReady(lib: IgnitionEndpoint.Library, run: seq<Store>, moves: seq<Move>, k: Key, i: nat)
    requires IsRun(lib, run, moves) && i < |moves|
    requires Same(run[i], run[i + 1], k)
    requires !run[i].clusters[k].ready && run[i + 1].clusters[k].ready
    ensures moves[i].Reconciled? && moves[i].key == k
    ensures var s, c := run[i + 1], run[i + 1].clusters[k];
            var at := c.deploymentRef;
            && at.name != "" && at in s.deployments && at in s.installs
            && c.endpoint.host != "" && c.endpoint.port != 0
            && AGENT_CLUSTER_REF in s.deployments[at].labels && s.deployments[at].labels[AGENT_CLUSTER_REF] == k.name
            && exists o | o in s.deployments[at].owners ::
                 Group(o.apiVersion) == Some(API_GROUP) && o.kind == "AgentCluster" && o.name == k.name
  {
    assert Moves(lib, run[i], run[i + 1], moves[i]);
    var s, c := run[i + 1], run[i + 1].clusters[k];
    MeParses(k, c);
    var owners := s.deployments[c.deploymentRef].owners;
    var j :| 0 <= j < |owners| && SameObject(owners[j], Me(k, c));
    assert owners[j] in owners;
  }

  // ---- Owners over a run ---------------------------------------------------------------

  /** Others keep the owners of the ClusterDeployment, and no other AgentCluster
      references it. */
  ghost predicate OnlyMine(s: Store, s': Store, m: Move, k: Key, at: Key) {
    && at in s.deployments && at in s'.deployments
    && (m.Others? ==> s'.deployments[at].owners == s.deployments[at].owners)
    && (m.Reconciled? && m.key != k ==> m.key in s.clusters && s.clusters[m.key].deploymentRef != at)
  }

  /** Seen from one owner: the entries of others are the same, there is no second own
      one, and agreement is kept. */
  ghost predicate OwnersKept(before: Owners, after: Owners, me: OwnerReference) {
    && OthersOf(after, me) == OthersOf(before, me)
    && Entries(after, me) <= (if Entries(before, me) == 0 then 1 else Entries(before, me))
    && (Agreeing(before, me) ==> Agreeing(after, me))
  }

  lemma OwnersKeptStep(a: Owners, b: Owners, c: Owners, me: OwnerReference)
    requires OwnersKept(a, b, me) && OwnersKept(b, c, me)
    ensures OwnersKept(a, c, me)
  {
  }

  lemma OwnersMove(lib: IgnitionEndpoint.Library, s: Store, s': Store, m: Move, k: Key, at: Key)
    requires Moves(lib, s, s', m) && Same(s, s', k) && OnlyMine(s, s', m, k, at)
    ensures Me(k, s'.clusters[k]) == Me(k, s.clusters[k])
    ensures OwnersKept(s.deployments[at].owners, s'.deployments[at].owners, Me(k, s.clusters[k]))
  {
    if m.Reconciled? {
      var c, d := s.clusters[m.key], s.deployments[at];
      assert DeploymentStep(m.key, c, at, d, s'.deployments[at]);
      MeParses(m.key, c);
      ChangeEffect(d.owners, IsLabelled(d, m.key.name), Me(m.key, c), Adopt);
      ChangeEffect(d.owners, IsLabelled(d, m.key.name), Me(m.key, c), Orphan);
    }
  }

  /** From one point of a run to another, others keep the owners of the
      ClusterDeployment, and no other AgentCluster references it. */
  ghost predicate MineThroughout(run: seq<Store>, moves: seq<Move>, k: Key, at: Key, i: nat, j: nat)
    requires i <= j < |run| == |moves| + 1
  {
    at in run[i].deployments && forall n | i <= n < j :: OnlyMine(run[n], run[n + 1], moves[n], k, at)
  }

  lemma OwnersFirst(
      lib: IgnitionEndpoint.Library, run: seq<Store>, moves: seq<Move>, k: Key, at: Key, i: nat, j: nat)
    requires IsRun(lib, run, moves) && i < j < |run| && Lives(run, k, i, j) && MineThroughout(run, moves, k, at, i, j)
    ensures Lives(run, k, i + 1, j) && MineThroughout(run, moves, k, at, i + 1, j)
    ensures Me(k, run[i + 1].clusters[k]) == Me(k, run[i].clusters[k])
    ensures OwnersKept(run[i].deployments[at].owners, run[i + 1].deployments[at].owners, Me(k, run[i].clusters[k]))
  {
    hide Moves, OwnersKept, Me;
    assert Same(run[i], run[i + 1], k) && OnlyMine(run[i], run[i + 1], moves[i], k, at);
    OwnersMove(lib, run[i], run[i + 1], moves[i], k, at);
  }

  /** However often an AgentCluster is paused and unpaused, the entries of other
      owners of its ClusterDeployment stay as they are and in order, and it never
      gets a second entry of its own. */
  lemma {:induction false} OwnersOverRun(
      lib: IgnitionEndpoint.Library, run: seq<Store>, moves: seq<Move>, k: Key, at: Key, i: nat, j: nat)
    requires IsRun(lib, run, moves) && i <= j < |run| && Lives(run, k, i, j) && MineThroughout(run, moves, k, at, i, j)
    ensures k in run[j].clusters && at in run[j].deployments && Me(k, run[j].clusters[k]) == Me(k, run[i].clusters[k])
    ensures OwnersKept(run[i].deployments[at].owners, run[j].deployments[at].owners, Me(k, run[i].clusters[k]))
    decreases j - i
  {
    if i < j {
      hide Moves, OnlyMine, OwnersKept, Me;
      OwnersFirst(lib, run, moves, k, at, i, j);
      OwnersOverRun(lib, run, moves, k, at, i + 1, j);
      var me, owners := Me(k, run[i].clusters[k]), run[i].deployments[at].owners;
      OwnersKeptStep(owners, run[i + 1].deployments[at].owners, run[j].deployments[at].owners, me);
    }
  }

  // ---- The install that a ClusterDeployment names ------------------------------------------

  /** A reconcile made this ClusterDeployment. */
  ghost predicate MadeBy(s: Store, s': Store, m: Move, at: Key) {
    m.Reconciled? && at !in s.deployments && at in s'.deployments
  }

  /** Others keep the ClusterDeployment, and more of it than owners and labels. */
  ghost predicate SpecKept(s: Store, s': Store, m: Move, at: Key) {
    m.Others? && at in s.deployments ==> at in s'.deployments && SameSpec(s.deployments[at], s'.deployments[at])
  }

  /** A ClusterDeployment that a reconcile made has, from then on, the UID of the first
      owner of its AgentCluster as cluster ID, and names as its install the one under
      its own key. */
  lemma {:induction false} MadeNamesItself(
      lib: IgnitionEndpoint.Library, run: seq<Store>, moves: seq<Move>, at: Key, i: nat, j: nat)
    requires IsRun(lib, run, moves) && i < j < |run| && MadeBy(run[i], run[i + 1], moves[i], at)
    requires forall n | i < n < j :: SpecKept(run[n], run[n + 1], moves[n], at)
    ensures moves[i].key == at && at in run[i].clusters && run[i].clusters[at].owners != []
    ensures at in run[j].deployments && SameSpec(run[i + 1].deployments[at], run[j].deployments[at])
    ensures Key(at.namespace, run[j].deployments[at].installName) == at
    ensures run[j].deployments[at].clusterID == run[i].clusters[at].owners[0].uid
    decreases j
  {
    if i + 1 < j {
      MadeNamesItself(lib, run, moves, at, i, j - 1);
      assert Moves(lib, run[j - 1], run[j], moves[j - 1]);
      if moves[j - 1].Reconciled? {
        var d := run[j - 1].deployments[at];
        var k := moves[j - 1].key;
        assert DeploymentStep(k, run[j - 1].clusters[k], at, d, run[j].deployments[at]);
      }
    } else {
      assert Moves(lib, run[i], run[i + 1], moves[i]);
    }
  }

  /** So an install that any reconcile makes for it is the one that it names, and refers
      back to it; and an AgentCluster that references it becomes ready only with that
      install there. */
  lemma MadeFindsInstall(
      lib: IgnitionEndpoint.Library, run: seq<Store>, moves: seq<Move>, at: Key, i: nat, j: nat)
    requires IsRun(lib, run, moves) && i < j < |moves| && MadeBy(run[i], run[i + 1], moves[i], at)
    requires forall n | i < n < j :: SpecKept(run[n], run[n + 1], moves[n], at)
    requires moves[j].Reconciled? && moves[j].key in run[j].clusters
    requires at.name != "" && run[j].clusters[moves[j].key].deploymentRef == at
    ensures at in run[j].deployments
    ensures var named := Key(at.namespace, run[j].deployments[at].installName);
            && (forall x | x in run[j + 1].installs && x !in run[j].installs ::
                  x == named && run[j + 1].installs[x].deployment == at.name)
            && (var k := moves[j].key;
                k in run[j + 1].clusters && run[j + 1].clusters[k].ready && !run[j].clusters[k].ready ==>
                  named in run[j + 1].installs)
  {
    MadeNamesItself(lib, run, moves, at, i, j);
    assert Moves(lib, run[j], run[j + 1], moves[j]);
  }

  // ---- Dangling references --------------------------------------------------------------

  ghost predicate RefsExist(s: Store) {
    forall k | k in s.clusters && HasRef(s.clusters[k]) :: s.clusters[k].deploymentRef in s.deployments
  }

  /** No create call was lost, and nobody else deletes a ClusterDeployment. */
  ghost predicate Keeping(s: Store, s': Store, m: Move) {
    if m.Others? then s.deployments.Keys <= s'.deployments.Keys else !m.lost
  }

  /** As long as creating succeeds or reports AlreadyExists, and nobody deletes a
      ClusterDeployment, every reference names an existing one. */
  lemma {:induction false} RefsNeverDangle(lib: IgnitionEndpoint.Library, run: seq<Store>, moves: seq<Move>, j: nat)
    requires IsRun(lib, run, moves) && j < |run| && RefsExist(run[0])
    requires forall n | 0 <= n < |moves| :: Keeping(run[n], run[n + 1], moves[n])
    ensures RefsExist(run[j])
  {
    if j > 0 {
      RefsNeverDangle(lib, run, moves, j - 1);
      assert Moves(lib, run[j - 1], run[j], moves[j - 1]);
    }
  }

  /** A dangling reference is never repaired: no reconcile of any AgentCluster but
      the one of that very key creates the missing ClusterDeployment, and the
      AgentCluster does not become ready. */
  lemma {:induction false} DanglingStays(
      lib: IgnitionEndpoint.Library, run: seq<Store>, moves: seq<Move>, k: Key, i: nat, j: nat)
    requires IsRun(lib, run, moves) && i <= j < |run| && Lives(run, k, i, j)
    requires run[i].clusters[k].deploymentRef == k && k.name != "" && k !in run[i].deployments
    requires !run[i].clusters[k].ready
    requires forall n | i <= n < j && moves[n].Others? :: k in run[n + 1].deployments ==> k in run[n].deployments
    ensures k in run[j].clusters && k !in run[j].deployments && !run[j].clusters[k].ready && run[j].clusters[k].deploymentRef == k
    decreases j - i
  {
    if i < j {
      assert Moves(lib, run[i], run[i + 1], moves[i]);
      DanglingStays(lib, run, moves, k, i + 1, j);
    }
  }

  // ---- Names ----------------------------------------------------------------------------

  /** References name the own key, and a label the key it is on. */
  ghost predicate EachItsOwn(s: Store, keys: set<Key>) {
    && s.clusters.Keys <= keys
    && (forall k | k in s.clusters && HasRef(s.clusters[k]) :: s.clusters[k].deploymentRef == k)
    && (forall at | at in s.deployments && AGENT_CLUSTER_REF in s.deployments[at].labels ::
          at in keys && s.deployments[at].labels[AGENT_CLUSTER_REF] == at.name)
  }

  /** Others do not label ClusterDeployments, and create AgentClusters only under
      `keys`. */
  ghost predicate LabelsKept(s: Store, s': Store, keys: set<Key>) {
    && s'.clusters.Keys <= keys
    && (forall at | at in s'.deployments && AGENT_CLUSTER_REF in s'.deployments[at].labels ::
          at in s.deployments && AGENT_CLUSTER_REF in s.deployments[at].labels
          && s'.deployments[at].labels[AGENT_CLUSTER_REF] == s.deployments[at].labels[AGENT_CLUSTER_REF])
  }

  predicate DistinctNames(keys: set<Key>) {
    forall j, k | j in keys && k in keys && j.name == k.name :: j == k
  }

  lemma OwnMove(lib: IgnitionEndpoint.Library, s: Store, s': Store, m: Move, keys: set<Key>)
    requires Moves(lib, s, s', m) && EachItsOwn(s, keys) && DistinctNames(keys)
    requires m.Others? ==> LabelsKept(s, s', keys)
    ensures EachItsOwn(s', keys)
  {
    if m.Reconciled? {
      forall at | at in s'.deployments && AGENT_CLUSTER_REF in s'.deployments[at].labels
        ensures at in keys && s'.deployments[at].labels[AGENT_CLUSTER_REF] == at.name
      {
        if at in s.deployments {
          assert DeploymentStep(m.key, s.clusters[m.key], at, s.deployments[at], s'.deployments[at]);
        }
      }
    }
  }

  /** With distinct names every AgentCluster has the ClusterDeployment of its own
      name and namespace, so no two share one. */
  lemma {:induction false} NoSharing(
      lib: IgnitionEndpoint.Library, run: seq<Store>, moves: seq<Move>, keys: set<Key>, n: nat, j: Key, k: Key)
    requires IsRun(lib, run, moves) && n < |run| && EachItsOwn(run[0], keys) && DistinctNames(keys)
    requires forall i | 0 <= i < |moves| && moves[i].Others? :: LabelsKept(run[i], run[i + 1], keys)
    ensures EachItsOwn(run[n], keys)
    ensures (j in run[n].clusters && k in run[n].clusters && HasRef(run[n].clusters[j])
             && run[n].clusters[j].deploymentRef == run[n].clusters[k].deploymentRef) ==> j == k
    decreases n
  {
    if n > 0 {
      NoSharing(lib, run, moves, keys, n - 1, j, k);
      OwnMove(lib, run[n - 1], run[n], moves[n - 1], keys);
    }
  }

  /** With equal names in two namespaces they can share one: what is adopted by the
      one counts as owned by and labelled for the other. */
  lemma CountsForNamesake(d: ClusterDeployment, j: Key, b: AgentCluster, k: Key, c: AgentCluster)
    requires j.name == k.name
    ensures IsAdopted(d, Me(j, b)) <==> IsAdopted(d, Me(k, c))
  {
    assert forall o :: SameObject(o, Me(j, b)) <==> SameObject(o, Me(k, c));
  }

  /** So the reconcile of the other leaves it as it is. */
  lemma NameClashShares(d: ClusterDeployment, j: Key, b: AgentCluster, k: Key, c: AgentCluster)
    requires j.name == k.name != "" && j.namespace != k.namespace
    ensures IsAdopted(Adopted(d, Me(j, b)), Me(k, c))
    ensures Adopted(Adopted(d, Me(j, b)), Me(k, c)) == Adopted(d, Me(j, b))
  {
    AdoptedIsAdopted(d, j, b);
    CountsForNamesake(Adopted(d, Me(j, b)), j, b, k, c);
  }
}
