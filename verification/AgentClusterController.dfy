/** The AgentCluster reconcile: find or create a ClusterDeployment, adopt it, give
    it an AgentClusterInstall, and orphan it while paused. Any API call may fail. */
module AgentClusterController {
  import opened Wrappers
  import opened Hub
  import opened OwnerReferences
  import opened ClusterRuns
  import IgnitionEndpoint

  /** The control plane of the Cluster: not there yet, not readable, or read. */
  datatype ControlPlaneRead = NotYet | Unreadable | Available(controlPlane: ControlPlane)

  datatype Outcome =
    | Gone | DeletionDone | OrphanFailed | PausedDone
    | FindFailed | ControlPlaneFailed | ControlPlaneMissing | Found | Created | CreateLost
    | DeploymentUnread | AdoptionFailed | InstallFailed | EndpointMissing | BecameReady

  predicate IsClusterOwner(o: OwnerReference) {
    o.kind == "Cluster" && o.apiVersion in CLUSTER_API_VERSIONS
  }

  predicate HasClusterOwner(owners: Owners) {
    exists i | 0 <= i < |owners| :: IsClusterOwner(owners[i])
  }

  /** The AgentCluster in memory. */
  class AgentClusterObject {
    const key: Key
    const given: AgentCluster

    var finalizer: bool
    var ready: bool
    var deploymentRef: Key

    constructor (key: Key, given: AgentCluster)
      ensures this.key == key && this.given == given && Content() == given
    {
      this.key, this.given := key, given;
      finalizer, ready, deploymentRef := given.finalizer, given.ready, given.deploymentRef;
    }

    function Content(): AgentCluster
      reads this
    {
      given.(finalizer := finalizer, ready := ready, deploymentRef := deploymentRef)
    }
  }

  class AgentClusterReconciler {
    const lib: IgnitionEndpoint.Library
    var clusters: map<Key, AgentCluster>
    var deployments: map<Key, ClusterDeployment>
    var installs: map<Key, ClusterInstall>
    ghost var faults: nat

    constructor (lib: IgnitionEndpoint.Library, s: Store)
      ensures this.lib == lib && State() == s && faults == 0
    {
      this.lib, clusters, deployments, installs, faults := lib, s.clusters, s.deployments, s.installs, 0;
    }

    function State(): Store
      reads this
    {
      Store(clusters, deployments, installs)
    }

    /** Whether an API call gets through. */
    method Call() returns (ok: bool)
      modifies this`faults
      ensures faults == old(faults) + if ok then 0 else 1
    {
      ok := *;
      if !ok { faults := faults + 1; }
    }

    // ---- Owners ------------------------------------------------------------------

    /** ensureOwnedClusterDeployment. An owner reference to another namespace is
        refused, but an entry that is already there is not looked at that closely. */
    method EnsureOwned(o: AgentClusterObject, at: Key) returns (ok: bool)
      requires at in deployments
      modifies this`deployments, this`faults
      ensures ok ==> deployments == old(deployments)[at := Adopted(old(deployments)[at], Me(o.key, o.given))]
                     && (at.namespace == o.key.namespace || deployments == old(deployments))
                     && faults == old(faults)
                     && (o.key.name != "" ==> IsAdopted(deployments[at], Me(o.key, o.given)))
      ensures !ok ==> deployments == old(deployments)
      ensures !ok && faults == old(faults) ==>
        at.namespace != o.key.namespace && !IsAdopted(deployments[at], Me(o.key, o.given))
      ensures faults >= old(faults)
    {
      var d, me := deployments[at], Me(o.key, o.given);
      if o.key.name != "" { AdoptedIsAdopted(d, o.key, o.given); }
      var alreadyOwned := exists i | 0 <= i < |d.owners| :: SameObject(d.owners[i], me);
      var clusterRef := if AGENT_CLUSTER_REF in d.labels then d.labels[AGENT_CLUSTER_REF] else "";
      if alreadyOwned && clusterRef != "" && clusterRef == o.key.name {
        assert Adopted(d, me) == d && deployments[at := d] == deployments;
        return true;
      }
      if at.namespace != o.key.namespace { return false; }
      var adopted := d.(owners := Upsert(d.owners, me), labels := d.labels[AGENT_CLUSTER_REF := o.key.name]);
      ok := Call();
      if ok { deployments := deployments[at := adopted]; }
    }

    /** The loop of orphanClusterDeployment. */
    method OwnersWithout(owners: Owners, me: OwnerReference) returns (rest: Owners)
      ensures rest == Without(owners, me)
    {
      rest := [];
      for i := 0 to |owners|
        invariant rest == Without(owners[..i], me)
      {
        assert owners[..i + 1][..i] == owners[..i];
        var owner := owners[i];
        if owner.kind == me.kind && owner.name == me.name && owner.apiVersion == me.apiVersion && owner.uid == me.uid {
          continue;
        }
        rest := rest + [owner];
      }
      assert owners[..|owners|] == owners;
    }

    /** orphanClusterDeployment. Afterwards the ClusterDeployment is not owned by
        the AgentCluster exactly when its entries agreed in version and UID. */
    method Orphan(o: AgentClusterObject) returns (ok: bool)
      modifies this`deployments, this`faults
      ensures ok ==>
        var at := o.deploymentRef;
        && faults == old(faults)
        && deployments == (if HasRef(o.Content()) && at in old(deployments)
                           then old(deployments)[at := Orphaned(old(deployments)[at], Me(o.key, o.given))]
                           else old(deployments))
        && (HasRef(o.Content()) && at in deployments ==>
              (!IsOwnedBy(deployments[at].owners, Me(o.key, o.given)) <==>
                 Agreeing(old(deployments)[at].owners, Me(o.key, o.given))))
      ensures !ok ==> deployments == old(deployments) && faults > old(faults)
    {
      hide SameObject, Without, Agreeing, Entries, OthersOf, Upsert;
      if o.deploymentRef.name == "" { return true; }
      var at, me := o.deploymentRef, Me(o.key, o.given);
      ok := Call();
      if !ok || at !in deployments { return; }
      var d := deployments[at];
      MeParses(o.key, o.given);
      ChangeEffect(d.owners, IsLabelled(d, me.name), me, Change.Orphan);
      if !IsOwnedBy(d.owners, me) {
        assert deployments[at := d] == deployments;
        return true;
      }
      var rest := OwnersWithout(d.owners, me);
      ok := Call();
      if ok { deployments := deployments[at := d.(owners := rest)]; }
    }

    // ---- Finding and creating ------------------------------------------------------

    /** The Cluster that owns an AgentCluster, if any: the first owner of that kind. */
    method FindClusterOwner(owners: Owners) returns (found: bool)
      ensures found <==> HasClusterOwner(owners)
      ensures found <==> exists o | o in owners ::
        o.kind == "Cluster" && (o.apiVersion == "cluster.x-k8s.io/v1beta2" || o.apiVersion == "cluster.x-k8s.io/v1beta1")
    {
      for i := 0 to |owners|
        invariant forall j | 0 <= j < i :: !IsClusterOwner(owners[j])
      {
        if owners[i].kind == "Cluster" && owners[i].apiVersion in CLUSTER_API_VERSIONS { return true; }
      }
      return false;
    }

    /** findClusterDeployment: the label is searched for in every namespace. */
    method FindClusterDeployment(name: string) returns (found: Option<Key>, ok: bool)
      modifies this`faults
      ensures found.Some? ==> ok && found.value in deployments
                              && AGENT_CLUSTER_REF in deployments[found.value].labels
                              && deployments[found.value].labels[AGENT_CLUSTER_REF] == name
      ensures ok && found.None? ==> !AnyLabelled(deployments, name)
      ensures faults == old(faults) + if ok then 0 else 1
    {
      ok := Call();
      if !ok { return None, false; }
      var labelled := set at | at in deployments && AGENT_CLUSTER_REF in deployments[at].labels
                               && deployments[at].labels[AGENT_CLUSTER_REF] == name;
      if labelled == {} {
        assert forall at | at in deployments && AGENT_CLUSTER_REF in deployments[at].labels
                           && deployments[at].labels[AGENT_CLUSTER_REF] == name :: at in labelled;
        return None, true;
      }
      var first :| first in labelled;
      return Some(first), true;
    }

    /** createClusterDeployment. The reference is set before the call, and kept when
        the call fails: if nothing is there by that key, it dangles. */
    method Create(o: AgentClusterObject, read: ControlPlaneRead) returns (r: Outcome)
      requires o.key.name != "" && !HasRef(o.given)
      modifies this`deployments, this`faults, o`deploymentRef
      ensures r in {ControlPlaneFailed, ControlPlaneMissing, Created, CreateLost}
      ensures r.ControlPlaneFailed? || r.ControlPlaneMissing? ==>
        o.deploymentRef == old(o.deploymentRef) && deployments == old(deployments)
      ensures r.Created? || r.CreateLost? <==> read.Available? && HasClusterOwner(o.given.owners)
      ensures r.Created? || r.CreateLost? ==> o.deploymentRef == o.key && o.given.owners != []
      ensures r.Created? ==>
        deployments == (if o.key in old(deployments) then old(deployments)
                        else old(deployments)[o.key := NewDeployment(o.key, o.given, read.controlPlane)])
      ensures r.Created? && o.key !in old(deployments) ==>
        o.key in deployments && MadeFor(deployments[o.key], o.key, o.given, read.controlPlane)
      ensures r.CreateLost? ==> deployments == old(deployments)
      ensures faults == old(faults) + if r.CreateLost? then 1 else 0
    {
      var owned := FindClusterOwner(o.given.owners);
      if !owned || read.NotYet? { return ControlPlaneMissing; }
      if read.Unreadable? { return ControlPlaneFailed; }
      var d := NewDeployment(o.key, o.given, read.controlPlane);
      o.deploymentRef := o.key;
      var ok := Call();
      if !ok { return CreateLost; }
      if o.key !in deployments { deployments := deployments[o.key := d]; }
      return Created;
    }

    /** findOrCreateClusterDeployment. */
    method FindOrCreate(o: AgentClusterObject, read: ControlPlaneRead) returns (r: Outcome)
      requires o.key.name != "" && !HasRef(o.given) && o.deploymentRef == o.given.deploymentRef
      modifies this`deployments, this`faults, o`deploymentRef
      ensures r in {FindFailed, Found, ControlPlaneFailed, ControlPlaneMissing, Created, CreateLost}
      ensures r.Found? ==> deployments == old(deployments) && o.deploymentRef in deployments
                           && IsLabelled(deployments[o.deploymentRef], o.key.name)
      ensures r.Found? <==> AnyLabelled(old(deployments), o.key.name) && !r.FindFailed?
      ensures r in {FindFailed, ControlPlaneFailed, ControlPlaneMissing} ==>
        deployments == old(deployments) && o.deploymentRef == old(o.deploymentRef)
      ensures r in {Created, CreateLost} ==> o.deploymentRef == o.key && o.given.owners != []
      ensures !r.FindFailed? ==>
        (r in {Created, CreateLost} <==>
          !AnyLabelled(old(deployments), o.key.name) && read.Available? && HasClusterOwner(o.given.owners))
      ensures r.Created? ==>
        deployments == (if o.key in old(deployments) then old(deployments)
                        else old(deployments)[o.key := NewDeployment(o.key, o.given, read.controlPlane)])
      ensures r.Created? && o.key !in old(deployments) ==>
        o.key in deployments && MadeFor(deployments[o.key], o.key, o.given, read.controlPlane)
      ensures r.CreateLost? ==> deployments == old(deployments)
      ensures faults == old(faults) + if r in {FindFailed, CreateLost} then 1 else 0
    {
      var found, ok := FindClusterDeployment(o.key.name);
      if !ok { return FindFailed; }
      if found.Some? {
        o.deploymentRef := found.value;
        return Found;
      }
      r := Create(o, read);
    }

    /** ensureAgentClusterInstall: one under the key of the ClusterDeployment. */
    method EnsureInstall(o: AgentClusterObject, at: Key) returns (ok: bool)
      modifies this`installs, this`faults
      ensures ok ==>
        && faults == old(faults)
        && installs == (if at in old(installs) then old(installs) else old(installs)[at := NewInstall(lib, at, o.given)])
      ensures ok && at !in old(installs) ==> at in installs && InstallFits(installs[at], at, o.given, lib)
      ensures !ok ==> installs == old(installs) && faults > old(faults)
    {
      ok := Call();
      if !ok || at in installs { return; }
      var ignition: Option<IgnitionSource> := None;
      if o.given.ignition.Some? {
        var url := IgnitionEndpoint.IgnitionEndpointURLForACI(lib, o.given.ignition.value.url);
        if url != "" { ignition := Some(IgnitionSource(url, o.given.ignition.value.ca)); }
      }
      ok := Call();
      if ok { installs := installs[at := ClusterInstall(at.name, ignition)]; }
    }

    // ---- The reconcile ---------------------------------------------------------------

    /** Everything between reading the AgentCluster and its deferred patch. */
    method Process(o: AgentClusterObject, read: ControlPlaneRead) returns (r: Outcome)
      requires o.Content() == o.given && o.key.name != "" && o.key in clusters && clusters[o.key] == o.given
      modifies this`deployments, this`installs, this`faults, o
      ensures Made(lib, old(State()), State(), o.key, o.given, o.Content(), r)
      ensures faults >= old(faults)
      ensures faults == old(faults) ==> Finishes(lib, old(State()), State(), o.key, o.given, o.Content(), read)
    {
      if o.given.deleting {
        if o.given.paused {
          var ok := Orphan(o);
          if !ok { return OrphanFailed; }
        }
        o.finalizer := false;
        return DeletionDone;
      }
      o.finalizer := true;
      if o.given.paused {
        var ok := Orphan(o);
        return if ok then PausedDone else OrphanFailed;
      }
      if o.deploymentRef.name == "" {
        r := FindOrCreate(o, read);
        return;
      }
      r := Settle(o);
    }

    /** The part of Reconcile for an AgentCluster that has its reference. */
    method Settle(o: AgentClusterObject) returns (r: Outcome)
      requires o.Content() == o.given.(finalizer := true) && o.key.name != "" && HasRef(o.given)
      requires !o.given.deleting && !o.given.paused
      modifies this`deployments, this`installs, this`faults, o`ready
      ensures Made(lib, old(State()), State(), o.key, o.given, o.Content(), r)
      ensures faults >= old(faults)
      ensures faults == old(faults) ==> Settles(lib, old(State()), State(), o.key, o.given, o.Content())
    {
      var at := o.deploymentRef;
      var ok := Call();
      if !ok || at !in deployments { return DeploymentUnread; }
      ok := EnsureOwned(o, at);
      if !ok { return AdoptionFailed; }
      ok := EnsureInstall(o, at);
      if !ok { return InstallFailed; }
      if o.given.endpoint.host == "" || o.given.endpoint.port == 0 { return EndpointMissing; }
      o.ready := true;
      return BecameReady;
    }

    /** Reconcile. It is one step of a run; unless the create call was lost, a new
        reference names a ClusterDeployment that exists. */
    method Reconcile(key: Key, read: ControlPlaneRead) returns (r: Outcome, saved: bool, ghost written: Option<AgentCluster>)
      requires key.name != ""
      modifies this
      ensures r.Gone? ==> State() == old(State())
      ensures faults >= old(faults)
      ensures !r.Gone? ==> key in old(clusters) && Moves(lib, old(State()), State(), Reconciled(key, r.CreateLost?))
      ensures r.CreateLost? && saved ==> key in clusters && clusters[key].deploymentRef == key && deployments == old(deployments)
      ensures faults == old(faults) && key in old(clusters) ==>
        && saved && !r.Gone? && written.Some?
        && clusters == (if old(clusters)[key].deleting then old(clusters) - {key} else old(clusters)[key := written.value])
        && Finishes(lib, old(State()), State(), key, old(clusters)[key], written.value, read)
        && (key !in old(deployments) && key in deployments ==>
              read.Available? && MadeFor(deployments[key], key, old(clusters)[key], read.controlPlane))
        && (forall at | at in installs && at !in old(installs) :: InstallFits(installs[at], at, old(clusters)[key], lib))
    {
      hide Finishes, Moves, Made, MadeFor, InstallFits;
      saved, written := false, None;
      var ok := Call();
      if !ok || key !in clusters { return Gone, saved, written; }
      var o := new AgentClusterObject(key, clusters[key]);
      ghost var s := State();
      r := Process(o, read);
      ghost var made := State();
      written := Some(o.Content());
      saved := Call();
      if saved {
        if o.given.deleting && !o.finalizer { clusters := clusters - {key}; }
        else { clusters := clusters[key := o.Content()]; }
      }
      MadeIsStep(lib, s, State(), key, o.Content(), r);
      if faults == old(faults) { FinishesParts(lib, s, made, State(), key, o.given, o.Content(), read); }
    }
  }

  /** An AgentCluster that was not reconciled yet, and may be. */
  predicate IsNew(clusters: map<Key, AgentCluster>, k: Key) {
    k in clusters && Fresh(clusters[k]) && !clusters[k].deleting && !clusters[k].paused
  }

  /** AgentClusters of one name in two namespaces: the first reconcile creates a
      ClusterDeployment, the second finds the same one by its label, and to each it
      counts as adopted, unless a call fails. `clean` tells that none did. */
  method Namesakes(r: AgentClusterReconciler, j: Key, k: Key, read: ControlPlaneRead) returns (ghost clean: bool)
    requires j.name == k.name != "" && j.namespace != k.namespace
    requires IsNew(r.clusters, j) && IsNew(r.clusters, k) && HasClusterOwner(r.clusters[j].owners) && read.Available?
    requires j !in r.deployments && !AnyLabelled(r.deployments, j.name)
    modifies r
    ensures clean <==> r.faults == old(r.faults)
    ensures clean ==>
      && j in r.clusters && k in r.clusters && j in r.deployments
      && r.clusters[j].deploymentRef == r.clusters[k].deploymentRef == j
      && IsAdopted(r.deployments[j], Me(j, r.clusters[j])) && IsAdopted(r.deployments[j], Me(k, r.clusters[k]))
  {
    ghost var before, b := r.deployments, r.clusters[j];
    var _, _, _ := r.Reconcile(j, read);
    if r.faults == old(r.faults) {
      ghost var d := NewDeployment(j, b, read.controlPlane);
      OnlyLabelled(before, j, d);
      NewIsAdopted(j, b, read.controlPlane);
      CountsForNamesake(d, j, b, k, r.clusters[k]);
    }
    var _, _, _ := r.Reconcile(k, read);
    clean := r.faults == old(r.faults);
  }

  lemma OnlyLabelled(before: map<Key, ClusterDeployment>, j: Key, d: ClusterDeployment)
    requires !AnyLabelled(before, j.name) && j.name != "" && d.labels == map[AGENT_CLUSTER_REF := j.name]
    ensures var after := before[j := d];
            AnyLabelled(after, j.name) && forall at | at in after && IsLabelled(after[at], j.name) :: at == j
  {
    assert before[j := d][j].labels[AGENT_CLUSTER_REF] == j.name;
  }

  predicate AnyLabelled(deployments: map<Key, ClusterDeployment>, name: string) {
    exists at | at in deployments ::
      AGENT_CLUSTER_REF in deployments[at].labels && deployments[at].labels[AGENT_CLUSTER_REF] == name
  }

  /** The install of a ClusterDeployment, by its parts: it refers back to it, and has an
      ignition endpoint exactly if the AgentCluster has one whose URL does not become
      empty, with that URL and the same CA certificate. */
  predicate InstallFits(i: ClusterInstall, at: Key, c: AgentCluster, lib: IgnitionEndpoint.Library) {
    && i.deployment == at.name
    && (i.ignition.Some? <==>
          c.ignition.Some? && IgnitionEndpoint.IgnitionEndpointURLForACI(lib, c.ignition.value.url) != "")
    && (i.ignition.Some? ==>
          && i.ignition.value.url == IgnitionEndpoint.IgnitionEndpointURLForACI(lib, c.ignition.value.url)
          && i.ignition.value.ca == c.ignition.value.ca)
  }

  /** What a reconcile may have done to the store and the object in memory before
      the patch. */
  ghost predicate Made(
      lib: IgnitionEndpoint.Library, s: Store, s': Store, k: Key, c: AgentCluster, c': AgentCluster, r: Outcome)
  {
    && s'.clusters == s.clusters
    && ClusterStep(s, s', k, c, c')
    && !r.Gone?
    && (!c.deleting ==> c'.finalizer)
    && (r.CreateLost? ==> !c.deleting)
    && (forall at | at in s.deployments :: at in s'.deployments && DeploymentStep(k, c, at, s.deployments[at], s'.deployments[at]))
    && (forall at | at in s'.deployments && at !in s.deployments ::
          at == k && !HasRef(c) && c.owners != [] && !c.deleting && !c.paused
          && exists cp :: s'.deployments[at] == NewDeployment(k, c, cp))
    && (forall at | at in s.installs :: at in s'.installs && s'.installs[at] == s.installs[at])
    && (forall at | at in s'.installs && at !in s.installs ::
          HasRef(c) && at == c.deploymentRef && at in s.deployments && s'.installs[at] == NewInstall(lib, at, c))
    && (r.CreateLost? ==> c'.deploymentRef == k && s' == s)
    && (!r.CreateLost? && !HasRef(c) && HasRef(c') ==> c'.deploymentRef in s'.deployments)
  }

  /** What a reconcile without failed calls does, by the state it starts from. */
  ghost predicate Finishes(
      lib: IgnitionEndpoint.Library, s: Store, s': Store, k: Key, c: AgentCluster, c': AgentCluster, read: ControlPlaneRead)
  {
    && c'.finalizer == !c.deleting
    && if c.deleting || c.paused then
      && c'.ready == c.ready && c'.deploymentRef == c.deploymentRef && s'.installs == s.installs
      && s'.deployments == (if c.paused && HasRef(c) && c.deploymentRef in s.deployments
                            then s.deployments[c.deploymentRef := Orphaned(s.deployments[c.deploymentRef], Me(k, c))]
                            else s.deployments)
    else if !HasRef(c) then
      && c'.ready == c.ready && s'.installs == s.installs
      && if AnyLabelled(s.deployments, k.name) then
           s'.deployments == s.deployments && c'.deploymentRef in s.deployments
           && IsLabelled(s.deployments[c'.deploymentRef], k.name)
         else if read.Available? && HasClusterOwner(c.owners) then
           && c'.deploymentRef == k && c.owners != []
           && s'.deployments == (if k in s.deployments then s.deployments
                                 else s.deployments[k := NewDeployment(k, c, read.controlPlane)])
         else c'.deploymentRef == c.deploymentRef && s'.deployments == s.deployments
    else Settles(lib, s, s', k, c, c')
  }

  /** With a reference: the ClusterDeployment is adopted and installed, and the
      AgentCluster ready if its endpoint is valid. A missing one, or one in another
      namespace that does not already count as adopted, leaves everything as it
      is. */
  ghost predicate Settles(
      lib: IgnitionEndpoint.Library, s: Store, s': Store, k: Key, c: AgentCluster, c': AgentCluster)
  {
    var at := c.deploymentRef;
    if at in s.deployments && (at.namespace == k.namespace || IsAdopted(s.deployments[at], Me(k, c))) then
      && c' == c.(finalizer := true, ready := c.ready || (c.endpoint.host != "" && c.endpoint.port != 0))
      && s'.deployments == s.deployments[at := Adopted(s.deployments[at], Me(k, c))]
      && s'.installs == (if at in s.installs then s.installs else s.installs[at := NewInstall(lib, at, c)])
    else c' == c.(finalizer := true) && s'.deployments == s.deployments && s'.installs == s.installs
  }

  /** The patch of the AgentCluster does not change that; and what was made has the
      parts that it should have. */
  lemma FinishesParts(
      lib: IgnitionEndpoint.Library, s: Store, s': Store, s'': Store, k: Key, c: AgentCluster, c': AgentCluster,
      read: ControlPlaneRead)
    requires Finishes(lib, s, s', k, c, c', read) && s'' == s'.(clusters := s''.clusters)
    ensures Finishes(lib, s, s'', k, c, c', read)
    ensures k !in s.deployments && k in s''.deployments ==>
      read.Available? && MadeFor(s''.deployments[k], k, c, read.controlPlane)
    ensures forall at | at in s''.installs && at !in s.installs :: InstallFits(s''.installs[at], at, c, lib)
  {
    hide AnyLabelled, HasClusterOwner, Adopted, Orphaned, IsAdopted, IsLabelled;
  }

  lemma MadeIsStep(lib: IgnitionEndpoint.Library, s: Store, s': Store, k: Key, c': AgentCluster, r: Outcome)
    requires k in s.clusters
    requires Made(lib, s, s'.(clusters := s.clusters), k, s.clusters[k], c', r)
    requires s'.clusters == s.clusters || s'.clusters == s.clusters[k := c']
             || (s.clusters[k].deleting && s'.clusters == s.clusters - {k})
    ensures Moves(lib, s, s', Reconciled(k, r.CreateLost?))
  {
  }
}
