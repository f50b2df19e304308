# Verification of the agent provider for Cluster API

A Dafny model of the controllers that hand hosts ("Agents") to AgentMachines, and
of the AgentCluster and node controllers beside them. It verifies with
`dafny verify dfyconfig.toml`.

## What is modelled

**Allocation** (`controllers/agentmachine_controller.go`). An AgentMachine gets one
Agent. The reconcile claims a free Agent with a version-checked write, records it on
the AgentMachine later, in a patch that may fail, keeps bootstrap data in sync,
reports status, and gives the Agent back through a delete hook on the Machine.

- `Hub`, `AgentEdits`, `AgentMachines`, `Bootstrap`: the objects, what the controller
  writes into them, the status and address loops, the bootstrap parser.
- `Protocol`, `ProtocolInvariant`, `Runs`: the store, one step per API write or change
  by others, the inductive invariant, and the theorems about every run.
- `ApiServer`, `Rely`, `Session`, `AgentMachineController`: the reconcile as imperative
  code. Before every API call any number of steps by others may happen, every call may
  fail, and a list of free Agents may consist of versions of any age. What the
  reconcile does is proved to be a run again, so the theorems of `Runs` hold of it.
- `Delivery`: what the reconcile leaves on the stored Agent, field by field: the claim, the
  bootstrap data, the label.
- `WakeUp`: which AgentMachines an event on an Agent wakes.
- `AssumptionTraces`: what goes wrong without the assumptions below, and one leak that
  they do not prevent.

**AgentClusters** (`controllers/agentcluster_controller.go`): `OwnerReferences` (adopting
and orphaning on owner lists), `ClusterRuns` (one reconcile as a step, and runs of them),
`AgentClusterController` (the reconcile as imperative code, proved to be such a step).

**Ignition URLs** (`controllers/ignition_endpoint.go`): `IgnitionEndpoint`, for any
behaviour of `url.Parse` and `net.ParseIP`, and a splitter and printer of URLs after
section 5.3 of RFC 3986.

**Node provider IDs** (`controllers/node_provider_id_controller.go`): `NodeProviderID`.

`Text` and `Wrappers` hold string searches and the option type.

## Assumptions

- Names. An AgentMachine name is never used again, and an Agent labelled with a name is
  annotated with the namespace of the AgentMachine of that name (`NamespaceFits`): the
  label value is the bare name. Steps: `AMCreated`.
- Reads. The AgentMachine and the list of Agents labelled for it are read as they are
  now. The list of free Agents may be arbitrarily old.
- Release. No AgentMachine claims an Agent that another one has unbound but whose hook
  it has not removed yet (`NotBeingReleased`, `Admitted`). `ReleaseStripsNewOwner` shows
  what happens otherwise, and `StripHappens` that it can happen.
- Machines. A Machine is not created again, does not go back in its deletion, and gets
  no delete hook from anybody else once it is being deleted without one
  (`MachineCreated`, `MachineChanged`); others may take the hook off at any time. When an
  AgentMachine that removed its hook is reconciled again, its Machine is gone or shows the
  succeeded condition (the precondition of `Reconcile`).
- AgentMachines. Nobody else edits what the controller manages on them, that is finalizer,
  provider ID and status, nor their namespace, and an owner Machine stays the owner
  (`AMChanged`). Everything else, the selector and the paused annotation included, may
  change at any time.
- Others. Nobody else edits the label, the annotation and the bound fields of an Agent
  (`SameOwnership`: cluster reference, pool, token reference and headers), deleted Agents
  do not come back, and an unlabelled Agent that is reported bound stays so. Hostname,
  role, approval and status may change at any time. A call that returns an error did not apply.
- The patch of an AgentMachine or AgentCluster fails or applies in full.
- Looking up the Machine fails only if it does not exist (`GetMachine`).
  `LookupErrorLeaks` shows what happens otherwise.
- AgentCluster reconciles run one at a time, and read what is stored.
  `PatchKeepsOthers` says when a patch made from an older list loses owners.
- The condition summary is True exactly when all five conditions are. An owner
  reference matches by group, kind and name.

## What the proofs found

- `updateAgentIfNeeded` compares the zero `approved` of its desired spec: for an approved
  Agent, which every claimed one is, the sync writes on every pass and empty bootstrap
  data clears all three fields. `SyncNeededIff` and `EmptyDataSync` give the exact
  conditions.
- An Agent claimed by an AgentMachine whose patch failed, and which is then deleted before
  its next allocation pass, is never given back: the hook goes because there is no
  reference. `LeakHappens` is such a run, `UnrecordedClaims` and `NilReferenceLeaks` say
  exactly when it happens, and no later reconcile of anybody frees the Agent
  (`LeakIsPermanent`).
- A `findAgent` error is swallowed: without an Agent the reconcile fails exactly when the
  status summary fails, whatever happened to the search (`Acquire`).
- An IPv4 address without "/" makes `getAddresses` panic after provider ID and reference
  are set; the deferred patch stores them without addresses (`RecordAgent`), and the node
  controller then finds no name.
- A create call that fails otherwise than with AlreadyExists leaves a dangling reference,
  which no reconcile repairs (`Create`, `DanglingStays`).
- An owner entry with an old UID is neither renewed nor removed (`StaleEntryStays`);
  orphaning ends not owned exactly when the entries agree (`ChangeEffect`).
- AgentClusters of one name in two namespaces come to share a ClusterDeployment
  (`Namesakes`, `NameClashShares`); with distinct names they never do (`NoSharing`).

## Model

| member | source | states |
|---|---|---|
| Runs.RunKeepsInv | controllers/agentmachine_controller.go:89-182 | the allocation invariant holds in every state of every run of any number of AgentMachines and of others |
| Runs.ExclusiveAllocation | controllers/agentmachine_controller.go:404-520 | no two AgentMachines that have not given up their Agent reference the same one; a referenced Agent is labelled for its holder unless unbound by it or reserved before labels existed |
| Runs.OneLabelledAgent | controllers/agentmachine_controller.go:466-489 | however often patches fail, at most one existing Agent carries the name of an AgentMachine, and a stored reference is to that one |
| Runs.ClaimIsFresh | controllers/agentmachine_controller.go:498-520 | a claim takes an Agent that nobody holds, for an AgentMachine without a reference |
| Runs.RelabelOnlyPinned | controllers/agentmachine_controller.go:683-698 | relabelling never takes an Agent from another AgentMachine |
| Runs.ReadyMeansReserved | controllers/agentmachine_controller.go:625-672 | ready implies a reference, the provider ID "agent://" with the name of that Agent, and the five conditions, each True; one condition per type; provider ID and reference come together |
| Runs.DoneMeansHookRemoved | controllers/agentmachine_controller.go:240-250 | an AgentMachine is done only after a removal step that was enabled, after which the Machine had no hook |
| Runs.UnpausedRemoval | controllers/agentmachine_controller.go:273-371 | unless the AgentMachine was stored paused and deleting before, every hook removal of a run comes with a Machine that waits at the hook or has the succeeded condition, and with no Agent, a missing one, or one that a version not older than its unbind shows released without label and cluster; and the hook is gone after it |
| Runs.UnboundMeansUnbind | controllers/agentmachine_controller.go:339-351 | the version that the release counts from is one that an unbind of the AgentMachine wrote |
| Runs.PausedDeletionHappened | controllers/agentmachine_controller.go:274-285 | the bookkeeping of paused deletions records only states that the run went through |
| Runs.FinalizerKept | controllers/agentmachine_controller.go:114-127 | a finalizer goes only by the own patch, after a step that took the hook off, with the Machine gone, or with one whose hook succeeded and that no longer waits at it |
| Runs.ReleaseIsComplete | controllers/agentmachine_controller.go:325-371 | a hook removed for a released or missing Agent leaves no Agent labelled for the AgentMachine and no other holder |
| Runs.ReleasingIsUnbound | controllers/agentmachine_controller.go:339-351 | in every reachable state an Agent that was unbound and whose hook is on has neither label nor cluster |
| Runs.NeverRebound | controllers/agentmachine_controller.go:252-373 | from the unbind on, through any steps of anybody, the Agent stays unbound until the hook is taken off |
| Runs.ReleaseAdvances | controllers/agentmachine_controller.go:252-373 | while the Machine is being deleted, no write of any reconcile takes a release back in the order bound, unbound, released, hook gone, read off the stored Agent and the hook |
| ApiServer.VersionMeansContent | controllers/agentmachine_controller.go:515-518 | an accepted version-checked write met the content that was read, however long ago |
| ApiServer.Server.UpdateAgent | controllers/agentmachine_controller.go:515-518 | an Update is accepted only at the version read, and is then exactly one step of the run |
| Rely.KeptFromOthers | controllers/agentmachine_controller.go:184-213 | no write of another AgentMachine's reconcile changes namespace, cluster or bootstrap data of an Agent that this one holds |
| Delivery.ReadBackIsInPlace | controllers/agentmachine_controller.go:176-205 | data that were in place after the sync are what the secret gives on the stored Agent, if it was approved all along |
| Delivery.DeliveredLater | controllers/agentmachine_controller.go:161-181 | what the allocation part leaves on the stored Agent stays through the steps of others and the patch |
| AgentMachineController.FindMachineOwner | controllers/agentmachine_controller.go:215-231 | the loop finds the first owner that is a Machine of a supported version |
| Hub.FirstMachineOwner | controllers/agentmachine_controller.go:215-231 | the owner is the first of kind Machine in one of the two API versions, in the namespace of the AgentMachine |
| Hub.ReleasedStates | controllers/agentmachine_controller.go:354-362 | a host counts as given back in exactly seven states |
| Hub.MeetsMeans | vendor/k8s.io/apimachinery/pkg/labels/selector.go:247-264 | the four selector operators on the entries of a label map, two of them the opposite of the other two |
| Protocol.HookEdits | controllers/agentmachine_controller.go:233-266 | writing and removing the hook change one annotation of the Machine and nothing else |
| AgentMachineController.Reconciler.RemoveHookAndFinalizer | controllers/agentmachine_controller.go:233-250 | on success neither hook nor finalizer is left, on failure both are as before |
| AgentMachineController.Reconciler.EnsureHook | controllers/agentmachine_controller.go:253-266 | after success a Machine that is not being deleted has the hook; at most that one write |
| AgentMachineController.Reconciler.UnbindAgent | controllers/agentmachine_controller.go:339-351 | writes at most the unbind; a released host then shows neither label nor cluster in a recorded version |
| AgentMachineController.Reconciler.ReleaseAgent | controllers/agentmachine_controller.go:325-373 | whatever fails, hook and finalizer go together and only if the Agent as read is missing or released; without a failed call they go exactly then, and else the Agent is unbound and the reconcile asks to be called again |
| AgentMachineController.Reconciler.AfterHook | controllers/agentmachine_controller.go:273-373 | the same for a Machine that has its hook; and on the fields of the Machine: a finalizer that goes without a removal has the succeeded condition True and no waiting, and an unpaused pass that reads the waiting reason, or the condition False or Unknown, ends without a failed call with hook and finalizer gone or with the Agent free of label and cluster and a requeue |
| AgentMachineController.Reconciler.HandleDeletionHook | controllers/agentmachine_controller.go:252-373 | exactly which reconciles go on; whatever fails, the hook goes only for a paused deletion or at the hook with nothing left to release, and the finalizer with it or with a finished Machine; without a failed call a reconcile at the hook ends with neither exactly when nothing is left to release |
| AgentMachineController.Reconciler.UpdateFoundAgent | controllers/agentmachine_controller.go:498-520 | an accepted claim met an Agent that was unlabelled, matching, approved, validated, connected and not bound at that instant; a refused one changed nothing |
| AgentMachineController.Reconciler.FindLabelledAgent | controllers/agentmachine_controller.go:468-489 | returns an Agent labelled for the AgentMachine, the only one, or there is none |
| AgentMachineController.Reconciler.ClaimFirstValid | controllers/agentmachine_controller.go:438-459 | the result is the first valid candidate in list order whose write was accepted, all earlier valid ones were refused, and nothing else was written; the stored Agent shows the claim field by field; without a failed call no result means no valid candidate |
| AgentMachineController.RefusedAre | controllers/agentmachine_controller.go:438-453 | the refused attempts are those for the entries that are approved, validated, connected and not bound, each at the version that was listed |
| AgentMachineController.Reconciler.FindAgent | controllers/agentmachine_controller.go:404-460 | an Agent already labelled is adopted without a write; else one claim, of the first entry of the current list that is valid and not refused; no result means that every valid entry was tried and refused |
| AgentMachineController.Reconciler.UpdateAgentIfNeeded | controllers/agentmachine_controller.go:184-213 | writes exactly when the Agent as read needs the sync, and only the three bootstrap fields; afterwards the data are in place; without a failed call it reads the Agent or there is none |
| AgentMachineController.Reconciler.EnsureAgentLabeled | controllers/agentmachine_controller.go:683-698 | writes exactly when the label as read is not the own name, which it then is |
| AgentMachineController.Reconciler.UpdateStatus | controllers/agentmachine_controller.go:625-672 | after success the conditions show the Agent, which is labelled for the AgentMachine, and ready means all four reported True; after any error not ready; without an Agent the reason tells a failed search from an empty one |
| AgentMachineController.Reconciler.Acquire | controllers/agentmachine_controller.go:167-175 | without a failed call the Agent labelled for the AgentMachine becomes its Agent, and no Agent means that none of the list was valid; at most one claim, with this cluster, namespace and data; a failed search is not returned; a panic means a malformed address |
| AgentMachineController.Reconciler.SyncAndReport | controllers/agentmachine_controller.go:176-181 | a sync exactly when needed, then at most a relabel, then the status; without a failed call the Agent was read and has the data, or does not exist; without an error it is labelled |
| AgentMachineController.Reconciler.AllocateFor | controllers/agentmachine_controller.go:161-181 | a reserved Agent is kept; the writes are at most claim, sync, relabel of one Agent in this order, every claim is for the given cluster, namespace and secret and stands on the stored Agent, and the data are in place at the end |
| AgentMachineController.Reconciler.Allocate | controllers/agentmachine_controller.go:146-181 | how far the allocation comes is decided by the inputs; a ready AgentMachine is left alone; the writes and what they leave as for AllocateFor, for the data that the secret gives |
| AgentMachineController.Reconciler.ProcessMachine | controllers/agentmachine_controller.go:133-181 | with the Machine at hand: release writes only at the hook, by its fields, else the allocation part with what that delivers; fails in the hook part exactly when a call did; exactly when it asks to be called again |
| AgentMachineController.Reconciler.Process | controllers/agentmachine_controller.go:114-181 | the same with the Machine lookup; a failed lookup is returned and drops only the finalizer of a deleted AgentMachine; without an owner the status says that there is no Agent |
| AgentMachineController.Reconciler.Patch | controllers/agentmachine_controller.go:107-112 | the deferred patch stores the object in full or nothing, and a deleted object without finalizer disappears |
| AgentMachineController.Reconciler.Reconcile | controllers/agentmachine_controller.go:89-182 | the reconcile is a run; whatever fails, the hook goes only for a paused deletion or with nothing left to release; without a failed call a reconcile at the hook, by the fields of the Machine, ends with hook and finalizer gone exactly then, and else with the stored Agent without label and cluster; a complete one leaves the stored Agent labelled, with the cluster and namespace given, and, if approved, with exactly the pool, token reference and headers that the secret gives, or the Agent does not exist; the order is claim, sync, relabel, patch, and a labelled Agent is adopted |
| AgentEdits.BindUnbindRoundTrip | controllers/agentmachine_controller.go:339-351 | claim, any syncs, relabels and status reports, then unbind restore labels, annotations and spec, exactly for Agents free of what a claim writes |
| AgentEdits.UnboundForgetsEdits | controllers/agentmachine_controller.go:339-351 | no sequence of edits survives an unbind |
| AgentEdits.ClaimedFields | controllers/agentmachine_controller.go:498-514 | a claim sets label, annotation, cluster reference and the three bootstrap fields to what it was given, and nothing else |
| AgentEdits.SyncedFields | controllers/agentmachine_controller.go:201-205 | a sync replaces the three bootstrap fields, and nothing else |
| AgentEdits.UnboundFields | controllers/agentmachine_controller.go:339-347 | an unbind takes label, annotation, cluster reference and bootstrap data off, and nothing else |
| AgentEdits.IsValidAgent | controllers/agentmachine_controller.go:609-623 | the loop decides by the last condition of each of three types, and approval |
| AgentEdits.LastStatusIsLast | controllers/agentmachine_controller.go:609-623 | a later condition of a type overrides all earlier ones |
| AgentEdits.IsValidIff | controllers/agentmachine_controller.go:609-623 | an Agent is free exactly when it is approved and its conditions end up validated, connected and not bound: all four |
| AgentEdits.DerivativeReflexive | vendor/k8s.io/apimachinery/third_party/forked/golang/reflect/deep_equal.go:292-418 | every value is a derivative of itself |
| AgentEdits.SyncNeededIff | controllers/agentmachine_controller.go:194-202 | a sync is needed exactly when the Agent is approved or lacks some set part of the data |
| AgentEdits.SyncConverges | controllers/agentmachine_controller.go:194-210 | one pass puts the data in place and changes only three fields, a second changes nothing; writing stops exactly for unapproved Agents |
| AgentEdits.EmptyDataSync | controllers/agentmachine_controller.go:528-531 | empty data leaves the spec alone exactly when it is unapproved or has none of the three fields set |
| AgentMachines.SetConditionEffect | controllers/agentmachine_controller.go:700-757 | setting a condition decides its own type only and keeps one entry per type |
| AgentMachines.AgentMachineObject.CopyCondition | controllers/agentmachine_controller.go:700-729 | the condition becomes True exactly when the Agent's first one of the source type is, and else has its reason |
| AgentMachines.AgentMachineObject.SetReserved | controllers/agentmachine_controller.go:731-757 | reserved is True exactly with a reference; without one the reason tells whether the search failed |
| AgentMachines.AgentMachineObject.Summarize | controllers/agentmachine_controller.go:759-777 | ready and the Ready condition become the conjunction of the five conditions, which stay |
| AgentMachines.AgentMachineObject.ReportAgent | controllers/agentmachine_controller.go:666-671 | each of four conditions mirrors its own source condition |
| AgentMachines.AgentMachineObject.ReportNoAgent | controllers/agentmachine_controller.go:628-655 | without an Agent all five conditions are False and the AgentMachine is not ready |
| AgentMachines.AgentMachineObject.RecordAgent | controllers/agentmachine_controller.go:491-496 | provider ID and reference name the Agent; addresses are its addresses unless one is malformed |
| AgentMachines.GetAddresses | controllers/agentmachine_controller.go:779-803 | the j-th IPv4 address of the i-th carrier interface up to its last slash, all in order, then the requested hostname, or without one the inventory's; none at all exactly on an address without a slash |
| AgentMachines.AddressesLaw | controllers/agentmachine_controller.go:779-803 | entry by entry, what the addresses of an Agent are, and exactly when there are none |
| AgentMachines.StatusOfIsFirst | vendor/github.com/openshift/custom-resource-status/conditions/v1/conditions.go:81-89 | the status of a type is that of its first condition |
| AgentMachines.CarrierIPsExternal | controllers/agentmachine_controller.go:781-791 | everything before the last address is external |
| Bootstrap.ParseHeaders | controllers/agentmachine_controller.go:559-572 | the token is from the last Authorization header, the map has the last value of every other name, and the first bad header decides the error |
| Bootstrap.HeaderMapIsUnique | controllers/agentmachine_controller.go:559-572 | the headers determine the map |
| Bootstrap.PoolIsLastSegment | controllers/agentmachine_controller.go:556-558 | the pool is the only slash-free suffix that starts the source or follows a slash |
| Bootstrap.ProcessResource | controllers/agentmachine_controller.go:555-601 | what one ignition resource gives: pool, token and headers, or the error that its first bad header decides |
| Bootstrap.ProcessBootstrapData | controllers/agentmachine_controller.go:522-602 | exactly which secrets give bootstrap data, and what they give |
| Bootstrap.SecretGivesOne | controllers/agentmachine_controller.go:522-602 | the secret determines pool, token reference and headers |
| WakeUp.MapAgentToAgentMachine | controllers/agentmachine_controller.go:840-898 | the loops answer the first AgentMachine with this Agent, or all without one |
| WakeUp.FirstWithRefIs | controllers/agentmachine_controller.go:864-876 | for a mapped Agent the answer is the first AgentMachine of the list whose reference names it |
| WakeUp.WakesHolder | controllers/agentmachine_controller.go:864-876 | an event on a mapped Agent wakes its holder, unless an AgentMachine that gave it up still references it |
| WakeUp.WakesWaiting | controllers/agentmachine_controller.go:877-895 | an event on an unmapped valid Agent wakes exactly the AgentMachines without an Agent |
| WakeUp.AnnotatedMeansLabelled | controllers/agentmachine_controller.go:851-856 | in every reachable state an annotated Agent is labelled |
| WakeUp.RunKeepsNamespaces | controllers/agentmachine_controller.go:509-510 | in every reachable state an annotation is the namespace of the AgentMachine the label names |
| AssumptionTraces.ReleaseStripsNewOwner | controllers/agentmachine_controller.go:339-351 | without the release assumption, a claim that meets all that the code checks is stripped by the releasing reconcile |
| AssumptionTraces.StripHappens | controllers/agentmachine_controller.go:339-351 | a run, with the Machine at its hook, to where that happens |
| AssumptionTraces.LookupErrorLeaks | controllers/agentmachine_controller.go:115-127 | a failed lookup of a Machine that exists makes a patch that drops the finalizer against the protocol, and the bound Agent is lost in every later run |
| AssumptionTraces.UnrecordedClaims | controllers/agentmachine_controller.go:107-112 | a stored AgentMachine without a reference has a labelled Agent exactly when the Agent exists and its initial label or a claim of the run was never followed by a stored reference |
| AssumptionTraces.NilReferenceLeaks | controllers/agentmachine_controller.go:316-323 | deletion without a reference leaks an Agent exactly when it was labelled at the start or claimed in the run |
| AssumptionTraces.LeakIsPermanent | controllers/agentmachine_controller.go:404-520 | no steps of anybody give a lost Agent back, short of deleting it |
| AssumptionTraces.LeakHappens | controllers/agentmachine_controller.go:107-112 | a run from an empty hub, with the Machine and its hook, that leaks an Agent |
| OwnerReferences.UpsertEffect | vendor/sigs.k8s.io/controller-runtime/pkg/controller/controllerutil/controllerutil.go:233-251 | adopting keeps the entries of others in order and never makes a second own one |
| OwnerReferences.UpsertAt | vendor/sigs.k8s.io/controller-runtime/pkg/controller/controllerutil/controllerutil.go:233-251 | the first own entry becomes the current one, whatever version and UID it had, or it is added at the end; all others keep their place |
| OwnerReferences.GroupOfParts | vendor/k8s.io/apimachinery/pkg/runtime/schema/group_version.go:211-227 | the group of an API version is what stands before its only slash |
| OwnerReferences.WithoutEffect | controllers/agentcluster_controller.go:503-509 | orphaning keeps the entries of others and leaves no own one exactly when they agree in version and UID |
| OwnerReferences.WithoutCounts | controllers/agentcluster_controller.go:503-509 | exactly the entries equal in all four fields go, and no other is lost or doubled |
| OwnerReferences.ChangeEffect | controllers/agentcluster_controller.go:365-386 | adopt ends owned, orphan ends not owned exactly when entries agree, both are idempotent |
| OwnerReferences.PauseDecidesOwnership | controllers/agentcluster_controller.go:116-122 | over any sequence of pauses, the last decides whether the ClusterDeployment is owned |
| OwnerReferences.OthersUntouched | controllers/agentcluster_controller.go:365-386 | over any sequence of pauses the entries of others stay, in order |
| OwnerReferences.EntryCount | controllers/agentcluster_controller.go:365-386 | there is never more than one own entry unless there was to begin with |
| OwnerReferences.StaleEntryStays | controllers/agentcluster_controller.go:505-507 | an entry with another UID survives adopting and orphaning |
| OwnerReferences.PatchKeepsOthers | controllers/agentcluster_controller.go:374-384 | when exactly a merge patch from an older list keeps the owners added meanwhile |
| ClusterRuns.AdoptedIsAdopted | controllers/agentcluster_controller.go:365-386 | adopting ends owned and labelled, touches no other owner, label or field, and is idempotent; without the label or the entry it ends with the own current entry |
| ClusterRuns.NewIsAdopted | controllers/agentcluster_controller.go:292-340 | a created ClusterDeployment needs no adoption |
| ClusterRuns.MadeNamesItself | controllers/agentcluster_controller.go:292-340 | in every run, a ClusterDeployment that a reconcile made has the UID of the first owner as cluster ID and names the install under its own key, as long as others keep its spec |
| ClusterRuns.MadeFindsInstall | controllers/agentcluster_controller.go:388-414 | an install that any reconcile makes for it is the one it names and refers back to it, and Ready comes only with that install there |
| ClusterRuns.RefWriteOnce | controllers/agentcluster_controller.go:97-159 | in every run the reference is written once and Ready never falls |
| ClusterRuns.BecomesReady | controllers/agentcluster_controller.go:132-158 | the step that sets Ready has the ClusterDeployment existing, with the label and an owner entry of the AgentCluster, the install under its key, and an endpoint with host and port |
| ClusterRuns.OwnersOverRun | controllers/agentcluster_controller.go:365-386 | over a run the other owners stay and there is no second own entry |
| ClusterRuns.RefsNeverDangle | controllers/agentcluster_controller.go:260-272 | references name existing ClusterDeployments while creates succeed or report AlreadyExists and nobody deletes one |
| ClusterRuns.DanglingStays | controllers/agentcluster_controller.go:352-361 | a dangling reference to the own key is never repaired, and the AgentCluster never ready |
| ClusterRuns.NoSharing | controllers/agentcluster_controller.go:274-290 | with distinct names each AgentCluster has the ClusterDeployment of its own key |
| ClusterRuns.NameClashShares | controllers/agentcluster_controller.go:368-373 | what one AgentCluster adopted counts as adopted by its namesake elsewhere |
| AgentClusterController.Namesakes | controllers/agentcluster_controller.go:260-290 | two reconciles of AgentClusters of one name in two namespaces, without a failed call, end with both referencing the same ClusterDeployment |
| AgentClusterController.AgentClusterReconciler.EnsureOwned | controllers/agentcluster_controller.go:367-386 | ends adopted; fails without a failed call exactly across namespaces when not already adopted |
| AgentClusterController.AgentClusterReconciler.OwnersWithout | controllers/agentcluster_controller.go:503-509 | the loop drops exactly the entries equal in all four fields |
| AgentClusterController.AgentClusterReconciler.Orphan | controllers/agentcluster_controller.go:487-517 | ends not owned exactly when the entries agreed |
| AgentClusterController.AgentClusterReconciler.FindClusterDeployment | controllers/agentcluster_controller.go:274-290 | finds one labelled with the name in any namespace, or there is none |
| AgentClusterController.AgentClusterReconciler.FindClusterOwner | controllers/agentcluster_controller.go:175-191 | whether an owner of kind Cluster in one of the two API versions exists |
| AgentClusterController.AgentClusterReconciler.Create | controllers/agentcluster_controller.go:342-363 | the cluster ID is the UID of the first owner, the install is named after the AgentCluster, the control plane is what was read; the reference is set to the own key also when the create call is lost |
| AgentClusterController.AgentClusterReconciler.FindOrCreate | controllers/agentcluster_controller.go:260-272 | a labelled ClusterDeployment is taken if there is one, else one is created if the control plane is there |
| AgentClusterController.AgentClusterReconciler.EnsureInstall | controllers/agentcluster_controller.go:388-439 | an install exists under the key and an existing one stays; a new one refers back to the ClusterDeployment and has the rewritten ignition URL, unless it is empty, with the same CA certificate |
| AgentClusterController.AgentClusterReconciler.Settle | controllers/agentcluster_controller.go:132-158 | with a reference: adopted, installed, ready exactly if it was or the endpoint is valid; unchanged if missing or foreign |
| AgentClusterController.AgentClusterReconciler.Process | controllers/agentcluster_controller.go:104-158 | what each kind of reconcile does to the store and the object |
| AgentClusterController.AgentClusterReconciler.Reconcile | controllers/agentcluster_controller.go:78-159 | every reconcile, whatever fails, is one step of a run; without a failed call its result is decided by the state, and the parts of a ClusterDeployment and an install that it makes are those of the AgentCluster |
| IgnitionEndpoint.NormalizeOfParts | controllers/ignition_endpoint.go:27-70 | a URL with a port is changed exactly when brackets are needed, and only by them |
| IgnitionEndpoint.NormalizeChangesIff | controllers/ignition_endpoint.go:27-70 | any URL changes exactly when it has parts that need brackets, and then by one pair around the host |
| IgnitionEndpoint.NormalizeIdempotent | controllers/ignition_endpoint.go:27-70 | rewriting twice is rewriting once, for every string and library |
| IgnitionEndpoint.SplitOfRecompose | controllers/ignition_endpoint.go:77-84 | splitting a printed URL gives back its components |
| IgnitionEndpoint.RecomposeOfSplit | controllers/ignition_endpoint.go:77-84 | printing the components of a URL gives it back with its scheme in lower case |
| IgnitionEndpoint.PathCleared | controllers/ignition_endpoint.go:72-85 | scheme, authority, query and fragment are kept and the path is empty |
| IgnitionEndpoint.OtherCases | controllers/ignition_endpoint.go:72-85 | a URL that does not parse or has no scheme is only normalized, a path without authority is cleared, an opaque URL stays |
| IgnitionEndpoint.LowerIsLower | controllers/ignition_endpoint.go:77-84 | the scheme is lowered letter by letter |
| IgnitionEndpoint.ForACIIdempotent | controllers/ignition_endpoint.go:72-85 | rewriting for the install twice is doing it once, on every string |
| NodeProviderID.NodeNameIsHostname | controllers/node_provider_id_controller.go:79-85 | the node name found is the requested hostname if there is one, else that of the inventory |
| NodeProviderID.NodeOfReachable | controllers/node_provider_id_controller.go:77-112 | in every reachable state the provider ID is "agent://" with the name of the Agent, and the node name is the requested hostname the Agent had, else that of the inventory |
| NodeProviderID.ChangesAtMostOnce | controllers/node_provider_id_controller.go:98-110 | over a run the provider ID of a node changes at most once in its life, from empty |
| NodeProviderID.NodeProviderIDReconciler.SetNodeProviderID | controllers/node_provider_id_controller.go:77-112 | which node is read, each error case by what was read, and one write exactly when that node had no provider ID; without a failed call a named node that exists is read and gets it |
| NodeProviderID.NodeProviderIDReconciler.Reconcile | controllers/node_provider_id_controller.go:47-75 | nothing is written unless ready, and a consistent AgentMachine never panics |

## Left out

- Reconcile of AgentMachines: condition messages, timestamps and the order of the condition list; requeue delays are a flag.
- Reconcile of AgentMachines: the lookups of Cluster and AgentCluster and the outcome of storing the token secret are inputs; backup and secret labels are not modelled.
- Reconcile of AgentMachines: nil and empty maps are the same, and a write that changes nothing still takes a new version.
- Pausing: a paused AgentMachine that is deleted leaves its Agent bound by design; the proofs about giving back an Agent exclude it.
- mapMachineToAgentMachine: a second list filter that would add nothing.
- Reconcile of AgentClusters: others act between reconciles, not between the calls of one; the control plane read is an input, and the object's own type fields are those of the scheme.
- IgnitionEndpoint.PathCleared: components print as they were read, because escaping inside the library is not modelled.
- IgnitionEndpoint.ForACIIdempotent: supposes that the parser accepts what it printed, because acceptance is a parameter.
- NodeProviderID: the remote client is a store of nodes; how it is obtained is not modelled.
- Hub: ignition JSON, kubeconfigs and unstructured control planes are taken as decoded records.
- Managers, watches, flags, generated code and version conversion.
