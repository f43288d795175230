# Proofs about KubeDAL

KubeDAL is a Kubernetes CSI driver that mounts OpenDAL data sources and keeps replicas of them.
This project models its two stateful protocols and the code between them, and proves what they
keep over whole runs.

**The reconcilers over one API store.** `ReplicaSetController` and `DataPodController` hold one
pass of each reconciler twice: as the program runs it, a method with its loops against an API
server object, and as a machine that makes one API call per step. The methods are proved to be
the machines. `ReplicaSetPasses`, `ReplicaSetTheorems` and `ReplicaSetConvergence` say what a
pass leaves wherever it stops, what a successful one makes, and where repeated passes lead.
`Reconcilers` interleaves any number of passes of both kinds, call by call, with users who
create, relabel and delete objects and with stale snapshots. `ReconcilersBounds` is about
paths and names of replicas, `ReconcilersRecord` about what passes hold and sync Pods mount, and
both hold whatever names are used again. `ReconcilersNames` follows one name through a run,
`ReconcilersBinding` one binding, `ReconcilersTheorems` says what it all means, and
`ReconcilersProgress` carries convergence over to runs. `ReplicaSetBlocked` has the sets that
passes cannot help, and `ReplicaSetOutcomes` how passes end.
`Selectors` and `Text` are the selector text and the names and lists the passes format. `ApiServer`
and the disk in `MountHelper` stand for what the program calls.

**The registries behind the RPCs.** `VolumeRegistry` is the controller service's map as the RPCs
change it alone, and `VolumeInterleaving` the same RPCs in atomic steps, related to an atomic
registry. `VolumeContext` follows an annotation from the PVC to the mount. `CacheFill` and
`MountHelper` are one mount: the loops that fill a cache, the FUSE handle, the kernel's table.
`NodeService` publishes and unpublishes with them, and `NodeLedger` interleaves those calls and
compares what is tracked with what is mounted.

## Assumptions about the outside

- Object names are unique per kind at any moment, and uids are not empty and differ between replica
  sets.
- A UUID drawn for a volume (RFC 9562, section 5.4) was not drawn before.
- `create` stores and returns what it was sent, with a uid. A forced server-side apply sets the
  fields it names, keeps the others, replaces the owner entry it applied before, and creates the
  object if it is gone. An owner entry with the uid of one that is already there adds nothing.
- Selectors and labels are read as Kubernetes reads them: the words, signs and white space, the
  operators `=`, `==`, `!=`, `<`, `>`, `in`, `notin` and bare or negated keys of its selector parser,
  and its syntax of label keys and values. An invalid key or value makes the call fail.
- Users give DataPods no owner references and do not edit the specification of an existing one. They
  create, relabel and delete at will. The specification of a replica set does not change.
- Only where a theorem asks for it: users delete nothing; or no name is used twice, neither by users,
  who then also leave names of the form `{uid}-replica-{index}` of an existing set alone, nor, because
  random suffixes are fresh, for a PVC of the driver; or one name in question does not come back; or
  users take no name of a replica with an index that its set is too small to have. A pass that
  convergence calls answered has fresh suffixes.
- All objects of the driver are in one namespace. Lists of nodes come in any order, and nodes
  change in any way.
- For the registry: `create_volume` calls of one name do not overlap where a theorem says so.
- For the mounts: calls for one volume do not overlap, a volume is published again only after it
  was unpublished, and volumes have targets of their own. A mount whose unmount was answered with
  an error stays in the kernel.
- For the cache: the stream of a file yields its content, cut anyhow, or a beginning of it and then
  an error; a listing names no path twice and the source does not change, where a theorem says so.

## What turned out to be false

- A create that overlaps another of the same name gets a volume of its own, and the first one's id
  is lost to `delete_volume` (`OverlapHappens`), although the idempotency text at
  `proto/csi.proto:320-335` asks for one volume per name. The text is met exactly as long as no two
  creates of one name overlap between check and insert that can both get past the lookup
  (`CreatesAgree`, `OverlapBreaks`).
- Publishing a tracked volume again mounts it again and forgets the first mount
  (`PublishBalancesIff`), and retrying an unpublish call that failed reports success while the mount
  stays (`RetryHidesTheError`, `ErrorsStay`).
- A selector is read back as something else exactly if it has an invalid label key or value
  (`SelectorRoundTrip`; inputs in `CommaMisleads`, `BlankMisleads` and `BangMisleads`). The resource's
  schema does not refuse these (`src/resource/crd.rs:153-157`).
- Passes bring a replica set to its number of replicas exactly if its selector selects an object
  without labels, no DataPod has the name of a replica that is missing, it has no status, and its
  source is on a node that is not the only one (`ConvergesIff`). Of the selectors made of valid labels
  only the empty one selects such objects (`WhoCountsReplicas`). A set with any other selector never
  counts its own replicas: the first answered pass makes as many as it lacks and there are nodes for,
  and no later one changes the store (`FirstPassIsTheLast`, `StuckForEver`). A set with an empty
  selector never closes a gap: delete a replica other than the last, and it stays one short
  (`DeletionNeverHeals`, `TakenNameBlocks`, `TakenStays`). Without another node each answered pass adds
  a PVC and a Pod for ever (`NodelessPasses`).
- A sync Pod without replicas gets an empty `replicas` variable, which splits into one empty path
  (`PathListRoundTrip`).
- A pass on a snapshot older than the binding can move it (`StaleSnapshotMovesBinding`;
  `KeepsBindingIff` has the exact condition).
- A listed directory in whose place a file already stands is not made, and the mount still succeeds
  (`FillMakesDirs`, `FileInPlaceOfDirectory`).

## Model

| member | source | states |
|---|---|---|
| ReconcilersTheorems.MountPathForever | src/resource/data_pod_controller.rs:57-138 | Cross-controller path stability, mount by mount: in every interleaving of both reconcilers and the users, stale snapshots, failed calls and crashed passes included, from the moment a sync Pod exists each mount path of it equals `spec.path` of the DataPod behind that mount in every later state in which this is there, if the claim's name is not used again and the DataPod's, after a deletion, only by a DataPod with an owner and the same path. |
| ReconcilersTheorems.SyncPathsForever | src/resource/data_pod_controller.rs:57-138 | So for all mounts of all sync Pods at once, in every run in which users delete nothing or no name is used twice. |
| ReconcilersTheorems.NothingReturns | src/resource/data_replica_set_controller.rs:51-185 | If users delete nothing, no name is ever used again. |
| ReconcilersTheorems.FreshNamesReturnAlike | src/resource/data_replica_set_controller.rs:231-248 | If users use no name twice and leave replica names alone, and suffixes are fresh, a replica that is made again is so with its old path, and no claim is. |
| ReconcilersTheorems.UnreservedReturns | src/resource/data_pod_controller.rs:136-138 | A name that is no replica's and that users do not use again comes back, if at all, by a patch. |
| ReconcilersBounds.OwnedPathsAreGood | src/resource/data_pod_controller.rs:57-72 | In every reachable state, with names reused and suffixes clashing as they may, a DataPod with an owner reference has a path that is neither missing, empty nor "/". |
| ReconcilersTheorems.SyncPodsAreBacked | src/resource/data_replica_set_controller.rs:114-155 | Referential integrity across files: in every run without deletions by users, every volume of every sync Pod names an existing PVC, creating and publishing that PVC's volume parses back an existing DataPod, read-write through FUSE, and its path is the one the Pod mounts. |
| ReconcilersBounds.ReplicaBound | src/resource/data_replica_set_controller.rs:116-121 | In every reachable state, with names reused and suffixes clashing as they may, a replica set has at most `replicas` live replica DataPods, all with indices below `replicas`, and no DataPod is a replica of two sets, as long as users name no DataPod like a replica with a higher index. |
| ReconcilersBounds.StepKeepsSound | src/resource/data_pod_controller.rs:57-138 | Every action keeps every version of a DataPod ever seen sound: a uid, and a good path once there is an owner. |
| ReconcilersBounds.StepKeepsBound | src/resource/data_replica_set_controller.rs:114-134 | Every action keeps the indices of replicas in bounds. |
| ReconcilersBinding.BindingSticks | src/resource/data_pod_controller.rs:75-138 | Sticky binding in every interleaving: once a DataPod that is no replica is bound and no pass under way leads elsewhere, it keeps its node's name for as long as it is there, whatever other passes and users do, if its own passes start from the version stored when they start. |
| ReconcilersTheorems.PassesConfluent | src/resource/data_pod_controller.rs:54-138 | However many passes ran, in whatever order and on whatever snapshots, and whatever becomes of other names, a patched DataPod that was created with a node reference has the specification that one pass gives it, if after a deletion its name comes back, if at all, by a patch. |
| ReconcilersTheorems.OnePassSpec | src/resource/data_pod_controller.rs:54-138 | One pass alone on a DataPod with a node reference either gives it that specification, told field by field with the path as created or "/" and the uid, or leaves the store as it was. |
| ReconcilersTheorems.PatchedPath | src/resource/data_pod_controller.rs:57-72 | In every run the path of a patched DataPod is the one it was created with, or "/" and the uid it was created with if it had none. |
| ReconcilersTheorems.GeneratedPathsDiffer | src/resource/data_pod_controller.rs:57-72 | So DataPods created without a path share no directory once patched. |
| ReconcilersTheorems.PassesDeleteNothing | src/resource/data_replica_set_controller.rs:51-185 | Every call of a pass of either kind leaves all DataPods and PVCs where they are. |
| ReconcilersRecord.RunIsRecorded | src/resource/controller.rs:72-91 | In every state of every run of the concurrent controllers, whatever names are used again, passes hold only DataPods and claims that were stored, claims of passes ask for their DataPods, and every mount of a sync Pod was made for an owned DataPod at its path. |
| ReconcilersRecord.StepKeepsRecord | src/resource/controller.rs:72-91 | Every API call of either reconciler and every action of a user keeps that. |
| ReconcilersNames.StepKeepsName | src/resource/data_pod_controller.rs:57-138 | Every action keeps all versions of a name settled on the path of the first, and the stored one owned once one was, if the name does not come back otherwise. |
| ReconcilersNames.StepKeepsSpec | src/resource/data_pod_controller.rs:54-138 | Every action keeps all versions of a name at the first specification or the final one. |
| ReconcilersNames.PatchSettles | src/resource/data_pod_controller.rs:111-138 | A patch made from any two versions of a DataPod with a node reference, however old, gives it the final specification. |
| Reconcilers.PassIsDriven | src/resource/data_replica_set_controller.rs:51-185 | Stepping one replica set pass of the interleaved system with nothing in between gives the phase and the store of the pass the program runs. |
| Reconcilers.PodPassIsDriven | src/resource/data_pod_controller.rs:44-165 | The same for a DataPod pass. |
| ReconcilersProgress.ProgressAmidPatches | src/resource/data_replica_set_controller.rs:74-155 | Convergence amid the other controller: passes of a set, one after the other in a run in which DataPod passes patch whatever they make in between, users delete nothing and the source stays as it is, make the progress they make alone. |
| ReconcilersProgress.PassAmidPatches | src/resource/data_replica_set_controller.rs:51-185 | One such pass gets the answers it would get alone and leaves a store that differs only in specifications and owners of DataPods. |
| ReconcilersProgress.SettledSourceStays | src/resource/data_pod_controller.rs:111-138 | A source that is bound and settled is not changed by patches that repeat what is stored. |
| ReplicaSetController.Reconcile | src/resource/data_replica_set_controller.rs:51-185 | The program's pass ends with the outcome and the store of the call-by-call machine that the run theorems interleave, for every store and every place at which answers stop. |
| ReplicaSetController.ScaleUp | src/resource/data_replica_set_controller.rs:85-111 | The same from the lookup of the source on: owner reference, its node, and all nodes with another uid. |
| ReplicaSetController.AllocateReplicas | src/resource/data_replica_set_controller.rs:114-134 | The allocation loop, popping nodes and pushing finished replicas, ends as the machine does from its loop head. |
| ReplicaSetController.AllocateReplica | src/resource/data_replica_set_controller.rs:117-131 | One turn of the loop: DataPod and PVC on the popped node, then the machine is at the next loop head; or the turn's error ends the pass. |
| ReplicaSetController.SyncReplicas | src/resource/data_replica_set_controller.rs:136-155 | Source PVC, path check and sync Pod, ending as the machine does. |
| ReplicaSetController.CreateReplicaDataPod | src/resource/data_replica_set_controller.rs:210-253 | Creates a DataPod under the replica's name with its path, a reference to this node, this set as owner, no labels and no selector, or answers with an error and leaves the store as it was. |
| ReplicaSetController.CreateReplicaClaim | src/resource/data_replica_set_controller.rs:255-335 | Creates a PVC `pvc-<uid>-<suffix>` in the set's namespace that asks for this DataPod on this node, read-write through FUSE, or changes nothing. |
| ReplicaSetController.CreateReplicaPod | src/resource/data_replica_set_controller.rs:337-451 | The loop that pushes volumes, mounts and paths builds the sync Pod the specification describes, under the name `<set>-<suffix>`, and creates it or changes nothing. |
| ReplicaSetTheorems.OnePassAllocation | src/resource/data_replica_set_controller.rs:106-155 | A successful pass that counted n makes exactly k = min(replicas - n, other nodes) DataPods with indices n to n+k-1, k+1 PVCs and one Pod, and changes nothing else; the DataPod of replica n+j refers to the j-th node from the end of the filtered list, has the replica set as owner and no label; so with unique nodes no two of them refer to one node, and none to the source's. |
| ReplicaSetTheorems.AbortShape | src/resource/data_replica_set_controller.rs:114-155 | Wherever a pass stops, the store is the old one plus complete (DataPod, PVC) pairs for a contiguous range of indices, plus at most one DataPod without its PVC, or the source PVC, or that and the sync Pod, the last exactly when the pass succeeded. |
| ReplicaSetPasses.RunKeepsShape | src/resource/data_replica_set_controller.rs:51-185 | From any phase of a pass that knows its shape, any further run keeps the shape. |
| ReplicaSetPasses.StepKeepsShape | src/resource/data_replica_set_controller.rs:51-185 | Each single call keeps it. |
| ReplicaSetTheorems.PassStartsSyncPod | src/resource/data_replica_set_controller.rs:136-155 | The Pod a successful pass returns is new and in the store, and mounts the source and exactly the replicas of this pass: each volume claims a stored PVC that is published as that replica on its node, read-write through FUSE, at the path of the stored DataPod. |
| ReplicaSetOutcomes.AnsweredOutcome | src/resource/data_replica_set_controller.rs:51-185 | How every answered pass ends: a status, an invalid selector, as many DataPods or more, a missing source, owner or node, a taken name, a missing path or success, each exactly when the store says so. |
| ReplicaSetOutcomes.LoopOutcome | src/resource/data_replica_set_controller.rs:116-134 | The allocation loop ends with the first taken name among those it has indices and nodes for, and goes through if there is none. |
| ReplicaSetTheorems.SyncPodAssembly | src/resource/data_replica_set_controller.rs:366-427 | Volumes and mounts are equally many and pair up under pairwise distinct names; volume j+1 claims replica j's PVC and is mounted at replica j's path; replica paths differ; splitting `replicas` gives the paths back in order exactly when there is a replica. |
| ReplicaSetTheorems.PathListRoundTrip | src/resource/data_replica_set_controller.rs:422-426 | The `;`-joined list reads back as the paths, and as one empty path when there are none. |
| ReplicaSetTheorems.CountUnmoved | src/resource/data_replica_set_controller.rs:231-248 | If the selector selects nothing without labels, no pass, successful or not, changes the number of DataPods it counts. |
| ReplicaSetTheorems.CountRaisedIff | src/resource/data_replica_set_controller.rs:74-134 | A successful pass raises that number exactly if the selector selects an object without labels and there is another node, and then by min(replicas - n, other nodes). |
| ReplicaSetTheorems.WhoCountsReplicas | src/resource/data_replica_set_controller.rs:64-76 | Of the selectors made of valid labels only the empty one counts replicas; one that is not does, too. |
| ReplicaSetTheorems.StuckPass | src/resource/data_replica_set_controller.rs:74-134 | Once the DataPod with the next index exists and there is another node, a pass never completes and adds nothing. |
| ReplicaSetTheorems.NodelessPass | src/resource/data_replica_set_controller.rs:106-155 | With no other node each successful pass adds exactly one source PVC and one Pod and no DataPod. |
| ReplicaSetBlocked.NodelessPasses | src/resource/data_replica_set_controller.rs:106-155 | So t answered passes of a set that is too small and has no other node add exactly t PVCs and t Pods, and no DataPod, for every t. |
| ReplicaSetConvergence.ConvergesIff | src/resource/data_replica_set_controller.rs:74-134 | Enough answered passes bring a set that is too small to its number of replicas if and only if its selector selects an object without labels, no DataPod has the name of a replica that is missing, it has no status, and its source is on a node that is not the only one. |
| ReplicaSetConvergence.TakenStays | src/resource/data_replica_set_controller.rs:116-121 | If the name of a missing replica is taken, the count never gets past its index, whatever becomes of the passes. |
| ReplicaSetConvergence.UnsitedStays | src/resource/data_replica_set_controller.rs:88-111 | A set with a status, or with its source on no node or on the only one, never changes its count. |
| ReplicaSetBlocked.TakenNameBlocks | src/resource/data_replica_set_controller.rs:116-121 | A concrete set with an empty selector, a free node and a gap in its replicas that no pass ever changes. |
| ReplicaSetBlocked.DeletionNeverHeals | src/resource/data_replica_set_controller.rs:116-121 | A complete set from which a replica other than the last is deleted stays one short for ever. |
| ReplicaSetConvergence.Converges | src/resource/data_replica_set_controller.rs:74-134 | With such a selector, the empty one for instance, and m other nodes, answered passes reach exactly `replicas` DataPods in exactly ceil((replicas - n0)/m) passes, and every later pass leaves the store unchanged. |
| ReplicaSetConvergence.ConvergesAnyhow | src/resource/data_replica_set_controller.rs:74-155 | The same with any failed and crashed passes in between: once as many are answered, the set is complete and no later pass changes the store. |
| ReplicaSetConvergence.ProgressAnyhow | src/resource/data_replica_set_controller.rs:74-155 | With any failed and crashed passes in between, the set stays ready, never has too many DataPods, and has at least min(replicas, n0 + t*m) after t answered ones. |
| ReplicaSetConvergence.AnyPass | src/resource/data_replica_set_controller.rs:114-155 | A pass that stops anywhere leaves such a set ready for the next, takes nothing away and makes none too many. |
| ReplicaSetConvergence.Progress | src/resource/data_replica_set_controller.rs:74-134 | After t answered passes there are exactly min(replicas, n0 + t*m) DataPods. |
| ReplicaSetConvergence.PassAllocates | src/resource/data_replica_set_controller.rs:85-155 | A pass on a set that is too small makes the replicas it has indices and nodes for, if its calls are answered and its suffixes are fresh, and then succeeds exactly if the source has a path. |
| ReplicaSetConvergence.PassAdds | src/resource/data_replica_set_controller.rs:114-155 | Any pass, wherever it stops, adds the next replicas in some number within `replicas`, and changes no other DataPod. |
| ReplicaSetConvergence.AnsweredPass | src/resource/data_replica_set_controller.rs:74-134 | A pass that is answered adds m replicas or as many as are missing. |
| ReplicaSetConvergence.InSyncPass | src/resource/data_replica_set_controller.rs:79-84 | A pass that counts as many as wanted changes nothing. |
| ReplicaSetConvergence.NeverDuplicates | src/resource/data_replica_set_controller.rs:80-155 | Once the next index exists, no number of passes adds anything, whatever becomes of their calls. |
| ReplicaSetConvergence.StuckForEver | src/resource/data_replica_set_controller.rs:80-155 | If the selector selects nothing without labels, no pass changes the store after one that has made a DataPod. |
| ReplicaSetConvergence.FirstPassIsTheLast | src/resource/data_replica_set_controller.rs:80-155 | So the first answered pass of a set that is too small makes its replicas, leaves it too small, and is the last to change anything. |
| DataPodController.ReconcileDataPod | src/resource/data_pod_controller.rs:44-165 | The program's pass ends with the outcome and the store of the call-by-call machine, whose patches are told by `PatchMeaning`. |
| DataPodController.FindDataNode | src/resource/data_pod_controller.rs:75-101 | One call answers with the node the snapshot names or the first its selector lists, or with the error. |
| DataPodController.PatchMeaning | src/resource/data_pod_controller.rs:57-138 | After a pass that patched, the stored path is the snapshot's, or "/" and the snapshot's uid if that is missing, empty or "/"; node reference and applied owner are the node found; selector, request, labels, uid and other owners are the stored DataPod's; no other DataPod changed. |
| DataPodController.PassEffect | src/resource/data_pod_controller.rs:44-165 | A pass changes nothing unless all three calls are answered and the node is found; then it applies the snapshot's path and that node to the stored object, whatever the stored object said. |
| DataPodController.LocateMeaning | src/resource/data_pod_controller.rs:75-101 | The node found is the one referred to, or without a reference the first in the list that the selector selects; and it fails, with which error, exactly when there is none. |
| DataPodController.PodOutcomeMeaning | src/resource/data_pod_controller.rs:44-165 | An answered pass patches, or fails as the fetch or the lookup of the node does. |
| DataPodController.KeepsBindingIff | src/resource/data_pod_controller.rs:75-138 | A pass that patches keeps a binding if and only if its snapshot refers to that node or, without a reference, its selector selects that node first now. |
| DataPodController.StickyBinding | src/resource/data_pod_controller.rs:75-138 | One pass after the other on the latest object keeps a bound DataPod's node name, whatever becomes of the nodes between them. |
| DataPodController.RoundKeepsBinding | src/resource/data_pod_controller.rs:75-138 | And a pass after the node is gone fails without changing the DataPod. |
| DataPodController.StaleSnapshotMovesBinding | src/resource/data_pod_controller.rs:81-95 | A concrete stale snapshot whose pass moves the binding to another node. |
| Text.ReplicaNamesDistinct | src/resource/data_replica_set_controller.rs:233-233 | `{uid}-replica-{index}` determines the uid and the index, for any uids at all. |
| Text.NamesReadBack | src/resource/data_replica_set_controller.rs:233-239 | Names, paths and volume names are a fixed text and the index in decimal digits, which read back. |
| Text.DecimalReadsBack | src/resource/data_replica_set_controller.rs:233-239 | Decimal printing reads back, hence is injective. |
| Text.VolumeNamesDistinct | src/resource/data_replica_set_controller.rs:394-403 | `replica-{i}` determines i. |
| Text.ReplicaPathsDistinct | src/resource/data_replica_set_controller.rs:239-239 | `/replica-{index}` determines the index. |
| Text.SplitUndoesJoin | src/resource/data_replica_set_controller.rs:425-425 | Cutting a joined list at its separator gives the fields back, if none of them holds it. |
| Selectors.SelectorRoundTrip | src/resource/data_replica_set_controller.rs:64-71 | The printed selector is read back as the same requirements if and only if every key is a valid label key and every value a valid label value. |
| Selectors.SelectorMeaning | src/resource/data_replica_set_controller.rs:64-76 | Such a selector then selects exactly the objects that carry all of its labels; the empty one selects everything. |
| Selectors.SelectorPrintInjective | src/resource/data_pod_controller.rs:84-88 | Such selectors print alike only if they are equal. |
| Selectors.CommaMisleads | src/resource/data_replica_set_controller.rs:64-71 | A concrete pair of different selectors that print alike. |
| Selectors.BangMisleads | src/resource/data_replica_set_controller.rs:64-76 | A concrete selector that selects an object without labels. |
| Selectors.BlankMisleads | src/resource/data_replica_set_controller.rs:64-76 | A concrete selector that selects an object which does not carry it. |
| Cluster.NoSelectorListsAll | src/resource/data_replica_set_controller.rs:106-108 | A list call without a selector returns every node in order. |
| Cluster.OtherNodesUnique | src/resource/data_replica_set_controller.rs:110-111 | The filtered list still holds no node twice. |
| Cluster.OtherNodesInOrder | src/resource/data_replica_set_controller.rs:106-111 | And keeps the order of the list. |
| Cluster.ApplyDataPod | src/resource/data_pod_controller.rs:113-138 | The forced apply creates or changes the one DataPod it names, and nothing else in the store. |
| VolumeInterleaving.RunRefines | src/services/controller.rs:85-163 | Every run in which no two creates of one name overlap that can both get past the lookup refines, step by step, an atomic registry in which a create returns the existing volume or inserts one fresh volume. |
| VolumeInterleaving.StepRefines | src/services/controller.rs:85-163 | Every step of the service is one step of that registry or none. |
| VolumeInterleaving.CreatesAgree | src/services/controller.rs:85-133 | In such runs all creates of a name between deletes answered with the same record. |
| VolumeInterleaving.OverlapBreaks | src/services/controller.rs:85-133 | Every run in which two such creates overlap can go on to answer them with different volumes and lose the first: the condition above is exact. |
| VolumeInterleaving.OverlapHappens | src/services/controller.rs:85-133 | For every request that can get past the lookup there is such a run from the start of the service. |
| VolumeInterleaving.ResolvableIff | src/services/controller.rs:96-103 | A request gets past the lookup for some PVCs exactly if it names a namespace and its name begins with `pvc-`. |
| VolumeInterleaving.IdLedger | src/services/controller.rs:115-163 | Under every interleaving live names have pairwise distinct ids, and every id ever inserted is in exactly one of live, deleted and overwritten. |
| VolumeInterleaving.StepKeepsLedger | src/services/controller.rs:115-163 | Every step keeps that ledger. |
| VolumeInterleaving.NothingOverwritten | src/services/controller.rs:128-129 | Without overlapping creates of one name nothing is ever overwritten, and no pending create's name is in the map. |
| VolumeInterleaving.StepsAreCreate | src/services/controller.rs:74-134 | The four steps of a create call, one after the other, answer and store what the call alone does. |
| VolumeRegistry.FirstMatchIsEveryMatch | src/services/controller.rs:155-163 | Removing whichever entry the search meets first removes every entry with the id and keeps all others. |
| VolumeRegistry.DeleteIsIdempotent | src/services/controller.rs:153-163 | Deleting again changes nothing, and other ids are untouched. |
| VolumeRegistry.CreateIsIdempotent | src/services/controller.rs:85-94 | A repeated create answers with the same volume and changes nothing, whatever has become of the PVC. |
| VolumeRegistry.CreatedMeaning | src/services/controller.rs:74-134 | What a create answers and stores in every case: the id from the uuid, the requested capacity or 5 GiB, and the context of a listed claim that the volume is named after. |
| VolumeRegistry.ResolveMeaning | src/services/controller.rs:96-103 | The lookup succeeds exactly if there is such a claim with the three annotations, and fails with an error that says which part is missing. |
| VolumeRegistry.ControllerService.CreateVolume | src/services/controller.rs:74-134 | The answer and the new map are those of the specification, error order included, and ids stay distinct. |
| VolumeRegistry.ControllerService.DeleteVolume | src/services/controller.rs:137-166 | A search in any order removes every entry with the id and nothing else. |
| VolumeRegistry.ControllerService.ListVolumes | src/services/controller.rs:203-221 | Every volume is listed, each name's once, and nothing else. |
| VolumeContext.FirstWithUid | src/services/controller.rs:307-319 | The claim found has the uid; none is found only if none has it. |
| VolumeContext.AnnotationRoundTrip | src/services/controller.rs:291-382 | Creating `pvc-<uid>` selects the annotated PVC, and the context, under kubelet's extra keys, parses back to the same names, namespaces and access. |
| NodeService.ClaimIsMounted | src/services/node.rs:107-137 | Across both services, for any PVC with the three annotations: its volume is created and stored, and publishing it looks up the annotated node and DataPod, in the PVC's namespace where no other is annotated, and attaches at the target as the annotated text says, or nothing if that is unknown. |
| NodeService.AnnotatedMountIsMade | src/services/node.rs:107-137 | The same for a PVC annotated by the driver, from the access mode it was annotated with. |
| NodeService.WantedMeaning | src/services/node.rs:91-132 | What a publish call is to mount and how it is refused, from the texts of its context. |
| VolumeContext.ContextMeaning | src/services/controller.rs:326-409 | For any PVC the context exists exactly when the three required annotations do, and a publish call finds in it the annotated names, the annotated namespaces or the PVC's own, and the mode that the annotated text says, or refuses a text it does not know. |
| VolumeContext.TextMeaning | src/services/node.rs:258-271 | A text is known exactly if it is one of six, and says cached or FUSE, read-only or not, as it reads; the short forms are read-only. |
| VolumeContext.GetClaim | src/services/controller.rs:291-324 | The claim found is listed and the volume is named after its uid; none is found only if there is none, with an error for a name without prefix and another for a missing claim. |
| VolumeContext.AccessRoundTrip | src/resource/crd.rs:16-25 | Every printed access mode is read back by the publish call, and none is printed in a short form. |
| VolumeContext.PartsMeaning | src/services/node.rs:431-436 | The mode is cached for the two cache modes alone, and the access read-only for the two read-only ones alone. |
| NodeLedger.MountLedger | src/services/node.rs:127-169 | In every run and every state, for every volume without a call in progress, the kernel's mounts are exactly the tracked one plus those whose unmount returned an error. |
| NodeLedger.StepKeepsInv | src/services/node.rs:127-169 | Every step of every call keeps the invariant: a live mount lies on top of the failed unmounts at its target, and nothing else is mounted. |
| NodeLedger.RunKeepsInv | src/services/node.rs:127-169 | It holds in every state of every run. |
| NodeLedger.UnmountTakesOwn | src/services/node.rs:164-167 | An unmount takes exactly its own volume's mount off, finds it there, and is the only one in progress. |
| NodeLedger.ErrorsStay | src/services/node.rs:166-168 | A mount whose unmount failed stays in the kernel through every later call. |
| NodeLedger.RetryHidesTheError | src/services/node.rs:166-171 | The retried unpublish call succeeds and does nothing. |
| NodeLedger.PublishBalancesIff | src/services/node.rs:134-142 | A publish call keeps tracked and mounted in balance if and only if its volume is not tracked yet. |
| NodeLedger.UnmountBalancesIff | src/util/mount_helper.rs:196-204 | An unmount does if and only if the volume's own mount is the topmost at its target. |
| NodeLedger.StepsArePublish | src/services/node.rs:91-145 | The steps of a publish call, one after the other, are the call alone; a failed mount gives the state before it. |
| NodeLedger.StepsAreUnpublish | src/services/node.rs:147-172 | The same for an unpublish call. |
| NodeService.NodeService.NodePublishVolume | src/services/node.rs:91-145 | Succeeds exactly when the request is well formed, nothing refuses, and the mount can be made; then one mount more is in the kernel and tracked, cached or through FUSE and read-only or not as the text of the context says; a failure changes neither, and a refusal not the disk either. |
| NodeService.NodeService.NodeUnpublishVolume | src/services/node.rs:147-172 | An untracked volume is left alone; a tracked one is forgotten in any case and its mount taken off if the kernel lets it, else the call fails. |
| MountHelper.CacheIsTheSource | src/util/mount_helper.rs:108-173 | After a successful cached mount every listed file has the source's bytes and every listed directory is there, other existing paths are unchanged, and a second mount from the same source succeeds and changes nothing. |
| MountHelper.MountLeavesOtherCaches | src/util/mount_helper.rs:108-173 | Whatever a mount of one volume does to the disk, successful or aborted, no path of another volume's cache changes. |
| MountHelper.FreshCacheHoldsListing | src/util/mount_helper.rs:108-173 | After the first cached mount of a volume everything in its cache is a listed file or a directory on the way to a listed directory. |
| CacheFill.FillWritesFiles | src/util/mount_helper.rs:134-153 | A listed file has the source's bytes, whatever comes after it in the listing. |
| CacheFill.FillMakesDirs | src/util/mount_helper.rs:155-168 | A listed directory exists, and is a directory if and only if no file stood there before. |
| MountHelper.FileInPlaceOfDirectory | src/util/mount_helper.rs:155-168 | A tree with a file in the place of a listed directory on which a cached mount succeeds and leaves the file. |
| CacheFill.FillKeepsOthers | src/util/mount_helper.rs:130-173 | What was there and is no listed file is unchanged. |
| CacheFill.FillAddsOnlyListed | src/util/mount_helper.rs:130-173 | What is new is a listed file, or a directory on the way to a listed directory. |
| CacheFill.FillKeepsTree | src/util/mount_helper.rs:130-173 | A fill whose entries succeed leaves a tree in which what is above a path is a directory. |
| CacheFill.FillTwice | src/util/mount_helper.rs:130-173 | Filling again from the same source changes nothing. |
| CacheFill.FillAgainSucceeds | src/util/mount_helper.rs:130-173 | And fails at no entry. |
| MountHelper.Mount.FillFile | src/util/mount_helper.rs:134-152 | The chunk loop writes the whole content for every way of cutting it, or leaves a beginning of it. |
| MountHelper.Mount.FillEntry | src/util/mount_helper.rs:130-172 | One entry is handled to its end, or given up with at most the beginning of its file there; an unknown type is its own error. |
| MountHelper.Mount.FillCache | src/util/mount_helper.rs:130-173 | Either every entry is handled, or the fill stops in the first that fails, with all before it handled. |
| MountHelper.Mount.MountCached | src/util/mount_helper.rs:108-194 | Succeeds exactly when the cache, every entry and the bind mount do; every way to fail is told, and adds no mount. |
| MountHelper.Mount.MountFuse | src/util/mount_helper.rs:83-99 | A success adds one mount and keeps its handle; a failure neither. |
| MountHelper.Mount.Mount | src/util/mount_helper.rs:50-74 | Exact condition of success, one mount more on success, none on failure, and the disk in either case. |
| MountHelper.Mount.Unmount | src/util/mount_helper.rs:76-106 | By target for a cache, by the handle, given up in any case, for FUSE; without a handle it succeeds and does nothing. |

## Left out

- NodeLedger.PublishBalancesIff: only for a tracked mount in cache mode; what dropping the handle of a FUSE session does to its mount is decided by the FUSE library, which is not part of this model.
- NodeService.NodeService.NodePublishVolume: the lookups of the DataNode, the DataPod and the secret, the access reviews, the operator and the kubelet keys whose absence aborts the call are one refusal, with the error of the first that fails.
- MountHelper.Mount.Mount: the target directory is made outside the modelled tree, as a step that succeeds or fails; of the file tree only what lies below the cache matters.
- MountHelper.Mount.MountCached: a volume id is one component of a path; ids with slashes, which `create_volume` does not give out, are not modelled.
- MountHelper.Mount.FillCache: entry paths are given as their components; the text of a path, and absolute or `..` components, are not modelled.
- ReplicaSetController.CreateReplicaPod: the error for a replica without a path, which cannot come up as `create` returns what it stored.
- ReplicaSetController.Reconcile: missing names, uids and namespaces of stored objects, which an API server does not return, and requeue times.
- Cluster.ApplyDataPod: the `status` part of the patch (`generated_path`), whose fate depends on the API server's status subresource.
- ReconcilersProgress.ProgressAmidPatches: one replica set at a time, and a source that its own patches leave as it is; passes of other sets that change the store in between are not covered.
- Reconcilers.PassIsDriven: a call that takes effect but whose answer is lost; a pass stops either before a call or after it and its answer.
- Finalizers, events, watches and requeueing of kube-runtime: a reconciler is a pass that starts at any time on any version of its object that was ever stored.
- DataPodController.ReconcileDataPod: a selector that matches no node is an error that ends the pass; in the program it is a panic, and what that does to the task the controllers share is not modelled.
- `DataNode::reconcile` (`src/resource/data_node_controller.rs`), which writes a status once and nothing the other code reads.
- The CSI message types, `src/main.rs`, `src/crdgen.rs`, `build.rs`, YAML files and tracing.
- `src/util/opendal.rs`, the OpenDAL operators, FUSE sessions and `sys_mount` themselves: steps that succeed or fail.
- `check_access`: calls to an external reviewer, one after the other.
- Unimplemented RPCs, capability lists, capacities and `validate_volume_capabilities`.
- Owner references, storage class, size and access modes of PVCs, and the container image and labels of sync Pods: constants nothing reads.
- The `template` of a replica set, which the code does not read either.
- Distinct nodes across passes, which the code does not promise, and distinctness of the source's mount path from those of the replicas, which a user can choose alike.
- More than one namespace: the namespace in a reference is not used by the reconcilers' own lookups.
- The widths of `u32` and `usize` counters and of the `i64` capacity: numbers are only compared, counted up to `replicas`, and printed.
