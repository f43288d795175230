/** `DataReplicaSet::reconcile`: one pass as a machine that makes one API call per step, so
    that a pass can stop, and others can act, between any two calls; and the pass as the
    program runs it, which is proved to be that machine. */
module ReplicaSetController {
  import opened ApiServer
  import opened Cluster
  import opened Selectors
  import opened Text
  import opened VolumeContext
  import opened Wrappers

  /** A replica made by this pass. */
  datatype Replica = Replica(dataPod: DataPod, claim: Claim)

  /** What a pass that allocates knows: the number of DataPods it counted, the source, the
      nodes it may replicate to, and the replicas it has finished. */
  datatype Job = Job(first: nat, source: DataPod, sourceNode: DataNode, targets: seq<DataNode>, made: seq<Replica>)

  datatype Outcome =
    | Initialized         // the status was already there
    | InSync              // as many DataPods as wanted
    | Surplus             // more than wanted: nothing is done about it
    | Scaled(pod: Pod)
    | Failed(error: Error)

  /** Where a pass is: the call it makes next. */
  datatype Phase =
    | ListingPods
    | GettingSource(first: nat)
    | GettingSourceNode(first: nat, source: DataPod)
    | ListingOthers(first: nat, source: DataPod, sourceNode: DataNode)
    | CreatingDataPod(index: nat, nodes: seq<DataNode>, job: Job)
    | CreatingClaim(index: nat, nodes: seq<DataNode>, node: DataNode, dataPod: DataPod, job: Job)
    | CreatingSourceClaim(job: Job)
    | CreatingPod(sourceClaim: Claim, job: Job)
    | Finished(outcome: Outcome)

  /** The objects a pass creates. */
  function ReplicaDataPod(rs: ReplicaSet, index: nat, node: DataNode, namespace: string, uid: string): DataPod {
    DataPod(
      ReplicaName(rs.uid, index),
      uid,
      map[],
      [OwnerRef(ReplicaSetKind, rs.name, rs.uid)],
      None,
      DataPodSpec(Some(ReplicaPath(index)), Some(Ref(node.name, Some(namespace))), None, None))
  }

  /** What a replica DataPod has to be, field by field. */
  predicate IsReplicaOf(rs: ReplicaSet, index: nat, node: DataNode, namespace: string, d: DataPod) {
    && d.name == ReplicaName(rs.uid, index)
    && d.labels == map[]
    && d.heldOwners == [OwnerRef(ReplicaSetKind, rs.name, rs.uid)] && d.appliedOwner == None
    && d.spec.path == Some(ReplicaPath(index))
    && d.spec.nodeRef == Some(Ref(node.name, Some(namespace)))
    && d.spec.nodeSelector == None && d.spec.request == None
  }

  /** What a claim of the driver has to ask for: this DataPod on this node, read-write through
      FUSE. */
  predicate ClaimAsks(c: Claim, node: string, dataPod: string, namespace: string) {
    c.annotations == Annotations(DataMount(node, namespace, dataPod, namespace, FuseReadWrite))
  }

  function ClaimName(rs: ReplicaSet, suffix: string): string {
    "pvc-" + rs.uid + "-" + suffix
  }

  function SyncMount(d: DataPod, node: DataNode, namespace: string): DataMount {
    DataMount(node.name, namespace, d.name, namespace, FuseReadWrite)
  }

  function ReplicaClaim(rs: ReplicaSet, d: DataPod, node: DataNode, namespace: string, g: Grant): Claim {
    Claim(ClaimName(rs, g.suffix), namespace, g.uid, Annotations(SyncMount(d, node, namespace)))
  }

  function PodName(rs: ReplicaSet, suffix: string): string {
    rs.name + "-" + suffix
  }

  function PathOf(d: DataPod): string {
    match d.spec.path
    case Some(p) => p
    case None => ""
  }

  function ReplicaPaths(made: seq<Replica>): (paths: seq<string>)
    ensures |paths| == |made|
    ensures forall i | 0 <= i < |made| :: paths[i] == PathOf(made[i].dataPod)
  {
    seq(|made|, i requires 0 <= i < |made| => PathOf(made[i].dataPod))
  }

  function SyncPodFor(rs: ReplicaSet, source: string, sourceClaim: Claim, made: seq<Replica>, suffix: string): (p: Pod)
    ensures p.SyncPod?
  {
    SyncPod(
      PodName(rs, suffix),
      [Volume("source", sourceClaim.name)]
      + seq(|made|, i requires 0 <= i < |made| => Volume(VolumeName(i), made[i].claim.name)),
      [VolumeMount("source", source)]
      + seq(|made|, i requires 0 <= i < |made| => VolumeMount(VolumeName(i), PathOf(made[i].dataPod))),
      source,
      Join(ReplicaPaths(made), ';'))
  }

  /** After the counting call. */
  function AfterCount(rs: ReplicaSet, count: nat): Phase {
    if count == rs.replicas then Finished(InSync)
    else if count < rs.replicas then GettingSource(count)
    else Finished(Surplus)
  }

  /** The head of the allocation loop: go on while an index and a node are left. */
  function LoopHead(rs: ReplicaSet, index: nat, nodes: seq<DataNode>, job: Job): Phase {
    if index < rs.replicas && nodes != [] then CreatingDataPod(index, nodes, job)
    else CreatingSourceClaim(job)
  }

  /** A pass begins without a call: a set that has a status is left alone. */
  function Start(rs: ReplicaSet): Phase {
    if rs.hasStatus then Finished(Initialized) else ListingPods
  }

  function CountCall(rs: ReplicaSet, s: Store): Phase {
    match ListDataPods(s, Print(rs.selector))
    case Ok(names) => AfterCount(rs, |names|)
    case Err(e) => Finished(Failed(e))
  }

  function SourceCall(rs: ReplicaSet, first: nat, s: Store): Phase {
    match GetDataPod(s, rs.sourcePod)
    case Ok(d) => if d.Owners() == [] then Finished(Failed(MissingOwner)) else GettingSourceNode(first, d)
    case Err(e) => Finished(Failed(e))
  }

  function SourceNodeCall(first: nat, source: DataPod, s: Store): Phase {
    if source.Owners() == [] then Finished(Failed(MissingOwner))
    else match GetNode(s, source.Owners()[0].name)
      case Ok(node) => ListingOthers(first, source, node)
      case Err(e) => Finished(Failed(e))
  }

  function OthersCall(rs: ReplicaSet, first: nat, source: DataPod, sourceNode: DataNode, s: Store): Phase {
    var targets := OtherNodes(s.nodes, sourceNode.uid);
    LoopHead(rs, first, targets, Job(first, source, sourceNode, targets, []))
  }

  function DataPodCall(rs: ReplicaSet, index: nat, nodes: seq<DataNode>, job: Job, s: Store, g: Grant): (Phase, Store)
    requires nodes != []
  {
    var node := nodes[|nodes| - 1];
    var d := ReplicaDataPod(rs, index, node, s.namespace, g.uid);
    match CreateDataPod(s, d)
    case Ok(s') => (CreatingClaim(index, nodes[..|nodes| - 1], node, d, job), s')
    case Err(e) => (Finished(Failed(e)), s)
  }

  function ClaimCall(
    rs: ReplicaSet, index: nat, nodes: seq<DataNode>, node: DataNode, d: DataPod, job: Job, s: Store, g: Grant)
    : (Phase, Store)
  {
    var c := ReplicaClaim(rs, d, node, s.namespace, g);
    match CreateClaim(s, c)
    case Ok(s') => (LoopHead(rs, index + 1, nodes, job.(made := job.made + [Replica(d, c)])), s')
    case Err(e) => (Finished(Failed(e)), s)
  }

  function SourceClaimCall(rs: ReplicaSet, job: Job, s: Store, g: Grant): (Phase, Store) {
    var c := ReplicaClaim(rs, job.source, job.sourceNode, s.namespace, g);
    match CreateClaim(s, c)
    case Ok(s') => (if job.source.spec.path.None? then Finished(Failed(MissingPath)) else CreatingPod(c, job), s')
    case Err(e) => (Finished(Failed(e)), s)
  }

  function PodCall(rs: ReplicaSet, sourceClaim: Claim, job: Job, s: Store, g: Grant): (Phase, Store) {
    var p := SyncPodFor(rs, PathOf(job.source), sourceClaim, job.made, g.suffix);
    match CreatePod(s, p)
    case Ok(s') => (Finished(Scaled(p)), s')
    case Err(e) => (Finished(Failed(e)), s)
  }

  /** One API call and the local work up to the next one. */
  function Step(rs: ReplicaSet, ph: Phase, s: Store, g: Grant): (Phase, Store) {
    match ph
    case ListingPods => (CountCall(rs, s), s)
    case GettingSource(first) => (SourceCall(rs, first, s), s)
    case GettingSourceNode(first, source) => (SourceNodeCall(first, source, s), s)
    case ListingOthers(first, source, sourceNode) => (OthersCall(rs, first, source, sourceNode, s), s)
    case CreatingDataPod(index, nodes, job) =>
      if nodes == [] then (CreatingSourceClaim(job), s) else DataPodCall(rs, index, nodes, job, s, g)
    case CreatingClaim(index, nodes, node, d, job) => ClaimCall(rs, index, nodes, node, d, job, s, g)
    case CreatingSourceClaim(job) => SourceClaimCall(rs, job, s, g)
    case CreatingPod(sourceClaim, job) => PodCall(rs, sourceClaim, job, s, g)
    case Finished(_) => (ph, s)
  }

  /** A pass with nothing else going on, for as long as its calls are answered. */
  function Run(rs: ReplicaSet, ph: Phase, s: Store, grants: seq<Grant>): (Phase, Store)
    decreases |grants|
  {
    if ph.Finished? || grants == [] then (ph, s)
    else
      var (ph', s') := Step(rs, ph, s, grants[0]);
      Run(rs, ph', s', grants[1..])
  }

  /** How a run unfolds over its next call. */
  lemma NextCall(rs: ReplicaSet, ph: Phase, s: Store, grants: seq<Grant>)
    requires !ph.Finished?
    ensures grants == [] ==> Run(rs, ph, s, grants) == (ph, s)
    ensures grants != [] ==>
              var (ph', s') := Step(rs, ph, s, grants[0]);
              Run(rs, ph, s, grants) == if ph'.Finished? then (ph', s') else Run(rs, ph', s', grants[1..])
  {
  }

  function Pass(rs: ReplicaSet, s: Store, grants: seq<Grant>): (Phase, Store) {
    Run(rs, Start(rs), s, grants)
  }

  /** A pass whose next call is not answered ends with that call's error. */
  function Verdict(ph: Phase): Outcome {
    if ph.Finished? then ph.outcome else Failed(Unavailable)
  }

  /** What a run of the program ends with, as the machine says it. */
  ghost predicate Ends(rs: ReplicaSet, ph: Phase, s: Store, grants: seq<Grant>, outcome: Outcome, s': Store) {
    var (ph', end) := Run(rs, ph, s, grants);
    outcome == Verdict(ph') && s' == end
  }

  /** `create_replica_data_pod`. */
  method CreateReplicaDataPod(index: nat, rs: ReplicaSet, node: DataNode, api: Server)
    returns (r: Result<DataPod, Error>)
    modifies api
    ensures r.Ok? ==> IsReplicaOf(rs, index, node, old(api.store).namespace, r.value)
    ensures old(api.grants) == [] ==> r == Err(Unavailable) && api.grants == [] && api.store == old(api.store)
    ensures old(api.grants) != [] ==>
              var d := ReplicaDataPod(rs, index, node, old(api.store).namespace, old(api.grants)[0].uid);
              api.grants == old(api.grants)[1..] &&
              match CreateDataPod(old(api.store), d)
              case Ok(s) => api.store == s && r == Ok(d)
              case Err(e) => api.store == old(api.store) && r == Err(e)
  {
    r := api.AddDataPod(ReplicaDataPod(rs, index, node, api.store.namespace, ""));
  }

  /** `create_replica_pvc`. */
  method CreateReplicaClaim(d: DataPod, node: DataNode, rs: ReplicaSet, api: Server) returns (r: Result<Claim, Error>)
    modifies api
    ensures old(api.grants) != [] && r.Ok? ==>
              && r.value.name == "pvc-" + rs.uid + "-" + old(api.grants)[0].suffix
              && r.value.namespace == old(api.store).namespace
              && ClaimAsks(r.value, node.name, d.name, old(api.store).namespace)
    ensures old(api.grants) == [] ==> r == Err(Unavailable) && api.grants == [] && api.store == old(api.store)
    ensures old(api.grants) != [] ==>
              var c := ReplicaClaim(rs, d, node, old(api.store).namespace, old(api.grants)[0]);
              api.grants == old(api.grants)[1..] &&
              match CreateClaim(old(api.store), c)
              case Ok(s) => api.store == s && r == Ok(c)
              case Err(e) => api.store == old(api.store) && r == Err(e)
  {
    var suffix := api.Suffix();
    r := api.AddClaim(ReplicaClaim(rs, d, node, api.store.namespace, Grant("", suffix)));
  }

  /** `create_replica_pod`. */
  method CreateReplicaPod(rs: ReplicaSet, source: string, sourceClaim: Claim, made: seq<Replica>, api: Server)
    returns (r: Result<Pod, Error>)
    modifies api
    ensures old(api.grants) != [] && r.Ok? ==>
              r.value.SyncPod? && r.value.name == rs.name + "-" + old(api.grants)[0].suffix
    ensures old(api.grants) == [] ==> r == Err(Unavailable) && api.grants == [] && api.store == old(api.store)
    ensures old(api.grants) != [] ==>
              var p := SyncPodFor(rs, source, sourceClaim, made, old(api.grants)[0].suffix);
              api.grants == old(api.grants)[1..] &&
              match CreatePod(old(api.store), p)
              case Ok(s) => api.store == s && r == Ok(p)
              case Err(e) => api.store == old(api.store) && r == Err(e)
  {
    var suffix := api.Suffix();
    var volumes := [Volume("source", sourceClaim.name)];
    var mounts := [VolumeMount("source", source)];
    var paths: seq<string> := [];
    ghost var want := SyncPodFor(rs, source, sourceClaim, made, suffix);
    for i := 0 to |made|
      invariant volumes == want.volumes[..i + 1]
      invariant mounts == want.mounts[..i + 1]
      invariant paths == ReplicaPaths(made)[..i]
    {
      var path := PathOf(made[i].dataPod);
      volumes := volumes + [Volume(VolumeName(i), made[i].claim.name)];
      mounts := mounts + [VolumeMount(VolumeName(i), path)];
      paths := paths + [path];
    }
    assert want.volumes[..|made| + 1] == want.volumes && want.mounts[..|made| + 1] == want.mounts;
    assert ReplicaPaths(made)[..|made|] == ReplicaPaths(made);
    r := api.AddPod(SyncPod(PodName(rs, suffix), volumes, mounts, source, Join(paths, ';')));
  }

  /** What is left of a pass leads to `end`. */
  ghost predicate LeadsTo(rs: ReplicaSet, ph: Phase, s: Store, grants: seq<Grant>, end: (Phase, Store)) {
    Run(rs, ph, s, grants) == end
  }

  /** `DataReplicaSet::reconcile`, after the allocation loop: claim the source, start the
      sync Pod. */
  method SyncReplicas(rs: ReplicaSet, job: Job, api: Server) returns (outcome: Outcome)
    modifies api
    ensures Ends(rs, CreatingSourceClaim(job), old(api.store), old(api.grants), outcome, api.store)
  {
    NextCall(rs, CreatingSourceClaim(job), api.store, api.grants);
    var sourceClaim := CreateReplicaClaim(job.source, job.sourceNode, rs, api);
    if sourceClaim.Err? {
      return Failed(sourceClaim.error);
    }
    if job.source.spec.path.None? {
      return Failed(MissingPath);
    }
    NextCall(rs, CreatingPod(sourceClaim.value, job), api.store, api.grants);
    var pod := CreateReplicaPod(rs, job.source.spec.path.value, sourceClaim.value, job.made, api);
    if pod.Err? {
      return Failed(pod.error);
    }
    return Scaled(pod.value);
  }

  /** One turn of the allocation loop: a DataPod on the node that was popped, then its claim. */
  method AllocateReplica(
    rs: ReplicaSet, index: nat, rest: seq<DataNode>, node: DataNode, job: Job, api: Server, ghost end: (Phase, Store))
    returns (r: Result<Replica, Error>)
    requires LeadsTo(rs, CreatingDataPod(index, rest + [node], job), api.store, api.grants, end)
    modifies api
    ensures r.Ok? ==>
              LeadsTo(rs, LoopHead(rs, index + 1, rest, job.(made := job.made + [r.value])), api.store, api.grants, end)
    ensures r.Err? ==> Failed(r.error) == Verdict(end.0) && api.store == end.1
  {
    NextCall(rs, CreatingDataPod(index, rest + [node], job), api.store, api.grants);
    var dataPod := CreateReplicaDataPod(index, rs, node, api);
    if dataPod.Err? {
      return Err(dataPod.error);
    }
    assert (rest + [node])[..|rest|] == rest;
    NextCall(rs, CreatingClaim(index, rest, node, dataPod.value, job), api.store, api.grants);
    var claim := CreateReplicaClaim(dataPod.value, node, rs, api);
    if claim.Err? {
      return Err(claim.error);
    }
    r := Ok(Replica(dataPod.value, claim.value));
  }

  /** `DataReplicaSet::reconcile`, the allocation loop. */
  method AllocateReplicas(
    rs: ReplicaSet, first: nat, source: DataPod, sourceNode: DataNode, nodes: seq<DataNode>, api: Server)
    returns (outcome: Outcome)
    modifies api
    ensures Ends(rs, LoopHead(rs, first, nodes, Job(first, source, sourceNode, nodes, [])),
                 old(api.store), old(api.grants), outcome, api.store)
  {
    var available := nodes;
    var job := Job(first, source, sourceNode, nodes, []);
    ghost var end := Run(rs, LoopHead(rs, first, nodes, job), api.store, api.grants);
    var index := first;
    while index < rs.replicas && available != []
      invariant LeadsTo(rs, LoopHead(rs, index, available, job), api.store, api.grants, end)
    {
      var node := available[|available| - 1];
      assert available[..|available| - 1] + [node] == available;
      available := available[..|available| - 1];
      var replica := AllocateReplica(rs, index, available, node, job, api, end);
      if replica.Err? {
        return Failed(replica.error);
      }
      job := job.(made := job.made + [replica.value]);
      index := index + 1;
    }
    outcome := SyncReplicas(rs, job, api);
  }

  /** `DataReplicaSet::reconcile`, once there are too few DataPods: find the source and the
      nodes to replicate to. */
  method ScaleUp(rs: ReplicaSet, first: nat, api: Server) returns (outcome: Outcome)
    modifies api
    ensures Ends(rs, GettingSource(first), old(api.store), old(api.grants), outcome, api.store)
  {
    NextCall(rs, GettingSource(first), api.store, api.grants);
    var source := api.Get(rs.sourcePod);
    if source.Err? {
      return Failed(source.error);
    }
    if source.value.Owners() == [] {
      return Failed(MissingOwner);
    }
    NextCall(rs, GettingSourceNode(first, source.value), api.store, api.grants);
    var sourceNode := api.Node(source.value.Owners()[0].name);
    if sourceNode.Err? {
      return Failed(sourceNode.error);
    }
    NextCall(rs, ListingOthers(first, source.value, sourceNode.value), api.store, api.grants);
    NoSelectorListsAll(api.store.nodes);
    var nodes := api.Nodes("");
    if nodes.Err? {
      return Failed(nodes.error);
    }
    outcome := AllocateReplicas(
      rs, first, source.value, sourceNode.value, OtherNodes(nodes.value, sourceNode.value.uid), api);
  }

  /** `DataReplicaSet::reconcile`. */
  method Reconcile(rs: ReplicaSet, api: Server) returns (outcome: Outcome)
    modifies api
    ensures Ends(rs, Start(rs), old(api.store), old(api.grants), outcome, api.store)
  {
    if rs.hasStatus {
      return Initialized;
    }
    NextCall(rs, ListingPods, api.store, api.grants);
    var listed := api.List(Print(rs.selector));
    if listed.Err? {
      return Failed(listed.error);
    }
    var count := |listed.value|;
    if count == rs.replicas {
      return InSync;
    } else if count < rs.replicas {
      outcome := ScaleUp(rs, count, api);
    } else {
      return Surplus;
    }
  }
}
