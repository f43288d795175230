/** What a pass of the replica set reconciler leaves in the store, wherever it stops. */
module ReplicaSetPasses {
  import opened Cluster
  import opened ReplicaSetController
  import opened Selectors
  import opened VolumeContext
  import opened Wrappers

  /** What a pass may leave behind its finished replicas. */
  datatype Tail =
    | NoTail
    | LoneDataPod(dataPod: DataPod)
    | SourceClaim(claim: Claim)
    | Synced(claim: Claim, suffix: string)

  /** The store with the finished replicas added to it. */
  function WithMade(s: Store, made: seq<Replica>): Store {
    if made == [] then s
    else
      var s' := WithMade(s, made[..|made| - 1]);
      var r := made[|made| - 1];
      s'.(dataPods := s'.dataPods[r.dataPod.name := r.dataPod], claims := s'.claims[r.claim.name := r.claim])
  }

  function Extended(rs: ReplicaSet, s: Store, job: Job, tail: Tail): Store {
    var s' := WithMade(s, job.made);
    match tail
    case NoTail => s'
    case LoneDataPod(d) => s'.(dataPods := s'.dataPods[d.name := d])
    case SourceClaim(c) => s'.(claims := s'.claims[c.name := c])
    case Synced(c, suffix) =>
      var p := SyncPodFor(rs, PathOf(job.source), c, job.made, suffix);
      s'.(claims := s'.claims[c.name := c], pods := s'.pods[p.name := p])
  }

  function Count(rs: ReplicaSet, s: Store): nat {
    |MatchingPods(s, Print(rs.selector))|
  }

  /** The node of the j-th replica: the j-th from the end. */
  function TargetOf(targets: seq<DataNode>, j: nat): DataNode
    requires j < |targets|
  {
    targets[|targets| - 1 - j]
  }

  predicate IsReplicaPod(rs: ReplicaSet, namespace: string, first: nat, targets: seq<DataNode>, j: nat, d: DataPod) {
    && j < |targets| && first + j < rs.replicas
    && IsReplicaOf(rs, first + j, TargetOf(targets, j), namespace, d)
  }

  predicate IsReplica(rs: ReplicaSet, namespace: string, first: nat, targets: seq<DataNode>, j: nat, r: Replica) {
    && IsReplicaPod(rs, namespace, first, targets, j, r.dataPod)
    && ClaimAsks(r.claim, TargetOf(targets, j).name, r.dataPod.name, namespace)
  }

  /** The replicas take consecutive indices and the targets from the end. */
  predicate AreReplicas(rs: ReplicaSet, namespace: string, first: nat, targets: seq<DataNode>, made: seq<Replica>) {
    forall j | 0 <= j < |made| :: IsReplica(rs, namespace, first, targets, j, made[j])
  }

  /** Neither the replicas' names nor their claims' names were taken, and no two are alike. */
  predicate NewNames(s: Store, made: seq<Replica>) {
    && (forall r | r in made :: r.dataPod.name !in s.dataPods && r.claim.name !in s.claims)
    && (forall i, j | 0 <= i < j < |made| :: made[i].claim.name != made[j].claim.name)
  }

  /** The pass counted too few DataPods and found its source and its targets. */
  predicate Located(
    rs: ReplicaSet, s: Store, first: nat, source: DataPod, sourceNode: DataNode, targets: seq<DataNode>)
  {
    && Parse(Print(rs.selector)).Some?
    && first == Count(rs, s) < rs.replicas
    && GetDataPod(s, rs.sourcePod) == Ok(source)
    && source.Owners() != []
    && GetNode(s, source.Owners()[0].name) == Ok(sourceNode)
    && targets == OtherNodes(s.nodes, sourceNode.uid)
  }

  /** What the job knows was so in `s`. */
  predicate Scouted(rs: ReplicaSet, s: Store, job: Job) {
    Located(rs, s, job.first, job.source, job.sourceNode, job.targets)
  }

  /** The loop ended: no index or no node is left. */
  predicate Exhausted(rs: ReplicaSet, job: Job) {
    job.first + |job.made| == rs.replicas || |job.made| == |job.targets|
  }

  ghost predicate TailOk(rs: ReplicaSet, s: Store, job: Job, tail: Tail) {
    match tail
    case NoTail => true
    case LoneDataPod(d) => IsReplicaPod(rs, s.namespace, job.first, job.targets, |job.made|, d) && d.name !in s.dataPods
    case SourceClaim(c) => Exhausted(rs, job) && IsSourceClaim(s, job, c)
    case Synced(c, suffix) =>
      && Exhausted(rs, job)
      && IsSourceClaim(s, job, c)
      && job.source.spec.path.Some?
      && PodName(rs, suffix) !in s.pods
  }

  ghost predicate IsSourceClaim(s: Store, job: Job, c: Claim) {
    && ClaimAsks(c, job.sourceNode.name, job.source.name, s.namespace)
    && c.name !in WithMade(s, job.made).claims
  }

  /** `s'` is `s` plus complete (DataPod, claim) pairs for a contiguous range of indices, plus
      at most one DataPod without its claim, or the source claim, or that and the sync Pod. */
  ghost predicate Shape(rs: ReplicaSet, s: Store, job: Job, tail: Tail, s': Store) {
    && AreReplicas(rs, s.namespace, job.first, job.targets, job.made)
    && NewNames(s, job.made)
    && TailOk(rs, s, job, tail)
    && s' == Extended(rs, s, job, tail)
  }

  /** What is known at each phase of a pass that started in `s0`. */
  ghost predicate AtDataPod(rs: ReplicaSet, s0: Store, index: nat, nodes: seq<DataNode>, job: Job, s: Store) {
    && Shape(rs, s0, job, NoTail, s)
    && index == job.first + |job.made| < rs.replicas
    && Remaining(job, |job.made|, nodes) && nodes != []
  }

  ghost predicate AtClaim(
    rs: ReplicaSet, s0: Store, index: nat, nodes: seq<DataNode>, node: DataNode, d: DataPod, job: Job, s: Store)
  {
    && Shape(rs, s0, job, LoneDataPod(d), s)
    && index == job.first + |job.made|
    && Remaining(job, |job.made|, nodes + [node])
  }

  ghost predicate AtEnd(rs: ReplicaSet, s0: Store, outcome: Outcome, s: Store) {
    match outcome
    case Scaled(pod) =>
      exists job: Job, c: Claim, suffix: string ::
        && Scouted(rs, s0, job) && Shape(rs, s0, job, Synced(c, suffix), s)
        && pod == SyncPodFor(rs, PathOf(job.source), c, job.made, suffix)
    case Failed(_) => AbortedIn(rs, s0, s)
    case _ => s == s0
  }

  /** A pass that did not finish left nothing, or a prefix of its work. */
  ghost predicate AbortedIn(rs: ReplicaSet, s0: Store, s: Store) {
    s == s0 || exists job: Job, tail: Tail :: Scouted(rs, s0, job) && Shape(rs, s0, job, tail, s) && !tail.Synced?
  }

  ghost predicate At(rs: ReplicaSet, s0: Store, ph: Phase, s: Store) {
    match ph
    case ListingPods => s == s0
    case GettingSource(first) => s == s0 && Parse(Print(rs.selector)).Some? && first == Count(rs, s0) < rs.replicas
    case GettingSourceNode(first, source) =>
      && s == s0 && Parse(Print(rs.selector)).Some? && first == Count(rs, s0) < rs.replicas
      && GetDataPod(s0, rs.sourcePod) == Ok(source) && source.Owners() != []
    case ListingOthers(first, source, sourceNode) =>
      s == s0 && Located(rs, s0, first, source, sourceNode, OtherNodes(s0.nodes, sourceNode.uid))
    case CreatingDataPod(index, nodes, job) => Scouted(rs, s0, job) && AtDataPod(rs, s0, index, nodes, job, s)
    case CreatingClaim(index, nodes, node, d, job) =>
      Scouted(rs, s0, job) && AtClaim(rs, s0, index, nodes, node, d, job, s)
    case CreatingSourceClaim(job) => Scouted(rs, s0, job) && Shape(rs, s0, job, NoTail, s) && Exhausted(rs, job)
    case CreatingPod(c, job) =>
      Scouted(rs, s0, job) && Shape(rs, s0, job, SourceClaim(c), s) && job.source.spec.path.Some?
    case Finished(outcome) => AtEnd(rs, s0, outcome, s)
  }

  predicate Remaining(job: Job, used: nat, nodes: seq<DataNode>) {
    used <= |job.targets| && nodes == job.targets[..|job.targets| - used]
  }

  lemma {:induction false} WithMadeOneMore(s: Store, made: seq<Replica>, r: Replica)
    ensures WithMade(s, made + [r]) ==
            var s' := WithMade(s, made);
            s'.(dataPods := s'.dataPods[r.dataPod.name := r.dataPod], claims := s'.claims[r.claim.name := r.claim])
  {
    assert (made + [r])[..|made|] == made;
  }

  /** Finished replicas take nothing away and touch nothing but DataPods and claims. */
  lemma {:induction false} WithMadeGrows(s: Store, made: seq<Replica>)
    ensures s.dataPods.Keys <= WithMade(s, made).dataPods.Keys
    ensures s.claims.Keys <= WithMade(s, made).claims.Keys
    ensures WithMade(s, made) == s.(dataPods := WithMade(s, made).dataPods, claims := WithMade(s, made).claims)
  {
    if made != [] {
      WithMadeGrows(s, made[..|made| - 1]);
    }
  }

  /** The claims of the finished replicas are there. */
  lemma {:induction false} WithMadeHasClaims(s: Store, made: seq<Replica>)
    ensures forall j | 0 <= j < |made| :: made[j].claim.name in WithMade(s, made).claims
  {
    if made != [] {
      var init := made[..|made| - 1];
      WithMadeHasClaims(s, init);
      forall j | 0 <= j < |made| ensures made[j].claim.name in WithMade(s, made).claims {
        assert j < |init| ==> init[j] == made[j];
      }
    }
  }

  lemma OneMoreReplica(
    rs: ReplicaSet, namespace: string, first: nat, targets: seq<DataNode>, made: seq<Replica>, r: Replica)
    requires AreReplicas(rs, namespace, first, targets, made)
    requires IsReplica(rs, namespace, first, targets, |made|, r)
    ensures AreReplicas(rs, namespace, first, targets, made + [r])
  {
  }

  lemma OneMoreName(s: Store, made: seq<Replica>, r: Replica)
    requires NewNames(s, made)
    requires r.dataPod.name !in s.dataPods && r.claim.name !in WithMade(s, made).claims
    ensures NewNames(s, made + [r])
  {
    WithMadeGrows(s, made);
    WithMadeHasClaims(s, made);
  }

  /** A created claim completes the replica. */
  lemma ReplicaCompleted(rs: ReplicaSet, s0: Store, job: Job, d: DataPod, s: Store, c: Claim)
    requires Shape(rs, s0, job, LoneDataPod(d), s)
    requires c.name !in s.claims
    requires ClaimAsks(c, TargetOf(job.targets, |job.made|).name, d.name, s0.namespace)
    ensures Shape(rs, s0, job.(made := job.made + [Replica(d, c)]), NoTail, s.(claims := s.claims[c.name := c]))
  {
    var r := Replica(d, c);
    OneMoreReplica(rs, s0.namespace, job.first, job.targets, job.made, r);
    OneMoreName(s0, job.made, r);
    WithMadeOneMore(s0, job.made, r);
  }

  /** A created DataPod is the lone one of its replica. */
  lemma DataPodAdded(rs: ReplicaSet, s0: Store, job: Job, s: Store, d: DataPod)
    requires Shape(rs, s0, job, NoTail, s)
    requires IsReplicaPod(rs, s0.namespace, job.first, job.targets, |job.made|, d)
    requires d.name !in s.dataPods
    ensures Shape(rs, s0, job, LoneDataPod(d), s.(dataPods := s.dataPods[d.name := d]))
  {
    WithMadeGrows(s0, job.made);
  }

  lemma SourceClaimed(rs: ReplicaSet, s0: Store, job: Job, s: Store, c: Claim)
    requires Shape(rs, s0, job, NoTail, s) && Exhausted(rs, job)
    requires ClaimAsks(c, job.sourceNode.name, job.source.name, s0.namespace)
    requires c.name !in s.claims
    ensures Shape(rs, s0, job, SourceClaim(c), s.(claims := s.claims[c.name := c]))
  {
  }

  lemma PodStarted(rs: ReplicaSet, s0: Store, job: Job, s: Store, c: Claim, suffix: string)
    requires Shape(rs, s0, job, SourceClaim(c), s) && job.source.spec.path.Some?
    requires PodName(rs, suffix) !in s.pods
    ensures var p := SyncPodFor(rs, PathOf(job.source), c, job.made, suffix);
            Shape(rs, s0, job, Synced(c, suffix), s.(pods := s.pods[p.name := p]))
  {
    WithMadeGrows(s0, job.made);
  }

  lemma NamespaceKept(rs: ReplicaSet, s0: Store, job: Job, tail: Tail, s: Store)
    requires Shape(rs, s0, job, tail, s)
    ensures s.namespace == s0.namespace && s.nodes == s0.nodes
  {
    WithMadeGrows(s0, job.made);
  }

  /** The loop goes on, or has used up the indices or the nodes. */
  lemma LoopHeadShape(rs: ReplicaSet, s0: Store, index: nat, nodes: seq<DataNode>, job: Job, s: Store)
    requires Shape(rs, s0, job, NoTail, s)
    requires index == job.first + |job.made| <= rs.replicas
    requires Remaining(job, |job.made|, nodes)
    ensures match LoopHead(rs, index, nodes, job)
            case CreatingDataPod(index', nodes', job') => job' == job && AtDataPod(rs, s0, index', nodes', job, s)
            case CreatingSourceClaim(job') => job' == job && Exhausted(rs, job)
            case _ => false
  {
  }

  /** The next node to use is the next target. */
  lemma NextTarget(job: Job, used: nat, nodes: seq<DataNode>, node: DataNode)
    requires Remaining(job, used, nodes + [node])
    ensures Remaining(job, used + 1, nodes) && used < |job.targets| && node == TargetOf(job.targets, used)
  {
    assert (nodes + [node])[|nodes|] == node;
    assert nodes == (nodes + [node])[..|nodes|] == job.targets[..|nodes|];
  }

  lemma ClaimIndex(
    rs: ReplicaSet, s0: Store, index: nat, nodes: seq<DataNode>, node: DataNode, d: DataPod, job: Job, s: Store)
    requires AtClaim(rs, s0, index, nodes, node, d, job, s)
    ensures index + 1 == job.first + |job.made| + 1 <= rs.replicas
    ensures Remaining(job, |job.made| + 1, nodes)
    ensures |job.made| < |job.targets| && node == TargetOf(job.targets, |job.made|)
  {
    NextTarget(job, |job.made|, nodes, node);
  }

  lemma ClaimCallShape(
    rs: ReplicaSet, s0: Store, index: nat, nodes: seq<DataNode>, node: DataNode, d: DataPod, job: Job, s: Store,
    g: Grant)
    requires Shape(rs, s0, job, LoneDataPod(d), s)
    requires |job.made| < |job.targets| && node == TargetOf(job.targets, |job.made|)
    requires ClaimName(rs, g.suffix) !in s.claims
    ensures var c := ReplicaClaim(rs, d, node, s.namespace, g);
            && ClaimCall(rs, index, nodes, node, d, job, s, g)
               == (LoopHead(rs, index + 1, nodes, job.(made := job.made + [Replica(d, c)])),
                   s.(claims := s.claims[c.name := c]))
            && Shape(rs, s0, job.(made := job.made + [Replica(d, c)]), NoTail, s.(claims := s.claims[c.name := c]))
  {
    NamespaceKept(rs, s0, job, LoneDataPod(d), s);
    ReplicaCompleted(rs, s0, job, d, s, ReplicaClaim(rs, d, node, s.namespace, g));
  }

  lemma DataPodCallShape(rs: ReplicaSet, s0: Store, index: nat, nodes: seq<DataNode>, job: Job, s: Store, g: Grant)
    requires AtDataPod(rs, s0, index, nodes, job, s)
    ensures var (ph', s') := DataPodCall(rs, index, nodes, job, s, g);
            match ph'
            case CreatingClaim(index', nodes', node, d, job') =>
              job' == job && AtClaim(rs, s0, index', nodes', node, d, job, s')
            case Finished(Failed(_)) => s' == s
            case _ => false
  {
    NamespaceKept(rs, s0, job, NoTail, s);
    var node := nodes[|nodes| - 1];
    var d := ReplicaDataPod(rs, index, node, s.namespace, g.uid);
    assert node == TargetOf(job.targets, |job.made|);
    if d.name !in s.dataPods {
      DataPodAdded(rs, s0, job, s, d);
      assert nodes[..|nodes| - 1] + [node] == nodes;
    }
  }

  lemma SourceClaimCallShape(rs: ReplicaSet, s0: Store, job: Job, s: Store, g: Grant)
    requires Shape(rs, s0, job, NoTail, s) && Exhausted(rs, job)
    ensures var (ph', s') := SourceClaimCall(rs, job, s, g);
            match ph'
            case CreatingPod(c, job') =>
              job' == job && Shape(rs, s0, job, SourceClaim(c), s') && job.source.spec.path.Some?
            case Finished(Failed(_)) =>
              || s' == s
              || Shape(rs, s0, job, SourceClaim(ReplicaClaim(rs, job.source, job.sourceNode, s.namespace, g)), s')
            case _ => false
  {
    NamespaceKept(rs, s0, job, NoTail, s);
    var c := ReplicaClaim(rs, job.source, job.sourceNode, s.namespace, g);
    if c.name !in s.claims {
      SourceClaimed(rs, s0, job, s, c);
    }
  }

  lemma PodCallShape(rs: ReplicaSet, s0: Store, c: Claim, job: Job, s: Store, g: Grant)
    requires Shape(rs, s0, job, SourceClaim(c), s) && job.source.spec.path.Some?
    ensures var (ph', s') := PodCall(rs, c, job, s, g);
            match ph'
            case Finished(Failed(_)) => s' == s
            case Finished(Scaled(p)) =>
              && p == SyncPodFor(rs, PathOf(job.source), c, job.made, g.suffix)
              && Shape(rs, s0, job, Synced(c, g.suffix), s')
            case _ => false
  {
    if PodName(rs, g.suffix) !in s.pods {
      PodStarted(rs, s0, job, s, c, g.suffix);
    }
  }

  /** What is in the store while a pass goes on is also what its failure may leave. */
  lemma MayStopHere(rs: ReplicaSet, s0: Store, job: Job, tail: Tail, s: Store)
    requires Scouted(rs, s0, job) && Shape(rs, s0, job, tail, s) && !tail.Synced?
    ensures AbortedIn(rs, s0, s)
  {
  }

  lemma LoopHeadAt(rs: ReplicaSet, s0: Store, index: nat, nodes: seq<DataNode>, job: Job, s: Store)
    requires Scouted(rs, s0, job) && Shape(rs, s0, job, NoTail, s)
    requires index == job.first + |job.made| <= rs.replicas
    requires Remaining(job, |job.made|, nodes)
    ensures At(rs, s0, LoopHead(rs, index, nodes, job), s)
  {
    LoopHeadShape(rs, s0, index, nodes, job, s);
  }

  lemma DataPodCallKeepsShape(rs: ReplicaSet, s0: Store, ph: Phase, s: Store, g: Grant)
    requires ph.CreatingDataPod? && At(rs, s0, ph, s)
    ensures var (ph', s') := Step(rs, ph, s, g); At(rs, s0, ph', s')
  {
    var CreatingDataPod(index, nodes, job) := ph;
    DataPodCallShape(rs, s0, index, nodes, job, s, g);
    MayStopHere(rs, s0, job, NoTail, s);
  }

  lemma ClaimRefused(rs: ReplicaSet, s0: Store, ph: Phase, s: Store, g: Grant)
    requires ph.CreatingClaim? && At(rs, s0, ph, s)
    requires ClaimName(rs, g.suffix) in s.claims
    ensures var (ph', s') := Step(rs, ph, s, g); At(rs, s0, ph', s')
  {
    MayStopHere(rs, s0, ph.job, LoneDataPod(ph.dataPod), s);
  }

  lemma ClaimCreated(rs: ReplicaSet, s0: Store, ph: Phase, s: Store, g: Grant)
    requires ph.CreatingClaim? && At(rs, s0, ph, s)
    requires ClaimName(rs, g.suffix) !in s.claims
    ensures var (ph', s') := Step(rs, ph, s, g); At(rs, s0, ph', s')
  {
    var CreatingClaim(index, nodes, node, d, job) := ph;
    ClaimIndex(rs, s0, index, nodes, node, d, job, s);
    ClaimCallShape(rs, s0, index, nodes, node, d, job, s, g);
    var c := ReplicaClaim(rs, d, node, s.namespace, g);
    var job' := job.(made := job.made + [Replica(d, c)]);
    StillScouted(rs, s0, job, job');
    LoopHeadAt(rs, s0, index + 1, nodes, job', s.(claims := s.claims[c.name := c]));
  }

  lemma ClaimCallKeepsShape(rs: ReplicaSet, s0: Store, ph: Phase, s: Store, g: Grant)
    requires ph.CreatingClaim? && At(rs, s0, ph, s)
    ensures var (ph', s') := Step(rs, ph, s, g); At(rs, s0, ph', s')
  {
    if ClaimName(rs, g.suffix) in s.claims {
      ClaimRefused(rs, s0, ph, s, g);
    } else {
      ClaimCreated(rs, s0, ph, s, g);
    }
  }

  lemma StillScouted(rs: ReplicaSet, s0: Store, job: Job, job': Job)
    requires Scouted(rs, s0, job) && job' == job.(made := job'.made)
    ensures Scouted(rs, s0, job')
  {
  }

  lemma SourceClaimCallKeepsShape(rs: ReplicaSet, s0: Store, ph: Phase, s: Store, g: Grant)
    requires ph.CreatingSourceClaim? && At(rs, s0, ph, s)
    ensures var (ph', s') := Step(rs, ph, s, g); At(rs, s0, ph', s')
  {
    var job := ph.job;
    SourceClaimCallShape(rs, s0, job, s, g);
    var (ph', s') := SourceClaimCall(rs, job, s, g);
    if ph'.Finished? {
      assert AbortedIn(rs, s0, s');
    }
  }

  lemma PodCallKeepsShape(rs: ReplicaSet, s0: Store, ph: Phase, s: Store, g: Grant)
    requires ph.CreatingPod? && At(rs, s0, ph, s)
    ensures var (ph', s') := Step(rs, ph, s, g); At(rs, s0, ph', s')
  {
    PodCallShape(rs, s0, ph.sourceClaim, ph.job, s, g);
    MayStopHere(rs, s0, ph.job, SourceClaim(ph.sourceClaim), s);
  }

  lemma OthersCallKeepsShape(rs: ReplicaSet, s0: Store, ph: Phase, s: Store, g: Grant)
    requires ph.ListingOthers? && At(rs, s0, ph, s)
    ensures var (ph', s') := Step(rs, ph, s, g); At(rs, s0, ph', s')
  {
    var ListingOthers(first, source, sourceNode) := ph;
    var targets := OtherNodes(s0.nodes, sourceNode.uid);
    assert targets[..|targets|] == targets;
    LoopHeadAt(rs, s0, first, targets, Job(first, source, sourceNode, targets, []), s0);
  }

  lemma LookupKeepsShape(rs: ReplicaSet, s0: Store, ph: Phase, s: Store, g: Grant)
    requires ph.ListingPods? || ph.GettingSource? || ph.GettingSourceNode? || ph.Finished?
    requires At(rs, s0, ph, s)
    ensures var (ph', s') := Step(rs, ph, s, g); At(rs, s0, ph', s')
  {
  }

  lemma StepKeepsShape(rs: ReplicaSet, s0: Store, ph: Phase, s: Store, g: Grant)
    requires At(rs, s0, ph, s)
    ensures var (ph', s') := Step(rs, ph, s, g); At(rs, s0, ph', s')
  {
    match ph
    case CreatingDataPod(_, _, _) => DataPodCallKeepsShape(rs, s0, ph, s, g);
    case CreatingClaim(_, _, _, _, _) => ClaimCallKeepsShape(rs, s0, ph, s, g);
    case CreatingSourceClaim(_) => SourceClaimCallKeepsShape(rs, s0, ph, s, g);
    case CreatingPod(_, _) => PodCallKeepsShape(rs, s0, ph, s, g);
    case ListingOthers(_, _, _) => OthersCallKeepsShape(rs, s0, ph, s, g);
    case _ => LookupKeepsShape(rs, s0, ph, s, g);
  }

  lemma {:induction false} RunKeepsShape(rs: ReplicaSet, s0: Store, ph: Phase, s: Store, grants: seq<Grant>)
    requires At(rs, s0, ph, s)
    ensures var (ph', s') := Run(rs, ph, s, grants); At(rs, s0, ph', s')
    decreases |grants|
  {
    if !ph.Finished? && grants != [] {
      StepKeepsShape(rs, s0, ph, s, grants[0]);
      var (ph', s') := Step(rs, ph, s, grants[0]);
      RunKeepsShape(rs, s0, ph', s', grants[1..]);
    }
  }
}
