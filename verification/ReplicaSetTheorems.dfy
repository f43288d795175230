/** What follows for whole passes, and for any number of passes one after the other. */
module ReplicaSetTheorems {
  import opened Cluster
  import opened ReplicaSetController
  import opened ReplicaSetPasses
  import opened Selectors
  import opened Text
  import opened VolumeContext
  import opened Wrappers

  /** What a pass that has scouted its targets leaves; the sync Pod exactly if it is `synced`. */
  ghost predicate Leaves(rs: ReplicaSet, s: Store, s': Store, synced: bool) {
    exists job: Job, tail: Tail ::
      Scouted(rs, s, job) && Shape(rs, s, job, tail, s') && (tail.Synced? <==> synced)
  }

  lemma ShapeIsLeft(rs: ReplicaSet, s: Store, job: Job, tail: Tail, s': Store)
    requires Scouted(rs, s, job) && Shape(rs, s, job, tail, s')
    ensures Leaves(rs, s, s', tail.Synced?)
  {
  }

  lemma PhaseLeaves(rs: ReplicaSet, s: Store, ph: Phase, s': Store)
    requires At(rs, s, ph, s') && !ph.Finished?
    ensures s' == s || Leaves(rs, s, s', false)
  {
    match ph
    case CreatingDataPod(_, _, job) => ShapeIsLeft(rs, s, job, NoTail, s');
    case CreatingClaim(_, _, _, d, job) => ShapeIsLeft(rs, s, job, LoneDataPod(d), s');
    case CreatingSourceClaim(job) => ShapeIsLeft(rs, s, job, NoTail, s');
    case CreatingPod(c, job) => ShapeIsLeft(rs, s, job, SourceClaim(c), s');
    case _ =>
  }

  lemma EndLeaves(rs: ReplicaSet, s: Store, outcome: Outcome, s': Store)
    requires AtEnd(rs, s, outcome, s')
    ensures (s' == s && !outcome.Scaled?) || Leaves(rs, s, s', outcome.Scaled?)
  {
    if outcome.Scaled? {
      var job: Job, c: Claim, suffix: string :|
        && Scouted(rs, s, job) && Shape(rs, s, job, Synced(c, suffix), s')
        && outcome.pod == SyncPodFor(rs, PathOf(job.source), c, job.made, suffix);
      ShapeIsLeft(rs, s, job, Synced(c, suffix), s');
    }
  }

  /** Wherever a pass stops, and for whatever reason, the store is the old one or the old one
      with the pass's shape added; the sync Pod is there exactly when the pass succeeded. */
  lemma AbortShape(rs: ReplicaSet, s: Store, grants: seq<Grant>)
    ensures var (ph, s') := Pass(rs, s, grants);
            var scaled := ph.Finished? && ph.outcome.Scaled?;
            (s' == s && !scaled) || Leaves(rs, s, s', scaled)
  {
    RunKeepsShape(rs, s, Start(rs), s, grants);
    var (ph, s') := Pass(rs, s, grants);
    if ph.Finished? {
      EndLeaves(rs, s, ph.outcome, s');
    } else {
      PhaseLeaves(rs, s, ph, s');
    }
  }

  /** The names of the `k` replicas from index `from` on. */
  function NamesFrom(rs: ReplicaSet, from: nat, k: nat): set<string> {
    if k == 0 then {} else NamesFrom(rs, from, k - 1) + {ReplicaName(rs.uid, from + k - 1)}
  }

  /** An index belongs to the range exactly if its name does. */
  lemma {:induction false} NamesFromMeaning(rs: ReplicaSet, from: nat, k: nat, i: nat)
    ensures ReplicaName(rs.uid, i) in NamesFrom(rs, from, k) <==> from <= i < from + k
  {
    if k > 0 {
      NamesFromMeaning(rs, from, k - 1, i);
      if ReplicaName(rs.uid, i) == ReplicaName(rs.uid, from + k - 1) {
        ReplicaNamesDistinct(rs.uid, i, rs.uid, from + k - 1);
      }
    }
  }

  lemma AreReplicasPrefix(rs: ReplicaSet, s: Store, first: nat, targets: seq<DataNode>, made: seq<Replica>)
    requires made != []
    requires AreReplicas(rs, s.namespace, first, targets, made) && NewNames(s, made)
    ensures AreReplicas(rs, s.namespace, first, targets, made[..|made| - 1]) && NewNames(s, made[..|made| - 1])
  {
    var init := made[..|made| - 1];
    forall j | 0 <= j < |init| ensures IsReplica(rs, s.namespace, first, targets, j, init[j]) {
      assert init[j] == made[j];
    }
  }

  /** Replicas by name alone: consecutive indices and new names. */
  predicate NamedFrom(rs: ReplicaSet, s: Store, first: nat, made: seq<Replica>) {
    && (forall j | 0 <= j < |made| :: made[j].dataPod.name == ReplicaName(rs.uid, first + j))
    && (forall r | r in made :: r.dataPod.name !in s.dataPods)
  }

  lemma AreNamed(rs: ReplicaSet, s: Store, first: nat, targets: seq<DataNode>, made: seq<Replica>)
    requires AreReplicas(rs, s.namespace, first, targets, made) && NewNames(s, made)
    ensures NamedFrom(rs, s, first, made)
  {
    forall j | 0 <= j < |made| ensures made[j].dataPod.name == ReplicaName(rs.uid, first + j) {
      assert IsReplica(rs, s.namespace, first, targets, j, made[j]);
    }
  }

  lemma NamedPrefix(rs: ReplicaSet, s: Store, first: nat, made: seq<Replica>)
    requires NamedFrom(rs, s, first, made) && made != []
    ensures NamedFrom(rs, s, first, made[..|made| - 1])
    ensures made[|made| - 1].dataPod.name == ReplicaName(rs.uid, first + |made| - 1)
    ensures made[|made| - 1].dataPod.name !in s.dataPods
  {
    assert made[|made| - 1] in made;
  }

  /** The DataPods a pass made have exactly the next names, */
  lemma {:induction false} MadeDataPods(rs: ReplicaSet, s: Store, first: nat, made: seq<Replica>)
    requires NamedFrom(rs, s, first, made)
    ensures WithMade(s, made).dataPods.Keys == s.dataPods.Keys + NamesFrom(rs, first, |made|)
    ensures s.dataPods.Keys !! NamesFrom(rs, first, |made|)
  {
    if made != [] {
      NamedPrefix(rs, s, first, made);
      MadeDataPods(rs, s, first, made[..|made| - 1]);
    }
  }

  lemma LastIsNew(rs: ReplicaSet, s: Store, first: nat, made: seq<Replica>)
    requires NamedFrom(rs, s, first, made) && made != []
    ensures made[|made| - 1].dataPod.name !in WithMade(s, made[..|made| - 1]).dataPods
  {
    var k := |made| - 1;
    NamedPrefix(rs, s, first, made);
    MadeDataPods(rs, s, first, made[..k]);
    NamesFromMeaning(rs, first, k, first + k);
  }

  /** as many as replicas were made, and the others are untouched. */
  lemma {:induction false} MadeDataPodCount(rs: ReplicaSet, s: Store, first: nat, made: seq<Replica>)
    requires NamedFrom(rs, s, first, made)
    ensures |WithMade(s, made).dataPods| == |s.dataPods| + |made|
    ensures forall x | x in s.dataPods ::
              x in WithMade(s, made).dataPods && WithMade(s, made).dataPods[x] == s.dataPods[x]
  {
    if made != [] {
      var init := made[..|made| - 1];
      NamedPrefix(rs, s, first, made);
      LastIsNew(rs, s, first, made);
      MadeDataPodCount(rs, s, first, init);
    }
  }

  /** The j-th of them is kept under the name of replica `first + j`. */
  lemma {:induction false} MadeDataPodAt(rs: ReplicaSet, s: Store, first: nat, made: seq<Replica>, j: nat)
    requires NamedFrom(rs, s, first, made)
    requires j < |made|
    ensures ReplicaName(rs.uid, first + j) in WithMade(s, made).dataPods
    ensures WithMade(s, made).dataPods[ReplicaName(rs.uid, first + j)] == made[j].dataPod
    decreases |made|
  {
    var k := |made| - 1;
    NamedPrefix(rs, s, first, made);
    if j < k {
      MadeDataPodAt(rs, s, first, made[..k], j);
      if ReplicaName(rs.uid, first + k) == ReplicaName(rs.uid, first + j) {
        ReplicaNamesDistinct(rs.uid, first + k, rs.uid, first + j);
      }
    }
  }

  lemma {:induction false} ClaimNotMade(s: Store, made: seq<Replica>, name: string)
    requires name !in s.claims && forall j | 0 <= j < |made| :: made[j].claim.name != name
    ensures name !in WithMade(s, made).claims
  {
    if made != [] {
      ClaimNotMade(s, made[..|made| - 1], name);
    }
  }

  lemma LastClaimIsNew(s: Store, made: seq<Replica>)
    requires NewNames(s, made) && made != []
    ensures NewNames(s, made[..|made| - 1])
    ensures made[|made| - 1].claim.name !in WithMade(s, made[..|made| - 1]).claims
  {
    assert made[|made| - 1] in made;
    ClaimNotMade(s, made[..|made| - 1], made[|made| - 1].claim.name);
  }

  lemma {:induction false} MadeClaims(s: Store, made: seq<Replica>)
    requires NewNames(s, made)
    ensures |WithMade(s, made).claims| == |s.claims| + |made|
    ensures forall x | x in s.claims :: x in WithMade(s, made).claims && WithMade(s, made).claims[x] == s.claims[x]
  {
    if made != [] {
      LastClaimIsNew(s, made);
      MadeClaims(s, made[..|made| - 1]);
      assert made[|made| - 1] in made;
    }
  }

  /** What the count of a pass is compared with: the selected DataPods. */
  function PassSize(rs: ReplicaSet, first: nat, targets: seq<DataNode>): nat
    requires first <= rs.replicas
  {
    if rs.replicas - first < |targets| then rs.replicas - first else |targets|
  }

  /** From `s` to `s'`: `k` DataPods with the next names, `k + 1` claims and one Pod more, and
      nothing that was there changed. */
  predicate Adds(rs: ReplicaSet, s: Store, first: nat, k: nat, s': Store) {
    && s'.dataPods.Keys == s.dataPods.Keys + NamesFrom(rs, first, k)
    && s.dataPods.Keys !! NamesFrom(rs, first, k)
    && |s'.dataPods| == |s.dataPods| + k
    && |s'.claims| == |s.claims| + k + 1
    && |s'.pods| == |s.pods| + 1
    && s'.nodes == s.nodes && s'.namespace == s.namespace
    && (forall x | x in s.dataPods :: s'.dataPods[x] == s.dataPods[x])
    && (forall x | x in s.claims :: x in s'.claims && s'.claims[x] == s.claims[x])
    && (forall x | x in s.pods :: x in s'.pods && s'.pods[x] == s.pods[x])
  }

  lemma SyncedDataPods(rs: ReplicaSet, s: Store, first: nat, made: seq<Replica>, s': Store)
    requires NamedFrom(rs, s, first, made) && s'.dataPods == WithMade(s, made).dataPods
    ensures s'.dataPods.Keys == s.dataPods.Keys + NamesFrom(rs, first, |made|)
    ensures s.dataPods.Keys !! NamesFrom(rs, first, |made|) && |s'.dataPods| == |s.dataPods| + |made|
    ensures forall x | x in s.dataPods :: s'.dataPods[x] == s.dataPods[x]
  {
    MadeDataPods(rs, s, first, made);
    MadeDataPodCount(rs, s, first, made);
  }

  lemma SyncedClaims(rs: ReplicaSet, s: Store, job: Job, c: Claim, suffix: string, s': Store)
    requires Shape(rs, s, job, Synced(c, suffix), s')
    ensures |s'.claims| == |s.claims| + |job.made| + 1 && |s'.pods| == |s.pods| + 1
    ensures s'.nodes == s.nodes && s'.namespace == s.namespace
    ensures forall x | x in s.claims :: x in s'.claims && s'.claims[x] == s.claims[x]
    ensures forall x | x in s.pods :: x in s'.pods && s'.pods[x] == s.pods[x]
  {
    MadeClaims(s, job.made);
    WithMadeGrows(s, job.made);
  }

  lemma SyncedAdds(rs: ReplicaSet, s: Store, job: Job, c: Claim, suffix: string, s': Store)
    requires Shape(rs, s, job, Synced(c, suffix), s')
    ensures Adds(rs, s, job.first, |job.made|, s')
  {
    SyncedParts(rs, s, job, c, suffix, s');
    SyncedDataPods(rs, s, job.first, job.made, s');
    SyncedClaims(rs, s, job, c, suffix, s');
  }

  /** The j-th new DataPod is replica `first + j` on the j-th target from the end. */
  predicate Places(rs: ReplicaSet, s: Store, job: Job, j: nat, s': Store) {
    var name := ReplicaName(rs.uid, job.first + j);
    && j < |job.targets| && name in s'.dataPods
    && var d := s'.dataPods[name];
       && d.spec.nodeRef == Some(Ref(job.targets[|job.targets| - 1 - j].name, Some(s.namespace)))
       && d.spec.path == Some(ReplicaPath(job.first + j))
       && d.heldOwners == [OwnerRef(ReplicaSetKind, rs.name, rs.uid)] && d.appliedOwner == None
       && d.labels == map[]
  }

  /** The node that a DataPod refers to. */
  function NodeOf(s: Store, name: string): string {
    if name in s.dataPods && s.dataPods[name].spec.nodeRef.Some? then s.dataPods[name].spec.nodeRef.value.name else ""
  }

  predicate AllDiffer(a: string, b: string, c: string) {
    a != b && a != c && b != c
  }

  /** Two replicas refer to different nodes, and neither to the source's. */
  predicate Apart(rs: ReplicaSet, job: Job, s: Store, i: nat, j: nat) {
    AllDiffer(
      NodeOf(s, ReplicaName(rs.uid, job.first + i)), NodeOf(s, ReplicaName(rs.uid, job.first + j)), job.sourceNode.name)
  }

  predicate TargetsDiffer(targets: seq<DataNode>, source: string) {
    forall k, l | 0 <= l < k < |targets| :: AllDiffer(targets[k].name, targets[l].name, source)
  }

  lemma TargetsApart(nodes: seq<DataNode>, source: DataNode)
    requires UniqueNodes(nodes) && source in nodes
    ensures TargetsDiffer(OtherNodes(nodes, source.uid), source.name)
  {
    var targets := OtherNodes(nodes, source.uid);
    OtherNodesUnique(nodes, source.uid);
    forall k, l | 0 <= l < k < |targets| ensures AllDiffer(targets[k].name, targets[l].name, source.name) {
      NotTheSource(nodes, source, targets[k]);
      NotTheSource(nodes, source, targets[l]);
    }
  }

  lemma ScoutedNodes(rs: ReplicaSet, s: Store, job: Job)
    requires Scouted(rs, s, job)
    ensures job.sourceNode in s.nodes && job.targets == OtherNodes(s.nodes, job.sourceNode.uid)
  {
  }

  lemma NodeOfPlaced(rs: ReplicaSet, s: Store, job: Job, j: nat, s': Store)
    requires Places(rs, s, job, j, s')
    ensures j < |job.targets|
    ensures NodeOf(s', ReplicaName(rs.uid, job.first + j)) == job.targets[|job.targets| - 1 - j].name
  {
  }

  lemma TheseDiffer(targets: seq<DataNode>, source: string, k: nat, l: nat)
    requires TargetsDiffer(targets, source) && l < k < |targets|
    ensures AllDiffer(targets[k].name, targets[l].name, source)
  {
  }

  lemma PlacedApart(rs: ReplicaSet, s: Store, job: Job, s': Store, i: nat, j: nat)
    requires Places(rs, s, job, i, s') && Places(rs, s, job, j, s')
    requires i < j && TargetsDiffer(job.targets, job.sourceNode.name)
    ensures Apart(rs, job, s', i, j)
  {
    NodeOfPlaced(rs, s, job, i, s');
    NodeOfPlaced(rs, s, job, j, s');
    TheseDiffer(job.targets, job.sourceNode.name, |job.targets| - 1 - i, |job.targets| - 1 - j);
  }

  lemma NotTheSource(nodes: seq<DataNode>, source: DataNode, node: DataNode)
    requires UniqueNodes(nodes) && source in nodes && node in nodes && node.uid != source.uid
    ensures node.name != source.name
  {
    var k :| 0 <= k < |nodes| && nodes[k] == source;
    var l :| 0 <= l < |nodes| && nodes[l] == node;
    assert k != l;
  }

  lemma SyncedParts(rs: ReplicaSet, s: Store, job: Job, c: Claim, suffix: string, s': Store)
    requires Shape(rs, s, job, Synced(c, suffix), s')
    ensures s'.dataPods == WithMade(s, job.made).dataPods
    ensures AreReplicas(rs, s.namespace, job.first, job.targets, job.made)
    ensures NamedFrom(rs, s, job.first, job.made)
  {
    AreNamed(rs, s, job.first, job.targets, job.made);
  }

  lemma KeptPlaces(rs: ReplicaSet, s: Store, job: Job, r: Replica, j: nat, s': Store)
    requires ReplicaKept(rs, s.namespace, job, r, j, s')
    ensures Places(rs, s, job, j, s')
  {
  }

  /** A pass that succeeds makes exactly min(replicas - n, targets) DataPods with the next
      indices, one claim more than that, and one Pod; and its replicas sit on pairwise
      different nodes, none of them the source's. */
  lemma OnePassAllocation(rs: ReplicaSet, s: Store, grants: seq<Grant>, ph: Phase, s': Store) returns (job: Job)
    requires (ph, s') == Pass(rs, s, grants)
    requires ph.Finished? && ph.outcome.Scaled?
    ensures Scouted(rs, s, job)
    ensures |job.made| == PassSize(rs, job.first, job.targets)
    ensures Adds(rs, s, Count(rs, s), PassSize(rs, Count(rs, s), job.targets), s')
    ensures forall j: nat | j < |job.made| :: Places(rs, s, job, j, s')
    ensures UniqueNodes(s.nodes) ==> forall i: nat, j: nat | i < j < |job.made| :: Apart(rs, job, s', i, j)
  {
    var found, c, suffix := ScaledShape(rs, s, grants, ph, s');
    job := found;
    SyncedAdds(rs, s, job, c, suffix, s');
    forall j: nat | j < |job.made| ensures Places(rs, s, job, j, s') {
      SyncedKeeps(rs, s, job, c, suffix, s', j);
      KeptPlaces(rs, s, job, job.made[j], j, s');
    }
    ScoutedNodes(rs, s, job);
    if UniqueNodes(s.nodes) {
      TargetsApart(s.nodes, job.sourceNode);
      forall i: nat, j: nat | i < j < |job.made| ensures Apart(rs, job, s', i, j) {
        assert Places(rs, s, job, i, s') && Places(rs, s, job, j, s');
        PlacedApart(rs, s, job, s', i, j);
      }
    }
  }

  lemma MadeCount(rs: ReplicaSet, s: Store, job: Job)
    requires AreReplicas(rs, s.namespace, job.first, job.targets, job.made)
    requires Exhausted(rs, job) && job.first < rs.replicas
    ensures |job.made| == PassSize(rs, job.first, job.targets)
  {
    if job.made != [] {
      assert IsReplica(rs, s.namespace, job.first, job.targets, |job.made| - 1, job.made[|job.made| - 1]);
    }
  }

  /** The paths `/replica-{i}` of `k` replicas from index `first` on. */
  function PathsFrom(first: nat, k: nat): (paths: seq<string>)
    ensures |paths| == k
  {
    seq(k, i requires 0 <= i < k => ReplicaPath(first + i))
  }

  lemma PathOfReplica(
    rs: ReplicaSet, namespace: string, first: nat, targets: seq<DataNode>, made: seq<Replica>, j: nat)
    requires AreReplicas(rs, namespace, first, targets, made) && j < |made|
    ensures PathOf(made[j].dataPod) == ReplicaPath(first + j)
  {
    assert IsReplica(rs, namespace, first, targets, j, made[j]);
  }

  lemma PathsAlike(made: seq<Replica>, first: nat)
    requires forall j: nat | j < |made| :: PathOf(made[j].dataPod) == ReplicaPath(first + j)
    ensures ReplicaPaths(made) == PathsFrom(first, |made|)
  {
  }

  lemma PathsOfReplicas(rs: ReplicaSet, namespace: string, first: nat, targets: seq<DataNode>, made: seq<Replica>)
    requires AreReplicas(rs, namespace, first, targets, made)
    ensures ReplicaPaths(made) == PathsFrom(first, |made|)
  {
    forall j: nat | j < |made| ensures PathOf(made[j].dataPod) == ReplicaPath(first + j) {
      PathOfReplica(rs, namespace, first, targets, made, j);
    }
    PathsAlike(made, first);
  }

  lemma PathsFromDistinct(first: nat, k: nat)
    ensures forall i, j | 0 <= i < j < k :: PathsFrom(first, k)[i] != PathsFrom(first, k)[j]
  {
    forall i, j | 0 <= i < j < k ensures PathsFrom(first, k)[i] != PathsFrom(first, k)[j] {
      if ReplicaPath(first + i) == ReplicaPath(first + j) {
        ReplicaPathsDistinct(first + i, first + j);
      }
    }
  }

  lemma PathIsOneField(index: nat)
    ensures ';' !in ReplicaPath(index)
  {
    assert forall c | c in Decimal(index) :: c != ';';
    assert ';' !in "/replica-";
  }

  /** The `replicas` variable reads back as the paths, unless there are none: then the sync
      container reads one empty path. */
  lemma PathListRoundTrip(first: nat, k: nat)
    ensures Split(Join(PathsFrom(first, k), ';'), ';') == if k == 0 then [""] else PathsFrom(first, k)
  {
    var paths := PathsFrom(first, k);
    if k > 0 {
      forall path | path in paths ensures ';' !in path {
        var j: nat :| j < k && path == paths[j];
        PathIsOneField(first + j);
      }
      SplitUndoesJoin(paths, ';');
    }
  }

  lemma VolumesNamedApart(rs: ReplicaSet, source: string, c: Claim, made: seq<Replica>, suffix: string)
    ensures var p := SyncPodFor(rs, source, c, made, suffix);
            forall i, j | 0 <= i < j < |p.volumes| :: p.volumes[i].name != p.volumes[j].name
  {
    var p := SyncPodFor(rs, source, c, made, suffix);
    forall i, j | 0 <= i < j < |p.volumes| ensures p.volumes[i].name != p.volumes[j].name {
      if i == 0 {
        assert "source"[0] == 's' && VolumeName(j - 1)[0] == 'r';
      } else if p.volumes[i].name == p.volumes[j].name {
        VolumeNamesDistinct(i - 1, j - 1);
      }
    }
  }

  lemma SyncPodParts(rs: ReplicaSet, source: string, c: Claim, made: seq<Replica>, suffix: string)
    ensures var p := SyncPodFor(rs, source, c, made, suffix);
            && |p.volumes| == |p.mounts| == |made| + 1
            && (forall i | 0 <= i < |p.volumes| :: p.volumes[i].name == p.mounts[i].name)
            && p.volumes[0].claimName == c.name && p.mounts[0].mountPath == source == p.source
            && (forall j | 0 <= j < |made| :: p.volumes[j + 1].claimName == made[j].claim.name)
            && (forall j | 0 <= j < |made| :: p.mounts[j + 1].mountPath == ReplicaPaths(made)[j])
            && p.replicas == Join(ReplicaPaths(made), ';')
  {
  }

  /** The sync Pod of a pass: volume and mount j+1 belong together under a name of their own
      and put replica j's claim at replica j's path; the paths differ; and the sync container
      reads them back from its `replicas` variable exactly when there are any. */
  lemma SyncPodAssembly(
    rs: ReplicaSet, namespace: string, first: nat, targets: seq<DataNode>, made: seq<Replica>,
    source: string, c: Claim, suffix: string, p: Pod)
    requires AreReplicas(rs, namespace, first, targets, made)
    requires p == SyncPodFor(rs, source, c, made, suffix)
    ensures |p.volumes| == |p.mounts| == |made| + 1
    ensures forall i | 0 <= i < |p.volumes| :: p.volumes[i].name == p.mounts[i].name
    ensures forall i, j | 0 <= i < j < |p.volumes| :: p.volumes[i].name != p.volumes[j].name
    ensures p.volumes[0].claimName == c.name && p.mounts[0].mountPath == source == p.source
    ensures forall j | 0 <= j < |made| :: p.volumes[j + 1].claimName == made[j].claim.name
    ensures forall j | 0 <= j < |made| :: p.mounts[j + 1].mountPath == PathsFrom(first, |made|)[j]
    ensures forall i, j | 0 <= i < j < |made| :: PathsFrom(first, |made|)[i] != PathsFrom(first, |made|)[j]
    ensures Split(p.replicas, ';') == PathsFrom(first, |made|) <==> made != []
  {
    PathsOfReplicas(rs, namespace, first, targets, made);
    PathsFromDistinct(first, |made|);
    PathListRoundTrip(first, |made|);
    VolumesNamedApart(rs, source, c, made, suffix);
    SyncPodParts(rs, source, c, made, suffix);
  }

  lemma {:induction false} MadeClaimAt(s: Store, made: seq<Replica>, j: nat)
    requires NewNames(s, made) && j < |made|
    ensures made[j].claim.name in WithMade(s, made).claims
    ensures WithMade(s, made).claims[made[j].claim.name] == made[j].claim
    decreases |made|
  {
    var k := |made| - 1;
    if j < k {
      LastClaimIsNew(s, made);
      MadeClaimAt(s, made[..k], j);
    }
  }

  /** The sync Pod mounts replica `first + j` at that replica's path, through a claim that asks
      for it on its node. */
  predicate MountsReplica(rs: ReplicaSet, namespace: string, job: Job, p: Pod, j: nat, s: Store)
    requires p.SyncPod? && |p.volumes| == |p.mounts| && j + 1 < |p.volumes| && j < |job.targets|
  {
    var name, claim := ReplicaName(rs.uid, job.first + j), p.volumes[j + 1].claimName;
    var node := job.targets[|job.targets| - 1 - j].name;
    && name in s.dataPods && claim in s.claims
    && ParseContext(s.claims[claim].annotations) == Ok(DataMount(node, namespace, name, namespace, FuseReadWrite))
    && s.dataPods[name].spec.path == Some(p.mounts[j + 1].mountPath)
  }

  /** And the source at the source's. */
  predicate MountsSource(rs: ReplicaSet, namespace: string, job: Job, p: Pod, s: Store)
    requires p.SyncPod? && |p.volumes| == |p.mounts| && 0 < |p.volumes|
  {
    && p.volumes[0].claimName in s.claims
    && ParseContext(s.claims[p.volumes[0].claimName].annotations)
       == Ok(DataMount(job.sourceNode.name, namespace, job.source.name, namespace, FuseReadWrite))
    && rs.sourcePod in s.dataPods && s.dataPods[rs.sourcePod] == job.source
    && job.source.spec.path == Some(p.mounts[0].mountPath)
  }

  lemma AskedIsParsed(c: Claim, node: string, dataPod: string, namespace: string)
    requires ClaimAsks(c, node, dataPod, namespace)
    ensures ParseContext(c.annotations) == Ok(DataMount(node, namespace, dataPod, namespace, FuseReadWrite))
  {
    AnnotationsParse(DataMount(node, namespace, dataPod, namespace, FuseReadWrite));
  }

  lemma SyncedClaimAt(rs: ReplicaSet, s: Store, job: Job, c: Claim, suffix: string, s': Store, j: nat)
    requires Shape(rs, s, job, Synced(c, suffix), s') && j < |job.made|
    ensures job.made[j].claim.name in s'.claims && s'.claims[job.made[j].claim.name] == job.made[j].claim
  {
    MadeClaimAt(s, job.made, j);
  }

  /** A replica and both its objects. */
  predicate ReplicaKept(rs: ReplicaSet, namespace: string, job: Job, r: Replica, j: nat, s: Store) {
    && IsReplica(rs, namespace, job.first, job.targets, j, r)
    && r.dataPod.name in s.dataPods && s.dataPods[r.dataPod.name] == r.dataPod
    && r.claim.name in s.claims && s.claims[r.claim.name] == r.claim
  }

  lemma ReplicaIsMounted(rs: ReplicaSet, namespace: string, job: Job, p: Pod, j: nat, s: Store, r: Replica)
    requires p.SyncPod? && |p.volumes| == |p.mounts| && j + 1 < |p.volumes|
    requires ReplicaKept(rs, namespace, job, r, j, s)
    requires p.volumes[j + 1].claimName == r.claim.name && p.mounts[j + 1].mountPath == PathOf(r.dataPod)
    ensures MountsReplica(rs, namespace, job, p, j, s)
  {
    AskedIsParsed(r.claim, TargetOf(job.targets, j).name, r.dataPod.name, namespace);
  }

  lemma ReplicaAt(rs: ReplicaSet, namespace: string, first: nat, targets: seq<DataNode>, made: seq<Replica>, j: nat)
    requires AreReplicas(rs, namespace, first, targets, made) && j < |made|
    ensures IsReplica(rs, namespace, first, targets, j, made[j])
    ensures made[j].dataPod.name == ReplicaName(rs.uid, first + j)
  {
    assert IsReplica(rs, namespace, first, targets, j, made[j]);
  }

  lemma DataPodKept(rs: ReplicaSet, s: Store, first: nat, made: seq<Replica>, s': Store, d: DataPod, j: nat)
    requires NamedFrom(rs, s, first, made) && s'.dataPods == WithMade(s, made).dataPods
    requires j < |made| && made[j].dataPod == d && d.name == ReplicaName(rs.uid, first + j)
    ensures d.name in s'.dataPods && s'.dataPods[d.name] == d
  {
    MadeDataPodAt(rs, s, first, made, j);
  }

  lemma PartsKeep(rs: ReplicaSet, s: Store, job: Job, s': Store, j: nat)
    requires AreReplicas(rs, s.namespace, job.first, job.targets, job.made) && NamedFrom(rs, s, job.first, job.made)
    requires s'.dataPods == WithMade(s, job.made).dataPods && j < |job.made|
    requires job.made[j].claim.name in s'.claims && s'.claims[job.made[j].claim.name] == job.made[j].claim
    ensures ReplicaKept(rs, s.namespace, job, job.made[j], j, s')
  {
    ReplicaAt(rs, s.namespace, job.first, job.targets, job.made, j);
    DataPodKept(rs, s, job.first, job.made, s', job.made[j].dataPod, j);
  }

  lemma SyncedKeeps(rs: ReplicaSet, s: Store, job: Job, c: Claim, suffix: string, s': Store, j: nat)
    requires Shape(rs, s, job, Synced(c, suffix), s') && j < |job.made|
    ensures ReplicaKept(rs, s.namespace, job, job.made[j], j, s')
  {
    SyncedParts(rs, s, job, c, suffix, s');
    SyncedClaimAt(rs, s, job, c, suffix, s', j);
    PartsKeep(rs, s, job, s', j);
  }

  lemma SourceKept(rs: ReplicaSet, s: Store, job: Job, c: Claim, suffix: string, s': Store)
    requires Scouted(rs, s, job) && Shape(rs, s, job, Synced(c, suffix), s')
    ensures rs.sourcePod in s'.dataPods && s'.dataPods[rs.sourcePod] == job.source
    ensures c.name in s'.claims && s'.claims[c.name] == c
    ensures ClaimAsks(c, job.sourceNode.name, job.source.name, s.namespace)
    ensures job.source.spec.path.Some?
  {
    AreNamed(rs, s, job.first, job.targets, job.made);
    MadeDataPodCount(rs, s, job.first, job.made);
  }

  lemma SourceIsMounted(rs: ReplicaSet, namespace: string, job: Job, c: Claim, suffix: string, s: Store)
    requires rs.sourcePod in s.dataPods && s.dataPods[rs.sourcePod] == job.source && job.source.spec.path.Some?
    requires c.name in s.claims && s.claims[c.name] == c
    requires ClaimAsks(c, job.sourceNode.name, job.source.name, namespace)
    ensures MountsSource(rs, namespace, job, SyncPodFor(rs, PathOf(job.source), c, job.made, suffix), s)
  {
    AskedIsParsed(c, job.sourceNode.name, job.source.name, namespace);
    SyncPodParts(rs, PathOf(job.source), c, job.made, suffix);
  }

  /** What a successful pass has made. */
  lemma ScaledShape(rs: ReplicaSet, s: Store, grants: seq<Grant>, ph: Phase, s': Store)
    returns (job: Job, c: Claim, suffix: string)
    requires (ph, s') == Pass(rs, s, grants)
    requires ph.Finished? && ph.outcome.Scaled?
    ensures Scouted(rs, s, job) && Shape(rs, s, job, Synced(c, suffix), s')
    ensures ph.outcome.pod == SyncPodFor(rs, PathOf(job.source), c, job.made, suffix)
    ensures |job.made| == PassSize(rs, job.first, job.targets)
  {
    RunKeepsShape(rs, s, Start(rs), s, grants);
    job, c, suffix :|
      && Scouted(rs, s, job) && Shape(rs, s, job, Synced(c, suffix), s')
      && ph.outcome.pod == SyncPodFor(rs, PathOf(job.source), c, job.made, suffix);
    MadeCount(rs, s, job);
  }

  /** All that a sync Pod should be. */
  predicate SyncsAll(rs: ReplicaSet, namespace: string, job: Job, p: Pod, s: Store) {
    && p.SyncPod? && |p.volumes| == |p.mounts| == |job.made| + 1 && |job.made| <= |job.targets|
    && (forall i | 0 <= i < |p.volumes| :: p.volumes[i].name == p.mounts[i].name)
    && (forall i, j | 0 <= i < j < |p.volumes| :: p.volumes[i].name != p.volumes[j].name)
    && MountsSource(rs, namespace, job, p, s)
    && (forall j: nat | j < |job.made| :: MountsReplica(rs, namespace, job, p, j, s))
    && (Split(p.replicas, ';') == PathsFrom(job.first, |job.made|) <==> job.made != [])
  }

  lemma SyncedSyncsAll(rs: ReplicaSet, s: Store, job: Job, c: Claim, suffix: string, s': Store, p: Pod)
    requires Scouted(rs, s, job) && Shape(rs, s, job, Synced(c, suffix), s') && |job.made| <= |job.targets|
    requires p == SyncPodFor(rs, PathOf(job.source), c, job.made, suffix)
    ensures SyncsAll(rs, s.namespace, job, p, s')
  {
    SyncPodAssembly(rs, s.namespace, job.first, job.targets, job.made, PathOf(job.source), c, suffix, p);
    SourceKept(rs, s, job, c, suffix, s');
    SourceIsMounted(rs, s.namespace, job, c, suffix, s');
    SyncPodParts(rs, PathOf(job.source), c, job.made, suffix);
    forall j: nat | j < |job.made| ensures MountsReplica(rs, s.namespace, job, p, j, s') {
      SyncedKeeps(rs, s, job, c, suffix, s', j);
      ReplicaIsMounted(rs, s.namespace, job, p, j, s', job.made[j]);
    }
  }

  /** The Pod that a successful pass leaves in the store is new there, and mounts the source and
      exactly the replicas of this pass, each through its own claim at its own path. */
  lemma PassStartsSyncPod(rs: ReplicaSet, s: Store, grants: seq<Grant>, ph: Phase, s': Store) returns (job: Job)
    requires (ph, s') == Pass(rs, s, grants)
    requires ph.Finished? && ph.outcome.Scaled?
    ensures Scouted(rs, s, job) && |job.made| == PassSize(rs, job.first, job.targets)
    ensures var p := ph.outcome.pod;
            p.name !in s.pods && p.name in s'.pods && s'.pods[p.name] == p && SyncsAll(rs, s.namespace, job, p, s')
  {
    var found, c, suffix := ScaledShape(rs, s, grants, ph, s');
    job := found;
    SyncedSyncsAll(rs, s, job, c, suffix, s', ph.outcome.pod);
    SyncedPodIsNew(rs, s, job, c, suffix, s');
  }

  lemma SyncedPodIsNew(rs: ReplicaSet, s: Store, job: Job, c: Claim, suffix: string, s': Store)
    requires Shape(rs, s, job, Synced(c, suffix), s')
    ensures var p := SyncPodFor(rs, PathOf(job.source), c, job.made, suffix);
            p.name !in s.pods && p.name in s'.pods && s'.pods[p.name] == p
  {
  }

  /** Replica DataPods carry no labels. A set counts the ones it makes exactly if its selector
      selects an object without labels. */
  predicate CountsReplicas(rs: ReplicaSet) {
    Selects(Print(rs.selector), map[])
  }

  /** Of the selectors made of labels, that is the empty one alone; of the others some do, too. */
  lemma WhoCountsReplicas(rs: ReplicaSet)
    ensures AreLabels(rs.selector) ==> (CountsReplicas(rs) <==> rs.selector == [])
    ensures rs.selector == [("a!", "b")] ==> CountsReplicas(rs)
  {
    if AreLabels(rs.selector) {
      SelectorMeaning(rs.selector, map[]);
      assert rs.selector != [] ==> rs.selector[0] in rs.selector;
    }
    BangMisleads();
  }

  /** The DataPods a pass has made, one of them perhaps without its claim. */
  function Made(job: Job, tail: Tail): nat {
    |job.made| + if tail.LoneDataPod? then 1 else 0
  }

  lemma {:induction false} NamesFromCount(rs: ReplicaSet, from: nat, k: nat)
    ensures |NamesFrom(rs, from, k)| == k
  {
    if k > 0 {
      NamesFromCount(rs, from, k - 1);
      NamesFromMeaning(rs, from, k - 1, from + k - 1);
    }
  }

  /** From `s` to `s'`, the `k` replicas from `first` on are new, without labels, and no other
      DataPod changed. */
  predicate AddsReplicas(rs: ReplicaSet, s: Store, first: nat, k: nat, s': Store) {
    && s'.dataPods.Keys == s.dataPods.Keys + NamesFrom(rs, first, k)
    && s.dataPods.Keys !! NamesFrom(rs, first, k)
    && (forall x | x in s.dataPods :: s'.dataPods[x] == s.dataPods[x])
    && (forall x | x in s'.dataPods && x !in s.dataPods :: s'.dataPods[x].labels == map[])
  }

  lemma AddedAreSelected(rs: ReplicaSet, s: Store, first: nat, k: nat, s': Store, text: string)
    requires AddsReplicas(rs, s, first, k, s') && Selects(text, map[])
    ensures MatchingPods(s', text) == MatchingPods(s, text) + NamesFrom(rs, first, k)
  {
  }

  lemma AddedAreNotSelected(rs: ReplicaSet, s: Store, first: nat, k: nat, s': Store, text: string)
    requires AddsReplicas(rs, s, first, k, s') && !Selects(text, map[])
    ensures MatchingPods(s', text) == MatchingPods(s, text)
  {
  }

  lemma AddedAreCounted(rs: ReplicaSet, s: Store, first: nat, k: nat, s': Store)
    requires AddsReplicas(rs, s, first, k, s')
    ensures Count(rs, s') == Count(rs, s) + if CountsReplicas(rs) then k else 0
  {
    if CountsReplicas(rs) {
      AddedAreSelected(rs, s, first, k, s', Print(rs.selector));
      NamesFromCount(rs, first, k);
      assert MatchingPods(s, Print(rs.selector)) !! NamesFrom(rs, first, k);
    } else {
      AddedAreNotSelected(rs, s, first, k, s', Print(rs.selector));
    }
  }

  lemma MadeAreAdded(rs: ReplicaSet, s: Store, job: Job)
    requires AreReplicas(rs, s.namespace, job.first, job.targets, job.made) && NewNames(s, job.made)
    ensures AddsReplicas(rs, s, job.first, |job.made|, WithMade(s, job.made))
  {
    AreNamed(rs, s, job.first, job.targets, job.made);
    MadeDataPods(rs, s, job.first, job.made);
    MadeUnlabelled(rs, s, job.first, job.targets, job.made);
  }

  lemma LoneIsAdded(rs: ReplicaSet, s: Store, first: nat, k: nat, s1: Store, d: DataPod, s': Store)
    requires AddsReplicas(rs, s, first, k, s1)
    requires d.name == ReplicaName(rs.uid, first + k) && d.name !in s.dataPods && d.labels == map[]
    requires s'.dataPods == s1.dataPods[d.name := d]
    ensures AddsReplicas(rs, s, first, k + 1, s')
  {
    NamesFromMeaning(rs, first, k, first + k);
    assert NamesFrom(rs, first, k + 1) == NamesFrom(rs, first, k) + {d.name};
  }

  /** Whatever a pass leaves behind, its new DataPods are the next replicas. */
  lemma ShapeAdds(rs: ReplicaSet, s: Store, job: Job, tail: Tail, s': Store)
    requires Shape(rs, s, job, tail, s')
    ensures AddsReplicas(rs, s, job.first, Made(job, tail), s')
  {
    MadeAreAdded(rs, s, job);
    if tail.LoneDataPod? {
      LoneIsAdded(rs, s, job.first, |job.made|, WithMade(s, job.made), tail.dataPod, s');
    }
  }

  /** A set whose selector selects nothing without labels never counts what a pass makes, */
  lemma CountUnmoved(rs: ReplicaSet, s: Store, grants: seq<Grant>)
    requires !CountsReplicas(rs)
    ensures Count(rs, Pass(rs, s, grants).1) == Count(rs, s)
  {
    AbortShape(rs, s, grants);
    var s' := Pass(rs, s, grants).1;
    if s' != s {
      var job: Job, tail: Tail :| Scouted(rs, s, job) && Shape(rs, s, job, tail, s');
      ShapeAdds(rs, s, job, tail, s');
      AddedAreCounted(rs, s, job.first, Made(job, tail), s');
    }
  }

  lemma ScaledAdds(rs: ReplicaSet, s: Store, grants: seq<Grant>, ph: Phase, s': Store)
    requires (ph, s') == Pass(rs, s, grants)
    requires ph.Finished? && ph.outcome.Scaled?
    ensures Count(rs, s) < rs.replicas
    ensures AddsReplicas(rs, s, Count(rs, s), PassSize(rs, Count(rs, s), Targets(rs, s)), s')
  {
    var job, c, suffix := ScaledShape(rs, s, grants, ph, s');
    ShapeAdds(rs, s, job, Synced(c, suffix), s');
    ScoutedSize(rs, s, job);
  }

  lemma ScoutedSize(rs: ReplicaSet, s: Store, job: Job)
    requires Scouted(rs, s, job)
    ensures job.first == Count(rs, s) < rs.replicas
    ensures PassSize(rs, job.first, job.targets) == PassSize(rs, Count(rs, s), Targets(rs, s))
  {
    ScoutedTargets(rs, s, job);
  }

  /** and any other set counts every one of them: a pass that succeeds makes the count grow
      exactly if the selector does and there is a node to replicate to. */
  lemma CountRaisedIff(rs: ReplicaSet, s: Store, grants: seq<Grant>, ph: Phase, s': Store)
    requires (ph, s') == Pass(rs, s, grants)
    requires ph.Finished? && ph.outcome.Scaled?
    ensures Count(rs, s) < rs.replicas
    ensures Count(rs, s') ==
            Count(rs, s) + if CountsReplicas(rs) then PassSize(rs, Count(rs, s), Targets(rs, s)) else 0
    ensures Count(rs, s') > Count(rs, s) <==> CountsReplicas(rs) && Targets(rs, s) != []
  {
    ScaledAdds(rs, s, grants, ph, s');
    AddedAreCounted(rs, s, Count(rs, s), PassSize(rs, Count(rs, s), Targets(rs, s)), s');
  }

  lemma {:induction false} MadeUnlabelled(
    rs: ReplicaSet, s: Store, first: nat, targets: seq<DataNode>, made: seq<Replica>)
    requires AreReplicas(rs, s.namespace, first, targets, made) && NewNames(s, made)
    ensures forall x | x in WithMade(s, made).dataPods && x !in s.dataPods ::
              WithMade(s, made).dataPods[x].labels == map[]
    ensures forall x | x in s.dataPods ::
              x in WithMade(s, made).dataPods && WithMade(s, made).dataPods[x] == s.dataPods[x]
  {
    if made != [] {
      AreReplicasPrefix(rs, s, first, targets, made);
      MadeUnlabelled(rs, s, first, targets, made[..|made| - 1]);
      assert IsReplica(rs, s.namespace, first, targets, |made| - 1, made[|made| - 1]);
      assert made[|made| - 1] in made;
    }
  }

  /** The node a pass finds its source on: the first owner of the source DataPod. */
  function SourceNode(rs: ReplicaSet, s: Store): Option<DataNode> {
    match GetDataPod(s, rs.sourcePod)
    case Ok(d) => if d.Owners() == [] then None else FindNode(s.nodes, d.Owners()[0].name)
    case Err(_) => None
  }

  /** The nodes a pass can replicate to. */
  function Targets(rs: ReplicaSet, s: Store): seq<DataNode> {
    match SourceNode(rs, s)
    case Some(node) => OtherNodes(s.nodes, node.uid)
    case None => []
  }

  lemma ScoutedTargets(rs: ReplicaSet, s: Store, job: Job)
    requires Scouted(rs, s, job)
    ensures SourceNode(rs, s) == Some(job.sourceNode) && job.targets == Targets(rs, s)
  {
  }

  /** Once the DataPod with the next index exists, a pass never completes and adds nothing. */
  lemma StuckPass(rs: ReplicaSet, s: Store, grants: seq<Grant>)
    requires ReplicaName(rs.uid, Count(rs, s)) in s.dataPods && Targets(rs, s) != []
    ensures var (ph, s') := Pass(rs, s, grants); s' == s && !(ph.Finished? && ph.outcome.Scaled?)
  {
    AbortShape(rs, s, grants);
    var (ph, s') := Pass(rs, s, grants);
    if s' != s || (ph.Finished? && ph.outcome.Scaled?) {
      var job: Job, tail: Tail :| Scouted(rs, s, job) && Shape(rs, s, job, tail, s');
      StuckShape(rs, s, job, tail, s');
    }
  }

  lemma StuckShape(rs: ReplicaSet, s: Store, job: Job, tail: Tail, s': Store)
    requires Scouted(rs, s, job) && Shape(rs, s, job, tail, s')
    requires ReplicaName(rs.uid, Count(rs, s)) in s.dataPods && Targets(rs, s) != []
    ensures s' == s && tail == NoTail
  {
    ScoutedTargets(rs, s, job);
    FirstIsNew(rs, s, job);
  }

  lemma FirstIsNew(rs: ReplicaSet, s: Store, job: Job)
    requires AreReplicas(rs, s.namespace, job.first, job.targets, job.made) && NewNames(s, job.made)
    ensures job.made != [] ==> ReplicaName(rs.uid, job.first) !in s.dataPods
  {
    AreNamed(rs, s, job.first, job.targets, job.made);
    assert job.made != [] ==> job.made[0] in job.made && job.made[0].dataPod.name == ReplicaName(rs.uid, job.first + 0);
  }

  lemma AddsNoReplica(rs: ReplicaSet, s: Store, first: nat, s': Store)
    requires Adds(rs, s, first, 0, s')
    ensures s'.dataPods == s.dataPods && |s'.claims| == |s.claims| + 1 && |s'.pods| == |s.pods| + 1
  {
    assert s'.dataPods.Keys == s.dataPods.Keys;
  }

  /** Without any other node, each pass that succeeds adds one source claim and one Pod. */
  lemma NodelessPass(rs: ReplicaSet, s: Store, grants: seq<Grant>, ph: Phase, s': Store)
    requires (ph, s') == Pass(rs, s, grants) && ph.Finished? && ph.outcome.Scaled?
    requires Targets(rs, s) == []
    ensures s'.dataPods == s.dataPods && |s'.claims| == |s.claims| + 1 && |s'.pods| == |s.pods| + 1
  {
    var job := OnePassAllocation(rs, s, grants, ph, s');
    ScoutedTargets(rs, s, job);
    AddsNoReplica(rs, s, job.first, s');
  }
}
