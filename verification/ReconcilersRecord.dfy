/** What the record of a run says of its passes and of its sync Pods, whatever names are used
    again and whatever is deleted. */
module ReconcilersRecord {
  import opened Cluster
  import opened DataPodController
  import opened Reconcilers
  import opened ReconcilersBounds
  import opened ReplicaSetController
  import opened ReplicaSetTheorems
  import opened VolumeContext

  /** A version that had an owner. */
  predicate Held(h: History, d: DataPod) {
    d in h.seen && d.Owners() != []
  }

  /** The claim asks for the DataPod of this name, mounted read-write through FUSE. */
  predicate ClaimFor(namespace: string, c: Claim, name: string) {
    && NODE_NAME in c.annotations
    && c.annotations == Annotations(DataMount(c.annotations[NODE_NAME], namespace, name, namespace, FuseReadWrite))
  }

  predicate ReplicaHeld(h: History, namespace: string, r: Replica) {
    Held(h, r.dataPod) && r.claim in h.seenClaims && ClaimFor(namespace, r.claim, r.dataPod.name)
  }

  predicate JobHeld(h: History, namespace: string, job: Job) {
    && Held(h, job.source)
    && forall r | r in job.made :: ReplicaHeld(h, namespace, r)
  }

  predicate SetPassHeld(h: History, namespace: string, ph: Phase) {
    match ph
    case GettingSourceNode(_, source) => Held(h, source)
    case ListingOthers(_, source, _) => Held(h, source)
    case CreatingDataPod(_, _, job) => JobHeld(h, namespace, job)
    case CreatingClaim(_, _, _, d, job) => Held(h, d) && JobHeld(h, namespace, job)
    case CreatingSourceClaim(job) => JobHeld(h, namespace, job)
    case CreatingPod(c, job) =>
      JobHeld(h, namespace, job) && c in h.seenClaims && ClaimFor(namespace, c, job.source.name)
    case _ => true
  }

  /** A mount of a sync Pod: it was made for a version of a DataPod that had an owner, at that
      version's path, through a claim that asks for this DataPod. */
  predicate Backs(h: History, namespace: string, d: DataPod, c: Claim, claimName: string, path: string) {
    && Held(h, d) && c in h.seenClaims
    && c.name == claimName && ClaimFor(namespace, c, d.name)
    && path == PathOf(d)
  }

  ghost predicate MountBacked(h: History, namespace: string, claimName: string, path: string) {
    exists d, c :: Backs(h, namespace, d, c, claimName, path)
  }

  ghost predicate PodBacked(h: History, namespace: string, p: Pod) {
    p.SyncPod? ==>
      && |p.volumes| == |p.mounts|
      && forall i | 0 <= i < |p.mounts| :: MountBacked(h, namespace, p.volumes[i].claimName, p.mounts[i].mountPath)
  }

  predicate Recorded(h: History, v: DataPod) {
    v.name in h.born && (v.Owners() != [] ==> v.name in h.adopted)
  }

  /** The record agrees with itself, */
  predicate DataPodsRecorded(h: History) {
    && (forall v | v in h.seen :: Recorded(h, v))
    && (forall x | x in h.born :: h.born[x].name == x && h.born[x] in h.seen)
    && h.adopted <= h.born.Keys
  }

  predicate ClaimsRecorded(h: History, s: Store) {
    && (forall x | x in s.claims :: s.claims[x].name == x && s.claims[x] in h.seenClaims)
    && (forall x | x in h.claimed :: h.claimed[x].name == x && h.claimed[x] in h.seenClaims)
    && (forall c | c in h.seenClaims :: c.name in h.claimed)
  }

  /** and with the passes and the Pods. */
  ghost predicate RecordInv(sys: System) {
    && DataPodsRecorded(sys.history)
    && ClaimsRecorded(sys.history, sys.store)
    && (forall p | p in sys.setPasses :: SetPassHeld(sys.history, sys.store.namespace, p.phase))
    && (forall x | x in sys.store.pods :: PodBacked(sys.history, sys.store.namespace, sys.store.pods[x]))
  }

  /** The record grows. */
  predicate Grows(h: History, h': History) {
    && h.seen <= h'.seen
    && (forall x | x in h.born :: x in h'.born && h'.born[x] == h.born[x])
    && h.adopted <= h'.adopted
    && h.seenClaims <= h'.seenClaims
    && (forall x | x in h.claimed :: x in h'.claimed && h'.claimed[x] == h.claimed[x])
  }

  lemma ObserveGrows(h: History, s: Store)
    ensures Grows(h, Observe(h, s))
  {
  }

  lemma SetPassStaysHeld(h: History, h': History, namespace: string, ph: Phase)
    requires Grows(h, h') && SetPassHeld(h, namespace, ph)
    ensures SetPassHeld(h', namespace, ph)
  {
  }

  lemma PodStaysBacked(h: History, h': History, namespace: string, p: Pod)
    requires Grows(h, h') && PodBacked(h, namespace, p)
    ensures PodBacked(h', namespace, p)
  {
    if p.SyncPod? {
      forall i | 0 <= i < |p.mounts|
        ensures MountBacked(h', namespace, p.volumes[i].claimName, p.mounts[i].mountPath)
      {
        assert MountBacked(h, namespace, p.volumes[i].claimName, p.mounts[i].mountPath);
        var d, c :| Backs(h, namespace, d, c, p.volumes[i].claimName, p.mounts[i].mountPath);
        assert Backs(h', namespace, d, c, p.volumes[i].claimName, p.mounts[i].mountPath);
      }
    }
  }

  /** The record of the DataPods. */
  lemma StepKeepsDataPods(sys: System, a: Action)
    requires SoundInv(sys) && Enabled(sys, a) && DataPodsRecorded(sys.history)
    ensures DataPodsRecorded(Apply(sys, a).history)
  {
    var h, s' := sys.history, Apply(sys, a).store;
    var h' := Observe(h, s');
    ObserveGrows(h, s');
    StepKeepsSound(sys, a);
    forall v | v in h'.seen ensures Recorded(h', v) {
      if v in h.seen {
        assert Recorded(h, v);
      } else {
        var x :| x in s'.dataPods && s'.dataPods[x] == v;
        assert Stored(Apply(sys, a), x);
      }
    }
    forall x | x in h'.born ensures h'.born[x].name == x && h'.born[x] in h'.seen {
      if x !in h.born {
        assert Stored(Apply(sys, a), x);
      }
    }
  }

  /** The record of the claims. */
  lemma SetCallClaims(rs: ReplicaSet, ph: Phase, s: Store, g: Grant, x: string)
    requires x in Step(rs, ph, s, g).1.claims
    ensures (x in s.claims && Step(rs, ph, s, g).1.claims[x] == s.claims[x])
            || (x !in s.claims && Step(rs, ph, s, g).1.claims[x].name == x == ClaimName(rs, g.suffix))
  {
  }

  lemma PodCallClaims(ph: PodPhase, s: Store, g: Grant)
    ensures PodStep(ph, s, g).1.claims == s.claims && PodStep(ph, s, g).1.pods == s.pods
    ensures PodStep(ph, s, g).1.namespace == s.namespace
  {
  }

  /** A claim in the store after an action was there before, or its name was free. */
  lemma StepClaims(sys: System, a: Action, x: string)
    requires Enabled(sys, a) && x in NewStore(sys, a).claims
    ensures var c := NewStore(sys, a).claims[x];
            if x in sys.store.claims then c == sys.store.claims[x] else c.name == x
  {
    match a
    case CallOfSetPass(i, g) => SetCallClaims(sys.setPasses[i].rs, sys.setPasses[i].phase, sys.store, g, x);
    case CallOfPodPass(i, g) => PodCallClaims(sys.podPasses[i], sys.store, g);
    case _ =>
  }

  lemma StepKeepsClaims(sys: System, a: Action)
    requires Enabled(sys, a) && ClaimsRecorded(sys.history, sys.store)
    ensures ClaimsRecorded(Apply(sys, a).history, Apply(sys, a).store)
  {
    var h, s' := sys.history, NewStore(sys, a);
    var h' := Observe(h, s');
    forall x | x in s'.claims ensures s'.claims[x].name == x && s'.claims[x] in h'.seenClaims {
      StepClaims(sys, a, x);
    }
  }

  /** What a pass holds after its next call. */
  lemma DriverClaim(rs: ReplicaSet, d: DataPod, node: DataNode, namespace: string, g: Grant)
    ensures ClaimFor(namespace, ReplicaClaim(rs, d, node, namespace, g), d.name)
  {
    KeysDistinct();
  }

  lemma ScoutHolds(sys: System, rs: ReplicaSet, ph: Phase, g: Grant)
    requires SoundInv(sys) && SetPassHeld(sys.history, sys.store.namespace, ph)
    requires ph.ListingPods? || ph.GettingSource? || ph.GettingSourceNode? || ph.ListingOthers? || ph.Finished?
    ensures SetPassHeld(sys.history, sys.store.namespace, Step(rs, ph, sys.store, g).0)
  {
    if ph.GettingSource? && rs.sourcePod in sys.store.dataPods {
      assert Stored(sys, rs.sourcePod);
    }
  }

  lemma DataPodCallHolds(h: History, rs: ReplicaSet, ph: Phase, s: Store, g: Grant)
    requires ph.CreatingDataPod? && SetPassHeld(h, s.namespace, ph)
    ensures var (ph', s') := Step(rs, ph, s, g); SetPassHeld(Observe(h, s'), s.namespace, ph')
  {
    ObserveGrows(h, Step(rs, ph, s, g).1);
    if ph.nodes != [] {
      var d := ReplicaDataPod(rs, ph.index, ph.nodes[|ph.nodes| - 1], s.namespace, g.uid);
      assert d.Owners() != [];
      if d.name !in s.dataPods {
        assert Step(rs, ph, s, g).1.dataPods[d.name] == d;
      }
    }
  }

  lemma ClaimCallHolds(h: History, rs: ReplicaSet, ph: Phase, s: Store, g: Grant)
    requires ph.CreatingClaim? && SetPassHeld(h, s.namespace, ph)
    ensures var (ph', s') := Step(rs, ph, s, g); SetPassHeld(Observe(h, s'), s.namespace, ph')
  {
    var s' := Step(rs, ph, s, g).1;
    ObserveGrows(h, s');
    var c := ReplicaClaim(rs, ph.dataPod, ph.node, s.namespace, g);
    DriverClaim(rs, ph.dataPod, ph.node, s.namespace, g);
    if c.name !in s.claims {
      assert s'.claims[c.name] == c;
      assert ReplicaHeld(Observe(h, s'), s.namespace, Replica(ph.dataPod, c));
    }
  }

  lemma EndCallHolds(h: History, rs: ReplicaSet, ph: Phase, s: Store, g: Grant)
    requires (ph.CreatingSourceClaim? || ph.CreatingPod?) && SetPassHeld(h, s.namespace, ph)
    ensures var (ph', s') := Step(rs, ph, s, g); SetPassHeld(Observe(h, s'), s.namespace, ph')
  {
    var s' := Step(rs, ph, s, g).1;
    ObserveGrows(h, s');
    if ph.CreatingSourceClaim? {
      var c := ReplicaClaim(rs, ph.job.source, ph.job.sourceNode, s.namespace, g);
      DriverClaim(rs, ph.job.source, ph.job.sourceNode, s.namespace, g);
      if c.name !in s.claims {
        assert s'.claims[c.name] == c;
      }
    }
  }

  lemma SetCallHolds(sys: System, rs: ReplicaSet, ph: Phase, g: Grant)
    requires SoundInv(sys) && SetPassHeld(sys.history, sys.store.namespace, ph)
    ensures var (ph', s') := Step(rs, ph, sys.store, g);
            SetPassHeld(Observe(sys.history, s'), sys.store.namespace, ph')
  {
    match ph
    case CreatingDataPod(_, _, _) => DataPodCallHolds(sys.history, rs, ph, sys.store, g);
    case CreatingClaim(_, _, _, _, _) => ClaimCallHolds(sys.history, rs, ph, sys.store, g);
    case CreatingSourceClaim(_) => EndCallHolds(sys.history, rs, ph, sys.store, g);
    case CreatingPod(_, _) => EndCallHolds(sys.history, rs, ph, sys.store, g);
    case _ =>
      ScoutHolds(sys, rs, ph, g);
      var (ph', s') := Step(rs, ph, sys.store, g);
      ObserveGrows(sys.history, s');
      SetPassStaysHeld(sys.history, Observe(sys.history, s'), sys.store.namespace, ph');
  }

  lemma StepKeepsSetPasses(sys: System, a: Action, p: SetPass)
    requires SoundInv(sys) && Enabled(sys, a) && p in NewSetPasses(sys, a)
    requires forall q | q in sys.setPasses :: SetPassHeld(sys.history, sys.store.namespace, q.phase)
    ensures SetPassHeld(Apply(sys, a).history, sys.store.namespace, p.phase)
  {
    var s' := NewStore(sys, a);
    ObserveGrows(sys.history, s');
    if p in sys.setPasses {
      SetPassStaysHeld(sys.history, Observe(sys.history, s'), sys.store.namespace, p.phase);
    } else if a.CallOfSetPass? {
      assert sys.setPasses[a.i] in sys.setPasses;
      SetCallHolds(sys, sys.setPasses[a.i].rs, sys.setPasses[a.i].phase, a.g);
    }
  }

  /** A new sync Pod. */
  lemma PartsBacked(h: History, namespace: string, p: Pod, c: Claim, job: Job)
    requires JobHeld(h, namespace, job) && c in h.seenClaims && ClaimFor(namespace, c, job.source.name)
    requires p.SyncPod? && |p.volumes| == |p.mounts| == |job.made| + 1
    requires p.volumes[0].claimName == c.name && p.mounts[0].mountPath == PathOf(job.source)
    requires forall j | 0 <= j < |job.made| ::
               && p.volumes[j + 1].claimName == job.made[j].claim.name
               && p.mounts[j + 1].mountPath == PathOf(job.made[j].dataPod)
    ensures PodBacked(h, namespace, p)
  {
    forall i | 0 <= i < |p.mounts| ensures MountBacked(h, namespace, p.volumes[i].claimName, p.mounts[i].mountPath) {
      if i == 0 {
        assert Backs(h, namespace, job.source, c, p.volumes[0].claimName, p.mounts[0].mountPath);
      } else {
        var r := job.made[i - 1];
        assert ReplicaHeld(h, namespace, r);
        assert p.volumes[(i - 1) + 1].claimName == r.claim.name;
        assert Backs(h, namespace, r.dataPod, r.claim, p.volumes[i].claimName, p.mounts[i].mountPath);
      }
    }
  }

  lemma SetCallPods(h: History, rs: ReplicaSet, ph: Phase, s: Store, g: Grant, x: string)
    requires SetPassHeld(h, s.namespace, ph) && x in Step(rs, ph, s, g).1.pods
    ensures (x in s.pods && Step(rs, ph, s, g).1.pods[x] == s.pods[x])
            || PodBacked(h, s.namespace, Step(rs, ph, s, g).1.pods[x])
  {
    if ph.CreatingPod? {
      var c, job := ph.sourceClaim, ph.job;
      SyncPodParts(rs, PathOf(job.source), c, job.made, g.suffix);
      PartsBacked(h, s.namespace, SyncPodFor(rs, PathOf(job.source), c, job.made, g.suffix), c, job);
    }
  }

  lemma StepKeepsPods(sys: System, a: Action, x: string)
    requires Enabled(sys, a) && RecordInv(sys) && x in NewStore(sys, a).pods
    ensures PodBacked(Apply(sys, a).history, sys.store.namespace, NewStore(sys, a).pods[x])
  {
    var h, s, s' := sys.history, sys.store, NewStore(sys, a);
    ObserveGrows(h, s');
    if a.CallOfSetPass? {
      assert sys.setPasses[a.i] in sys.setPasses;
      SetCallPods(h, sys.setPasses[a.i].rs, sys.setPasses[a.i].phase, s, a.g, x);
    } else if a.CallOfPodPass? {
      PodCallClaims(sys.podPasses[a.i], s, a.g);
    }
    PodStaysBacked(h, Observe(h, s'), s.namespace, s'.pods[x]);
  }

  lemma SetCallNamespace(rs: ReplicaSet, ph: Phase, s: Store, g: Grant)
    ensures Step(rs, ph, s, g).1.namespace == s.namespace
  {
  }

  lemma StepKeepsFrame(sys: System, a: Action)
    requires Enabled(sys, a)
    ensures Apply(sys, a).sets == sys.sets && Apply(sys, a).store.namespace == sys.store.namespace
  {
    match a
    case CallOfSetPass(i, g) => SetCallNamespace(sys.setPasses[i].rs, sys.setPasses[i].phase, sys.store, g);
    case CallOfPodPass(i, g) => PodCallClaims(sys.podPasses[i], sys.store, g);
    case _ =>
  }

  /** Every action keeps the record. */
  lemma StepKeepsRecord(sys: System, a: Action)
    requires SoundInv(sys) && RecordInv(sys) && Enabled(sys, a)
    ensures RecordInv(Apply(sys, a))
  {
    var sys' := Apply(sys, a);
    StepKeepsFrame(sys, a);
    StepKeepsDataPods(sys, a);
    StepKeepsClaims(sys, a);
    forall p | p in sys'.setPasses ensures SetPassHeld(sys'.history, sys'.store.namespace, p.phase) {
      StepKeepsSetPasses(sys, a, p);
    }
    forall x | x in sys'.store.pods ensures PodBacked(sys'.history, sys'.store.namespace, sys'.store.pods[x]) {
      StepKeepsPods(sys, a, x);
    }
  }

  lemma {:induction false} RunIsRecorded(run: seq<System>, acts: seq<Action>, i: nat)
    requires IsRun(run, acts) && i < |run|
    ensures SoundInv(run[i]) && RecordInv(run[i])
  {
    RunIsSound(run, acts, i);
    if i > 0 {
      RunIsRecorded(run, acts, i - 1);
      assert StepsAt(run, acts, i - 1);
      StepKeepsRecord(run[i - 1], acts[i - 1]);
    }
  }

  lemma GrowsTransitive(a: History, b: History, c: History)
    requires Grows(a, b) && Grows(b, c)
    ensures Grows(a, c)
  {
  }

  lemma {:induction false} RunGrows(run: seq<System>, acts: seq<Action>, i: nat, j: nat)
    requires IsRun(run, acts) && i <= j < |run|
    ensures Grows(run[i].history, run[j].history)
    ensures run[i].sets == run[j].sets && run[i].store.namespace == run[j].store.namespace
    decreases j - i
  {
    if i < j {
      RunGrows(run, acts, i, j - 1);
      assert StepsAt(run, acts, j - 1);
      ObserveGrows(run[j - 1].history, run[j].store);
      StepKeepsFrame(run[j - 1], acts[j - 1]);
      GrowsTransitive(run[i].history, run[j - 1].history, run[j].history);
    }
  }
}
