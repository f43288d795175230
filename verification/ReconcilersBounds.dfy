/** What needs no assumption about names: users may delete objects and create others under the
    same names, suffixes may clash, snapshots may be of objects long gone. */
module ReconcilersBounds {
  import opened Cluster
  import opened DataPodController
  import opened Reconcilers
  import opened ReplicaSetController
  import opened ReplicaSetTheorems
  import opened Text
  import opened Wrappers

  predicate Sound(v: DataPod) {
    v.uid != "" && (v.Owners() != [] ==> GoodPath(v.spec.path))
  }

  lemma SettledIsGood(d: DataPod)
    requires d.uid != ""
    ensures GoodPath(Some(Settled(d)))
  {
    assert |"/" + d.uid| > 1;
  }

  /** What a pod pass holds has been in the store. */
  predicate HoldsSeen(h: History, ph: PodPhase) {
    match ph
    case Fetching(self) => self in h.seen
    case Locating(self, latest) => self in h.seen && latest in h.seen && latest.name == self.name
    case Patching(self, latest, _) => self in h.seen && latest in h.seen && latest.name == self.name
    case PodFinished(_) => true
  }

  predicate Stored(sys: System, name: string)
    requires name in sys.store.dataPods
  {
    sys.store.dataPods[name].name == name && sys.store.dataPods[name] in sys.history.seen
  }

  /** Every version ever seen is sound. */
  predicate SoundInv(sys: System) {
    && (forall v | v in sys.history.seen :: Sound(v))
    && (forall x | x in sys.store.dataPods :: Stored(sys, x))
    && (forall ph | ph in sys.podPasses :: HoldsSeen(sys.history, ph))
  }

  /** A DataPod that an action changed or created. */
  predicate Changed(s: Store, s': Store, name: string) {
    name in s'.dataPods && !(name in s.dataPods && s'.dataPods[name] == s.dataPods[name])
  }

  /** An action makes sound DataPods only, under their own names. */
  lemma SetCallMakesSound(rs: ReplicaSet, ph: Phase, s: Store, g: Grant, name: string)
    requires g.uid != "" && Changed(s, Step(rs, ph, s, g).1, name)
    ensures ph.CreatingDataPod? && name == ReplicaName(rs.uid, ph.index)
    ensures var d := Step(rs, ph, s, g).1.dataPods[name]; Sound(d) && d.name == name
  {
    assert ph.CreatingDataPod? ==> |ReplicaPath(ph.index)| > 1;
  }

  lemma PatchMakesSound(self: DataPod, latest: DataPod, node: DataNode, s: Store, g: Grant, name: string)
    requires Sound(self) && g.uid != "" && Changed(s, PodStep(Patching(self, latest, node), s, g).1, name)
    requires latest.name in s.dataPods ==>
               s.dataPods[latest.name].uid != "" && s.dataPods[latest.name].name == latest.name
    ensures name == latest.name
    ensures var d := PodStep(Patching(self, latest, node), s, g).1.dataPods[name]; Sound(d) && d.name == name
  {
    SettledIsGood(self);
  }

  lemma ActionMakesSound(sys: System, a: Action, name: string)
    requires SoundInv(sys) && Enabled(sys, a) && Changed(sys.store, Apply(sys, a).store, name)
    ensures var d := Apply(sys, a).store.dataPods[name]; Sound(d) && d.name == name
  {
    var s := sys.store;
    match a
    case CallOfSetPass(i, g) => SetCallMakesSound(sys.setPasses[i].rs, sys.setPasses[i].phase, s, g, name);
    case CallOfPodPass(i, g) =>
      var ph := sys.podPasses[i];
      if ph.Patching? {
        assert HoldsSeen(sys.history, ph);
        assert ph.latest.name in s.dataPods ==> Stored(sys, ph.latest.name);
        PatchMakesSound(ph.self, ph.latest, ph.node, s, g, name);
      }
    case UserRelabels(x, _) => assert Stored(sys, x);
    case _ =>
  }

  /** What a pass holds after its next call has been in the store, too. */
  lemma PodCallHoldsSeen(sys: System, ph: PodPhase, g: Grant)
    requires SoundInv(sys) && HoldsSeen(sys.history, ph)
    ensures HoldsSeen(sys.history, PodStep(ph, sys.store, g).0)
  {
    if ph.Fetching? && ph.self.name in sys.store.dataPods {
      assert Stored(sys, ph.self.name);
    }
  }

  lemma PodPassesHoldSeen(sys: System, a: Action, ph: PodPhase)
    requires SoundInv(sys) && Enabled(sys, a) && ph in Apply(sys, a).podPasses
    ensures HoldsSeen(sys.history, ph)
  {
    if a.CallOfPodPass? && ph !in sys.podPasses {
      PodCallHoldsSeen(sys, sys.podPasses[a.i], a.g);
    }
  }

  /** A version that an action brings is that of a DataPod it changed. */
  lemma SeenOrChanged(sys: System, a: Action, v: DataPod) returns (name: string)
    requires SoundInv(sys) && v in Apply(sys, a).history.seen && v !in sys.history.seen
    ensures Changed(sys.store, Apply(sys, a).store, name) && Apply(sys, a).store.dataPods[name] == v
  {
    name :| name in Apply(sys, a).store.dataPods && Apply(sys, a).store.dataPods[name] == v;
    assert name in sys.store.dataPods ==> Stored(sys, name);
  }

  lemma StepStores(sys: System, a: Action, name: string)
    requires SoundInv(sys) && Enabled(sys, a) && name in Apply(sys, a).store.dataPods
    ensures Stored(Apply(sys, a), name)
  {
    if Changed(sys.store, Apply(sys, a).store, name) {
      ActionMakesSound(sys, a, name);
    } else {
      assert Stored(sys, name);
    }
  }

  lemma StepKeepsSound(sys: System, a: Action)
    requires SoundInv(sys) && Enabled(sys, a)
    ensures SoundInv(Apply(sys, a))
  {
    var sys' := Apply(sys, a);
    forall v | v in sys'.history.seen ensures Sound(v) {
      if v !in sys.history.seen {
        var name := SeenOrChanged(sys, a, v);
        ActionMakesSound(sys, a, name);
      }
    }
    forall x | x in sys'.store.dataPods ensures Stored(sys', x) {
      StepStores(sys, a, x);
    }
    forall ph | ph in sys'.podPasses ensures HoldsSeen(sys'.history, ph) {
      PodPassesHoldSeen(sys, a, ph);
    }
  }

  lemma {:induction false} RunIsSound(run: seq<System>, acts: seq<Action>, i: nat)
    requires IsRun(run, acts) && i < |run|
    ensures SoundInv(run[i])
  {
    if i > 0 {
      RunIsSound(run, acts, i - 1);
      assert StepsAt(run, acts, i - 1);
      StepKeepsSound(run[i - 1], acts[i - 1]);
    }
  }

  /** Whatever users and passes do, a DataPod with an owner has a path, and it is neither empty
      nor the root. */
  lemma OwnedPathsAreGood(run: seq<System>, acts: seq<Action>, i: nat, name: string)
    requires IsRun(run, acts) && i < |run|
    requires name in run[i].store.dataPods && run[i].store.dataPods[name].Owners() != []
    ensures var path := run[i].store.dataPods[name].spec.path; path.Some? && path.value != "" && path.value != "/"
  {
    RunIsSound(run, acts, i);
    assert Stored(run[i], name);
  }

  lemma SetPassesOfSets(sys: System, a: Action)
    requires Enabled(sys, a) && forall p | p in sys.setPasses :: p.rs in sys.sets
    ensures forall p | p in NewSetPasses(sys, a) :: p.rs in sys.sets
  {
    if a.CallOfSetPass? {
      assert sys.setPasses[a.i] in sys.setPasses;
    }
  }

  lemma {:induction false} SetPassesAreOfSets(run: seq<System>, acts: seq<Action>, i: nat)
    requires IsRun(run, acts) && i < |run|
    ensures run[i].sets == run[0].sets && forall p | p in run[i].setPasses :: p.rs in run[i].sets
  {
    if i > 0 {
      SetPassesAreOfSets(run, acts, i - 1);
      assert StepsAt(run, acts, i - 1);
      SetPassesOfSets(run[i - 1], acts[i - 1]);
    }
  }

  /** The names of replicas. */
  predicate IndexOk(p: SetPass) {
    p.phase.CreatingDataPod? ==> p.phase.index < p.rs.replicas
  }

  predicate UidsDiffer(sets: set<ReplicaSet>) {
    forall a, b | a in sets && b in sets && a.uid == b.uid :: a == b
  }

  ghost predicate BoundInv(sys: System) {
    && UidsDiffer(sys.sets)
    && (forall v | v in sys.history.seen :: !Oversteps(sys.sets, v.name))
    && (forall p | p in sys.setPasses :: p.rs in sys.sets && IndexOk(p))
  }

  /** A replica name within the bounds of its own set is within those of all. */
  lemma OwnNameInBounds(sets: set<ReplicaSet>, rs: ReplicaSet, index: nat)
    requires UidsDiffer(sets) && rs in sets && index < rs.replicas
    ensures !Oversteps(sets, ReplicaName(rs.uid, index))
  {
    forall rs', i: nat | rs' in sets && IsReplicaName(ReplicaName(rs.uid, index), rs', i) ensures i < rs'.replicas {
      ReplicaNamesDistinct(rs.uid, index, rs'.uid, i);
    }
  }

  lemma SetCallKeepsIndex(rs: ReplicaSet, ph: Phase, s: Store, g: Grant)
    ensures IndexOk(SetPass(rs, Step(rs, ph, s, g).0))
  {
  }

  lemma ActionInBounds(sys: System, a: Action, name: string)
    requires SoundInv(sys) && BoundInv(sys) && Enabled(sys, a) && InBounds(sys, a)
    requires Changed(sys.store, Apply(sys, a).store, name)
    ensures !Oversteps(sys.sets, Apply(sys, a).store.dataPods[name].name)
  {
    ActionMakesSound(sys, a, name);
    match a
    case CallOfSetPass(i, g) =>
      var p := sys.setPasses[i];
      assert p in sys.setPasses;
      SetCallMakesSound(p.rs, p.phase, sys.store, g, name);
      OwnNameInBounds(sys.sets, p.rs, p.phase.index);
    case CallOfPodPass(i, g) =>
      var ph := sys.podPasses[i];
      assert ph in sys.podPasses && HoldsSeen(sys.history, ph);
    case UserRelabels(x, _) => assert Stored(sys, x);
    case _ =>
  }

  lemma StepKeepsBound(sys: System, a: Action)
    requires SoundInv(sys) && BoundInv(sys) && Enabled(sys, a) && InBounds(sys, a)
    ensures BoundInv(Apply(sys, a))
  {
    var sys' := Apply(sys, a);
    forall v | v in sys'.history.seen ensures !Oversteps(sys.sets, v.name) {
      if v !in sys.history.seen {
        var name := SeenOrChanged(sys, a, v);
        ActionInBounds(sys, a, name);
      }
    }
    SetPassesKeepIndex(sys, a);
  }

  lemma SetPassesKeepIndex(sys: System, a: Action)
    requires Enabled(sys, a) && forall p | p in sys.setPasses :: p.rs in sys.sets && IndexOk(p)
    ensures forall p | p in Apply(sys, a).setPasses :: p.rs in sys.sets && IndexOk(p)
  {
    match a
    case CallOfSetPass(i, g) =>
      assert sys.setPasses[i] in sys.setPasses;
      SetCallKeepsIndex(sys.setPasses[i].rs, sys.setPasses[i].phase, sys.store, g);
    case _ =>
  }

  lemma {:induction false} RunIsBounded(run: seq<System>, acts: seq<Action>, i: nat)
    requires IsRun(run, acts) && RunInBounds(run, acts) && i < |run|
    ensures SoundInv(run[i]) && BoundInv(run[i])
  {
    RunIsSound(run, acts, i);
    if i > 0 {
      RunIsBounded(run, acts, i - 1);
      assert StepsAt(run, acts, i - 1);
      StepKeepsBound(run[i - 1], acts[i - 1]);
    }
  }

  /** The DataPods that hold names of replicas of the set. */
  ghost predicate NamesReplica(rs: ReplicaSet, name: string) {
    exists i: nat :: IsReplicaName(name, rs, i)
  }

  ghost function LiveReplicas(rs: ReplicaSet, s: Store): set<string> {
    set x | x in s.dataPods && NamesReplica(rs, x) :: x
  }

  lemma SubsetSize(a: set<string>, b: set<string>)
    requires a <= b
    ensures |a| <= |b|
  {
    assert b == a + (b - a);
    assert |b| == |a| + |b - a|;
  }

  /** As long as users name no DataPod like a replica that a set is too small to have, no set
      ever has more than `replicas` live replica DataPods, all of their indices are below that,
      and no DataPod is a replica of two sets. */
  lemma ReplicaBound(run: seq<System>, acts: seq<Action>, i: nat, rs: ReplicaSet)
    requires IsRun(run, acts) && RunInBounds(run, acts) && i < |run| && rs in run[i].sets
    ensures |LiveReplicas(rs, run[i].store)| <= rs.replicas
    ensures forall index: nat | ReplicaName(rs.uid, index) in run[i].store.dataPods :: index < rs.replicas
    ensures forall rs' | rs' in run[i].sets && rs' != rs ::
              LiveReplicas(rs, run[i].store) !! LiveReplicas(rs', run[i].store)
  {
    RunIsBounded(run, acts, i);
    var s := run[i].store;
    forall index: nat | ReplicaName(rs.uid, index) in s.dataPods ensures index < rs.replicas {
      assert Stored(run[i], ReplicaName(rs.uid, index));
      assert IsReplicaName(ReplicaName(rs.uid, index), rs, index);
    }
    forall x | x in LiveReplicas(rs, s) ensures x in NamesFrom(rs, 0, rs.replicas) {
      var index: nat :| IsReplicaName(x, rs, index);
      NamesFromMeaning(rs, 0, rs.replicas, index);
    }
    NamesFromCount(rs, 0, rs.replicas);
    SubsetSize(LiveReplicas(rs, s), NamesFrom(rs, 0, rs.replicas));
    forall rs', x | rs' in run[i].sets && x in LiveReplicas(rs, s) && x in LiveReplicas(rs', s) ensures rs' == rs {
      var a: nat :| IsReplicaName(x, rs, a);
      var b: nat :| IsReplicaName(x, rs', b);
      ReplicaNamesDistinct(rs.uid, a, rs'.uid, b);
    }
  }
}
