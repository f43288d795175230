/** Bindings under concurrency: a bound DataPod whose passes start from its latest version. */
module ReconcilersBinding {
  import opened Cluster
  import opened DataPodController
  import opened Reconcilers
  import opened ReconcilersBounds
  import opened ReplicaSetController

  predicate Bound(d: DataPod, node: string) {
    d.spec.nodeRef.Some? && d.spec.nodeRef.value.name == node
  }

  /** A pass under way that is for this DataPod leads to the node. */
  predicate PointsTo(ph: PodPhase, name: string, node: string) {
    match ph
    case Fetching(self) => self.name == name ==> Bound(self, node)
    case Locating(self, latest) => self.name == name ==> Bound(self, node)
    case Patching(self, latest, n) => latest.name == name ==> n.name == node
    case PodFinished(_) => true
  }

  predicate Keeps(sys: System, name: string, node: string) {
    && (name in sys.store.dataPods ==> Bound(sys.store.dataPods[name], node))
    && (forall ph | ph in sys.podPasses :: PointsTo(ph, name, node))
  }

  /** A pass for the DataPod starts from the stored version, and users make no other of its name. */
  predicate Latest(sys: System, a: Action, name: string) {
    match a
    case StartPodPass(self) => self.name == name ==> name in sys.store.dataPods && self == sys.store.dataPods[name]
    case UserCreatesDataPod(d) => d.name != name
    case _ => true
  }

  predicate LatestAt(run: seq<System>, acts: seq<Action>, k: nat, name: string)
    requires k < |acts| && |run| == |acts| + 1
  {
    Latest(run[k], acts[k], name)
  }

  lemma PodCallLeads(s: Store, ph: PodPhase, g: Grant, h: History, name: string, node: string)
    requires PointsTo(ph, name, node) && HoldsSeen(h, ph)
    requires forall x | x in s.dataPods :: s.dataPods[x].name == x
    ensures PointsTo(PodStep(ph, s, g).0, name, node)
  {
  }

  lemma PodCallKeepsBound(s: Store, ph: PodPhase, g: Grant, name: string, node: string)
    requires PointsTo(ph, name, node)
    requires name in s.dataPods ==> Bound(s.dataPods[name], node)
    ensures name in PodStep(ph, s, g).1.dataPods ==> Bound(PodStep(ph, s, g).1.dataPods[name], node)
  {
  }

  lemma SetCallKeepsBound(sets: set<ReplicaSet>, rs: ReplicaSet, ph: Phase, s: Store, g: Grant, name: string)
    requires rs in sets && !Reserved(sets, name) && g.uid != ""
    ensures !Changed(s, Step(rs, ph, s, g).1, name)
  {
    if Changed(s, Step(rs, ph, s, g).1, name) {
      SetCallMakesSound(rs, ph, s, g, name);
      assert IsReplicaName(name, rs, ph.index);
    }
  }

  lemma StepKeepsStored(sys: System, a: Action, name: string, node: string)
    requires SoundInv(sys) && Enabled(sys, a) && Keeps(sys, name, node)
    requires !Reserved(sys.sets, name) && Latest(sys, a, name)
    requires forall p | p in sys.setPasses :: p.rs in sys.sets
    ensures name in Apply(sys, a).store.dataPods ==> Bound(Apply(sys, a).store.dataPods[name], node)
  {
    match a
    case CallOfSetPass(i, g) =>
      assert sys.setPasses[i] in sys.setPasses;
      SetCallKeepsBound(sys.sets, sys.setPasses[i].rs, sys.setPasses[i].phase, sys.store, g, name);
    case CallOfPodPass(i, g) => PodCallKeepsBound(sys.store, sys.podPasses[i], g, name, node);
    case _ =>
  }

  lemma StepKeepsPasses(sys: System, a: Action, name: string, node: string, ph: PodPhase)
    requires SoundInv(sys) && Enabled(sys, a) && Keeps(sys, name, node) && Latest(sys, a, name)
    requires ph in Apply(sys, a).podPasses
    ensures PointsTo(ph, name, node)
  {
    match a
    case CallOfPodPass(i, g) =>
      if ph !in sys.podPasses {
        assert sys.podPasses[i] in sys.podPasses;
        assert forall x | x in sys.store.dataPods :: Stored(sys, x);
        PodCallLeads(sys.store, sys.podPasses[i], g, sys.history, name, node);
      }
    case _ =>
  }

  /** Once a DataPod is bound, and no pass under way leads elsewhere, it is bound to a node of
      that name for as long as it is there, whatever other passes and users do: if only its
      own passes start from the version that is stored when they start. */
  lemma {:induction false} BindingSticks(
    run: seq<System>, acts: seq<Action>, i: nat, j: nat, name: string, node: string)
    requires IsRun(run, acts) && i <= j < |run|
    requires !Reserved(run[i].sets, name) && Keeps(run[i], name, node)
    requires forall k: nat | i <= k < j :: LatestAt(run, acts, k, name)
    ensures Keeps(run[j], name, node)
    decreases j
  {
    if i < j {
      BindingSticks(run, acts, i, j - 1, name, node);
      var sys, a := run[j - 1], acts[j - 1];
      assert StepsAt(run, acts, j - 1) && LatestAt(run, acts, j - 1, name);
      RunIsSound(run, acts, j - 1);
      SetPassesAreOfSets(run, acts, i);
      SetPassesAreOfSets(run, acts, j - 1);
      StepKeepsStored(sys, a, name, node);
      forall ph | ph in Apply(sys, a).podPasses ensures PointsTo(ph, name, node) {
        StepKeepsPasses(sys, a, name, node, ph);
      }
    }
  }
}
