/** What the record says of the DataPods of one name and the claims of one name, from what
    happens to that one name alone. */
module ReconcilersNames {
  import opened Cluster
  import opened DataPodController
  import opened Reconcilers
  import opened ReconcilersBounds
  import opened ReconcilersRecord
  import opened ReplicaSetController
  import opened Wrappers

  /** A DataPod is created under a name that an earlier one had. */
  predicate Returns(sys: System, a: Action, name: string) {
    name in sys.history.born && name !in sys.store.dataPods && name in NewStore(sys, a).dataPods
  }

  /** If so, by a patch, or with an owner and the path that the first one settles on. */
  predicate ReturnsAlike(sys: System, a: Action, name: string) {
    Returns(sys, a, name) && !a.CallOfPodPass? ==>
      var d := NewStore(sys, a).dataPods[name];
      d.Owners() != [] && Settled(d) == Settled(sys.history.born[name])
  }

  /** If so, by a patch. */
  predicate ReturnsByPatch(sys: System, a: Action, name: string) {
    Returns(sys, a, name) ==> a.CallOfPodPass?
  }

  /** No claim is created under a name that an earlier one had. */
  predicate ClaimStays(sys: System, a: Action, name: string) {
    name in sys.history.claimed && name !in sys.store.claims ==> name !in NewStore(sys, a).claims
  }

  /** Every version settles on the path of the first, and stays owned. */
  predicate SettlesAlike(h: History, name: string, v: DataPod) {
    v.name == name && name in h.born ==> Settled(v) == Settled(h.born[name])
  }

  predicate StaysOwned(h: History, s: Store, name: string) {
    name in h.adopted && name in s.dataPods ==> s.dataPods[name].Owners() != []
  }

  predicate NameInv(sys: System, name: string) {
    && (forall v | v in sys.history.seen :: SettlesAlike(sys.history, name, v))
    && StaysOwned(sys.history, sys.store, name)
  }

  lemma PatchAlike(self: DataPod, latest: DataPod, node: DataNode, s: Store, g: Grant)
    requires self.uid != ""
    ensures var s' := PodStep(Patching(self, latest, node), s, g).1;
            && latest.name in s'.dataPods
            && Settled(s'.dataPods[latest.name]) == Settled(self)
            && s'.dataPods[latest.name].Owners() != []
  {
    SettledIsGood(self);
  }

  lemma SetCallCreates(rs: ReplicaSet, ph: Phase, s: Store, g: Grant, name: string)
    requires Changed(s, Step(rs, ph, s, g).1, name)
    ensures name !in s.dataPods
  {
  }

  /** A new version of a name that was used before. */
  lemma MadeAlike(sys: System, a: Action, name: string)
    requires SoundInv(sys) && Enabled(sys, a) && NameInv(sys, name) && ReturnsAlike(sys, a, name)
    requires name in sys.history.born && Changed(sys.store, NewStore(sys, a), name)
    ensures var d := NewStore(sys, a).dataPods[name];
            && Settled(d) == Settled(sys.history.born[name])
            && (name in sys.history.adopted ==> d.Owners() != [])
  {
    var s := sys.store;
    match a
    case CallOfSetPass(i, g) => SetCallCreates(sys.setPasses[i].rs, sys.setPasses[i].phase, s, g, name);
    case CallOfPodPass(i, g) =>
      var ph := sys.podPasses[i];
      assert ph in sys.podPasses && HoldsSeen(sys.history, ph);
      if ph.Patching? {
        assert Sound(ph.self) && SettlesAlike(sys.history, name, ph.self);
        PatchAlike(ph.self, ph.latest, ph.node, s, g);
      }
    case UserRelabels(x, _) => assert Stored(sys, x) && SettlesAlike(sys.history, name, s.dataPods[x]);
    case _ =>
  }

  lemma StepSettlesAlike(sys: System, a: Action, name: string, v: DataPod)
    requires SoundInv(sys) && DataPodsRecorded(sys.history) && Enabled(sys, a)
    requires NameInv(sys, name) && ReturnsAlike(sys, a, name)
    requires v in Apply(sys, a).history.seen
    ensures SettlesAlike(Apply(sys, a).history, name, v)
  {
    if v in sys.history.seen {
      assert SettlesAlike(sys.history, name, v) && Recorded(sys.history, v);
    } else if v.name == name {
      var x := SeenOrChanged(sys, a, v);
      ActionMakesSound(sys, a, x);
      if name in sys.history.born {
        MadeAlike(sys, a, name);
      }
    }
  }

  lemma StepStaysOwned(sys: System, a: Action, name: string)
    requires SoundInv(sys) && DataPodsRecorded(sys.history) && Enabled(sys, a)
    requires NameInv(sys, name) && ReturnsAlike(sys, a, name)
    ensures StaysOwned(Apply(sys, a).history, Apply(sys, a).store, name)
  {
    if name in sys.history.adopted && Changed(sys.store, NewStore(sys, a), name) {
      MadeAlike(sys, a, name);
    }
  }

  lemma StepKeepsName(sys: System, a: Action, name: string)
    requires SoundInv(sys) && DataPodsRecorded(sys.history) && Enabled(sys, a)
    requires NameInv(sys, name) && ReturnsAlike(sys, a, name)
    ensures NameInv(Apply(sys, a), name)
  {
    forall v | v in Apply(sys, a).history.seen ensures SettlesAlike(Apply(sys, a).history, name, v) {
      StepSettlesAlike(sys, a, name, v);
    }
    StepStaysOwned(sys, a, name);
  }

  /** Over runs: the name comes back, if at all, as what it was. */
  predicate NameStays(run: seq<System>, acts: seq<Action>, name: string)
    requires |run| == |acts| + 1
  {
    forall t: nat | t < |acts| :: ReturnsAlike(run[t], acts[t], name)
  }

  lemma {:induction false} RunKeepsName(run: seq<System>, acts: seq<Action>, i: nat, name: string)
    requires IsRun(run, acts) && NameStays(run, acts, name) && i < |run|
    ensures NameInv(run[i], name)
  {
    if i > 0 {
      RunKeepsName(run, acts, i - 1, name);
      RunIsRecorded(run, acts, i - 1);
      assert StepsAt(run, acts, i - 1) && ReturnsAlike(run[i - 1], acts[i - 1], name);
      StepKeepsName(run[i - 1], acts[i - 1], name);
    }
  }

  /** Every claim of the name is the first. */
  predicate OneClaim(h: History, name: string) {
    forall c | c in h.seenClaims && c.name == name :: name in h.claimed && c == h.claimed[name]
  }

  lemma StepKeepsClaim(sys: System, a: Action, name: string)
    requires Enabled(sys, a) && ClaimsRecorded(sys.history, sys.store)
    requires OneClaim(sys.history, name) && ClaimStays(sys, a, name)
    ensures OneClaim(Apply(sys, a).history, name)
  {
    var h, s' := sys.history, NewStore(sys, a);
    var h' := Observe(h, s');
    forall c | c in h'.seenClaims && c.name == name ensures name in h'.claimed && c == h'.claimed[name] {
      if c !in h.seenClaims {
        var x :| x in s'.claims && s'.claims[x] == c;
        StepClaims(sys, a, x);
      }
    }
  }

  predicate ClaimKept(run: seq<System>, acts: seq<Action>, name: string)
    requires |run| == |acts| + 1
  {
    forall t: nat | t < |acts| :: ClaimStays(run[t], acts[t], name)
  }

  lemma {:induction false} RunKeepsClaim(run: seq<System>, acts: seq<Action>, i: nat, name: string)
    requires IsRun(run, acts) && ClaimKept(run, acts, name) && i < |run|
    ensures OneClaim(run[i].history, name)
  {
    if i > 0 {
      RunKeepsClaim(run, acts, i - 1, name);
      RunIsRecorded(run, acts, i - 1);
      assert StepsAt(run, acts, i - 1) && ClaimStays(run[i - 1], acts[i - 1], name);
      StepKeepsClaim(run[i - 1], acts[i - 1], name);
    }
  }

  /** Specifications: what a DataPod with an explicit node reference becomes in the end. */
  function BoundSpec(b: DataPod, namespace: string): DataPodSpec
    requires b.spec.nodeRef.Some?
  {
    DataPodSpec(
      Some(Settled(b)), Some(Ref(b.spec.nodeRef.value.name, Some(namespace))), b.spec.nodeSelector, b.spec.request)
  }

  /** As created, or as one pass leaves it, and nothing in between. */
  predicate SpecOk(h: History, namespace: string, name: string, v: DataPod) {
    v.name == name && name in h.born && h.born[name].spec.nodeRef.Some? ==>
      var b := h.born[name];
      && (v.spec == b.spec || v.spec == BoundSpec(b, namespace))
      && (v.appliedOwner.Some? ==> v.spec == BoundSpec(b, namespace))
  }

  /** A pass patches with the node its snapshot refers to. */
  predicate PatchesAsAsked(ph: PodPhase) {
    ph.Patching? && ph.self.spec.nodeRef.Some? ==> ph.node.name == ph.self.spec.nodeRef.value.name
  }

  predicate SpecInv(sys: System, name: string) {
    && (forall v | v in sys.history.seen :: SpecOk(sys.history, sys.store.namespace, name, v))
    && (forall ph | ph in sys.podPasses :: PatchesAsAsked(ph))
  }

  lemma StepPatchesAsAsked(sys: System, a: Action, ph: PodPhase)
    requires Enabled(sys, a) && ph in NewPodPasses(sys, a)
    requires forall q | q in sys.podPasses :: PatchesAsAsked(q)
    ensures PatchesAsAsked(ph)
  {
  }

  /** Whatever mix of versions a pass works from, it makes the one final specification. */
  lemma PatchSettles(
    h: History, self: DataPod, latest: DataPod, node: DataNode, s: Store, g: Grant, name: string)
    requires latest.name == self.name == name && name in h.born && h.born[name].spec.nodeRef.Some?
    requires SpecOk(h, s.namespace, name, self) && SpecOk(h, s.namespace, name, latest)
    requires SettlesAlike(h, name, self) && PatchesAsAsked(Patching(self, latest, node))
    requires name in s.dataPods ==> s.dataPods[name].name == name && SpecOk(h, s.namespace, name, s.dataPods[name])
    ensures PodStep(Patching(self, latest, node), s, g).1.dataPods[name].spec == BoundSpec(h.born[name], s.namespace)
  {
  }

  lemma MadeWithSpec(sys: System, a: Action, name: string)
    requires SoundInv(sys) && Enabled(sys, a)
    requires NameInv(sys, name) && SpecInv(sys, name) && ReturnsByPatch(sys, a, name)
    requires name in sys.history.born && Changed(sys.store, NewStore(sys, a), name)
    ensures var d := NewStore(sys, a).dataPods[name];
            d.name == name ==> SpecOk(sys.history, sys.store.namespace, name, d)
  {
    var h, s := sys.history, sys.store;
    match a
    case CallOfSetPass(i, g) => SetCallCreates(sys.setPasses[i].rs, sys.setPasses[i].phase, s, g, name);
    case CallOfPodPass(i, g) =>
      var ph := sys.podPasses[i];
      assert ph in sys.podPasses && HoldsSeen(h, ph) && PatchesAsAsked(ph);
      if ph.Patching? && h.born[name].spec.nodeRef.Some? {
        assert SpecOk(h, s.namespace, name, ph.self) && SpecOk(h, s.namespace, name, ph.latest);
        assert SettlesAlike(h, name, ph.self);
        assert name in s.dataPods ==> Stored(sys, name) && SpecOk(h, s.namespace, name, s.dataPods[name]);
        PatchSettles(h, ph.self, ph.latest, ph.node, s, g, name);
      }
    case UserRelabels(x, _) => assert Stored(sys, x) && SpecOk(h, s.namespace, name, s.dataPods[x]);
    case _ =>
  }

  lemma StepSpecOk(sys: System, a: Action, name: string, v: DataPod)
    requires SoundInv(sys) && DataPodsRecorded(sys.history) && Enabled(sys, a)
    requires NameInv(sys, name) && SpecInv(sys, name) && ReturnsByPatch(sys, a, name)
    requires v in Apply(sys, a).history.seen
    ensures SpecOk(Apply(sys, a).history, sys.store.namespace, name, v)
  {
    if v in sys.history.seen {
      assert SpecOk(sys.history, sys.store.namespace, name, v) && Recorded(sys.history, v);
    } else if v.name == name {
      var x := SeenOrChanged(sys, a, v);
      ActionMakesSound(sys, a, x);
      if name in sys.history.born {
        MadeWithSpec(sys, a, name);
      } else {
        FirstIsUnpatched(sys, a, name);
      }
    }
  }

  /** The first DataPod of a name is made by a user or by a replica set. */
  lemma FirstIsUnpatched(sys: System, a: Action, name: string)
    requires SoundInv(sys) && DataPodsRecorded(sys.history) && Enabled(sys, a)
    requires name !in sys.history.born && Changed(sys.store, NewStore(sys, a), name)
    ensures NewStore(sys, a).dataPods[name].appliedOwner == None
  {
    assert name !in sys.store.dataPods by {
      assert name in sys.store.dataPods ==> Stored(sys, name) && Recorded(sys.history, sys.store.dataPods[name]);
    }
    forall i | 0 <= i < |sys.podPasses| && sys.podPasses[i].Patching?
      ensures sys.podPasses[i].latest.name in sys.history.born
    {
      assert sys.podPasses[i] in sys.podPasses && HoldsSeen(sys.history, sys.podPasses[i]);
      assert Recorded(sys.history, sys.podPasses[i].latest);
    }
    if a.CallOfSetPass? {
      SetCallMakesDrafts(sys.setPasses[a.i].rs, sys.setPasses[a.i].phase, sys.store, a.g, name);
    }
  }

  lemma SetCallMakesDrafts(rs: ReplicaSet, ph: Phase, s: Store, g: Grant, name: string)
    requires Changed(s, Step(rs, ph, s, g).1, name)
    ensures Step(rs, ph, s, g).1.dataPods[name].appliedOwner == None
  {
  }

  lemma StepKeepsSpec(sys: System, a: Action, name: string)
    requires SoundInv(sys) && DataPodsRecorded(sys.history) && Enabled(sys, a)
    requires NameInv(sys, name) && SpecInv(sys, name) && ReturnsByPatch(sys, a, name)
    ensures SpecInv(Apply(sys, a), name)
  {
    var sys' := Apply(sys, a);
    StepKeepsFrame(sys, a);
    forall v | v in sys'.history.seen ensures SpecOk(sys'.history, sys'.store.namespace, name, v) {
      StepSpecOk(sys, a, name, v);
    }
    forall ph | ph in sys'.podPasses ensures PatchesAsAsked(ph) {
      StepPatchesAsAsked(sys, a, ph);
    }
  }

  predicate OnlyPatchesReturn(run: seq<System>, acts: seq<Action>, name: string)
    requires |run| == |acts| + 1
  {
    forall t: nat | t < |acts| :: ReturnsByPatch(run[t], acts[t], name)
  }

  lemma {:induction false} RunKeepsSpec(run: seq<System>, acts: seq<Action>, i: nat, name: string)
    requires IsRun(run, acts) && OnlyPatchesReturn(run, acts, name) && i < |run|
    ensures NameInv(run[i], name) && SpecInv(run[i], name)
  {
    if i > 0 {
      RunKeepsSpec(run, acts, i - 1, name);
      RunIsRecorded(run, acts, i - 1);
      assert StepsAt(run, acts, i - 1) && ReturnsByPatch(run[i - 1], acts[i - 1], name);
      StepKeepsName(run[i - 1], acts[i - 1], name);
      StepKeepsSpec(run[i - 1], acts[i - 1], name);
    }
  }
}
