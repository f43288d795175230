/** What the record means: for every run of the reconcilers and their users, with stale
    snapshots, failing calls and crashed passes, at every moment. */
module ReconcilersTheorems {
  import opened Cluster
  import opened DataPodController
  import opened Reconcilers
  import opened ReconcilersBounds
  import opened ReconcilersNames
  import opened ReconcilersRecord
  import opened ReplicaSetController
  import opened Text
  import opened VolumeContext
  import opened Wrappers

  /** The DataPod behind a claim, as its annotation named it when it was made. */
  function BehindClaim(h: History, claimName: string): string {
    if claimName in h.claimed then GetOr(h.claimed[claimName].annotations, POD_NAME, "") else ""
  }

  lemma ClaimNames(namespace: string, c: Claim, name: string)
    requires ClaimFor(namespace, c, name)
    ensures GetOr(c.annotations, POD_NAME, "") == name
  {
    KeysDistinct();
  }

  /** Where a mount comes from: a DataPod that had an owner, and whose path it is. */
  lemma MountSource(sys: System, podName: string, k: nat, name: string)
    requires SoundInv(sys) && RecordInv(sys)
    requires podName in sys.store.pods && sys.store.pods[podName].SyncPod?
    requires k < |sys.store.pods[podName].mounts|
    ensures var p, h := sys.store.pods[podName], sys.history;
            && |p.volumes| == |p.mounts| && p.volumes[k].claimName in h.claimed
            && (OneClaim(h, p.volumes[k].claimName) && name == BehindClaim(h, p.volumes[k].claimName) ==>
                  && name in h.born && name in h.adopted
                  && ClaimFor(sys.store.namespace, h.claimed[p.volumes[k].claimName], name)
                  && (NameInv(sys, name) ==> p.mounts[k].mountPath == Settled(h.born[name])))
  {
    var p, h := sys.store.pods[podName], sys.history;
    assert PodBacked(h, sys.store.namespace, p);
    assert MountBacked(h, sys.store.namespace, p.volumes[k].claimName, p.mounts[k].mountPath);
    var d, c :| Backs(h, sys.store.namespace, d, c, p.volumes[k].claimName, p.mounts[k].mountPath);
    ClaimNames(sys.store.namespace, c, d.name);
    assert Sound(d) && Recorded(h, d);
    assert NameInv(sys, d.name) ==> SettlesAlike(h, d.name, d);
  }

  /** A DataPod that was owned is there with the path it settles on. */
  lemma OwnedIsSettled(sys: System, name: string)
    requires SoundInv(sys) && RecordInv(sys) && NameInv(sys, name)
    requires name in sys.history.adopted && name in sys.store.dataPods
    ensures var d := sys.store.dataPods[name];
            d.Owners() != [] && d.spec.path == Some(Settled(sys.history.born[name]))
  {
    var d := sys.store.dataPods[name];
    assert Stored(sys, name);
    assert Sound(d) && SettlesAlike(sys.history, name, d);
  }

  /** From the moment a sync Pod exists, each mount path of it is the path of the DataPod behind
      that mount, for ever after: if this DataPod comes back after a deletion, if at all, as what
      it was, and its claim does not. */
  lemma MountPathForever(run: seq<System>, acts: seq<Action>, i: nat, j: nat, podName: string, k: nat)
    requires IsRun(run, acts) && i <= j < |run|
    requires podName in run[i].store.pods && run[i].store.pods[podName].SyncPod?
    requires k < |run[i].store.pods[podName].mounts|
    ensures |run[i].store.pods[podName].volumes| == |run[i].store.pods[podName].mounts|
    ensures var claim, path, s := run[i].store.pods[podName].volumes[k].claimName,
                                  run[i].store.pods[podName].mounts[k].mountPath, run[j].store;
            var name := BehindClaim(run[i].history, claim);
            ClaimKept(run, acts, claim) && NameStays(run, acts, name) ==>
              && (name in s.dataPods ==> s.dataPods[name].Owners() != [] && s.dataPods[name].spec.path == Some(path))
              && (claim in s.claims ==> GetOr(s.claims[claim].annotations, POD_NAME, "") == name)
  {
    RunIsRecorded(run, acts, i);
    RunIsRecorded(run, acts, j);
    RunGrows(run, acts, i, j);
    var claim := run[i].store.pods[podName].volumes[k].claimName;
    var name := BehindClaim(run[i].history, claim);
    MountSource(run[i], podName, k, name);
    if ClaimKept(run, acts, claim) && NameStays(run, acts, name) {
      RunKeepsClaim(run, acts, i, claim);
      RunKeepsClaim(run, acts, j, claim);
      RunKeepsName(run, acts, i, name);
      RunKeepsName(run, acts, j, name);
      if name in run[j].store.dataPods {
        OwnedIsSettled(run[j], name);
      }
      ClaimNames(run[i].store.namespace, run[i].history.claimed[claim], name);
    }
  }

  lemma SetCallDeletesNothing(rs: ReplicaSet, ph: Phase, s: Store, g: Grant)
    ensures s.dataPods.Keys <= Step(rs, ph, s, g).1.dataPods.Keys
    ensures s.claims.Keys <= Step(rs, ph, s, g).1.claims.Keys
  {
  }

  lemma PodCallDeletesNothing(ph: PodPhase, s: Store, g: Grant)
    ensures s.dataPods.Keys <= PodStep(ph, s, g).1.dataPods.Keys
    ensures s.claims.Keys <= PodStep(ph, s, g).1.claims.Keys
  {
  }

  /** Only users delete: every call of a pass, and every other action of a user, leaves all
      DataPods and claims where they are. */
  lemma PassesDeleteNothing(sys: System, a: Action)
    requires !a.UserDeletesDataPod? && !a.UserDeletesClaim?
    ensures sys.store.dataPods.Keys <= Apply(sys, a).store.dataPods.Keys
    ensures sys.store.claims.Keys <= Apply(sys, a).store.claims.Keys
  {
    match a
    case CallOfSetPass(i, g) =>
      if i < |sys.setPasses| {
        SetCallDeletesNothing(sys.setPasses[i].rs, sys.setPasses[i].phase, sys.store, g);
      }
    case CallOfPodPass(i, g) =>
      if i < |sys.podPasses| {
        PodCallDeletesNothing(sys.podPasses[i], sys.store, g);
      }
    case _ =>
  }

  /** Who keeps a name to what it was. If users delete nothing, nothing comes back; */
  predicate AllThere(sys: System) {
    && sys.history.born.Keys <= sys.store.dataPods.Keys
    && sys.history.claimed.Keys <= sys.store.claims.Keys
  }

  lemma {:induction false} NothingGone(run: seq<System>, acts: seq<Action>, i: nat)
    requires IsRun(run, acts) && NoUserDeletes(acts) && i < |run|
    ensures AllThere(run[i])
  {
    if i > 0 {
      NothingGone(run, acts, i - 1);
      assert StepsAt(run, acts, i - 1) && acts[i - 1] in acts;
      PassesDeleteNothing(run[i - 1], acts[i - 1]);
    }
  }

  lemma NothingReturns(run: seq<System>, acts: seq<Action>, name: string)
    requires IsRun(run, acts) && NoUserDeletes(acts)
    ensures NameStays(run, acts, name) && OnlyPatchesReturn(run, acts, name) && ClaimKept(run, acts, name)
  {
    forall t: nat | t < |acts|
      ensures ReturnsAlike(run[t], acts[t], name) && ReturnsByPatch(run[t], acts[t], name)
      ensures ClaimStays(run[t], acts[t], name)
    {
      NothingGone(run, acts, t);
    }
  }

  /** if names are not used twice, only replicas come back, and these with their paths; */
  predicate ReplicaSettles(v: DataPod, rs: ReplicaSet, i: nat) {
    IsReplicaName(v.name, rs, i) ==> Settled(v) == ReplicaPath(i)
  }

  ghost predicate ReplicasSettle(sys: System) {
    && UidsDiffer(sys.sets)
    && (forall p | p in sys.setPasses :: p.rs in sys.sets)
    && (forall v, rs, i: nat | v in sys.history.seen && rs in sys.sets :: ReplicaSettles(v, rs, i))
  }

  lemma SetCallSettles(rs: ReplicaSet, ph: Phase, s: Store, g: Grant, name: string)
    requires g.uid != "" && Changed(s, Step(rs, ph, s, g).1, name)
    ensures ph.CreatingDataPod? && name == ReplicaName(rs.uid, ph.index) && name !in s.dataPods
    ensures var d := Step(rs, ph, s, g).1.dataPods[name]; Settled(d) == ReplicaPath(ph.index) && d.Owners() != []
  {
    assert ph.CreatingDataPod? ==> |ReplicaPath(ph.index)| > 1;
  }

  lemma MadeReplicaSettles(sys: System, a: Action, name: string, rs: ReplicaSet, i: nat)
    requires SoundInv(sys) && ReplicasSettle(sys) && Enabled(sys, a) && FreshNames(sys, a)
    requires rs in sys.sets && Changed(sys.store, NewStore(sys, a), name)
    ensures ReplicaSettles(NewStore(sys, a).dataPods[name], rs, i)
  {
    ActionMakesSound(sys, a, name);
    match a
    case CallOfSetPass(k, g) =>
      var p := sys.setPasses[k];
      assert p in sys.setPasses;
      SetCallSettles(p.rs, p.phase, sys.store, g, name);
      if IsReplicaName(name, rs, i) {
        ReplicaNamesDistinct(rs.uid, i, p.rs.uid, p.phase.index);
      }
    case CallOfPodPass(k, g) =>
      var ph := sys.podPasses[k];
      assert ph in sys.podPasses && HoldsSeen(sys.history, ph);
      if ph.Patching? {
        assert Sound(ph.self) && ReplicaSettles(ph.self, rs, i);
        PatchAlike(ph.self, ph.latest, ph.node, sys.store, g);
      }
    case UserCreatesDataPod(d) => assert IsReplicaName(name, rs, i) ==> Reserved(sys.sets, name);
    case UserRelabels(x, _) => assert Stored(sys, x) && ReplicaSettles(sys.store.dataPods[x], rs, i);
    case _ =>
  }

  lemma StepReplicasSettle(sys: System, a: Action)
    requires SoundInv(sys) && ReplicasSettle(sys) && Enabled(sys, a) && FreshNames(sys, a)
    ensures ReplicasSettle(Apply(sys, a))
  {
    var sys' := Apply(sys, a);
    forall v, rs, i: nat | v in sys'.history.seen && rs in sys'.sets ensures ReplicaSettles(v, rs, i) {
      if v in sys.history.seen {
        assert ReplicaSettles(v, rs, i);
      } else {
        var x := SeenOrChanged(sys, a, v);
        MadeReplicaSettles(sys, a, x, rs, i);
      }
    }
    SetPassesOfSets(sys, a);
  }

  lemma {:induction false} RunReplicasSettle(run: seq<System>, acts: seq<Action>, i: nat)
    requires IsRun(run, acts) && RunWithFreshNames(run, acts) && i < |run|
    ensures ReplicasSettle(run[i])
  {
    if i > 0 {
      RunReplicasSettle(run, acts, i - 1);
      RunIsSound(run, acts, i - 1);
      assert StepsAt(run, acts, i - 1) && FreshNames(run[i - 1], acts[i - 1]);
      StepReplicasSettle(run[i - 1], acts[i - 1]);
    }
  }

  lemma FreshReturnsAlike(sys: System, a: Action, name: string)
    requires SoundInv(sys) && DataPodsRecorded(sys.history) && ReplicasSettle(sys)
    requires Enabled(sys, a) && FreshNames(sys, a)
    ensures ReturnsAlike(sys, a, name)
  {
    if Returns(sys, a, name) && a.CallOfSetPass? {
      var p := sys.setPasses[a.i];
      assert p in sys.setPasses;
      SetCallSettles(p.rs, p.phase, sys.store, a.g, name);
      assert IsReplicaName(name, p.rs, p.phase.index);
      assert ReplicaSettles(sys.history.born[name], p.rs, p.phase.index);
    }
  }

  lemma FreshClaimStays(sys: System, a: Action, name: string)
    requires Enabled(sys, a) && FreshNames(sys, a)
    ensures ClaimStays(sys, a, name)
  {
    match a
    case CallOfSetPass(i, g) =>
      if name in NewStore(sys, a).claims {
        SetCallClaims(sys.setPasses[i].rs, sys.setPasses[i].phase, sys.store, g, name);
      }
    case CallOfPodPass(i, g) => PodCallClaims(sys.podPasses[i], sys.store, g);
    case _ =>
  }

  lemma FreshNamesReturnAlike(run: seq<System>, acts: seq<Action>, name: string)
    requires IsRun(run, acts) && RunWithFreshNames(run, acts)
    ensures NameStays(run, acts, name) && ClaimKept(run, acts, name)
  {
    forall t: nat | t < |acts|
      ensures ReturnsAlike(run[t], acts[t], name) && ClaimStays(run[t], acts[t], name)
    {
      RunIsRecorded(run, acts, t);
      RunReplicasSettle(run, acts, t);
      assert StepsAt(run, acts, t) && FreshNames(run[t], acts[t]);
      FreshReturnsAlike(run[t], acts[t], name);
      FreshClaimStays(run[t], acts[t], name);
    }
  }

  /** and a name that is no replica's comes back only if users use it again. */
  predicate UsedAgain(sys: System, a: Action, name: string) {
    a.UserCreatesDataPod? && a.d.name == name && name in sys.history.born
  }

  predicate NotUsedAgain(run: seq<System>, acts: seq<Action>, name: string)
    requires |run| == |acts| + 1
  {
    forall t: nat | t < |acts| :: !UsedAgain(run[t], acts[t], name)
  }

  lemma UnreservedReturns(run: seq<System>, acts: seq<Action>, name: string)
    requires IsRun(run, acts) && !Reserved(run[0].sets, name) && NotUsedAgain(run, acts, name)
    ensures OnlyPatchesReturn(run, acts, name)
  {
    forall t: nat | t < |acts| ensures ReturnsByPatch(run[t], acts[t], name) {
      SetPassesAreOfSets(run, acts, t);
      assert StepsAt(run, acts, t) && !UsedAgain(run[t], acts[t], name);
      UnreservedStep(run[t], acts[t], name);
    }
  }

  lemma UnreservedStep(sys: System, a: Action, name: string)
    requires Enabled(sys, a) && !Reserved(sys.sets, name) && !UsedAgain(sys, a, name)
    requires forall p | p in sys.setPasses :: p.rs in sys.sets
    ensures ReturnsByPatch(sys, a, name)
  {
    if Returns(sys, a, name) && a.CallOfSetPass? {
      var p := sys.setPasses[a.i];
      assert p in sys.setPasses;
      SetCallMakesSound(p.rs, p.phase, sys.store, a.g, name);
      assert IsReplicaName(name, p.rs, p.phase.index);
    }
  }

  /** So, for all mounts at once. */
  lemma SyncPathsForever(run: seq<System>, acts: seq<Action>, i: nat, j: nat, podName: string, k: nat)
    requires IsRun(run, acts) && (RunWithFreshNames(run, acts) || NoUserDeletes(acts)) && i <= j < |run|
    requires podName in run[i].store.pods && run[i].store.pods[podName].SyncPod?
    requires k < |run[i].store.pods[podName].mounts|
    ensures var p, s := run[i].store.pods[podName], run[j].store;
            && |p.volumes| == |p.mounts|
            && var name := BehindClaim(run[i].history, p.volumes[k].claimName);
               && (name in s.dataPods ==>
                     s.dataPods[name].Owners() != [] && s.dataPods[name].spec.path == Some(p.mounts[k].mountPath))
               && (p.volumes[k].claimName in s.claims ==>
                     GetOr(s.claims[p.volumes[k].claimName].annotations, POD_NAME, "") == name)
  {
    MountPathForever(run, acts, i, j, podName, k);
    var claim := run[i].store.pods[podName].volumes[k].claimName;
    var name := BehindClaim(run[i].history, claim);
    if NoUserDeletes(acts) {
      NothingReturns(run, acts, claim);
      NothingReturns(run, acts, name);
    } else {
      FreshNamesReturnAlike(run, acts, claim);
      FreshNamesReturnAlike(run, acts, name);
    }
  }

  /** The volume of a driver's claim is published as the DataPod behind it. */
  lemma ClaimPublishes(namespace: string, c: Claim, name: string, listed: seq<Claim>, extra: map<string, string>)
    requires ClaimFor(namespace, c, name) && c in listed
    requires forall c' | c' in listed && c'.uid == c.uid :: c' == c
    requires extra.Keys !! DRIVER_KEYS
    ensures GetClaim(listed, CLAIM_PREFIX + c.uid) == Ok(c) && Context(c).Ok?
    ensures ParseContext(Context(c).value + extra)
            == Ok(DataMount(c.annotations[NODE_NAME], namespace, name, namespace, FuseReadWrite))
  {
    AnnotationRoundTrip(
      listed, c, DataMount(c.annotations[NODE_NAME], namespace, name, namespace, FuseReadWrite), extra);
  }

  /** If nothing was deleted, the claim behind a mount and the DataPod behind that are there. */
  lemma MountIsThere(run: seq<System>, acts: seq<Action>, i: nat, podName: string, k: nat)
    requires IsRun(run, acts) && NoUserDeletes(acts) && i < |run|
    requires podName in run[i].store.pods && run[i].store.pods[podName].SyncPod?
    requires k < |run[i].store.pods[podName].mounts|
    ensures var p, s := run[i].store.pods[podName], run[i].store;
            && |p.volumes| == |p.mounts|
            && p.volumes[k].claimName in s.claims
            && s.claims[p.volumes[k].claimName].name == p.volumes[k].claimName
            && var name := BehindClaim(run[i].history, p.volumes[k].claimName);
               name in s.dataPods && ClaimFor(s.namespace, s.claims[p.volumes[k].claimName], name)
  {
    RunIsRecorded(run, acts, i);
    NothingGone(run, acts, i);
    var claim := run[i].store.pods[podName].volumes[k].claimName;
    NothingReturns(run, acts, claim);
    RunKeepsClaim(run, acts, i, claim);
    MountSource(run[i], podName, k, BehindClaim(run[i].history, claim));
  }

  /** As long as users delete nothing, every sync Pod refers to claims that exist, and these
      to DataPods that exist; and the volume of such a claim is published as that DataPod,
      read-write through FUSE, at the path the Pod mounts it. */
  lemma SyncPodsAreBacked(
    run: seq<System>, acts: seq<Action>, i: nat, podName: string, k: nat, listed: seq<Claim>,
    extra: map<string, string>)
    requires IsRun(run, acts) && NoUserDeletes(acts) && i < |run|
    requires podName in run[i].store.pods && run[i].store.pods[podName].SyncPod?
    requires k < |run[i].store.pods[podName].mounts|
    requires forall c :: c in listed <==> c.name in run[i].store.claims && run[i].store.claims[c.name] == c
    requires forall c, c' | c in listed && c' in listed && c.uid == c'.uid :: c == c'
    requires extra.Keys !! DRIVER_KEYS
    ensures var p, s := run[i].store.pods[podName], run[i].store;
            && |p.volumes| == |p.mounts|
            && p.volumes[k].claimName in s.claims
            && var c := s.claims[p.volumes[k].claimName];
               && GetClaim(listed, CLAIM_PREFIX + c.uid) == Ok(c)
               && Context(c).Ok?
               && var parsed := ParseContext(Context(c).value + extra);
                  && parsed.Ok?
                  && parsed.value.podNamespace == s.namespace
                  && Parts(parsed.value.access) == (Fuse, ReadWrite)
                  && parsed.value.podName in s.dataPods
                  && s.dataPods[parsed.value.podName].spec.path == Some(p.mounts[k].mountPath)
  {
    MountIsThere(run, acts, i, podName, k);
    SyncPathsForever(run, acts, i, i, podName, k);
    var p, s := run[i].store.pods[podName], run[i].store;
    var c := s.claims[p.volumes[k].claimName];
    assert c in listed;
    ClaimPublishes(s.namespace, c, BehindClaim(run[i].history, c.name), listed, extra);
  }

  /** Any number of passes, in any order, on any snapshots, however interleaved: a DataPod that
      was created with a node reference and that some pass has patched has the specification
      that one pass alone gives it, if after a deletion it comes back, if at all, by a patch. */
  lemma PassesConfluent(run: seq<System>, acts: seq<Action>, i: nat, name: string)
    requires IsRun(run, acts) && OnlyPatchesReturn(run, acts, name) && i < |run|
    requires name in run[i].store.dataPods && run[i].store.dataPods[name].appliedOwner.Some?
    ensures name in run[i].history.born
    ensures var b := run[i].history.born[name];
            b.spec.nodeRef.Some? ==> run[i].store.dataPods[name].spec == BoundSpec(b, run[i].store.namespace)
  {
    RunIsRecorded(run, acts, i);
    RunKeepsSpec(run, acts, i, name);
    var d := run[i].store.dataPods[name];
    assert Stored(run[i], name) && Recorded(run[i].history, d);
    assert SpecOk(run[i].history, run[i].store.namespace, name, d);
  }

  /** The path of a DataPod that was patched: the one it was created with, or made of the uid it
      was created with. */
  lemma PatchedPath(run: seq<System>, acts: seq<Action>, i: nat, name: string)
    requires IsRun(run, acts) && NameStays(run, acts, name) && i < |run|
    requires name in run[i].store.dataPods && run[i].store.dataPods[name].appliedOwner.Some?
    ensures name in run[i].history.born
    ensures var b := run[i].history.born[name];
            run[i].store.dataPods[name].spec.path == if Pathless(b) then Some("/" + b.uid) else b.spec.path
  {
    RunIsRecorded(run, acts, i);
    RunKeepsName(run, acts, i, name);
    var d := run[i].store.dataPods[name];
    assert Stored(run[i], name) && Recorded(run[i].history, d);
    OwnedIsSettled(run[i], name);
  }

  /** DataPods created without a path, with uids of their own, have paths of their own once both
      are patched: they share no directory. */
  lemma GeneratedPathsDiffer(run: seq<System>, acts: seq<Action>, i: nat, a: string, b: string)
    requires IsRun(run, acts) && NameStays(run, acts, a) && NameStays(run, acts, b) && i < |run|
    requires a in run[i].store.dataPods && run[i].store.dataPods[a].appliedOwner.Some?
    requires b in run[i].store.dataPods && run[i].store.dataPods[b].appliedOwner.Some?
    ensures a in run[i].history.born && b in run[i].history.born
    ensures var first, second := run[i].history.born[a], run[i].history.born[b];
            Pathless(first) && Pathless(second) && first.uid != second.uid ==>
              run[i].store.dataPods[a].spec.path != run[i].store.dataPods[b].spec.path
  {
    PatchedPath(run, acts, i, a);
    PatchedPath(run, acts, i, b);
    var first, second := run[i].history.born[a], run[i].history.born[b];
    assert ("/" + first.uid)[1..] == first.uid && ("/" + second.uid)[1..] == second.uid;
  }

  /** One pass alone on a DataPod as created. */
  lemma OnePassSpec(b: DataPod, s: Store, grants: seq<Grant>)
    requires Named(s) && b.name in s.dataPods && s.dataPods[b.name] == b
    requires b.spec.nodeRef.Some?
    ensures var (ph, s') := PodRun(Fetching(b), s, grants);
            if ph.PodFinished? && ph.outcome.Patched?
            then b.name in s'.dataPods && s'.dataPods[b.name].spec == BoundSpec(b, s.namespace)
            else s' == s
    ensures BoundSpec(b, s.namespace)
            == DataPodSpec(
                 if Pathless(b) then Some("/" + b.uid) else b.spec.path,
                 Some(Ref(b.spec.nodeRef.value.name, Some(s.namespace))), b.spec.nodeSelector, b.spec.request)
  {
    PassEffect(b, s, grants);
  }
}
