/** Replica set passes amid DataPod passes: what convergence says of passes one after the other
    holds of passes that run while the DataPods they make are bound and patched. */
module ReconcilersProgress {
  import opened Cluster
  import opened DataPodController
  import opened Reconcilers
  import opened ReconcilersBounds
  import opened ReconcilersRecord
  import opened ReconcilersTheorems
  import opened ReplicaSetController
  import opened ReplicaSetConvergence
  import opened ReplicaSetPasses
  import opened ReplicaSetTheorems
  import opened Selectors
  import opened Text
  import opened Wrappers

  /** Stores that a replica set cannot tell apart: the same but for the specifications and owners
      of DataPods other than its source. */
  predicate Alike(rs: ReplicaSet, s: Store, t: Store) {
    && (s.namespace, s.nodes, s.claims, s.pods) == (t.namespace, t.nodes, t.claims, t.pods)
    && s.dataPods.Keys == t.dataPods.Keys
    && (forall x | x in s.dataPods :: s.dataPods[x].labels == t.dataPods[x].labels)
    && (rs.sourcePod in s.dataPods ==> s.dataPods[rs.sourcePod] == t.dataPods[rs.sourcePod])
  }

  lemma AlikeTransitive(rs: ReplicaSet, s: Store, t: Store, u: Store)
    requires Alike(rs, s, t) && Alike(rs, t, u)
    ensures Alike(rs, s, u)
  {
    assert forall x | x in s.dataPods :: x in t.dataPods && s.dataPods[x].labels == t.dataPods[x].labels;
  }

  lemma SelectsAlike(rs: ReplicaSet, s: Store, t: Store, text: string)
    requires Alike(rs, s, t)
    ensures MatchingPods(s, text) == MatchingPods(t, text)
  {
  }

  /** What they agree on. */
  lemma ReadyAlike(rs: ReplicaSet, s: Store, t: Store, m: nat)
    requires Alike(rs, s, t)
    ensures Count(rs, s) == Count(rs, t) && (Ready(rs, s, m) <==> Ready(rs, t, m))
  {
    SelectsAlike(rs, s, t, Print(rs.selector));
    assert SourceNode(rs, s) == SourceNode(rs, t) && Targets(rs, s) == Targets(rs, t);
    assert forall i: nat :: ReplicaName(rs.uid, i) in s.dataPods <==> ReplicaName(rs.uid, i) in t.dataPods;
  }

  lemma LookupAlike(rs: ReplicaSet, ph: Phase, s: Store, t: Store, g: Grant)
    requires Alike(rs, s, t)
    requires ph.ListingPods? || ph.GettingSource? || ph.GettingSourceNode? || ph.ListingOthers? || ph.Finished?
    ensures Step(rs, ph, s, g).0 == Step(rs, ph, t, g).0
    ensures Step(rs, ph, s, g).1 == s && Step(rs, ph, t, g).1 == t
  {
    SelectsAlike(rs, s, t, Print(rs.selector));
  }

  lemma DataPodCallAlike(rs: ReplicaSet, index: nat, nodes: seq<DataNode>, job: Job, s: Store, t: Store, g: Grant)
    requires Alike(rs, s, t) && nodes != []
    ensures DataPodCall(rs, index, nodes, job, s, g).0 == DataPodCall(rs, index, nodes, job, t, g).0
    ensures Alike(rs, DataPodCall(rs, index, nodes, job, s, g).1, DataPodCall(rs, index, nodes, job, t, g).1)
  {
    assert ReplicaName(rs.uid, index) in s.dataPods <==> ReplicaName(rs.uid, index) in t.dataPods;
  }

  lemma ClaimCallAlike(rs: ReplicaSet, ph: Phase, s: Store, t: Store, g: Grant)
    requires Alike(rs, s, t) && ph.CreatingClaim?
    ensures Step(rs, ph, s, g).0 == Step(rs, ph, t, g).0
    ensures Alike(rs, Step(rs, ph, s, g).1, Step(rs, ph, t, g).1)
  {
  }

  lemma SourceClaimCallAlike(rs: ReplicaSet, job: Job, s: Store, t: Store, g: Grant)
    requires Alike(rs, s, t)
    ensures SourceClaimCall(rs, job, s, g).0 == SourceClaimCall(rs, job, t, g).0
    ensures Alike(rs, SourceClaimCall(rs, job, s, g).1, SourceClaimCall(rs, job, t, g).1)
  {
  }

  lemma PodCallAlike(rs: ReplicaSet, c: Claim, job: Job, s: Store, t: Store, g: Grant)
    requires Alike(rs, s, t)
    ensures PodCall(rs, c, job, s, g).0 == PodCall(rs, c, job, t, g).0
    ensures Alike(rs, PodCall(rs, c, job, s, g).1, PodCall(rs, c, job, t, g).1)
  {
  }

  /** A call on either gives the same answer, and leaves them alike. */
  lemma StepAlike(rs: ReplicaSet, ph: Phase, s: Store, t: Store, g: Grant)
    requires Alike(rs, s, t)
    ensures Step(rs, ph, s, g).0 == Step(rs, ph, t, g).0
    ensures Alike(rs, Step(rs, ph, s, g).1, Step(rs, ph, t, g).1)
  {
    match ph
    case CreatingDataPod(index, nodes, job) =>
      if nodes != [] {
        DataPodCallAlike(rs, index, nodes, job, s, t, g);
      }
    case CreatingClaim(_, _, _, _, _) => ClaimCallAlike(rs, ph, s, t, g);
    case CreatingSourceClaim(job) => SourceClaimCallAlike(rs, job, s, t, g);
    case CreatingPod(c, job) => PodCallAlike(rs, c, job, s, t, g);
    case _ => LookupAlike(rs, ph, s, t, g);
  }

  lemma {:induction false} RunAlike(rs: ReplicaSet, ph: Phase, s: Store, t: Store, grants: seq<Grant>)
    requires Alike(rs, s, t)
    ensures Run(rs, ph, s, grants).0 == Run(rs, ph, t, grants).0
    ensures Alike(rs, Run(rs, ph, s, grants).1, Run(rs, ph, t, grants).1)
    decreases |grants|
  {
    if grants != [] {
      RunUnfolds(rs, ph, s, grants);
      RunUnfolds(rs, ph, t, grants);
      StepAlike(rs, ph, s, t, grants[0]);
      var (ph', s') := Step(rs, ph, s, grants[0]);
      RunAlike(rs, ph', s', Step(rs, ph, t, grants[0]).1, grants[1..]);
    }
  }

  /** One more call at the end of a run. */
  lemma {:induction false} RunExtends(rs: ReplicaSet, ph: Phase, s: Store, grants: seq<Grant>, g: Grant)
    ensures var (ph', s') := Run(rs, ph, s, grants); Run(rs, ph, s, grants + [g]) == Step(rs, ph', s', g)
    decreases |grants|
  {
    RunUnfolds(rs, ph, s, grants + [g]);
    if grants != [] {
      RunUnfolds(rs, ph, s, grants);
      assert (grants + [g])[1..] == grants[1..] + [g];
      RunExtends(rs, Step(rs, ph, s, grants[0]).0, Step(rs, ph, s, grants[0]).1, grants[1..], g);
    } else {
      assert (grants + [g])[1..] == [];
    }
  }

  /** Amid one pass: its own calls, those of DataPod passes, and other passes that only start. */
  predicate Amid(a: Action, k: nat) {
    a.StartSetPass? || a.StartPodPass? || a.CallOfPodPass? || (a.CallOfSetPass? && a.i == k)
  }

  /** The set's source is as it was. */
  predicate SameSource(rs: ReplicaSet, s: Store, t: Store) {
    rs.sourcePod in s.dataPods ==> rs.sourcePod in t.dataPods && t.dataPods[rs.sourcePod] == s.dataPods[rs.sourcePod]
  }

  /** The source is, when its patches repeat what they have made already. */
  lemma SettledSourceStays(rs: ReplicaSet, s: Store, self: DataPod, latest: DataPod, node: DataNode, g: Grant)
    requires rs.sourcePod in s.dataPods && latest.name == rs.sourcePod
    requires var d := s.dataPods[rs.sourcePod];
             && self.spec == latest.spec == d.spec && GoodPath(d.spec.path)
             && d.spec.nodeRef == Some(Ref(node.name, Some(s.namespace)))
             && d.appliedOwner == Some(OwnerRef(NodeKind, node.name, node.uid))
    ensures SameSource(rs, s, PodStep(Patching(self, latest, node), s, g).1)
  {
  }

  /** A pass under way from state `i` to state `j`. */
  ghost predicate UnderWay(run: seq<System>, acts: seq<Action>, i: nat, j: nat, k: nat, rs: ReplicaSet)
    requires |run| == |acts| + 1
  {
    && i <= j < |run| && k < |run[i].setPasses| && run[i].setPasses[k].rs == rs
    && forall t: nat | i <= t < j :: Amid(acts[t], k) && SameSource(rs, run[t].store, run[t + 1].store)
  }

  /** The answers that pass got. */
  function GrantsOf(acts: seq<Action>, i: nat, j: nat, k: nat): seq<Grant>
    requires i <= j <= |acts|
    decreases j
  {
    if i == j then []
    else GrantsOf(acts, i, j - 1, k) +
         if acts[j - 1].CallOfSetPass? && acts[j - 1].i == k then [acts[j - 1].g] else []
  }

  lemma PatchIsAlike(rs: ReplicaSet, ph: PodPhase, s: Store, g: Grant)
    requires ph.Patching? ==> ph.latest.name in s.dataPods
    requires SameSource(rs, s, PodStep(ph, s, g).1)
    ensures Alike(rs, s, PodStep(ph, s, g).1)
  {
  }

  /** What is not a call of the pass leaves a store alike, and the pass where it is. */
  lemma OthersAreAlike(sys: System, a: Action, k: nat, rs: ReplicaSet)
    requires SoundInv(sys) && RecordInv(sys) && AllThere(sys) && Enabled(sys, a)
    requires Amid(a, k) && !a.CallOfSetPass? && SameSource(rs, sys.store, NewStore(sys, a))
    requires k < |sys.setPasses|
    ensures Alike(rs, sys.store, NewStore(sys, a))
    ensures k < |NewSetPasses(sys, a)| && NewSetPasses(sys, a)[k] == sys.setPasses[k]
  {
    if a.CallOfPodPass? {
      var ph := sys.podPasses[a.i];
      assert ph in sys.podPasses && HoldsSeen(sys.history, ph);
      if ph.Patching? {
        assert Recorded(sys.history, ph.latest);
      }
      PatchIsAlike(rs, ph, sys.store, a.g);
    }
  }

  lemma ActionAlike(sys: System, a: Action, k: nat, rs: ReplicaSet, ph: Phase, s: Store)
    requires SoundInv(sys) && RecordInv(sys) && AllThere(sys) && Enabled(sys, a)
    requires Amid(a, k) && SameSource(rs, sys.store, NewStore(sys, a))
    requires k < |sys.setPasses| && sys.setPasses[k] == SetPass(rs, ph) && Alike(rs, s, sys.store)
    ensures k < |NewSetPasses(sys, a)|
    ensures var (ph', s') := if a.CallOfSetPass? then Step(rs, ph, s, a.g) else (ph, s);
            NewSetPasses(sys, a)[k] == SetPass(rs, ph') && Alike(rs, s', NewStore(sys, a))
  {
    if a.CallOfSetPass? {
      StepAlike(rs, ph, s, sys.store, a.g);
    } else {
      OthersAreAlike(sys, a, k, rs);
      AlikeTransitive(rs, s, sys.store, NewStore(sys, a));
    }
  }

  /** Where the pass would be alone, and the store it would leave. */
  ghost predicate AsAlone(
    run: seq<System>, acts: seq<Action>, i: nat, j: nat, k: nat, rs: ReplicaSet, s: Store)
    requires |run| == |acts| + 1 && i <= j < |run| && k < |run[i].setPasses|
  {
    var (ph, s') := Run(rs, run[i].setPasses[k].phase, s, GrantsOf(acts, i, j, k));
    k < |run[j].setPasses| && run[j].setPasses[k] == SetPass(rs, ph) && Alike(rs, s', run[j].store)
  }

  lemma OneMoreAction(
    run: seq<System>, acts: seq<Action>, i: nat, j: nat, k: nat, rs: ReplicaSet, s: Store)
    requires |run| == |acts| + 1 && i <= j < |acts| && k < |run[i].setPasses|
    requires SoundInv(run[j]) && RecordInv(run[j]) && AllThere(run[j]) && StepsAt(run, acts, j)
    requires Amid(acts[j], k) && SameSource(rs, run[j].store, run[j + 1].store)
    requires AsAlone(run, acts, i, j, k, rs, s)
    ensures AsAlone(run, acts, i, j + 1, k, rs, s)
  {
    var start, grants := run[i].setPasses[k].phase, GrantsOf(acts, i, j, k);
    var (ph, s') := Run(rs, start, s, grants);
    ActionAlike(run[j], acts[j], k, rs, ph, s');
    if acts[j].CallOfSetPass? {
      RunExtends(rs, start, s, grants, acts[j].g);
    } else {
      assert grants + [] == grants;
    }
  }

  lemma OneMoreActionOfRun(
    run: seq<System>, acts: seq<Action>, i: nat, j: nat, k: nat, rs: ReplicaSet, s: Store)
    requires IsRun(run, acts) && NoUserDeletes(acts) && i <= j < |acts| && k < |run[i].setPasses|
    requires Amid(acts[j], k) && SameSource(rs, run[j].store, run[j + 1].store)
    requires AsAlone(run, acts, i, j, k, rs, s)
    ensures AsAlone(run, acts, i, j + 1, k, rs, s)
  {
    RunIsRecorded(run, acts, j);
    NothingGone(run, acts, j);
    assert StepsAt(run, acts, j);
    OneMoreAction(run, acts, i, j, k, rs, s);
  }

  /** A pass amid patches gets the answers it would get alone, and leaves a store alike to the
      one it would leave alone. */
  lemma {:induction false} PassAmidPatches(
    run: seq<System>, acts: seq<Action>, i: nat, j: nat, k: nat, rs: ReplicaSet, s: Store)
    requires IsRun(run, acts) && NoUserDeletes(acts) && UnderWay(run, acts, i, j, k, rs)
    requires Alike(rs, s, run[i].store)
    ensures AsAlone(run, acts, i, j, k, rs, s)
    decreases j
  {
    if i < j {
      PassAmidPatches(run, acts, i, j - 1, k, rs, s);
      OneMoreActionOfRun(run, acts, i, j - 1, k, rs, s);
    }
  }

  /** Passes one after the other: the n-th is number `passes[n]`, from `marks[n]` on. */
  ghost predicate Successive(run: seq<System>, acts: seq<Action>, marks: seq<nat>, passes: seq<nat>, rs: ReplicaSet)
    requires |run| == |acts| + 1
  {
    && |marks| == |passes| + 1 && (forall n | 0 <= n < |marks| :: marks[n] < |run|)
    && forall n: nat | n < |passes| :: FromStart(run, acts, marks[n], marks[n + 1], passes[n], rs)
  }

  ghost predicate FromStart(run: seq<System>, acts: seq<Action>, i: nat, j: nat, k: nat, rs: ReplicaSet)
    requires |run| == |acts| + 1
  {
    UnderWay(run, acts, i, j, k, rs) && run[i].setPasses[k].phase == Start(rs)
  }

  predicate Before(acts: seq<Action>, marks: seq<nat>, n: nat)
    requires n + 1 < |marks|
  {
    marks[n] <= marks[n + 1] <= |acts|
  }

  predicate InOrder(acts: seq<Action>, marks: seq<nat>) {
    forall n: nat | n + 1 < |marks| :: Before(acts, marks, n)
  }

  function Scripts(acts: seq<Action>, marks: seq<nat>, passes: seq<nat>, n: nat): seq<seq<Grant>>
    requires |marks| == |passes| + 1 && n <= |passes| && InOrder(acts, marks)
  {
    if n == 0 then []
    else
      assert Before(acts, marks, n - 1);
      Scripts(acts, marks, passes, n - 1) + [GrantsOf(acts, marks[n - 1], marks[n], passes[n - 1])]
  }

  lemma {:induction false} PassesExtend(rs: ReplicaSet, s: Store, scripts: seq<seq<Grant>>, script: seq<Grant>)
    ensures Passes(rs, s, scripts + [script]) == Pass(rs, Passes(rs, s, scripts), script).1
    decreases |scripts|
  {
    if scripts != [] {
      assert (scripts + [script])[1..] == scripts[1..] + [script];
      PassesExtend(rs, Pass(rs, s, scripts[0]).1, scripts[1..], script);
    } else {
      assert ([script])[1..] == [];
      assert scripts + [script] == [script];
    }
  }

  /** They leave a store alike to the one that they would leave alone. */
  lemma {:induction false} PassesAmidPatches(
    run: seq<System>, acts: seq<Action>, marks: seq<nat>, passes: seq<nat>, rs: ReplicaSet, n: nat)
    requires IsRun(run, acts) && NoUserDeletes(acts) && Successive(run, acts, marks, passes, rs) && n <= |passes|
    requires InOrder(acts, marks)
    ensures Alike(rs, Passes(rs, run[marks[0]].store, Scripts(acts, marks, passes, n)), run[marks[n]].store)
  {
    if n > 0 {
      var s0, scripts := run[marks[0]].store, Scripts(acts, marks, passes, n - 1);
      PassesAmidPatches(run, acts, marks, passes, rs, n - 1);
      assert FromStart(run, acts, marks[n - 1], marks[n], passes[n - 1], rs) && Before(acts, marks, n - 1);
      PassAmidPatches(run, acts, marks[n - 1], marks[n], passes[n - 1], rs, Passes(rs, s0, scripts));
      PassesExtend(rs, s0, scripts, GrantsOf(acts, marks[n - 1], marks[n], passes[n - 1]));
    }
  }

  /** So they make the same progress: as many replicas as the answered ones have nodes for, and
      never too many. */
  lemma ProgressAmidPatches(
    run: seq<System>, acts: seq<Action>, marks: seq<nat>, passes: seq<nat>, rs: ReplicaSet, m: nat)
    requires IsRun(run, acts) && NoUserDeletes(acts) && Successive(run, acts, marks, passes, rs)
    requires InOrder(acts, marks)
    requires Ready(rs, run[marks[0]].store, m) && CountsReplicas(rs)
    requires Count(rs, run[marks[0]].store) <= rs.replicas
    ensures var s, s' := run[marks[0]].store, run[marks[|passes|]].store;
            var answered := AnsweredPasses(rs, s, Scripts(acts, marks, passes, |passes|));
            && Ready(rs, s', m)
            && UpTo(Count(rs, s), m, rs.replicas, answered) <= Count(rs, s') <= rs.replicas
            && (m > 0 && answered >= Needed(Count(rs, s), m, rs.replicas) ==> Count(rs, s') == rs.replicas)
  {
    var s, s', scripts := run[marks[0]].store, run[marks[|passes|]].store, Scripts(acts, marks, passes, |passes|);
    PassesAmidPatches(run, acts, marks, passes, rs, |passes|);
    ReadyAlike(rs, Passes(rs, s, scripts), s', m);
    ProgressAnyhow(rs, s, m, scripts);
    if m > 0 && AnsweredPasses(rs, s, scripts) >= Needed(Count(rs, s), m, rs.replicas) {
      ConvergesAnyhow(rs, s, m, scripts, []);
    }
  }
}
