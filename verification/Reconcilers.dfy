/** Both reconcilers and the users of the cluster, one API call at a time, over one store. */
module Reconcilers {
  import opened Cluster
  import opened DataPodController
  import opened ReplicaSetController
  import opened Selectors
  import opened Text
  import opened Wrappers

  /** What has been in the store so far: every version of a DataPod (the caches of the
      reconcilers hand out any of them) and every claim, the first one of each under each name,
      and the names that have had an owner. */
  datatype History = History(
    seen: set<DataPod>,
    born: map<string, DataPod>,
    adopted: set<string>,
    seenClaims: set<Claim>,
    claimed: map<string, Claim>)

  datatype SetPass = SetPass(rs: ReplicaSet, phase: Phase)

  /** Any number of passes of either kind are under way; one that is never stepped again has
      crashed. */
  datatype System = System(
    sets: set<ReplicaSet>,
    store: Store,
    history: History,
    setPasses: seq<SetPass>,
    podPasses: seq<PodPhase>)

  datatype Action =
    | StartSetPass(rs: ReplicaSet)
    | CallOfSetPass(i: nat, g: Grant)
    | StartPodPass(self: DataPod)
    | CallOfPodPass(i: nat, g: Grant)
    | UserCreatesDataPod(d: DataPod)
    | UserRelabels(name: string, labels: Labels)
    | UserDeletesDataPod(name: string)
    | UserSetsNodes(nodes: seq<DataNode>)
    | UserCreatesClaim(c: Claim)
    | UserDeletesClaim(name: string)
    | UserCreatesPod(name: string)
    | UserDeletesPod(name: string)

  function Observe(h: History, s: Store): History {
    History(
      h.seen + s.dataPods.Values,
      s.dataPods + h.born,
      h.adopted + (set x | x in s.dataPods && s.dataPods[x].Owners() != [] :: x),
      h.seenClaims + s.claims.Values,
      s.claims + h.claimed)
  }

  /** A name that belongs to a replica of one of the sets. */
  ghost predicate Reserved(sets: set<ReplicaSet>, name: string) {
    exists rs: ReplicaSet, i: nat :: rs in sets && IsReplicaName(name, rs, i)
  }

  predicate IsReplicaName(name: string, rs: ReplicaSet, i: nat) {
    name == ReplicaName(rs.uid, i)
  }

  /** What can happen at all: names are unique, server and users give out uids that are not
      empty, and users create DataPods without owners. Whatever was deleted may be created
      again, users may take any free name, and suffixes may clash. */
  predicate Enabled(sys: System, a: Action) {
    match a
    case StartSetPass(rs) => rs in sys.sets
    case CallOfSetPass(i, g) => i < |sys.setPasses| && g.uid != ""
    case StartPodPass(self) => self in sys.history.seen
    case CallOfPodPass(i, g) => i < |sys.podPasses| && g.uid != ""
    case UserCreatesDataPod(d) =>
      d.name !in sys.store.dataPods && d.uid != "" && d.heldOwners == [] && d.appliedOwner == None
    case UserRelabels(name, _) => name in sys.store.dataPods
    case UserDeletesDataPod(name) => name in sys.store.dataPods
    case UserSetsNodes(_) => true
    case UserCreatesClaim(c) => c.name !in sys.store.claims
    case UserDeletesClaim(name) => name in sys.store.claims
    case UserCreatesPod(name) => name !in sys.store.pods
    case UserDeletesPod(name) => name in sys.store.pods
  }

  /** A name of a replica that one of the sets is too small to have. */
  ghost predicate Oversteps(sets: set<ReplicaSet>, name: string) {
    exists rs: ReplicaSet, i: nat :: rs in sets && rs.replicas <= i && IsReplicaName(name, rs, i)
  }

  /** The users leave such names alone. */
  ghost predicate InBounds(sys: System, a: Action) {
    a.UserCreatesDataPod? ==> !Oversteps(sys.sets, a.d.name)
  }

  /** No name is used twice: neither by users, who leave the replicas' names alone, nor, because
      random suffixes are fresh, for a claim of the driver. */
  ghost predicate FreshNames(sys: System, a: Action) {
    match a
    case CallOfSetPass(i, g) => i < |sys.setPasses| ==> ClaimName(sys.setPasses[i].rs, g.suffix) !in sys.history.claimed
    case UserCreatesDataPod(d) => d.name !in sys.history.born && !Reserved(sys.sets, d.name)
    case UserCreatesClaim(c) => c.name !in sys.history.claimed
    case _ => true
  }

  /** What an action does to the store, */
  function NewStore(sys: System, a: Action): Store {
    var s := sys.store;
    match a
    case CallOfSetPass(i, g) =>
      if i < |sys.setPasses| then Step(sys.setPasses[i].rs, sys.setPasses[i].phase, s, g).1 else s
    case CallOfPodPass(i, g) => if i < |sys.podPasses| then PodStep(sys.podPasses[i], s, g).1 else s
    case UserCreatesDataPod(d) => s.(dataPods := s.dataPods[d.name := d])
    case UserRelabels(name, labels) =>
      if name in s.dataPods then s.(dataPods := s.dataPods[name := s.dataPods[name].(labels := labels)]) else s
    case UserDeletesDataPod(name) => s.(dataPods := s.dataPods - {name})
    case UserSetsNodes(nodes) => s.(nodes := nodes)
    case UserCreatesClaim(c) => s.(claims := s.claims[c.name := c])
    case UserDeletesClaim(name) => s.(claims := s.claims - {name})
    case UserCreatesPod(name) => s.(pods := s.pods[name := OtherPod(name)])
    case UserDeletesPod(name) => s.(pods := s.pods - {name})
    case _ => s
  }

  /** to the passes of the one reconciler, */
  function NewSetPasses(sys: System, a: Action): seq<SetPass> {
    match a
    case StartSetPass(rs) => sys.setPasses + [SetPass(rs, Start(rs))]
    case CallOfSetPass(i, g) =>
      if i < |sys.setPasses| then
        var p := sys.setPasses[i];
        sys.setPasses[i := SetPass(p.rs, Step(p.rs, p.phase, sys.store, g).0)]
      else sys.setPasses
    case _ => sys.setPasses
  }

  /** and to those of the other. */
  function NewPodPasses(sys: System, a: Action): seq<PodPhase> {
    match a
    case StartPodPass(self) => sys.podPasses + [Fetching(self)]
    case CallOfPodPass(i, g) =>
      if i < |sys.podPasses| then sys.podPasses[i := PodStep(sys.podPasses[i], sys.store, g).0] else sys.podPasses
    case _ => sys.podPasses
  }

  function Apply(sys: System, a: Action): System {
    var s := NewStore(sys, a);
    System(sys.sets, s, Observe(sys.history, s), NewSetPasses(sys, a), NewPodPasses(sys, a))
  }

  /** At first there are the sets, with uids of their own, and any nodes; nothing else. */
  predicate Init(sys: System) {
    && (forall a, b | a in sys.sets && b in sys.sets && a.uid == b.uid :: a == b)
    && sys.store.dataPods == map[] && sys.store.claims == map[] && sys.store.pods == map[]
    && sys.history == History({}, map[], {}, {}, map[])
    && sys.setPasses == [] && sys.podPasses == []
  }

  /** A run: the states it passes through, and the actions between them. */
  predicate StepsAt(run: seq<System>, acts: seq<Action>, i: nat)
    requires |run| == |acts| + 1 && i < |acts|
  {
    Enabled(run[i], acts[i]) && run[i + 1] == Apply(run[i], acts[i])
  }

  predicate IsRun(run: seq<System>, acts: seq<Action>) {
    |run| == |acts| + 1 && Init(run[0]) && forall i: nat | i < |acts| :: StepsAt(run, acts, i)
  }

  ghost predicate RunInBounds(run: seq<System>, acts: seq<Action>) {
    |run| == |acts| + 1 && forall i: nat | i < |acts| :: InBounds(run[i], acts[i])
  }

  ghost predicate RunWithFreshNames(run: seq<System>, acts: seq<Action>) {
    |run| == |acts| + 1 && forall i: nat | i < |acts| :: FreshNames(run[i], acts[i])
  }

  /** The users delete neither DataPods nor claims. */
  predicate NoUserDeletes(acts: seq<Action>) {
    forall a | a in acts :: !a.UserDeletesDataPod? && !a.UserDeletesClaim?
  }

  /** Stepping one pass with nothing in between is the pass of the program. */
  function Drive(sys: System, i: nat, grants: seq<Grant>): System
    decreases |grants|
  {
    if grants == [] then sys else Drive(Apply(sys, CallOfSetPass(i, grants[0])), i, grants[1..])
  }

  lemma {:induction false} PassIsDriven(sys: System, i: nat, grants: seq<Grant>)
    requires i < |sys.setPasses|
    ensures var p := sys.setPasses[i];
            var end := Drive(sys, i, grants);
            i < |end.setPasses| && Run(p.rs, p.phase, sys.store, grants) == (end.setPasses[i].phase, end.store)
    decreases |grants|
  {
    if grants != [] {
      OneCall(sys, i, grants[0]);
      PassIsDriven(Apply(sys, CallOfSetPass(i, grants[0])), i, grants[1..]);
      RunUnfolds(sys.setPasses[i].rs, sys.setPasses[i].phase, sys.store, grants);
    }
  }

  lemma RunUnfolds(rs: ReplicaSet, ph: Phase, s: Store, grants: seq<Grant>)
    requires grants != []
    ensures var (ph', s') := Step(rs, ph, s, grants[0]); Run(rs, ph, s, grants) == Run(rs, ph', s', grants[1..])
  {
    if ph.Finished? {
      FinishedStays(rs, ph, s, grants[1..]);
    } else {
      NextCall(rs, ph, s, grants);
    }
  }

  lemma OneCall(sys: System, i: nat, g: Grant)
    requires i < |sys.setPasses|
    ensures var p, sys' := sys.setPasses[i], Apply(sys, CallOfSetPass(i, g));
            && |sys'.setPasses| == |sys.setPasses|
            && sys'.setPasses[i].rs == p.rs
            && (sys'.setPasses[i].phase, sys'.store) == Step(p.rs, p.phase, sys.store, g)
  {
  }

  lemma FinishedStays(rs: ReplicaSet, ph: Phase, s: Store, grants: seq<Grant>)
    requires ph.Finished?
    ensures Run(rs, ph, s, grants) == (ph, s)
  {
  }

  /** The same for a pass of the other reconciler. */
  function DrivePod(sys: System, i: nat, grants: seq<Grant>): System
    decreases |grants|
  {
    if grants == [] then sys else DrivePod(Apply(sys, CallOfPodPass(i, grants[0])), i, grants[1..])
  }

  lemma {:induction false} PodPassIsDriven(sys: System, i: nat, grants: seq<Grant>)
    requires i < |sys.podPasses|
    ensures var end := DrivePod(sys, i, grants);
            i < |end.podPasses| && PodRun(sys.podPasses[i], sys.store, grants) == (end.podPasses[i], end.store)
    decreases |grants|
  {
    if grants != [] {
      PodPassIsDriven(Apply(sys, CallOfPodPass(i, grants[0])), i, grants[1..]);
      PodRunUnfolds(sys.podPasses[i], sys.store, grants);
    }
  }

  lemma PodRunUnfolds(ph: PodPhase, s: Store, grants: seq<Grant>)
    requires grants != []
    ensures var (ph', s') := PodStep(ph, s, grants[0]); PodRun(ph, s, grants) == PodRun(ph', s', grants[1..])
  {
    if !ph.PodFinished? {
      NextPodCall(ph, s, grants);
    }
  }
}
