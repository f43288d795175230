/** A replica set passed over again and again while nothing else changes: one that counts its
    own replicas, and finds their names free, reaches its number in the least number of passes
    and stays there, whatever calls fail; any other one gets stuck below it. */
module ReplicaSetConvergence {
  import opened Cluster
  import opened ReplicaSetController
  import opened ReplicaSetPasses
  import opened ReplicaSetTheorems
  import opened Selectors
  import opened Text

  /** The suffixes the driver draws are new to the store and differ from each other. */
  predicate FreshSuffixes(rs: ReplicaSet, s: Store, grants: seq<Grant>) {
    && (forall g | g in grants :: ClaimName(rs, g.suffix) !in s.claims && PodName(rs, g.suffix) !in s.pods)
    && (forall i, j | 0 <= i < j < |grants| :: grants[i].suffix != grants[j].suffix)
  }

  /** No DataPod holds the name of replica `first` or of a later one that the set wants. */
  predicate NamesFree(rs: ReplicaSet, s: Store, first: nat) {
    forall i: nat | first <= i < rs.replicas :: ReplicaName(rs.uid, i) !in s.dataPods
  }

  lemma ClaimNamesDistinct(rs: ReplicaSet, a: string, b: string)
    requires ClaimName(rs, a) == ClaimName(rs, b)
    ensures a == b
  {
    assert a == ClaimName(rs, a)[|"pvc-" + rs.uid + "-"|..];
    assert b == ClaimName(rs, b)[|"pvc-" + rs.uid + "-"|..];
  }

  /** After a claim took the first suffix, the others are still fresh. */
  lemma StillFresh(rs: ReplicaSet, s: Store, grants: seq<Grant>, s': Store)
    requires grants != [] && FreshSuffixes(rs, s, grants)
    requires s'.claims.Keys <= s.claims.Keys + {ClaimName(rs, grants[0].suffix)} && s'.pods == s.pods
    ensures FreshSuffixes(rs, s', grants[1..])
  {
    forall g | g in grants[1..] ensures ClaimName(rs, g.suffix) !in s'.claims {
      var i :| 1 <= i < |grants| && grants[i] == g;
      if ClaimName(rs, g.suffix) == ClaimName(rs, grants[0].suffix) {
        ClaimNamesDistinct(rs, g.suffix, grants[0].suffix);
      }
    }
  }

  predicate IsScaled(ph: Phase) {
    ph.Finished? && ph.outcome.Scaled?
  }

  /** How a pass that is answered ends. */
  predicate EndsWell(rs: ReplicaSet, source: DataPod, ph: Phase) {
    if source.spec.path.Some? then IsScaled(ph) else ph == Finished(Failed(MissingPath))
  }

  /** With fresh suffixes and enough answers, the last two calls succeed, if the source has a
      path, */
  lemma EndSucceeds(rs: ReplicaSet, job: Job, s: Store, grants: seq<Grant>)
    requires |grants| >= 2 && FreshSuffixes(rs, s, grants)
    ensures var (ph, s') := Run(rs, CreatingSourceClaim(job), s, grants);
            EndsWell(rs, job.source, ph) && s'.dataPods == s.dataPods
  {
    NextCall(rs, CreatingSourceClaim(job), s, grants);
    assert grants[0] in grants;
    var (ph, s') := SourceClaimCall(rs, job, s, grants[0]);
    if !ph.Finished? {
      StillFresh(rs, s, grants, s');
      assert grants[1] in grants && grants[1] == grants[1..][0];
      NextCall(rs, ph, s', grants[1..]);
    }
  }

  /** and so does the call for a DataPod, */
  lemma DataPodCallSucceeds(rs: ReplicaSet, index: nat, nodes: seq<DataNode>, job: Job, s: Store, grants: seq<Grant>)
    requires nodes != [] && grants != []
    requires FreshSuffixes(rs, s, grants) && ReplicaName(rs.uid, index) !in s.dataPods
    ensures var node := nodes[|nodes| - 1];
            var d := ReplicaDataPod(rs, index, node, s.namespace, grants[0].uid);
            var s' := s.(dataPods := s.dataPods[d.name := d]);
            && Run(rs, CreatingDataPod(index, nodes, job), s, grants)
               == Run(rs, CreatingClaim(index, nodes[..|nodes| - 1], node, d, job), s', grants[1..])
            && FreshSuffixes(rs, s', grants[1..])
  {
    NextCall(rs, CreatingDataPod(index, nodes, job), s, grants);
    var (_, s') := DataPodCall(rs, index, nodes, job, s, grants[0]);
    StillFresh(rs, s, grants, s');
  }

  /** the one for its claim, */
  lemma ClaimCallSucceeds(
    rs: ReplicaSet, index: nat, nodes: seq<DataNode>, node: DataNode, d: DataPod, job: Job, s: Store,
    grants: seq<Grant>)
    requires grants != [] && FreshSuffixes(rs, s, grants)
    ensures var c := ReplicaClaim(rs, d, node, s.namespace, grants[0]);
            var s' := s.(claims := s.claims[c.name := c]);
            && Run(rs, CreatingClaim(index, nodes, node, d, job), s, grants)
               == Run(rs, LoopHead(rs, index + 1, nodes, job.(made := job.made + [Replica(d, c)])), s', grants[1..])
            && FreshSuffixes(rs, s', grants[1..])
  {
    NextCall(rs, CreatingClaim(index, nodes, node, d, job), s, grants);
    assert grants[0] in grants;
    var (_, s') := ClaimCall(rs, index, nodes, node, d, job, s, grants[0]);
    StillFresh(rs, s, grants, s');
  }

  /** so one turn of the loop, */
  lemma TurnSucceeds(rs: ReplicaSet, index: nat, nodes: seq<DataNode>, job: Job, s: Store, grants: seq<Grant>)
    returns (job': Job, s': Store)
    requires nodes != [] && |grants| >= 2
    requires FreshSuffixes(rs, s, grants) && ReplicaName(rs.uid, index) !in s.dataPods
    ensures Run(rs, CreatingDataPod(index, nodes, job), s, grants)
            == Run(rs, LoopHead(rs, index + 1, nodes[..|nodes| - 1], job'), s', grants[2..])
    ensures job'.source == job.source && s'.dataPods.Keys == s.dataPods.Keys + {ReplicaName(rs.uid, index)}
    ensures FreshSuffixes(rs, s', grants[2..])
  {
    var rest, node := nodes[..|nodes| - 1], nodes[|nodes| - 1];
    var d := ReplicaDataPod(rs, index, node, s.namespace, grants[0].uid);
    DataPodCallSucceeds(rs, index, nodes, job, s, grants);
    var s1 := s.(dataPods := s.dataPods[d.name := d]);
    ClaimCallSucceeds(rs, index, rest, node, d, job, s1, grants[1..]);
    assert grants[1..][1..] == grants[2..];
    var c := ReplicaClaim(rs, d, node, s1.namespace, grants[1..][0]);
    job', s' := job.(made := job.made + [Replica(d, c)]), s1.(claims := s1.claims[c.name := c]);
  }

  lemma {:induction false} NamesFromFirst(rs: ReplicaSet, from: nat, k: nat)
    requires k > 0
    ensures NamesFrom(rs, from, k) == {ReplicaName(rs.uid, from)} + NamesFrom(rs, from + 1, k - 1)
  {
    if k > 1 {
      NamesFromFirst(rs, from, k - 1);
    }
  }

  /** How many turns the loop takes. */
  function Turns(rs: ReplicaSet, index: nat, nodes: seq<DataNode>): nat {
    if rs.replicas <= index then 0 else if rs.replicas - index < |nodes| then rs.replicas - index else |nodes|
  }

  lemma TurnNames(rs: ReplicaSet, index: nat, nodes: seq<DataNode>, keys: set<string>)
    requires index < rs.replicas && nodes != []
    ensures keys + {ReplicaName(rs.uid, index)} + NamesFrom(rs, index + 1, Turns(rs, index + 1, nodes[..|nodes| - 1]))
            == keys + NamesFrom(rs, index, Turns(rs, index, nodes))
  {
    NamesFromFirst(rs, index, Turns(rs, index, nodes));
  }

  /** The rest of a pass makes the replicas it has indices and nodes for, and ends well. */
  predicate Completes(
    rs: ReplicaSet, index: nat, nodes: seq<DataNode>, source: DataPod, s: Store, end: (Phase, Store))
  {
    && EndsWell(rs, source, end.0)
    && end.1.dataPods.Keys == s.dataPods.Keys + NamesFrom(rs, index, Turns(rs, index, nodes))
  }

  lemma NothingToDo(rs: ReplicaSet, index: nat, nodes: seq<DataNode>, job: Job, s: Store, grants: seq<Grant>)
    requires index == rs.replicas || nodes == []
    requires |grants| >= 2 && FreshSuffixes(rs, s, grants)
    ensures Completes(rs, index, nodes, job.source, s, Run(rs, LoopHead(rs, index, nodes, job), s, grants))
  {
    EndSucceeds(rs, job, s, grants);
  }

  lemma TurnCompletes(
    rs: ReplicaSet, index: nat, nodes: seq<DataNode>, source: DataPod, s: Store, s': Store, end: (Phase, Store))
    requires index < rs.replicas && nodes != []
    requires s'.dataPods.Keys == s.dataPods.Keys + {ReplicaName(rs.uid, index)}
    requires Completes(rs, index + 1, nodes[..|nodes| - 1], source, s', end)
    ensures Completes(rs, index, nodes, source, s, end)
  {
    TurnNames(rs, index, nodes, s.dataPods.Keys);
  }

  /** and the loop. */
  lemma {:induction false} LoopSucceeds(
    rs: ReplicaSet, index: nat, nodes: seq<DataNode>, job: Job, s: Store, grants: seq<Grant>)
    requires index <= rs.replicas
    requires |grants| >= 2 * (rs.replicas - index) + 2
    requires FreshSuffixes(rs, s, grants) && (nodes != [] ==> NamesFree(rs, s, index))
    ensures Completes(rs, index, nodes, job.source, s, Run(rs, LoopHead(rs, index, nodes, job), s, grants))
    decreases rs.replicas - index
  {
    if index == rs.replicas || nodes == [] {
      NothingToDo(rs, index, nodes, job, s, grants);
    } else {
      var rest := nodes[..|nodes| - 1];
      var job', s' := TurnSucceeds(rs, index, nodes, job, s, grants);
      NamesStillFree(rs, s, index, s');
      LoopSucceeds(rs, index + 1, rest, job', s', grants[2..]);
      TurnCompletes(
        rs, index, nodes, job.source, s, s', Run(rs, LoopHead(rs, index + 1, rest, job'), s', grants[2..]));
    }
  }

  lemma NamesStillFree(rs: ReplicaSet, s: Store, index: nat, s': Store)
    requires NamesFree(rs, s, index)
    requires s'.dataPods.Keys == s.dataPods.Keys + {ReplicaName(rs.uid, index)}
    ensures NamesFree(rs, s', index + 1)
  {
    forall i: nat | index + 1 <= i < rs.replicas ensures ReplicaName(rs.uid, i) !in s'.dataPods {
      if ReplicaName(rs.uid, i) == ReplicaName(rs.uid, index) {
        ReplicaNamesDistinct(rs.uid, i, rs.uid, index);
      }
    }
  }

  /** The set's source is bound to a node, and there are `m` others. */
  predicate Sited(rs: ReplicaSet, s: Store, m: nat) {
    !rs.hasStatus && SourceNode(rs, s).Some? && |Targets(rs, s)| == m
  }

  /** And the names of the replicas that are missing are free. */
  predicate Ready(rs: ReplicaSet, s: Store, m: nat) {
    Sited(rs, s, m) && NamesFree(rs, s, Count(rs, s))
  }

  /** Every call of a pass is answered, and its suffixes are fresh. */
  predicate Answered(rs: ReplicaSet, s: Store, grants: seq<Grant>) {
    |grants| >= 6 + 2 * rs.replicas && FreshSuffixes(rs, s, grants)
  }

  lemma FreshAfter(rs: ReplicaSet, s: Store, grants: seq<Grant>, k: nat)
    requires k <= |grants| && FreshSuffixes(rs, s, grants)
    ensures FreshSuffixes(rs, s, grants[k..])
  {
    assert forall g | g in grants[k..] :: g in grants;
  }

  /** The calls that find the source and its targets are answered, */
  lemma ScoutingSucceeds(rs: ReplicaSet, first: nat, s: Store, grants: seq<Grant>)
    requires rs.sourcePod in s.dataPods && SourceNode(rs, s).Some?
    requires |grants| >= 3
    ensures var source, targets := s.dataPods[rs.sourcePod], Targets(rs, s);
            var job := Job(first, source, SourceNode(rs, s).value, targets, []);
            Run(rs, GettingSource(first), s, grants) == Run(rs, LoopHead(rs, first, targets, job), s, grants[3..])
  {
    var source, node := s.dataPods[rs.sourcePod], SourceNode(rs, s).value;
    NextCall(rs, GettingSource(first), s, grants);
    NextCall(rs, GettingSourceNode(first, source), s, grants[1..]);
    NextCall(rs, ListingOthers(first, source, node), s, grants[1..][1..]);
    assert grants[1..][1..][1..] == grants[3..];
  }

  /** and so the whole pass makes the replicas it has nodes for, and succeeds exactly if the
      source has a path. */
  lemma PassAllocates(rs: ReplicaSet, s: Store, m: nat, grants: seq<Grant>)
    requires Parse(Print(rs.selector)).Some?
    requires Sited(rs, s, m) && (m > 0 ==> NamesFree(rs, s, Count(rs, s)))
    requires Answered(rs, s, grants) && Count(rs, s) < rs.replicas
    ensures var (ph, s') := Pass(rs, s, grants);
            && EndsWell(rs, s.dataPods[rs.sourcePod], ph)
            && s'.dataPods.Keys
               == s.dataPods.Keys + NamesFrom(rs, Count(rs, s), Turns(rs, Count(rs, s), Targets(rs, s)))
  {
    var first := Count(rs, s);
    NextCall(rs, ListingPods, s, grants);
    ScoutingSucceeds(rs, first, s, grants[1..]);
    assert grants[1..][3..] == grants[4..];
    FreshAfter(rs, s, grants, 4);
    var source, targets := s.dataPods[rs.sourcePod], Targets(rs, s);
    LoopSucceeds(rs, first, targets, Job(first, source, SourceNode(rs, s).value, targets, []), s, grants[4..]);
  }

  lemma {:induction false} RangeApart(rs: ReplicaSet, keys: set<string>, from: nat, k: nat)
    requires forall i: nat | from <= i < from + k :: ReplicaName(rs.uid, i) !in keys
    ensures keys !! NamesFrom(rs, from, k)
  {
    if k > 0 {
      RangeApart(rs, keys, from, k - 1);
    }
  }

  lemma SameAddition(keys: set<string>, a: set<string>, b: set<string>)
    requires keys + a == keys + b && keys !! a && keys !! b
    ensures a == b
  {
    assert forall x | x in a :: x in keys + b;
    assert forall x | x in b :: x in keys + a;
  }

  /** Two ranges of new names that begin alike are the same only if they are equally long. */
  lemma SameRange(rs: ReplicaSet, keys: set<string>, from: nat, k: nat, k': nat)
    requires keys + NamesFrom(rs, from, k) == keys + NamesFrom(rs, from, k')
    requires keys !! NamesFrom(rs, from, k)
    requires forall i: nat | from <= i < from + k' :: ReplicaName(rs.uid, i) !in keys
    ensures k == k'
  {
    RangeApart(rs, keys, from, k');
    SameAddition(keys, NamesFrom(rs, from, k), NamesFrom(rs, from, k'));
    NamesFromCount(rs, from, k);
    NamesFromCount(rs, from, k');
  }

  lemma NothingMade(rs: ReplicaSet, s: Store, job: Job, tail: Tail)
    requires AreReplicas(rs, s.namespace, job.first, job.targets, job.made) && TailOk(rs, s, job, tail)
    ensures job.targets == [] ==> Made(job, tail) == 0
  {
    if job.made != [] {
      ReplicaAt(rs, s.namespace, job.first, job.targets, job.made, 0);
    }
  }

  lemma MadeInRange(rs: ReplicaSet, s: Store, job: Job, tail: Tail)
    requires AreReplicas(rs, s.namespace, job.first, job.targets, job.made) && TailOk(rs, s, job, tail)
    requires job.first < rs.replicas
    ensures job.first + Made(job, tail) <= rs.replicas
  {
    if job.made != [] {
      ReplicaAt(rs, s.namespace, job.first, job.targets, job.made, |job.made| - 1);
    }
  }

  /** What any pass at all, failed and crashed ones included, leaves: the next replicas in some
      number, and the same nodes. */
  lemma PassAdds(rs: ReplicaSet, s: Store, grants: seq<Grant>) returns (k: nat)
    ensures var s' := Pass(rs, s, grants).1;
            && AddsReplicas(rs, s, Count(rs, s), k, s') && s'.nodes == s.nodes
            && (k > 0 ==> Count(rs, s) + k <= rs.replicas && Targets(rs, s) != [])
  {
    AbortShape(rs, s, grants);
    var s' := Pass(rs, s, grants).1;
    k := 0;
    if s' != s {
      var job: Job, tail: Tail :| Scouted(rs, s, job) && Shape(rs, s, job, tail, s');
      k := Made(job, tail);
      ShapeAdds(rs, s, job, tail, s');
      NamespaceKept(rs, s, job, tail, s');
      MadeInRange(rs, s, job, tail);
      NothingMade(rs, s, job, tail);
      ScoutedTargets(rs, s, job);
    }
  }

  /** An answered one leaves as many as it has indices and nodes for. */
  lemma AnsweredPassAdds(rs: ReplicaSet, s: Store, m: nat, grants: seq<Grant>)
    requires Parse(Print(rs.selector)).Some?
    requires Sited(rs, s, m) && (m > 0 ==> NamesFree(rs, s, Count(rs, s)))
    requires Answered(rs, s, grants) && Count(rs, s) < rs.replicas
    ensures AddsReplicas(rs, s, Count(rs, s), Turns(rs, Count(rs, s), Targets(rs, s)), Pass(rs, s, grants).1)
  {
    var k := PassAdds(rs, s, grants);
    PassAllocates(rs, s, m, grants);
    SameRange(rs, s.dataPods.Keys, Count(rs, s), k, Turns(rs, Count(rs, s), Targets(rs, s)));
  }

  /** A set that counts as many DataPods as it wants is left as it is, whatever happens to the
      pass. */
  lemma InSyncPass(rs: ReplicaSet, s: Store, grants: seq<Grant>)
    requires Count(rs, s) == rs.replicas
    ensures Pass(rs, s, grants).1 == s
  {
    if !rs.hasStatus {
      NextCall(rs, ListingPods, s, grants);
    }
  }

  /** What new replicas, and nothing else, leave of the source and the targets. */
  lemma SourceStays(rs: ReplicaSet, s: Store, s': Store)
    requires rs.sourcePod in s.dataPods && rs.sourcePod in s'.dataPods
    requires s'.dataPods[rs.sourcePod] == s.dataPods[rs.sourcePod] && s'.nodes == s.nodes
    ensures SourceNode(rs, s') == SourceNode(rs, s) && Targets(rs, s') == Targets(rs, s)
  {
  }

  lemma AddedKeepSite(rs: ReplicaSet, s: Store, m: nat, from: nat, k: nat, s': Store)
    requires Sited(rs, s, m)
    requires AddsReplicas(rs, s, from, k, s') && s'.nodes == s.nodes
    ensures Sited(rs, s', m)
  {
    assert rs.sourcePod in s'.dataPods;
    SourceStays(rs, s, s');
  }

  lemma AddedKeepReady(rs: ReplicaSet, s: Store, m: nat, k: nat, s': Store)
    requires Ready(rs, s, m) && CountsReplicas(rs)
    requires AddsReplicas(rs, s, Count(rs, s), k, s') && s'.nodes == s.nodes
    ensures Ready(rs, s', m) && Count(rs, s') == Count(rs, s) + k
  {
    var n := Count(rs, s);
    AddedAreCounted(rs, s, n, k, s');
    AddedKeepSite(rs, s, m, n, k, s');
    forall i: nat | n + k <= i < rs.replicas ensures ReplicaName(rs.uid, i) !in s'.dataPods {
      NamesFromMeaning(rs, n, k, i);
    }
  }

  /** Any pass at all, failed and crashed ones included, leaves the set ready for the next, and
      takes no replica away and makes none too many. */
  lemma AnyPass(rs: ReplicaSet, s: Store, m: nat, grants: seq<Grant>)
    requires Ready(rs, s, m) && CountsReplicas(rs) && Count(rs, s) <= rs.replicas
    ensures var s' := Pass(rs, s, grants).1;
            Ready(rs, s', m) && Count(rs, s) <= Count(rs, s') <= rs.replicas
  {
    var k := PassAdds(rs, s, grants);
    AddedKeepReady(rs, s, m, k, Pass(rs, s, grants).1);
  }

  function Min(a: int, b: int): int {
    if a < b then a else b
  }

  /** A pass that is answered makes `m` replicas, or as many as are missing. */
  lemma AnsweredPass(rs: ReplicaSet, s: Store, m: nat, grants: seq<Grant>)
    requires Ready(rs, s, m) && CountsReplicas(rs) && Count(rs, s) <= rs.replicas && Answered(rs, s, grants)
    ensures Count(rs, Pass(rs, s, grants).1) == Min(rs.replicas, Count(rs, s) + m)
  {
    if Count(rs, s) == rs.replicas {
      InSyncPass(rs, s, grants);
    } else {
      AnsweredPassAdds(rs, s, m, grants);
      AddedAreCounted(rs, s, Count(rs, s), Turns(rs, Count(rs, s), Targets(rs, s)), Pass(rs, s, grants).1);
    }
  }

  /** Pass after pass. */
  function Passes(rs: ReplicaSet, s: Store, scripts: seq<seq<Grant>>): Store
    decreases |scripts|
  {
    if scripts == [] then s else Passes(rs, Pass(rs, s, scripts[0]).1, scripts[1..])
  }

  /** How many of them have all their calls answered, with fresh suffixes. */
  function AnsweredPasses(rs: ReplicaSet, s: Store, scripts: seq<seq<Grant>>): nat
    decreases |scripts|
  {
    if scripts == [] then 0
    else (if Answered(rs, s, scripts[0]) then 1 else 0) + AnsweredPasses(rs, Pass(rs, s, scripts[0]).1, scripts[1..])
  }

  predicate AllAnswered(rs: ReplicaSet, s: Store, scripts: seq<seq<Grant>>)
    decreases |scripts|
  {
    scripts == [] || (Answered(rs, s, scripts[0]) && AllAnswered(rs, Pass(rs, s, scripts[0]).1, scripts[1..]))
  }

  /** `n` after `t` rounds that add `m` each, up to `cap`. */
  function Grown(n: nat, m: nat, cap: nat, t: nat): nat
    decreases t
  {
    if t == 0 then Min(cap, n) else Grown(Min(cap, n + m), m, cap, t - 1)
  }

  lemma {:induction false} GrownMonotone(n: nat, n': nat, m: nat, cap: nat, t: nat)
    requires n <= n'
    ensures Grown(n, m, cap, t) <= Grown(n', m, cap, t)
    decreases t
  {
    if t > 0 {
      GrownMonotone(Min(cap, n + m), Min(cap, n' + m), m, cap, t - 1);
    }
  }

  /** A round in which `n` became `n'`, and `t` rounds after it. */
  lemma GrownStep(n: nat, n': nat, m: nat, cap: nat, t: nat, full: bool)
    requires n <= n' && (full ==> n' == Min(cap, n + m))
    ensures Grown(n, m, cap, t + if full then 1 else 0) <= Grown(n', m, cap, t)
  {
    if !full {
      GrownMonotone(n, n', m, cap, t);
    }
  }

  /** What one pass does to the count in a store that is good. */
  ghost predicate Advances(rs: ReplicaSet, m: nat, good: Store -> bool, s: Store, grants: seq<Grant>) {
    var s' := Pass(rs, s, grants).1;
    && good(s') && Count(rs, s) <= Count(rs, s') <= rs.replicas
    && (Answered(rs, s, grants) ==> Count(rs, s') == Min(rs.replicas, Count(rs, s) + m))
  }

  ghost predicate Closed(rs: ReplicaSet, m: nat, good: Store -> bool) {
    forall s, grants :: good(s) ==> Advances(rs, m, good, s, grants)
  }

  /** Whatever becomes of the calls, the store stays good, */
  lemma {:induction false} PassesStayGood(
    rs: ReplicaSet, m: nat, good: Store -> bool, s: Store, scripts: seq<seq<Grant>>)
    requires Closed(rs, m, good) && good(s)
    ensures good(Passes(rs, s, scripts))
    decreases |scripts|
  {
    if scripts != [] {
      assert Advances(rs, m, good, s, scripts[0]);
      PassesStayGood(rs, m, good, Pass(rs, s, scripts[0]).1, scripts[1..]);
    }
  }

  /** and every pass that is answered brings the set forward. */
  lemma {:induction false} PassesGrow(rs: ReplicaSet, m: nat, good: Store -> bool, s: Store, scripts: seq<seq<Grant>>)
    requires Closed(rs, m, good) && good(s)
    ensures Grown(Count(rs, s), m, rs.replicas, AnsweredPasses(rs, s, scripts)) <= Count(rs, Passes(rs, s, scripts))
    decreases |scripts|
  {
    if scripts != [] {
      var s' := Pass(rs, s, scripts[0]).1;
      assert Advances(rs, m, good, s, scripts[0]);
      PassesGrow(rs, m, good, s', scripts[1..]);
      GrownStep(
        Count(rs, s), Count(rs, s'), m, rs.replicas, AnsweredPasses(rs, s', scripts[1..]), Answered(rs, s, scripts[0]));
    }
  }

  /** If every call is answered, it grows by exactly that. */
  lemma {:induction false} AnsweredPassesGrow(
    rs: ReplicaSet, m: nat, good: Store -> bool, s: Store, scripts: seq<seq<Grant>>)
    requires Closed(rs, m, good) && good(s) && Count(rs, s) <= rs.replicas && AllAnswered(rs, s, scripts)
    ensures Count(rs, Passes(rs, s, scripts)) == Grown(Count(rs, s), m, rs.replicas, |scripts|)
    decreases |scripts|
  {
    if scripts != [] {
      assert Advances(rs, m, good, s, scripts[0]);
      AnsweredPassesGrow(rs, m, good, Pass(rs, s, scripts[0]).1, scripts[1..]);
    }
  }

  /** The stores that are good for a set that counts its replicas. */
  ghost predicate Good(rs: ReplicaSet, m: nat, s: Store) {
    Ready(rs, s, m) && Count(rs, s) <= rs.replicas
  }

  ghost function GoodStores(rs: ReplicaSet, m: nat): (good: Store -> bool)
    ensures forall s :: good(s) == Good(rs, m, s)
  {
    s => Good(rs, m, s)
  }

  lemma GoodIsClosed(rs: ReplicaSet, m: nat)
    requires CountsReplicas(rs)
    ensures Closed(rs, m, GoodStores(rs, m))
  {
    var good := GoodStores(rs, m);
    forall s, grants | good(s) ensures Advances(rs, m, good, s, grants) {
      assert Good(rs, m, s);
      AnyPass(rs, s, m, grants);
      if Answered(rs, s, grants) {
        AnsweredPass(rs, s, m, grants);
      }
      assert Good(rs, m, Pass(rs, s, grants).1);
    }
  }

  /** Both, for such a set. */
  lemma ReadyPassesGrow(rs: ReplicaSet, s: Store, m: nat, scripts: seq<seq<Grant>>)
    requires Ready(rs, s, m) && CountsReplicas(rs) && Count(rs, s) <= rs.replicas
    ensures var s' := Passes(rs, s, scripts);
            && Ready(rs, s', m)
            && Grown(Count(rs, s), m, rs.replicas, AnsweredPasses(rs, s, scripts)) <= Count(rs, s') <= rs.replicas
  {
    var good := GoodStores(rs, m);
    GoodIsClosed(rs, m);
    assert Good(rs, m, s);
    PassesStayGood(rs, m, good, s, scripts);
    PassesGrow(rs, m, good, s, scripts);
    assert Good(rs, m, Passes(rs, s, scripts));
  }

  lemma ReadyAnsweredPassesGrow(rs: ReplicaSet, s: Store, m: nat, scripts: seq<seq<Grant>>)
    requires Ready(rs, s, m) && CountsReplicas(rs) && Count(rs, s) <= rs.replicas && AllAnswered(rs, s, scripts)
    ensures Count(rs, Passes(rs, s, scripts)) == Grown(Count(rs, s), m, rs.replicas, |scripts|)
  {
    GoodIsClosed(rs, m);
    assert Good(rs, m, s);
    AnsweredPassesGrow(rs, m, GoodStores(rs, m), s, scripts);
  }

  /** The same in closed form. */
  lemma NextProduct(t: nat, m: nat)
    ensures (t + 1) * m == t * m + m >= m
  {
  }

  lemma {:induction false} GrownMeaning(n: nat, m: nat, cap: nat, t: nat)
    ensures Grown(n, m, cap, t) == Min(cap, n + t * m)
    decreases t
  {
    if t > 0 {
      GrownMeaning(Min(cap, n + m), m, cap, t - 1);
      NextProduct(t - 1, m);
    }
  }

  lemma Ceiling(d: nat, m: nat)
    requires m > 0
    ensures d <= (d + m - 1) / m * m < d + m
  {
    var q, r := (d + m - 1) / m, (d + m - 1) % m;
    assert d + m - 1 == q * m + r;
  }

  lemma {:induction false} ProductGrows(a: nat, b: nat, m: nat)
    requires a <= b
    ensures a * m <= b * m
    decreases b
  {
    if a < b {
      ProductGrows(a, b - 1, m);
      NextProduct(b - 1, m);
    }
  }

  /** With t passes of m there are d or more exactly if t is at least d/m, rounded up. */
  lemma CeilingMeaning(t: nat, d: nat, m: nat)
    requires m > 0
    ensures t * m >= d <==> t >= (d + m - 1) / m
  {
    var q := (d + m - 1) / m;
    Ceiling(d, m);
    if t >= q {
      ProductGrows(q, t, m);
    } else {
      ProductGrows(t, q - 1, m);
      NextProduct(q - 1, m);
    }
  }

  /** The number of passes it takes: the missing ones divided by the targets, rounded up. */
  function Needed(n: nat, m: nat, cap: nat): nat
    requires m > 0 && n <= cap
  {
    (cap - n + m - 1) / m
  }

  lemma GrownIsFull(n: nat, m: nat, cap: nat, t: nat)
    requires m > 0 && n <= cap
    ensures Grown(n, m, cap, t) == cap <==> t >= Needed(n, m, cap)
  {
    GrownMeaning(n, m, cap, t);
    CeilingMeaning(t, cap - n, m);
  }

  /** `n` and `t` times `m`, up to `cap`. */
  function UpTo(n: nat, m: nat, cap: nat, t: nat): int {
    Min(cap, n + t * m)
  }

  lemma GrownIsUpTo(n: nat, m: nat, cap: nat, t: nat)
    ensures Grown(n, m, cap, t) == UpTo(n, m, cap, t)
  {
    GrownMeaning(n, m, cap, t);
  }

  /** After any number of answered passes the set counts exactly min(replicas, n0 + passes * m). */
  lemma Progress(rs: ReplicaSet, s: Store, m: nat, scripts: seq<seq<Grant>>)
    requires Ready(rs, s, m) && CountsReplicas(rs) && Count(rs, s) <= rs.replicas && AllAnswered(rs, s, scripts)
    ensures Count(rs, Passes(rs, s, scripts)) == UpTo(Count(rs, s), m, rs.replicas, |scripts|)
  {
    ReadyAnsweredPassesGrow(rs, s, m, scripts);
    GrownIsUpTo(Count(rs, s), m, rs.replicas, |scripts|);
  }

  /** The set is complete exactly from pass number ceil((replicas - n0) / m) on, and from then
      on no pass, answered or not, changes the store. */
  lemma Converges(rs: ReplicaSet, s: Store, m: nat, scripts: seq<seq<Grant>>, later: seq<Grant>)
    requires Ready(rs, s, m) && CountsReplicas(rs) && m > 0 && Count(rs, s) <= rs.replicas
    requires AllAnswered(rs, s, scripts)
    ensures var s' := Passes(rs, s, scripts);
            && (Count(rs, s') == rs.replicas <==> |scripts| >= Needed(Count(rs, s), m, rs.replicas))
            && (Count(rs, s') == rs.replicas ==> Pass(rs, s', later).1 == s')
  {
    ReadyAnsweredPassesGrow(rs, s, m, scripts);
    GrownIsFull(Count(rs, s), m, rs.replicas, |scripts|);
    if Count(rs, Passes(rs, s, scripts)) == rs.replicas {
      InSyncPass(rs, Passes(rs, s, scripts), later);
    }
  }

  /** Passes that are not answered do no harm: with any number of them in between, the set stays
      ready, and has never too many and at least what the answered ones alone would make. */
  lemma ProgressAnyhow(rs: ReplicaSet, s: Store, m: nat, scripts: seq<seq<Grant>>)
    requires Ready(rs, s, m) && CountsReplicas(rs) && Count(rs, s) <= rs.replicas
    ensures var s' := Passes(rs, s, scripts);
            && Ready(rs, s', m)
            && UpTo(Count(rs, s), m, rs.replicas, AnsweredPasses(rs, s, scripts)) <= Count(rs, s') <= rs.replicas
  {
    ReadyPassesGrow(rs, s, m, scripts);
    GrownIsUpTo(Count(rs, s), m, rs.replicas, AnsweredPasses(rs, s, scripts));
  }

  /** Once there are enough answered ones, the set is complete and no later pass changes the
      store. */
  lemma ConvergesAnyhow(rs: ReplicaSet, s: Store, m: nat, scripts: seq<seq<Grant>>, later: seq<Grant>)
    requires Ready(rs, s, m) && CountsReplicas(rs) && m > 0 && Count(rs, s) <= rs.replicas
    requires AnsweredPasses(rs, s, scripts) >= Needed(Count(rs, s), m, rs.replicas)
    ensures var s' := Passes(rs, s, scripts); Count(rs, s') == rs.replicas && Pass(rs, s', later).1 == s'
  {
    ReadyPassesGrow(rs, s, m, scripts);
    GrownIsFull(Count(rs, s), m, rs.replicas, AnsweredPasses(rs, s, scripts));
    InSyncPass(rs, Passes(rs, s, scripts), later);
  }

  /** Once the DataPod with the next index exists, no number of passes, whatever becomes of
      their calls, adds anything. */
  lemma {:induction false} NeverDuplicates(rs: ReplicaSet, s: Store, scripts: seq<seq<Grant>>)
    requires ReplicaName(rs.uid, Count(rs, s)) in s.dataPods && Targets(rs, s) != []
    ensures Passes(rs, s, scripts) == s
    decreases |scripts|
  {
    if scripts != [] {
      StuckPass(rs, s, scripts[0]);
      NeverDuplicates(rs, s, scripts[1..]);
    }
  }

  lemma AddedFirst(rs: ReplicaSet, s: Store, first: nat, k: nat, s': Store)
    requires AddsReplicas(rs, s, first, k, s') && s'.dataPods != s.dataPods
    ensures ReplicaName(rs.uid, first) in s'.dataPods
  {
    assert k == 0 ==> s'.dataPods.Keys == s.dataPods.Keys;
    NamesFromMeaning(rs, first, k, first);
  }

  /** A set that does not count its replicas is stuck as soon as one pass has made a DataPod:
      no later pass, whatever becomes of its calls, changes the store again. */
  lemma StuckForEver(rs: ReplicaSet, s: Store, grants: seq<Grant>, scripts: seq<seq<Grant>>)
    requires !CountsReplicas(rs) && Pass(rs, s, grants).1.dataPods != s.dataPods
    ensures var s' := Pass(rs, s, grants).1; Passes(rs, s', scripts) == s'
  {
    var k := PassAdds(rs, s, grants);
    CountUnmoved(rs, s, grants);
    var s' := Pass(rs, s, grants).1;
    AddedFirst(rs, s, Count(rs, s), k, s');
    assert k == 0 ==> s'.dataPods.Keys == s.dataPods.Keys;
    TargetsStay(rs, s, s');
    NeverDuplicates(rs, s', scripts);
  }

  lemma TargetsStay(rs: ReplicaSet, s: Store, s': Store)
    requires Targets(rs, s) != [] && s'.nodes == s.nodes
    requires forall x | x in s.dataPods :: x in s'.dataPods && s'.dataPods[x] == s.dataPods[x]
    ensures Targets(rs, s') == Targets(rs, s)
  {
    SourceStays(rs, s, s');
  }

  /** Such a set makes replicas in one pass at most: the first that is answered is the last to
      change anything. */
  lemma FirstPassIsTheLast(rs: ReplicaSet, s: Store, m: nat, grants: seq<Grant>, scripts: seq<seq<Grant>>)
    requires !CountsReplicas(rs) && Parse(Print(rs.selector)).Some?
    requires Ready(rs, s, m) && m > 0 && Count(rs, s) < rs.replicas && Answered(rs, s, grants)
    ensures var s' := Pass(rs, s, grants).1;
            var size := Turns(rs, Count(rs, s), Targets(rs, s));
            && s'.dataPods.Keys == s.dataPods.Keys + NamesFrom(rs, Count(rs, s), size)
            && s'.dataPods != s.dataPods && Count(rs, s') == Count(rs, s) < rs.replicas
            && Passes(rs, s', scripts) == s'
  {
    AnsweredPassAdds(rs, s, m, grants);
    NamesFromMeaning(rs, Count(rs, s), Turns(rs, Count(rs, s), Targets(rs, s)), Count(rs, s));
    CountUnmoved(rs, s, grants);
    StuckForEver(rs, s, grants, scripts);
  }

  lemma {:induction false} CountNeverMoves(rs: ReplicaSet, s: Store, scripts: seq<seq<Grant>>)
    requires !CountsReplicas(rs)
    ensures Count(rs, Passes(rs, s, scripts)) == Count(rs, s)
    decreases |scripts|
  {
    if scripts != [] {
      CountUnmoved(rs, s, scripts[0]);
      CountNeverMoves(rs, Pass(rs, s, scripts[0]).1, scripts[1..]);
    }
  }

  /** If the name of a replica that is missing is taken, the count never gets past its index. */
  lemma TakenPass(rs: ReplicaSet, s: Store, j: nat, grants: seq<Grant>)
    requires Count(rs, s) <= j && ReplicaName(rs.uid, j) in s.dataPods
    ensures var s' := Pass(rs, s, grants).1; Count(rs, s') <= j && ReplicaName(rs.uid, j) in s'.dataPods
  {
    var k := PassAdds(rs, s, grants);
    AddedAreCounted(rs, s, Count(rs, s), k, Pass(rs, s, grants).1);
    NamesFromMeaning(rs, Count(rs, s), k, j);
  }

  lemma {:induction false} TakenStays(rs: ReplicaSet, s: Store, j: nat, scripts: seq<seq<Grant>>)
    requires Count(rs, s) <= j && ReplicaName(rs.uid, j) in s.dataPods
    ensures Count(rs, Passes(rs, s, scripts)) <= j
    decreases |scripts|
  {
    if scripts != [] {
      TakenPass(rs, s, j, scripts[0]);
      TakenStays(rs, Pass(rs, s, scripts[0]).1, j, scripts[1..]);
    }
  }

  /** A pass that finds no source, or no other node, makes no DataPod. */
  lemma UnsitedPass(rs: ReplicaSet, s: Store, grants: seq<Grant>)
    requires rs.hasStatus || Targets(rs, s) == []
    ensures var s' := Pass(rs, s, grants).1;
            Count(rs, s') == Count(rs, s) && (rs.hasStatus || Targets(rs, s') == [])
  {
    if !rs.hasStatus {
      var k := PassAdds(rs, s, grants);
      NoneAdded(rs, s, Count(rs, s), Pass(rs, s, grants).1);
    }
  }

  lemma NoneAdded(rs: ReplicaSet, s: Store, from: nat, s': Store)
    requires AddsReplicas(rs, s, from, 0, s') && s'.nodes == s.nodes
    ensures s'.dataPods == s.dataPods && Targets(rs, s') == Targets(rs, s) && Count(rs, s') == Count(rs, s)
  {
    assert s'.dataPods.Keys == s.dataPods.Keys;
  }

  lemma {:induction false} UnsitedStays(rs: ReplicaSet, s: Store, scripts: seq<seq<Grant>>)
    requires rs.hasStatus || Targets(rs, s) == []
    ensures Count(rs, Passes(rs, s, scripts)) == Count(rs, s)
    decreases |scripts|
  {
    if scripts != [] {
      UnsitedPass(rs, s, scripts[0]);
      UnsitedStays(rs, Pass(rs, s, scripts[0]).1, scripts[1..]);
    }
  }

  /** When passes bring a set that is too small to its number of replicas: enough answered ones
      do so exactly if its selector selects an object without labels, no DataPod has the name
      of a replica that is missing, and the source is on a node and is not on the only one. */
  lemma ConvergesIff(rs: ReplicaSet, s: Store, scripts: seq<seq<Grant>>)
    requires Count(rs, s) < rs.replicas
    requires Targets(rs, s) != [] ==>
               AnsweredPasses(rs, s, scripts) >= Needed(Count(rs, s), |Targets(rs, s)|, rs.replicas)
    ensures Count(rs, Passes(rs, s, scripts)) == rs.replicas <==>
            CountsReplicas(rs) && NamesFree(rs, s, Count(rs, s)) && !rs.hasStatus && Targets(rs, s) != []
  {
    if rs.hasStatus || Targets(rs, s) == [] {
      UnsitedStays(rs, s, scripts);
    } else if !CountsReplicas(rs) {
      CountNeverMoves(rs, s, scripts);
    } else if j: nat :| Count(rs, s) <= j < rs.replicas && ReplicaName(rs.uid, j) in s.dataPods {
      TakenStays(rs, s, j, scripts);
    } else {
      ConvergesAnyhow(rs, s, |Targets(rs, s)|, scripts, []);
    }
  }
}
