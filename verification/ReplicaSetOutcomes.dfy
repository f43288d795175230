/** How a pass that is answered ends, in every case. */
module ReplicaSetOutcomes {
  import opened Cluster
  import opened ReplicaSetController
  import opened ReplicaSetConvergence
  import opened ReplicaSetPasses
  import opened ReplicaSetTheorems
  import opened Selectors
  import opened Text

  /** One of the names that a pass is to make is taken. */
  predicate TakenIn(rs: ReplicaSet, names: set<string>, from: nat, k: nat) {
    exists i: nat | from <= i < from + k :: ReplicaName(rs.uid, i) in names
  }

  lemma TakenAfterTurn(rs: ReplicaSet, names: set<string>, from: nat, k: nat)
    requires k > 0 && ReplicaName(rs.uid, from) !in names
    ensures TakenIn(rs, names + {ReplicaName(rs.uid, from)}, from + 1, k - 1) <==> TakenIn(rs, names, from, k)
  {
    var names' := names + {ReplicaName(rs.uid, from)};
    if i: nat :| from + 1 <= i < from + k && ReplicaName(rs.uid, i) in names' {
      if ReplicaName(rs.uid, i) == ReplicaName(rs.uid, from) {
        ReplicaNamesDistinct(rs.uid, i, rs.uid, from);
      }
      assert ReplicaName(rs.uid, i) in names;
    }
    if i: nat :| from <= i < from + k && ReplicaName(rs.uid, i) in names {
      assert i != from && ReplicaName(rs.uid, i) in names';
    }
  }

  predicate LoopEnds(rs: ReplicaSet, source: DataPod, taken: bool, ph: Phase) {
    if taken then ph == Finished(Failed(AlreadyExists)) else EndsWell(rs, source, ph)
  }

  lemma TurnRefused(rs: ReplicaSet, index: nat, nodes: seq<DataNode>, job: Job, s: Store, grants: seq<Grant>)
    requires index < rs.replicas && nodes != [] && grants != []
    requires ReplicaName(rs.uid, index) in s.dataPods
    ensures Run(rs, LoopHead(rs, index, nodes, job), s, grants).0 == Finished(Failed(AlreadyExists))
    ensures TakenIn(rs, s.dataPods.Keys, index, Turns(rs, index, nodes))
  {
    NextCall(rs, CreatingDataPod(index, nodes, job), s, grants);
    assert ReplicaName(rs.uid, index) in s.dataPods.Keys;
  }

  ghost predicate LoopEndsAs(
    rs: ReplicaSet, index: nat, nodes: seq<DataNode>, source: DataPod, s: Store, end: (Phase, Store))
  {
    LoopEnds(rs, source, TakenIn(rs, s.dataPods.Keys, index, Turns(rs, index, nodes)), end.0)
  }

  lemma NoTurnEnds(rs: ReplicaSet, index: nat, nodes: seq<DataNode>, job: Job, s: Store, grants: seq<Grant>)
    requires index == rs.replicas || nodes == []
    requires |grants| >= 2 && FreshSuffixes(rs, s, grants)
    ensures LoopEndsAs(rs, index, nodes, job.source, s, Run(rs, LoopHead(rs, index, nodes, job), s, grants))
  {
    EndSucceeds(rs, job, s, grants);
  }

  lemma OneMoreTurn(
    rs: ReplicaSet, index: nat, nodes: seq<DataNode>, source: DataPod, s: Store, s': Store, end: (Phase, Store))
    requires index < rs.replicas && nodes != [] && ReplicaName(rs.uid, index) !in s.dataPods
    requires s'.dataPods.Keys == s.dataPods.Keys + {ReplicaName(rs.uid, index)}
    requires LoopEndsAs(rs, index + 1, nodes[..|nodes| - 1], source, s', end)
    ensures LoopEndsAs(rs, index, nodes, source, s, end)
  {
    TakenAfterTurn(rs, s.dataPods.Keys, index, Turns(rs, index, nodes));
  }

  /** The loop ends with the first name that is taken, or as the source's path has it. */
  lemma {:induction false} LoopOutcome(
    rs: ReplicaSet, index: nat, nodes: seq<DataNode>, job: Job, s: Store, grants: seq<Grant>)
    requires index <= rs.replicas
    requires |grants| >= 2 * (rs.replicas - index) + 2 && FreshSuffixes(rs, s, grants)
    ensures LoopEndsAs(rs, index, nodes, job.source, s, Run(rs, LoopHead(rs, index, nodes, job), s, grants))
    decreases rs.replicas - index
  {
    if index == rs.replicas || nodes == [] {
      NoTurnEnds(rs, index, nodes, job, s, grants);
    } else if ReplicaName(rs.uid, index) in s.dataPods {
      TurnRefused(rs, index, nodes, job, s, grants);
    } else {
      var rest := nodes[..|nodes| - 1];
      var job', s' := TurnSucceeds(rs, index, nodes, job, s, grants);
      LoopOutcome(rs, index + 1, rest, job', s', grants[2..]);
      OneMoreTurn(
        rs, index, nodes, job.source, s, s', Run(rs, LoopHead(rs, index + 1, rest, job'), s', grants[2..]));
    }
  }

  /** The outcome, from what the store says before the pass. */
  predicate IsOutcome(rs: ReplicaSet, s: Store, outcome: Outcome) {
    if rs.hasStatus then outcome == Initialized
    else if Parse(Print(rs.selector)).None? then outcome == Failed(BadSelector)
    else if Count(rs, s) == rs.replicas then outcome == InSync
    else if Count(rs, s) > rs.replicas then outcome == Surplus
    else if rs.sourcePod !in s.dataPods then outcome == Failed(NotFound)
    else if s.dataPods[rs.sourcePod].Owners() == [] then outcome == Failed(MissingOwner)
    else if forall n | n in s.nodes :: n.name != s.dataPods[rs.sourcePod].Owners()[0].name then
      outcome == Failed(NotFound)
    else if TakenIn(rs, s.dataPods.Keys, Count(rs, s), Turns(rs, Count(rs, s), Targets(rs, s))) then
      outcome == Failed(AlreadyExists)
    else if s.dataPods[rs.sourcePod].spec.path.None? then outcome == Failed(MissingPath)
    else outcome.Scaled?
  }

  lemma SourceOutcome(rs: ReplicaSet, s: Store, grants: seq<Grant>)
    requires SourceNode(rs, s).None? && |grants| >= 2
    ensures var ph := Run(rs, GettingSource(Count(rs, s)), s, grants).0;
            ph == Finished(Failed(
                             if rs.sourcePod in s.dataPods && s.dataPods[rs.sourcePod].Owners() == []
                             then MissingOwner else NotFound))
  {
    NextCall(rs, GettingSource(Count(rs, s)), s, grants);
    if rs.sourcePod in s.dataPods && s.dataPods[rs.sourcePod].Owners() != [] {
      NextCall(rs, GettingSourceNode(Count(rs, s), s.dataPods[rs.sourcePod]), s, grants[1..]);
    }
  }

  lemma SiteMeaning(rs: ReplicaSet, s: Store)
    ensures SourceNode(rs, s).None? <==>
            || rs.sourcePod !in s.dataPods || s.dataPods[rs.sourcePod].Owners() == []
            || forall n | n in s.nodes :: n.name != s.dataPods[rs.sourcePod].Owners()[0].name
  {
  }

  lemma ScaleUpOutcome(rs: ReplicaSet, s: Store, grants: seq<Grant>)
    requires !rs.hasStatus && Parse(Print(rs.selector)).Some? && Count(rs, s) < rs.replicas
    requires |grants| >= 5 + 2 * rs.replicas && FreshSuffixes(rs, s, grants)
    ensures var ph := Run(rs, GettingSource(Count(rs, s)), s, grants).0;
            ph.Finished? && IsOutcome(rs, s, ph.outcome)
  {
    SiteMeaning(rs, s);
    if SourceNode(rs, s).None? {
      SourceOutcome(rs, s, grants);
    } else {
      ScoutingSucceeds(rs, Count(rs, s), s, grants);
      FreshAfter(rs, s, grants, 3);
      var source, targets := s.dataPods[rs.sourcePod], Targets(rs, s);
      LoopOutcome(
        rs, Count(rs, s), targets, Job(Count(rs, s), source, SourceNode(rs, s).value, targets, []), s, grants[3..]);
    }
  }

  /** Every pass that is answered ends as the store and the set say, and no other way. */
  lemma AnsweredOutcome(rs: ReplicaSet, s: Store, grants: seq<Grant>)
    requires Answered(rs, s, grants)
    ensures var ph := Pass(rs, s, grants).0; ph.Finished? && IsOutcome(rs, s, ph.outcome)
  {
    if !rs.hasStatus {
      NextCall(rs, ListingPods, s, grants);
      if Parse(Print(rs.selector)).Some? && Count(rs, s) < rs.replicas {
        FreshAfter(rs, s, grants, 1);
        ScaleUpOutcome(rs, s, grants[1..]);
      }
    }
  }
}
