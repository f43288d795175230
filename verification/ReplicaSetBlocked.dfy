/** Replica sets that passes cannot help: those with a gap in their replicas, and those without
    a node to replicate to. */
module ReplicaSetBlocked {
  import opened Cluster
  import opened ReplicaSetController
  import opened ReplicaSetConvergence
  import opened ReplicaSetPasses
  import opened ReplicaSetTheorems
  import opened Selectors
  import opened Text
  import opened Wrappers

  function Deleted(s: Store, name: string): Store {
    s.(dataPods := s.dataPods - {name})
  }

  lemma DeletedIsNotCounted(s: Store, name: string, text: string)
    requires name in MatchingPods(s, text)
    ensures MatchingPods(Deleted(s, name), text) == MatchingPods(s, text) - {name}
    ensures |MatchingPods(Deleted(s, name), text)| == |MatchingPods(s, text)| - 1
  {
    var s' := Deleted(s, name);
    forall x ensures x in MatchingPods(s', text) <==> x in MatchingPods(s, text) && x != name {
      assert x in s'.dataPods <==> x in s.dataPods && x != name;
    }
  }

  /** A complete set from which a user deletes a replica other than the last stays one short for
      ever: the next index to make is that of the last one. */
  lemma DeletionNeverHeals(rs: ReplicaSet, s: Store, i: nat, scripts: seq<seq<Grant>>)
    requires Count(rs, s) == rs.replicas && i + 1 < rs.replicas
    requires ReplicaName(rs.uid, i) in MatchingPods(s, Print(rs.selector))
    requires ReplicaName(rs.uid, rs.replicas - 1) in s.dataPods
    requires Targets(rs, Deleted(s, ReplicaName(rs.uid, i))) != []
    ensures var s' := Deleted(s, ReplicaName(rs.uid, i));
            Count(rs, s') == rs.replicas - 1 && Passes(rs, s', scripts) == s'
  {
    DeletedIsNotCounted(s, ReplicaName(rs.uid, i), Print(rs.selector));
    if ReplicaName(rs.uid, i) == ReplicaName(rs.uid, rs.replicas - 1) {
      ReplicaNamesDistinct(rs.uid, i, rs.uid, rs.replicas - 1);
    }
    NeverDuplicates(rs, Deleted(s, ReplicaName(rs.uid, i)), scripts);
  }

  /** The smallest such store. */
  const SOURCE_NODE := DataNode("a", "1", map[])
  const OTHER_NODE := DataNode("b", "2", map[])
  const BLOCKED_SET := ReplicaSet("rs", "u", 3, [], "src", false)
  const SOURCE := DataPod(
                    "src", "3", map[], [], Some(OwnerRef(NodeKind, "a", "1")),
                    DataPodSpec(Some("/p"), None, None, None))
  const BLOCKED_STORE := Store(
                           "ns", [SOURCE_NODE, OTHER_NODE],
                           map["src" := SOURCE,
                               "u-replica-2" := ReplicaDataPod(BLOCKED_SET, 2, OTHER_NODE, "ns", "4")],
                           map[], map[])

  lemma CountsAll(rs: ReplicaSet, s: Store)
    requires rs.selector == []
    ensures CountsReplicas(rs) && MatchingPods(s, Print(rs.selector)) == s.dataPods.Keys
  {
    assert Print([]) == "" && Parse("") == Some([]);
    assert forall labels :: Selects("", labels);
  }

  lemma BlockedSite()
    ensures Sited(BLOCKED_SET, BLOCKED_STORE, 1) && Targets(BLOCKED_SET, BLOCKED_STORE) == [OTHER_NODE]
  {
    var nodes := BLOCKED_STORE.nodes;
    assert SOURCE.Owners() == [OwnerRef(NodeKind, "a", "1")];
    assert FindNode(nodes, "a") == Some(SOURCE_NODE);
    assert nodes[1..] == [OTHER_NODE] && OtherNodes(nodes[1..], "1") == [OTHER_NODE];
    assert OtherNodes(nodes, "1") == [] + [OTHER_NODE];
  }

  lemma BlockedCount()
    ensures CountsReplicas(BLOCKED_SET) && Count(BLOCKED_SET, BLOCKED_STORE) == 2
    ensures ReplicaName(BLOCKED_SET.uid, 2) in BLOCKED_STORE.dataPods
  {
    CountsAll(BLOCKED_SET, BLOCKED_STORE);
    assert |"src"| != |"u-replica-2"|;
    assert BLOCKED_STORE.dataPods.Keys == {"src", "u-replica-2"};
    assert ReplicaName("u", 2) == "u-replica-2";
  }

  /** A set of three with an empty selector counts its source and replica 2, has a node for
      another one, and stays at two. */
  lemma TakenNameBlocks(scripts: seq<seq<Grant>>)
    ensures CountsReplicas(BLOCKED_SET) && Sited(BLOCKED_SET, BLOCKED_STORE, 1)
    ensures Count(BLOCKED_SET, BLOCKED_STORE) == 2 < BLOCKED_SET.replicas
    ensures !NamesFree(BLOCKED_SET, BLOCKED_STORE, 2)
    ensures Passes(BLOCKED_SET, BLOCKED_STORE, scripts) == BLOCKED_STORE
  {
    BlockedCount();
    BlockedSite();
    NeverDuplicates(BLOCKED_SET, BLOCKED_STORE, scripts);
  }

  /** Nowhere to replicate to. */
  lemma NodelessStep(rs: ReplicaSet, s: Store, grants: seq<Grant>)
    requires Sited(rs, s, 0) && Parse(Print(rs.selector)).Some? && Count(rs, s) < rs.replicas
    requires s.dataPods[rs.sourcePod].spec.path.Some? && Answered(rs, s, grants)
    ensures var s' := Pass(rs, s, grants).1;
            && s'.dataPods == s.dataPods && s'.nodes == s.nodes
            && |s'.claims| == |s.claims| + 1 && |s'.pods| == |s.pods| + 1
  {
    PassAllocates(rs, s, 0, grants);
    var (ph, s') := Pass(rs, s, grants);
    NodelessPass(rs, s, grants, ph, s');
    var k := PassAdds(rs, s, grants);
  }

  lemma SameSite(rs: ReplicaSet, s: Store, s': Store)
    requires Sited(rs, s, 0) && s'.dataPods == s.dataPods && s'.nodes == s.nodes
    ensures Sited(rs, s', 0) && Count(rs, s') == Count(rs, s)
  {
  }

  /** A set that is too small and has no node to replicate to gets another source claim and
      another sync Pod with every answered pass, and nothing else, for ever. */
  lemma {:induction false} NodelessPasses(rs: ReplicaSet, s: Store, scripts: seq<seq<Grant>>)
    requires Sited(rs, s, 0) && Parse(Print(rs.selector)).Some? && Count(rs, s) < rs.replicas
    requires s.dataPods[rs.sourcePod].spec.path.Some? && AllAnswered(rs, s, scripts)
    ensures var s' := Passes(rs, s, scripts);
            && s'.dataPods == s.dataPods
            && |s'.claims| == |s.claims| + |scripts| && |s'.pods| == |s.pods| + |scripts|
    decreases |scripts|
  {
    if scripts != [] {
      var s' := Pass(rs, s, scripts[0]).1;
      NodelessStep(rs, s, scripts[0]);
      SameSite(rs, s, s');
      NodelessPasses(rs, s', scripts[1..]);
    }
  }
}
