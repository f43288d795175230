/** The custom resources and the part of the API server's store the driver works on. All of
    the driver's calls are made in one namespace, so a store is that namespace's content. */
module Cluster {
  import opened Selectors
  import opened Wrappers

  datatype MountAccess = CacheReadWrite | CacheReadOnly | FuseReadWrite | FuseReadOnly

  datatype Ref = Ref(name: string, namespace: Option<string>)

  datatype OwnerKind = NodeKind | ReplicaSetKind

  datatype OwnerRef = OwnerRef(kind: OwnerKind, name: string, uid: string)

  datatype DataNode = DataNode(name: string, uid: string, labels: Labels)

  datatype DataPodSpec = DataPodSpec(
    path: Option<string>,
    nodeRef: Option<Ref>,
    nodeSelector: Option<Entries>,
    request: Option<string>)

  /** A stored DataPod. Its owner references are a list keyed by uid that two parties write:
      `heldOwners` were there when it was created, `appliedOwner` is the one entry that the
      DataPod reconciler's server-side apply manages. */
  datatype DataPod = DataPod(
    name: string,
    uid: string,
    labels: Labels,
    heldOwners: seq<OwnerRef>,
    appliedOwner: Option<OwnerRef>,
    spec: DataPodSpec)
  {
    function Owners(): seq<OwnerRef> {
      match appliedOwner
      case None => heldOwners
      case Some(o) => if exists h | h in heldOwners :: h.uid == o.uid then heldOwners else heldOwners + [o]
    }
  }

  datatype ReplicaSet = ReplicaSet(
    name: string,
    uid: string,
    replicas: nat,
    selector: Entries,
    sourcePod: string,
    hasStatus: bool)

  datatype Claim = Claim(name: string, namespace: string, uid: string, annotations: map<string, string>)

  datatype Volume = Volume(name: string, claimName: string)

  datatype VolumeMount = VolumeMount(name: string, mountPath: string)

  datatype Pod =
    | SyncPod(name: string, volumes: seq<Volume>, mounts: seq<VolumeMount>, source: string, replicas: string)
    | OtherPod(name: string)

  /** Nodes are kept in the order a list call returns them. */
  datatype Store = Store(
    namespace: string,
    nodes: seq<DataNode>,
    dataPods: map<string, DataPod>,
    claims: map<string, Claim>,
    pods: map<string, Pod>)

  /** What the outside chooses for one API call: the uid the server would give to a new
      object and the random suffix the driver would put into its name. */
  datatype Grant = Grant(uid: string, suffix: string)

  /** Errors of the reconcilers. `Unavailable` is an API call that got no answer. */
  datatype Error =
    | Unavailable
    | NotFound
    | AlreadyExists
    | BadSelector
    | MissingOwner
    | MissingPath
    | MissingNode
    | NoNodeMatches

  /** The API server's answers to the calls the reconcilers make. */
  function MatchingPods(s: Store, text: string): (names: set<string>)
    ensures names <= s.dataPods.Keys
  {
    set x | x in s.dataPods && Selects(text, s.dataPods[x].labels) :: x
  }

  function ListDataPods(s: Store, text: string): Result<set<string>, Error> {
    if Parse(text).None? then Err(BadSelector) else Ok(MatchingPods(s, text))
  }

  function GetDataPod(s: Store, name: string): Result<DataPod, Error> {
    if name in s.dataPods then Ok(s.dataPods[name]) else Err(NotFound)
  }

  function GetNode(s: Store, name: string): Result<DataNode, Error> {
    match FindNode(s.nodes, name)
    case Some(node) => Ok(node)
    case None => Err(NotFound)
  }

  function ListNodes(s: Store, text: string): Result<seq<DataNode>, Error> {
    if Parse(text).None? then Err(BadSelector) else Ok(NodesMatching(s.nodes, text))
  }

  function CreateDataPod(s: Store, d: DataPod): Result<Store, Error> {
    if d.name in s.dataPods then Err(AlreadyExists) else Ok(s.(dataPods := s.dataPods[d.name := d]))
  }

  function CreateClaim(s: Store, c: Claim): Result<Store, Error> {
    if c.name in s.claims then Err(AlreadyExists) else Ok(s.(claims := s.claims[c.name := c]))
  }

  function CreatePod(s: Store, p: Pod): Result<Store, Error> {
    if p.name in s.pods then Err(AlreadyExists) else Ok(s.(pods := s.pods[p.name := p]))
  }

  function FindNode(nodes: seq<DataNode>, name: string): (r: Option<DataNode>)
    ensures r.Some? ==> r.value in nodes && r.value.name == name
    ensures r.None? ==> forall n | n in nodes :: n.name != name
  {
    if nodes == [] then None
    else if nodes[0].name == name then Some(nodes[0])
    else FindNode(nodes[1..], name)
  }

  function NodesMatching(nodes: seq<DataNode>, text: string): (r: seq<DataNode>)
    ensures forall n :: n in r <==> n in nodes && Selects(text, n.labels)
  {
    if nodes == [] then []
    else (if Selects(text, nodes[0].labels) then [nodes[0]] else []) + NodesMatching(nodes[1..], text)
  }

  /** What the DataPod reconciler sends: the fields it claims. A selector or a request that
      is `None` is left out of the patch. */
  datatype DataPodPatch = DataPodPatch(
    name: string,
    owner: OwnerRef,
    path: string,
    nodeRef: Ref,
    nodeSelector: Option<Entries>,
    request: Option<string>)

  /** A forced server-side apply sets the fields it names, keeps the others, replaces the
      owner entry it had applied before, and creates the object if there is none. */
  function ApplyDataPod(s: Store, p: DataPodPatch, uid: string): (s': Store)
    ensures s'.dataPods.Keys == s.dataPods.Keys + {p.name}
    ensures forall x | x in s.dataPods && x != p.name :: s'.dataPods[x] == s.dataPods[x]
    ensures (s'.namespace, s'.nodes, s'.claims, s'.pods) == (s.namespace, s.nodes, s.claims, s.pods)
  {
    var d :=
      if p.name in s.dataPods then s.dataPods[p.name]
      else DataPod(p.name, uid, map[], [], None, DataPodSpec(None, None, None, None));
    var spec := DataPodSpec(
      Some(p.path),
      Some(p.nodeRef),
      if p.nodeSelector.Some? then p.nodeSelector else d.spec.nodeSelector,
      if p.request.Some? then p.request else d.spec.request);
    s.(dataPods := s.dataPods[p.name := d.(appliedOwner := Some(p.owner), spec := spec)])
  }

  /** A list call without a selector returns every node. */
  lemma {:induction false} NoSelectorListsAll(nodes: seq<DataNode>)
    ensures NodesMatching(nodes, "") == nodes
  {
    if nodes != [] {
      NoSelectorListsAll(nodes[1..]);
      assert Selects("", nodes[0].labels);
      assert [nodes[0]] + nodes[1..] == nodes;
    }
  }

  /** Every DataNode but the given one, in list order. */
  function OtherNodes(nodes: seq<DataNode>, uid: string): (r: seq<DataNode>)
    ensures forall n :: n in r <==> n in nodes && n.uid != uid
  {
    if nodes == [] then []
    else (if nodes[0].uid != uid then [nodes[0]] else []) + OtherNodes(nodes[1..], uid)
  }

  predicate UniqueNodes(nodes: seq<DataNode>) {
    forall i, j | 0 <= i < j < |nodes| :: nodes[i].uid != nodes[j].uid && nodes[i].name != nodes[j].name
  }

  lemma {:induction false} OtherNodesUnique(nodes: seq<DataNode>, uid: string)
    requires UniqueNodes(nodes)
    ensures UniqueNodes(OtherNodes(nodes, uid))
  {
    if nodes != [] {
      var rest := nodes[1..];
      assert forall i, j | 0 <= i < j < |rest| :: rest[i] == nodes[i + 1] && rest[j] == nodes[j + 1];
      OtherNodesUnique(rest, uid);
      var others := OtherNodes(rest, uid);
      forall j | 0 <= j < |others|
        ensures nodes[0].uid != others[j].uid && nodes[0].name != others[j].name
      {
        assert others[j] in rest;
      }
    }
  }

  /** What one node contributes. */
  function Other(node: DataNode, uid: string): seq<DataNode> {
    if node.uid == uid then [] else [node]
  }

  lemma OtherNodesUnfold(node: DataNode, rest: seq<DataNode>, uid: string)
    ensures OtherNodes([node] + rest, uid) == Other(node, uid) + OtherNodes(rest, uid)
  {
    assert ([node] + rest)[1..] == rest;
  }

  lemma Regroup(a: seq<DataNode>, b: seq<DataNode>, c: seq<DataNode>, d: seq<DataNode>)
    ensures a + (b + c + d) == (a + b) + c + d
  {
  }

  /** And in the order of the list, each as often as it is there. */
  lemma {:induction false} OtherNodesInOrder(before: seq<DataNode>, node: DataNode, after: seq<DataNode>, uid: string)
    ensures OtherNodes(before + [node] + after, uid)
            == OtherNodes(before, uid) + (if node.uid == uid then [] else [node]) + OtherNodes(after, uid)
  {
    if before == [] {
      OtherNodesUnfold(node, after, uid);
      assert [] + [node] + after == [node] + after;
    } else {
      var first, rest := before[0], before[1..];
      OtherNodesInOrder(rest, node, after, uid);
      OtherNodesUnfold(first, rest, uid);
      OtherNodesUnfold(first, rest + [node] + after, uid);
      assert before == [first] + rest;
      Regroup([first], rest, [node], after);
      Regroup(Other(first, uid), OtherNodes(rest, uid), Other(node, uid), OtherNodes(after, uid));
    }
  }
}
