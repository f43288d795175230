/** `DataPod::reconcile`: a pass works from the snapshot of the DataPod it was called with,
    fetches the DataPod again, finds its DataNode, and applies the path and the binding. */
module DataPodController {
  import opened ApiServer
  import opened Cluster
  import opened Selectors
  import opened Wrappers

  datatype PodOutcome = Patched(dataPod: DataPod) | PodFailed(error: Error)

  datatype PodPhase =
    | Fetching(self: DataPod)
    | Locating(self: DataPod, latest: DataPod)
    | Patching(self: DataPod, latest: DataPod, node: DataNode)
    | PodFinished(outcome: PodOutcome)

  predicate GoodPath(path: Option<string>) {
    path.Some? && path.value != "" && path.value != "/"
  }

  /** The path rule: a missing, empty or root path becomes `/{uid}`. */
  function Settled(d: DataPod): string {
    if GoodPath(d.spec.path) then d.spec.path.value else "/" + d.uid
  }

  /** The node a snapshot asks for: the one it names, or the first its selector lists. */
  function Locate(self: DataPod, s: Store): Result<DataNode, Error> {
    match self.spec.nodeRef
    case Some(ref) => GetNode(s, ref.name)
    case None =>
      match self.spec.nodeSelector
      case Some(selector) =>
        (match ListNodes(s, Print(selector))
         case Ok(nodes) => if nodes == [] then Err(NoNodeMatches) else Ok(nodes[0])
         case Err(e) => Err(e))
      case None => Err(MissingNode)
  }

  function PatchFor(self: DataPod, latest: DataPod, node: DataNode, namespace: string): DataPodPatch {
    DataPodPatch(
      latest.name,
      OwnerRef(NodeKind, node.name, node.uid),
      Settled(self),
      Ref(node.name, Some(namespace)),
      latest.spec.nodeSelector,
      latest.spec.request)
  }

  /** One API call and the local work up to the next one. */
  function PodStep(ph: PodPhase, s: Store, g: Grant): (PodPhase, Store) {
    match ph
    case Fetching(self) =>
      (match GetDataPod(s, self.name)
       case Ok(latest) =>
         (if self.spec.nodeRef.None? && self.spec.nodeSelector.None? then PodFinished(PodFailed(MissingNode))
          else Locating(self, latest), s)
       case Err(e) => (PodFinished(PodFailed(e)), s))
    case Locating(self, latest) =>
      (match Locate(self, s)
       case Ok(node) => (Patching(self, latest, node), s)
       case Err(e) => (PodFinished(PodFailed(e)), s))
    case Patching(self, latest, node) =>
      var s' := ApplyDataPod(s, PatchFor(self, latest, node, s.namespace), g.uid);
      (PodFinished(Patched(s'.dataPods[latest.name])), s')
    case PodFinished(_) => (ph, s)
  }

  /** A pass with nothing else going on, for as long as its calls are answered. */
  function PodRun(ph: PodPhase, s: Store, grants: seq<Grant>): (PodPhase, Store)
    decreases |grants|
  {
    if ph.PodFinished? || grants == [] then (ph, s)
    else
      var (ph', s') := PodStep(ph, s, grants[0]);
      PodRun(ph', s', grants[1..])
  }

  lemma NextPodCall(ph: PodPhase, s: Store, grants: seq<Grant>)
    requires !ph.PodFinished?
    ensures grants == [] ==> PodRun(ph, s, grants) == (ph, s)
    ensures grants != [] ==>
              var (ph', s') := PodStep(ph, s, grants[0]);
              PodRun(ph, s, grants) == if ph'.PodFinished? then (ph', s') else PodRun(ph', s', grants[1..])
  {
  }

  function PodVerdict(ph: PodPhase): PodOutcome {
    if ph.PodFinished? then ph.outcome else PodFailed(Unavailable)
  }

  /** The lookup of `DataPod::reconcile`: one call, by name or by selector. */
  method FindDataNode(self: DataPod, api: Server) returns (r: Result<DataNode, Error>)
    requires self.spec.nodeRef.Some? || self.spec.nodeSelector.Some?
    modifies api`grants
    ensures old(api.grants) == [] ==> r == Err(Unavailable) && api.grants == []
    ensures old(api.grants) != [] ==> r == Locate(self, api.store) && api.grants == old(api.grants)[1..]
  {
    if self.spec.nodeRef.Some? {
      r := api.Node(self.spec.nodeRef.value.name);
    } else {
      var listed := api.Nodes(Print(self.spec.nodeSelector.value));
      if listed.Err? {
        return Err(listed.error);
      }
      r := if listed.value == [] then Err(NoNodeMatches) else Ok(listed.value[0]);
    }
  }

  /** `DataPod::reconcile`. */
  method ReconcileDataPod(self: DataPod, api: Server) returns (outcome: PodOutcome)
    modifies api
    ensures (outcome, api.store) ==
            var (ph, s) := PodRun(Fetching(self), old(api.store), old(api.grants)); (PodVerdict(ph), s)
  {
    NextPodCall(Fetching(self), api.store, api.grants);
    var latest := api.Get(self.name);
    if latest.Err? {
      return PodFailed(latest.error);
    }
    var path := Settled(self);
    if self.spec.nodeRef.None? && self.spec.nodeSelector.None? {
      return PodFailed(MissingNode);
    }
    NextPodCall(Locating(self, latest.value), api.store, api.grants);
    var node := FindDataNode(self, api);
    if node.Err? {
      return PodFailed(node.error);
    }
    NextPodCall(Patching(self, latest.value, node.value), api.store, api.grants);
    var patched := api.Apply(
      DataPodPatch(
        latest.value.name,
        OwnerRef(NodeKind, node.value.name, node.value.uid),
        path,
        Ref(node.value.name, Some(api.store.namespace)),
        latest.value.spec.nodeSelector,
        latest.value.spec.request));
    if patched.Err? {
      return PodFailed(patched.error);
    }
    return Patched(patched.value);
  }

  /** The objects of a store are kept under their own names. */
  predicate Named(s: Store) {
    forall x | x in s.dataPods :: s.dataPods[x].name == x
  }

  /** What one undisturbed pass does: nothing, unless every call was answered and the node was
      found; then it settles the path and binds the DataPod to that node, whatever the stored
      object said. */
  lemma PassEffect(self: DataPod, s: Store, grants: seq<Grant>)
    requires Named(s)
    ensures var (ph, s') := PodRun(Fetching(self), s, grants);
            if |grants| >= 3 && self.name in s.dataPods && Locate(self, s).Ok? then
              var node := Locate(self, s).value;
              && s' == ApplyDataPod(s, PatchFor(self, s.dataPods[self.name], node, s.namespace), grants[2].uid)
              && ph == PodFinished(Patched(s'.dataPods[self.name]))
            else
              s' == s && !(ph.PodFinished? && ph.outcome.Patched?)
  {
    NextPodCall(Fetching(self), s, grants);
    if self.name in s.dataPods && grants != [] {
      var latest := s.dataPods[self.name];
      NextPodCall(Locating(self, latest), s, grants[1..]);
      if |grants| >= 2 && Locate(self, s).Ok? {
        NextPodCall(Patching(self, latest, Locate(self, s).value), s, grants[1..][1..]);
        assert |grants| >= 3 ==> grants[1..][1..][0] == grants[2];
      }
    }
  }

  /** No path of its own: none, or one that would be the root. */
  predicate Pathless(d: DataPod) {
    d.spec.path == None || d.spec.path == Some("") || d.spec.path == Some("/")
  }

  /** What a patched DataPod is, field by field: the path is the snapshot's, or made of its uid
      if it has none; node and owner are the node found; the rest is the stored DataPod's. */
  lemma PatchMeaning(self: DataPod, s: Store, grants: seq<Grant>)
    requires Named(s)
    ensures var (ph, s') := PodRun(Fetching(self), s, grants);
            ph.PodFinished? && ph.outcome.Patched? ==>
              && self.name in s.dataPods && self.name in s'.dataPods && Locate(self, s).Ok?
              && var was, d, node := s.dataPods[self.name], s'.dataPods[self.name], Locate(self, s).value;
                 && ph.outcome.dataPod == d
                 && d.spec.path == (if Pathless(self) then Some("/" + self.uid) else self.spec.path)
                 && d.spec.nodeRef == Some(Ref(node.name, Some(s.namespace)))
                 && d.spec.nodeSelector == was.spec.nodeSelector && d.spec.request == was.spec.request
                 && d.appliedOwner == Some(OwnerRef(NodeKind, node.name, node.uid))
                 && (d.name, d.uid, d.labels, d.heldOwners) == (was.name, was.uid, was.labels, was.heldOwners)
                 && s'.dataPods.Keys == s.dataPods.Keys
                 && (forall x | x in s.dataPods && x != self.name :: s'.dataPods[x] == s.dataPods[x])
  {
    PassEffect(self, s, grants);
  }

  /** Which node a snapshot leads to: the one it refers to, or the first in the list that its
      selector selects. */
  lemma {:induction false} FirstMatch(nodes: seq<DataNode>, text: string) returns (k: nat)
    requires NodesMatching(nodes, text) != []
    ensures k < |nodes| && nodes[k] == NodesMatching(nodes, text)[0] && Selects(text, nodes[k].labels)
    ensures forall l | 0 <= l < k :: !Selects(text, nodes[l].labels)
  {
    if Selects(text, nodes[0].labels) {
      k := 0;
    } else {
      assert NodesMatching(nodes, text) == NodesMatching(nodes[1..], text);
      var rest := FirstMatch(nodes[1..], text);
      k := rest + 1;
      forall l | 0 <= l < k ensures !Selects(text, nodes[l].labels) {
        assert l > 0 ==> nodes[l] == nodes[1..][l - 1];
      }
    }
  }

  lemma LocateMeaning(self: DataPod, s: Store)
    ensures match Locate(self, s)
            case Ok(node) =>
              (match self.spec.nodeRef
               case Some(ref) => node in s.nodes && node.name == ref.name
               case None =>
                 && self.spec.nodeSelector.Some?
                 && exists k :: IsFirst(s.nodes, Print(self.spec.nodeSelector.value), k, node))
            case Err(e) =>
              match self.spec.nodeRef
              case Some(ref) => e == NotFound && forall n | n in s.nodes :: n.name != ref.name
              case None =>
                match self.spec.nodeSelector
                case None => e == MissingNode
                case Some(selector) =>
                  && e == (if Parse(Print(selector)).None? then BadSelector else NoNodeMatches)
                  && forall n | n in s.nodes :: !Selects(Print(selector), n.labels)
  {
    if self.spec.nodeRef.None? && self.spec.nodeSelector.Some? && Locate(self, s).Ok? {
      var k := FirstMatch(s.nodes, Print(self.spec.nodeSelector.value));
      assert IsFirst(s.nodes, Print(self.spec.nodeSelector.value), k, Locate(self, s).value);
    }
  }

  /** How a pass that is answered ends. */
  lemma PodOutcomeMeaning(self: DataPod, s: Store, grants: seq<Grant>)
    requires Named(s) && |grants| >= 3
    ensures var ph := PodRun(Fetching(self), s, grants).0;
            && ph.PodFinished?
            && match ph.outcome
               case Patched(d) => self.name in s.dataPods && Locate(self, s).Ok?
               case PodFailed(e) =>
                 if self.name !in s.dataPods then e == NotFound
                 else Locate(self, s) == Err(e)
  {
    NextPodCall(Fetching(self), s, grants);
    if self.name in s.dataPods {
      var latest := s.dataPods[self.name];
      NextPodCall(Locating(self, latest), s, grants[1..]);
      if Locate(self, s).Ok? {
        NextPodCall(Patching(self, latest, Locate(self, s).value), s, grants[1..][1..]);
      }
    }
  }

  predicate IsFirst(nodes: seq<DataNode>, text: string, k: int, node: DataNode) {
    && 0 <= k < |nodes| && nodes[k] == node && Selects(text, node.labels)
    && forall l | 0 <= l < k :: !Selects(text, nodes[l].labels)
  }

  /** Binding. `BoundTo(s, name, node)`: the DataPod is there and bound to a node of that name. */
  predicate BoundTo(s: Store, name: string, node: string) {
    name in s.dataPods && s.dataPods[name].spec.nodeRef.Some? && s.dataPods[name].spec.nodeRef.value.name == node
  }

  /** The node a snapshot asks for, by name: the one it refers to, or else the first of those
      that its selector selects now. */
  predicate AsksFor(self: DataPod, nodes: seq<DataNode>, node: string) {
    match self.spec.nodeRef
    case Some(ref) => ref.name == node
    case None =>
      && self.spec.nodeSelector.Some?
      && var selected := NodesMatching(nodes, Print(self.spec.nodeSelector.value));
         selected != [] && selected[0].name == node
  }

  /** A pass that patches keeps a binding exactly when its snapshot asks for that node: because
      it was taken after the binding, or because its selector selects the node first again. */
  lemma KeepsBindingIff(self: DataPod, s: Store, grants: seq<Grant>, node: string)
    requires Named(s) && BoundTo(s, self.name, node)
    requires PodRun(Fetching(self), s, grants).0.PodFinished? && PodRun(Fetching(self), s, grants).0.outcome.Patched?
    ensures BoundTo(PodRun(Fetching(self), s, grants).1, self.name, node) <==> AsksFor(self, s.nodes, node)
  {
    PassEffect(self, s, grants);
  }

  /** A round: the nodes become any nodes at all, then a pass runs on the latest object. */
  datatype Round = Round(nodes: seq<DataNode>, grants: seq<Grant>)

  function RoundPass(s: Store, name: string, r: Round): (PodPhase, Store)
    requires name in s.dataPods
  {
    PodRun(Fetching(s.dataPods[name]), s.(nodes := r.nodes), r.grants)
  }

  function Rounds(s: Store, name: string, rounds: seq<Round>): Store
    decreases |rounds|
  {
    if rounds == [] || name !in s.dataPods then s
    else Rounds(RoundPass(s, name, rounds[0]).1, name, rounds[1..])
  }

  /** A pass on the latest object keeps the binding, and fails without touching the DataPod
      once the node is gone. */
  lemma RoundKeepsBinding(s: Store, name: string, node: string, r: Round)
    requires Named(s) && BoundTo(s, name, node)
    ensures var (ph, s') := RoundPass(s, name, r);
            && Named(s') && BoundTo(s', name, node)
            && ((forall n | n in r.nodes :: n.name != node) ==>
                  s'.dataPods == s.dataPods && !(ph.PodFinished? && ph.outcome.Patched?))
  {
    PassEffect(s.dataPods[name], s.(nodes := r.nodes), r.grants);
  }

  /** Once bound, a DataPod stays bound to a node of that name through all later passes,
      whatever nodes are added, removed or relabelled between them. */
  lemma {:induction false} StickyBinding(s: Store, name: string, node: string, rounds: seq<Round>)
    requires Named(s) && BoundTo(s, name, node)
    ensures Named(Rounds(s, name, rounds)) && BoundTo(Rounds(s, name, rounds), name, node)
    decreases |rounds|
  {
    if rounds != [] {
      RoundKeepsBinding(s, name, node, rounds[0]);
      StickyBinding(RoundPass(s, name, rounds[0]).1, name, node, rounds[1..]);
    }
  }

  /** From a snapshot taken before the binding, a pass can move it: the snapshot's selector is
      evaluated again over nodes that have changed. */
  lemma StaleSnapshotMovesBinding(self: DataPod, s: Store, grants: seq<Grant>)
    requires self == DataPod("p", "u", map[], [], None, DataPodSpec(None, None, Some([]), None))
    requires s == Store("ns", [DataNode("new", "2", map[]), DataNode("old", "1", map[])],
                        map["p" := self.(spec := self.spec.(nodeRef := Some(Ref("old", Some("ns")))))], map[], map[])
    requires |grants| >= 3
    ensures BoundTo(s, "p", "old") && BoundTo(PodRun(Fetching(self), s, grants).1, "p", "new")
  {
    PassEffect(self, s, grants);
    NoSelectorListsAll(s.nodes);
    assert Print([]) == "" && Parse("") == Some([]);
  }
}
