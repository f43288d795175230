/** How a PVC's annotations become a volume's context, and the context a mount. */
module VolumeContext {
  import opened Cluster
  import opened Wrappers

  const NODE_NAME := "kubedal.arunaengine.org/data-node-name"
  const NODE_NAMESPACE := "kubedal.arunaengine.org/data-node-namespace"
  const POD_NAME := "kubedal.arunaengine.org/data-pod-name"
  const POD_NAMESPACE := "kubedal.arunaengine.org/data-pod-namespace"
  const MOUNT := "kubedal.arunaengine.org/mount"
  const CLAIM_PREFIX := "pvc-"

  datatype Status = InvalidArgument | NotFound | Internal | UnknownEntry

  datatype MountMode = Cached | Fuse
  datatype AccessMode = ReadOnly | ReadWrite

  /** What a publish call mounts: the DataNode, the DataPod, and how. */
  datatype DataMount = DataMount(
    nodeName: string, nodeNamespace: string, podName: string, podNamespace: string, access: MountAccess)

  /** `Display` of a MountAccess. */
  function AccessText(access: MountAccess): string {
    match access
    case CacheReadWrite => "cache-read-write"
    case CacheReadOnly => "cache-read-only"
    case FuseReadWrite => "fuse-read-write"
    case FuseReadOnly => "fuse-read-only"
  }

  /** How a publish call reads the mount annotation. */
  function ParseAccess(text: string): Option<MountAccess> {
    if text == "cache" then Some(CacheReadOnly)
    else if text == "cache-read-only" then Some(CacheReadOnly)
    else if text == "cache-read-write" then Some(CacheReadWrite)
    else if text == "fuse" then Some(FuseReadOnly)
    else if text == "fuse-read-only" then Some(FuseReadOnly)
    else if text == "fuse-read-write" then Some(FuseReadWrite)
    else None
  }

  function Parts(access: MountAccess): (MountMode, AccessMode) {
    match access
    case CacheReadWrite => (Cached, ReadWrite)
    case CacheReadOnly => (Cached, ReadOnly)
    case FuseReadWrite => (Fuse, ReadWrite)
    case FuseReadOnly => (Fuse, ReadOnly)
  }

  /** The annotations the replica set controller puts on a PVC. */
  function Annotations(m: DataMount): map<string, string> {
    map[
      NODE_NAME := m.nodeName,
      NODE_NAMESPACE := m.nodeNamespace,
      POD_NAME := m.podName,
      POD_NAMESPACE := m.podNamespace,
      MOUNT := AccessText(m.access)]
  }

  function FirstWithUid(claims: seq<Claim>, uid: string): (r: Option<Claim>)
    ensures r.Some? ==> r.value in claims && r.value.uid == uid
    ensures r.None? ==> forall c | c in claims :: c.uid != uid
  {
    if claims == [] then None
    else if claims[0].uid == uid then Some(claims[0])
    else FirstWithUid(claims[1..], uid)
  }

  /** `get_pvc`: the claim a volume name `pvc-{uid}` stands for, among the listed ones. */
  function GetClaim(claims: seq<Claim>, volumeName: string): (r: Result<Claim, Status>)
    ensures r.Ok? ==> r.value in claims && volumeName == "pvc-" + r.value.uid
    ensures r.Err? ==> forall c | c in claims :: volumeName != "pvc-" + c.uid
    ensures r.Err? ==>
              r.error == if |volumeName| < 4 || volumeName[..4] != "pvc-" then InvalidArgument else Status.NotFound
  {
    assert CLAIM_PREFIX <= volumeName ==> volumeName == "pvc-" + volumeName[|CLAIM_PREFIX|..];
    assert forall c | c in claims && volumeName == "pvc-" + c.uid :: volumeName[4..] == c.uid;
    if !(CLAIM_PREFIX <= volumeName) then Err(InvalidArgument)
    else match FirstWithUid(claims, volumeName[|CLAIM_PREFIX|..])
      case Some(claim) => Ok(claim)
      case None => Err(Status.NotFound)
  }

  function GetOr(m: map<string, string>, key: string, default: string): string {
    if key in m then m[key] else default
  }

  /** `get_config_from_pvc_meta`: the context of a volume that a claim asks for. */
  function Context(claim: Claim): Result<map<string, string>, Status> {
    var a := claim.annotations;
    if NODE_NAME !in a then Err(InvalidArgument)
    else if POD_NAME !in a then Err(InvalidArgument)
    else if MOUNT !in a then Err(InvalidArgument)
    else Ok(map[
      NODE_NAME := a[NODE_NAME],
      NODE_NAMESPACE := GetOr(a, NODE_NAMESPACE, claim.namespace),
      POD_NAME := a[POD_NAME],
      POD_NAMESPACE := GetOr(a, POD_NAMESPACE, claim.namespace),
      MOUNT := a[MOUNT]])
  }

  /** The parsing half of `get_full_data_mount`. */
  function ParseContext(context: map<string, string>): Result<DataMount, Status> {
    if NODE_NAME !in context || NODE_NAMESPACE !in context || POD_NAME !in context
       || POD_NAMESPACE !in context || MOUNT !in context then Err(InvalidArgument)
    else match ParseAccess(context[MOUNT])
      case Some(access) =>
        Ok(DataMount(context[NODE_NAME], context[NODE_NAMESPACE], context[POD_NAME], context[POD_NAMESPACE], access))
      case None => Err(InvalidArgument)
  }

  /** The keys of the driver; kubelet adds others of its own to the context. */
  const DRIVER_KEYS := {NODE_NAME, NODE_NAMESPACE, POD_NAME, POD_NAMESPACE, MOUNT}

  lemma KeysDistinct()
    ensures |NODE_NAME| == 38 && |NODE_NAMESPACE| == 43 && |POD_NAME| == 37 && |POD_NAMESPACE| == 42 && |MOUNT| == 29
  {
  }

  /** Printed access modes read back, so no two of them print alike; none prints like a short form. */
  lemma AccessRoundTrip(access: MountAccess)
    ensures ParseAccess(AccessText(access)) == Some(access)
    ensures AccessText(access) != "cache" && AccessText(access) != "fuse"
  {
    assert |"cache"| == 5 && |"cache-read-only"| == 15 && |"cache-read-write"| == 16;
    assert |"fuse"| == 4 && |"fuse-read-only"| == 14 && |"fuse-read-write"| == 15;
    assert "fuse-read-write"[0] == 'f' && "cache-read-only"[0] == 'c';
  }

  /** The texts a publish call knows, by what they mean. */
  predicate IsCacheText(text: string) {
    text == "cache" || text == "cache-read-only" || text == "cache-read-write"
  }

  predicate IsFuseText(text: string) {
    text == "fuse" || text == "fuse-read-only" || text == "fuse-read-write"
  }

  predicate IsReadOnlyText(text: string) {
    text == "cache" || text == "cache-read-only" || text == "fuse" || text == "fuse-read-only"
  }

  /** From the text to the mount: cached or through FUSE, read-only or not, as it says; a text
      without the last part is read-only, and any other text is none. */
  lemma TextMeaning(text: string)
    ensures ParseAccess(text).Some? <==> IsCacheText(text) || IsFuseText(text)
    ensures ParseAccess(text).Some? ==>
              && (Parts(ParseAccess(text).value).0.Cached? <==> IsCacheText(text))
              && (Parts(ParseAccess(text).value).1.ReadOnly? <==> IsReadOnlyText(text))
  {
    assert |"cache"| == 5 && |"cache-read-only"| == 15 && |"cache-read-write"| == 16;
    assert |"fuse"| == 4 && |"fuse-read-only"| == 14 && |"fuse-read-write"| == 15;
    assert "fuse-read-write"[0] == 'f' && "cache-read-only"[0] == 'c';
  }

  lemma PartsMeaning(access: MountAccess)
    ensures Parts(access).0.Cached? <==> access.CacheReadOnly? || access.CacheReadWrite?
    ensures Parts(access).1.ReadOnly? <==> access.CacheReadOnly? || access.FuseReadOnly?
  {
  }

  /** The namespaces of a claim's node and DataPod: as annotated, or else the claim's own. */
  predicate Resolves(claim: Claim, nodeNamespace: string, podNamespace: string) {
    && nodeNamespace == (if NODE_NAMESPACE in claim.annotations then claim.annotations[NODE_NAMESPACE]
                         else claim.namespace)
    && podNamespace == (if POD_NAMESPACE in claim.annotations then claim.annotations[POD_NAMESPACE]
                        else claim.namespace)
  }

  /** For any claim whatever, made by the driver or by a user: the context exists exactly when
      the three required annotations do, and a publish call then finds in it, under any extra
      keys, what the annotations said, with a missing namespace taken from the claim. */
  lemma ContextMeaning(claim: Claim, extra: map<string, string>)
    requires extra.Keys !! DRIVER_KEYS
    ensures Context(claim).Ok? <==> {NODE_NAME, POD_NAME, MOUNT} <= claim.annotations.Keys
    ensures Context(claim).Err? ==> Context(claim).error == InvalidArgument
    ensures Context(claim).Ok? ==>
              var parsed := ParseContext(Context(claim).value + extra);
              if parsed.Ok? then
                && (IsCacheText(claim.annotations[MOUNT]) || IsFuseText(claim.annotations[MOUNT]))
                && parsed.value.nodeName == claim.annotations[NODE_NAME]
                && parsed.value.podName == claim.annotations[POD_NAME]
                && Resolves(claim, parsed.value.nodeNamespace, parsed.value.podNamespace)
                && (Parts(parsed.value.access).0.Cached? <==> IsCacheText(claim.annotations[MOUNT]))
                && (Parts(parsed.value.access).1.ReadOnly? <==> IsReadOnlyText(claim.annotations[MOUNT]))
              else
                && parsed.error == InvalidArgument
                && !IsCacheText(claim.annotations[MOUNT]) && !IsFuseText(claim.annotations[MOUNT])
  {
    KeysDistinct();
    if Context(claim).Ok? {
      TextMeaning(claim.annotations[MOUNT]);
      var context := Context(claim).value + extra;
      assert forall k | k in DRIVER_KEYS :: k !in extra;
      assert NODE_NAME in context && NODE_NAMESPACE in context && POD_NAME in context
          && POD_NAMESPACE in context && MOUNT in context;
    }
  }

  /** A claim annotated for a mount is the one its volume name finds, and publishing that
      volume parses the very same mount back. */
  lemma AnnotationRoundTrip(claims: seq<Claim>, claim: Claim, m: DataMount, extra: map<string, string>)
    requires claim in claims && claim.annotations == Annotations(m)
    requires forall c | c in claims && c.uid == claim.uid :: c == claim
    requires extra.Keys !! DRIVER_KEYS
    ensures GetClaim(claims, CLAIM_PREFIX + claim.uid) == Ok(claim)
    ensures Context(claim) == Ok(Annotations(m))
    ensures ParseContext(Annotations(m) + extra) == Ok(m)
  {
    assert (CLAIM_PREFIX + claim.uid)[|CLAIM_PREFIX|..] == claim.uid;
    KeysDistinct();
    AccessRoundTrip(m.access);
    ContextMeaning(claim, extra);
    assert Context(claim).value == Annotations(m);
  }

  lemma AnnotationsParse(m: DataMount)
    ensures ParseContext(Annotations(m)) == Ok(m)
  {
    KeysDistinct();
    AccessRoundTrip(m.access);
  }
}
