/** The node service: publishing and unpublishing volumes, as the program runs each call alone. */
module NodeService {
  import opened Cluster
  import opened MountHelper
  import opened VolumeContext
  import opened VolumeRegistry
  import opened Wrappers

  datatype PublishRequest = PublishRequest(volumeId: string, targetPath: string, context: map<string, string>)

  /** What a publish call meets on its way: `refused` is the error of the first of the lookups,
      access reviews and operator constructions that fails. */
  datatype Outside = Outside(refused: Option<Status>, host: Host)

  /** The mounts the service tracks, and the kernel's. */
  datatype Books = Books(tracked: map<string, Attachment>, table: Table)

  /** The mount a publish call is to make. */
  function Wanted(req: PublishRequest, outside: Outside): Result<Attachment, Status> {
    if req.volumeId == "" || req.targetPath == "" then Err(InvalidArgument)
    else match ParseContext(req.context)
      case Err(e) => Err(e)
      case Ok(m) =>
        if outside.refused.Some? then Err(outside.refused.value)
        else Ok(Attachment(req.volumeId, req.targetPath, Parts(m.access).0, Parts(m.access).1))
  }

  /** What a publish call is to mount, from the text of its context: exactly if the call names
      a volume and a target, the context is complete and its access mode known, and nothing
      refuses; and then cached or read-only exactly as the text says. */
  lemma WantedMeaning(req: PublishRequest, outside: Outside)
    ensures Wanted(req, outside).Ok? <==>
            && req.volumeId != "" && req.targetPath != "" && DRIVER_KEYS <= req.context.Keys
            && (IsCacheText(req.context[MOUNT]) || IsFuseText(req.context[MOUNT]))
            && outside.refused.None?
    ensures Wanted(req, outside).Ok? ==>
              var a := Wanted(req, outside).value;
              && a.volume == req.volumeId && a.target == req.targetPath
              && (a.mode.Cached? <==> IsCacheText(req.context[MOUNT]))
              && (a.access.ReadOnly? <==> IsReadOnlyText(req.context[MOUNT]))
    ensures Wanted(req, outside).Err? ==>
              Wanted(req, outside).error ==
              if req.volumeId == "" || req.targetPath == "" || !(DRIVER_KEYS <= req.context.Keys)
                 || !(IsCacheText(req.context[MOUNT]) || IsFuseText(req.context[MOUNT]))
              then InvalidArgument else outside.refused.value
  {
    KeysDistinct();
    if MOUNT in req.context {
      TextMeaning(req.context[MOUNT]);
    }
  }

  /** A publish call for a volume that was created from this claim, under whatever keys kubelet
      adds to its context. */
  predicate PublishesOwn(publish: PublishRequest, v: CsiVolume, extra: map<string, string>, outside: Outside) {
    && publish.volumeId == v.id && publish.targetPath != "" && publish.context == v.context + extra
    && outside.refused.None?
  }

  /** From any PVC to a mount: creating the volume `pvc-<uid>` of a claim with the three required
      annotations succeeds, and publishing that volume looks up the annotated node and DataPod, in
      the claim's own namespace where no other is annotated, and attaches at the target as the
      annotated access mode says, or nothing if that is not known. */
  lemma ClaimIsMounted(
    volumes: map<string, CsiVolume>, create: CreateRequest, listings: Listings, uuid: string,
    claim: Claim, publish: PublishRequest, extra: map<string, string>, outside: Outside)
    requires Serves(create, listings, claim) && UniqueUids(listings) && create.name !in volumes
    requires extra.Keys !! DRIVER_KEYS
    ensures var (r, after) := Created(volumes, create, listings, uuid);
            && r.Ok? && create.name in after && after[create.name] == r.value && r.value.id == "kubedal-" + uuid
            && (PublishesOwn(publish, r.value, extra, outside) ==>
                  var text, parsed := claim.annotations[MOUNT], ParseContext(publish.context);
                  if IsCacheText(text) || IsFuseText(text) then
                    && parsed.Ok?
                    && parsed.value.nodeName == claim.annotations[NODE_NAME]
                    && parsed.value.podName == claim.annotations[POD_NAME]
                    && Resolves(claim, parsed.value.nodeNamespace, parsed.value.podNamespace)
                    && Wanted(publish, outside).Ok?
                    && var a := Wanted(publish, outside).value;
                       && a.volume == publish.volumeId && a.target == publish.targetPath
                       && (a.mode.Cached? <==> IsCacheText(text)) && (a.access.ReadOnly? <==> IsReadOnlyText(text))
                  else Wanted(publish, outside) == Err(InvalidArgument))
  {
    var (r, after) := Created(volumes, create, listings, uuid);
    assert |create.name| >= 4;
    CreatedMeaning(volumes, create, listings, uuid);
    var c :| Serves(create, listings, c) && IsContextOf(c, r.value.context);
    assert create.name[4..] == c.uid && create.name[4..] == claim.uid;
    ContextIs(claim);
    SameContext(claim, r.value.context);
    ContextMeaning(claim, extra);
    if PublishesOwn(publish, r.value, extra, outside) {
      WantedMeaning(publish, outside);
      KeysDistinct();
      assert publish.context[MOUNT] == claim.annotations[MOUNT];
    }
  }

  lemma SameContext(claim: Claim, context: map<string, string>)
    requires IsContextOf(claim, context)
    ensures Context(claim) == Ok(context)
  {
    KeysDistinct();
    ContextIs(claim);
    var made := Context(claim).value;
    assert made.Keys == context.Keys;
    forall k | k in context ensures made[k] == context[k] {
      assert k == NODE_NAME || k == NODE_NAMESPACE || k == POD_NAME || k == POD_NAMESPACE || k == MOUNT;
    }
    assert made == context;
  }

  /** For a PVC annotated as the driver does it: the volume is created, and publishing it attaches
      it at the target in the annotated mode. */
  lemma AnnotatedMountIsMade(
    volumes: map<string, CsiVolume>, create: CreateRequest, listings: Listings, uuid: string,
    claim: Claim, m: DataMount, publish: PublishRequest, extra: map<string, string>, outside: Outside)
    requires RESOURCE_NAMESPACE in create.parameters && create.parameters[RESOURCE_NAMESPACE] in listings
    requires claim in listings[create.parameters[RESOURCE_NAMESPACE]] && claim.annotations == Annotations(m)
    requires forall c | c in listings[create.parameters[RESOURCE_NAMESPACE]] && c.uid == claim.uid :: c == claim
    requires create.name == CLAIM_PREFIX + claim.uid && create.name !in volumes
    requires extra.Keys !! DRIVER_KEYS
    ensures var (r, after) := Created(volumes, create, listings, uuid);
            && r.Ok? && create.name in after && after[create.name] == r.value && r.value.id == "kubedal-" + uuid
            && (PublishesOwn(publish, r.value, extra, outside) ==>
                  && ParseContext(publish.context) == Ok(m)
                  && Wanted(publish, outside).Ok?
                  && var a := Wanted(publish, outside).value;
                     && a.volume == publish.volumeId && a.target == publish.targetPath
                     && (a.mode.Cached? <==> m.access.CacheReadOnly? || m.access.CacheReadWrite?)
                     && (a.access.ReadOnly? <==> m.access.CacheReadOnly? || m.access.FuseReadOnly?))
  {
    AnnotationRoundTrip(listings[create.parameters[RESOURCE_NAMESPACE]], claim, m, extra);
    PartsMeaning(m.access);
  }

  /** A publish call: one mount more with the kernel and the volume tracked by it, or nothing. */
  ghost predicate Published(before: Books, req: PublishRequest, outside: Outside, r: Result<(), Status>, after: Books) {
    match r
    case Ok(_) =>
      && Wanted(req, outside).Ok?
      && after == Books(before.tracked[req.volumeId := Wanted(req, outside).value],
                        Attach(before.table, Wanted(req, outside).value))
    case Err(e) =>
      && after == before
      && (Wanted(req, outside).Err? ==> e == Wanted(req, outside).error)
  }

  /** An unpublish call: nothing if the volume is not tracked; else it is not tracked any more,
      and the topmost mount at its target is gone if the kernel let it. */
  function Unpublished(before: Books, id: string, target: string, detached: bool): (Result<(), Status>, Books) {
    if id == "" || target == "" then (Err(InvalidArgument), before)
    else if id !in before.tracked then (Ok(()), before)
    else
      var own := before.tracked[id].target;
      if detached && Stack(before.table, own) != []
      then (Ok(()), Books(before.tracked - {id}, Detach(before.table, own)))
      else (Err(Internal), Books(before.tracked - {id}, before.table))
  }

  class NodeService {
    const kernel: Kernel
    const disk: Disk
    var mounts: map<string, Mount>

    ghost predicate Valid()
      reads this, mounts.Values
    {
      && (forall v | v in mounts :: mounts[v].volumeId == v)
      && (forall v | v in mounts ::
            mounts[v].fuseMount == if mounts[v].mode.Fuse? then Some(mounts[v].Kind()) else None)
    }

    ghost function Tracked(): map<string, Attachment>
      reads this
    {
      map v | v in mounts :: mounts[v].Kind()
    }

    ghost function State(): Books
      reads this, kernel
    {
      Books(Tracked(), kernel.table)
    }

    constructor (kernel: Kernel, disk: Disk)
      ensures Valid() && mounts == map[] && this.kernel == kernel && this.disk == disk
    {
      this.kernel := kernel;
      this.disk := disk;
      mounts := map[];
    }

    /** `node_publish_volume`. */
    method NodePublishVolume(req: PublishRequest, outside: Outside) returns (r: Result<(), Status>)
      requires Valid() && HostOk(outside.host)
      modifies this, kernel, disk
      ensures Valid()
      ensures Published(old(State()), req, outside, r, State())
      ensures r.Ok? ==>
                && DRIVER_KEYS <= req.context.Keys && req.volumeId in Tracked()
                && var a, text := Tracked()[req.volumeId], req.context[MOUNT];
                   && a.volume == req.volumeId && a.target == req.targetPath
                   && (a.mode.Cached? <==> IsCacheText(text)) && (a.mode.Fuse? <==> IsFuseText(text))
                   && (a.access.ReadOnly? <==> IsReadOnlyText(text))
                   && kernel.table == Attach(old(kernel.table), a)
      ensures r.Ok? ==>
                outside.refused.None? && outside.host.checked && outside.host.targetReady && outside.host.attached
      ensures outside.refused.Some? || !(DRIVER_KEYS <= req.context.Keys)
              || !(IsCacheText(req.context[MOUNT]) || IsFuseText(req.context[MOUNT])) ==>
                r.Err? && State() == old(State()) && disk.tree == old(disk.tree)
      ensures r.Ok? <==> Wanted(req, outside).Ok? && Mountable(Wanted(req, outside).value, old(disk.tree), outside.host)
      ensures if Wanted(req, outside).Ok?
              then DiskAfter(Wanted(req, outside).value, outside.host, r.Ok?, old(disk.tree), disk.tree)
              else disk.tree == old(disk.tree)
    {
      WantedMeaning(req, outside);
      if req.volumeId == "" {
        return Err(InvalidArgument);
      }
      if req.targetPath == "" {
        return Err(InvalidArgument);
      }
      var parsed := ParseContext(req.context);
      if parsed.Err? {
        return Err(parsed.error);
      }
      if outside.refused.Some? {
        return Err(outside.refused.value);
      }
      var (mode, access) := Parts(parsed.value.access);
      assert Wanted(req, outside) == Ok(Attachment(req.volumeId, req.targetPath, mode, access));
      var mount := new Mount(req.volumeId, req.targetPath, mode, access);
      r := mount.Mount(kernel, disk, outside.host);
      if r.Err? {
        return;
      }
      mounts := mounts[req.volumeId := mount];
      assert Tracked() == old(Tracked())[req.volumeId := mount.Kind()];
    }

    /** `node_unpublish_volume`; `detached` is the kernel's answer, if it is asked. */
    method NodeUnpublishVolume(id: string, target: string, detached: bool) returns (r: Result<(), Status>)
      requires Valid()
      modifies this, kernel, mounts.Values
      ensures Valid()
      ensures (r, State()) == Unpublished(old(State()), id, target, detached)
    {
      if id == "" {
        return Err(InvalidArgument);
      }
      if target == "" {
        return Err(InvalidArgument);
      }
      if id !in mounts {
        return Ok(());
      }
      var mount := mounts[id];
      mounts := mounts - {id};
      r := mount.Unmount(kernel, detached);
      assert forall v | v in mounts :: mounts[v] != mount;
      assert Tracked() == old(Tracked()) - {id};
    }
  }
}
