/** The controller service's volumes: the RPCs as the program runs them alone, over the map
    that a mutex guards. */
module VolumeRegistry {
  import opened Cluster
  import opened VolumeContext
  import opened Wrappers

  datatype CsiVolume = CsiVolume(id: string, capacity: int, context: map<string, string>)

  datatype CreateRequest = CreateRequest(name: string, capacity: Option<int>, parameters: map<string, string>)

  const RESOURCE_NAMESPACE := "resourceNamespace"
  const DEFAULT_CAPACITY := 5 * 1024 * 1024 * 1024

  /** What a list call for PVCs returns, by namespace; a namespace that is missing stands for a
      call that fails. */
  type Listings = map<string, seq<Claim>>

  function VolumeId(uuid: string): string {
    "kubedal-" + uuid
  }

  /** `create_volume` between its two locks: from the request to the volume's context. */
  function Resolve(req: CreateRequest, listings: Listings): Result<map<string, string>, Status> {
    if RESOURCE_NAMESPACE !in req.parameters then Err(InvalidArgument)
    else if !(CLAIM_PREFIX <= req.name) then Err(InvalidArgument)
    else if req.parameters[RESOURCE_NAMESPACE] !in listings then Err(Internal)
    else match GetClaim(listings[req.parameters[RESOURCE_NAMESPACE]], req.name)
      case Ok(claim) => Context(claim)
      case Err(e) => Err(e)
  }

  function NewVolume(req: CreateRequest, context: map<string, string>, uuid: string): CsiVolume {
    CsiVolume(VolumeId(uuid), if req.capacity.Some? then req.capacity.value else DEFAULT_CAPACITY, context)
  }

  /** The volumes that are left when every one with this id is removed. */
  function Without(volumes: map<string, CsiVolume>, id: string): map<string, CsiVolume> {
    map n | n in volumes && volumes[n].id != id :: volumes[n]
  }

  predicate DistinctIds(volumes: map<string, CsiVolume>) {
    forall a, b | a in volumes && b in volumes && volumes[a].id == volumes[b].id :: a == b
  }

  /** Removing the one entry that a search happens to meet removes every entry with the id. */
  lemma FirstMatchIsEveryMatch(volumes: map<string, CsiVolume>, id: string, key: string)
    requires DistinctIds(volumes) && key in volumes && volumes[key].id == id
    ensures volumes - {key} == Without(volumes, id)
  {
    assert (volumes - {key}).Keys == Without(volumes, id).Keys;
  }

  /** Deleting again changes nothing, and other ids are not touched. */
  lemma DeleteIsIdempotent(volumes: map<string, CsiVolume>, id: string)
    ensures Without(Without(volumes, id), id) == Without(volumes, id)
    ensures forall n | n in volumes && volumes[n].id != id ::
              n in Without(volumes, id) && Without(volumes, id)[n] == volumes[n]
    ensures (forall n | n in volumes :: volumes[n].id != id) ==> Without(volumes, id) == volumes
  {
  }

  /** What `create_volume` answers and leaves behind when nothing runs beside it. */
  function Created(volumes: map<string, CsiVolume>, req: CreateRequest, listings: Listings, uuid: string)
    : (Result<CsiVolume, Status>, map<string, CsiVolume>)
  {
    if req.name == "" then (Err(InvalidArgument), volumes)
    else if req.name in volumes then (Ok(volumes[req.name]), volumes)
    else match Resolve(req, listings)
      case Ok(context) =>
        var v := NewVolume(req, context, uuid); (Ok(v), volumes[req.name := v])
      case Err(e) => (Err(e), volumes)
  }

  /** A claim that a request can be served from: listed in the namespace it names, the one its
      volume is named after, and annotated with a node, a DataPod and an access mode. */
  predicate Serves(req: CreateRequest, listings: Listings, claim: Claim) {
    && "resourceNamespace" in req.parameters && req.parameters["resourceNamespace"] in listings
    && claim in listings[req.parameters["resourceNamespace"]] && req.name == "pvc-" + claim.uid
    && {NODE_NAME, POD_NAME, MOUNT} <= claim.annotations.Keys
  }

  /** The context of a volume made from a claim. */
  predicate IsContextOf(claim: Claim, context: map<string, string>) {
    && context.Keys == DRIVER_KEYS && {NODE_NAME, POD_NAME, MOUNT} <= claim.annotations.Keys
    && context[NODE_NAME] == claim.annotations[NODE_NAME] && context[POD_NAME] == claim.annotations[POD_NAME]
    && context[MOUNT] == claim.annotations[MOUNT]
    && Resolves(claim, context[NODE_NAMESPACE], context[POD_NAMESPACE])
  }

  predicate UniqueUids(listings: Listings) {
    forall ns, c, c' | ns in listings && c in listings[ns] && c' in listings[ns] && c.uid == c'.uid :: c == c'
  }

  predicate Unlisted(claims: seq<Claim>, volumeName: string) {
    forall c | c in claims :: volumeName != "pvc-" + c.uid
  }

  lemma ContextIs(claim: Claim)
    ensures Context(claim).Ok? <==> {NODE_NAME, POD_NAME, MOUNT} <= claim.annotations.Keys
    ensures Context(claim).Ok? ==> IsContextOf(claim, Context(claim).value)
    ensures Context(claim).Err? ==> Context(claim).error == InvalidArgument
  {
    KeysDistinct();
  }

  /** What a lookup finds and how it fails. */
  lemma ResolveMeaning(req: CreateRequest, listings: Listings)
    ensures var r := Resolve(req, listings);
            && (r.Ok? ==> exists c :: Serves(req, listings, c) && IsContextOf(c, r.value))
            && (UniqueUids(listings) ==> (r.Ok? <==> exists c :: Serves(req, listings, c)))
            && (r.Err? ==>
                  if "resourceNamespace" !in req.parameters || |req.name| < 4 || req.name[..4] != "pvc-" then
                    r.error == InvalidArgument
                  else if req.parameters["resourceNamespace"] !in listings then r.error == Internal
                  else if Unlisted(listings[req.parameters["resourceNamespace"]], req.name) then
                    r.error == Status.NotFound
                  else r.error == InvalidArgument)
  {
    if RESOURCE_NAMESPACE in req.parameters && req.parameters[RESOURCE_NAMESPACE] in listings {
      var claims := listings[req.parameters[RESOURCE_NAMESPACE]];
      var found := GetClaim(claims, req.name);
      if found.Ok? {
        ContextIs(found.value);
        assert Serves(req, listings, found.value) <==> Context(found.value).Ok?;
        forall c | UniqueUids(listings) && Serves(req, listings, c) ensures c == found.value {
          assert req.name[4..] == c.uid && req.name[4..] == found.value.uid;
        }
      }
    }
  }

  /** What a create answers and stores, case by case. */
  lemma CreatedMeaning(volumes: map<string, CsiVolume>, req: CreateRequest, listings: Listings, uuid: string)
    ensures var (r, after) := Created(volumes, req, listings, uuid);
            if req.name == "" then r == Err(InvalidArgument) && after == volumes
            else if req.name in volumes then r == Ok(volumes[req.name]) && after == volumes
            else match r
              case Ok(v) =>
                && after == volumes[req.name := v]
                && v.id == "kubedal-" + uuid
                && v.capacity == (if req.capacity.Some? then req.capacity.value else 5_368_709_120)
                && exists c :: Serves(req, listings, c) && IsContextOf(c, v.context)
              case Err(e) =>
                && after == volumes && Resolve(req, listings) == Err(e)
                && (UniqueUids(listings) ==> forall c :: !Serves(req, listings, c))
  {
    ResolveMeaning(req, listings);
  }

  /** A repeated create answers with the same volume and changes nothing, whatever has become
      of the claim it was made from. */
  lemma CreateIsIdempotent(
    volumes: map<string, CsiVolume>, req: CreateRequest, req': CreateRequest,
    listings: Listings, listings': Listings, uuid: string, uuid': string)
    requires req'.name == req.name
    ensures var (r, after) := Created(volumes, req, listings, uuid);
            r.Ok? ==> Created(after, req', listings', uuid') == (r, after)
  {
  }

  class ControllerService {
    var volumes: map<string, CsiVolume>

    ghost predicate Valid()
      reads this
    {
      DistinctIds(volumes)
    }

    constructor ()
      ensures Valid() && volumes == map[]
    {
      volumes := map[];
    }

    /** `create_volume`; the uuid it draws is new. */
    method CreateVolume(req: CreateRequest, listings: Listings, uuid: string) returns (r: Result<CsiVolume, Status>)
      requires Valid()
      requires forall n | n in volumes :: volumes[n].id != VolumeId(uuid)
      modifies this
      ensures Valid()
      ensures (r, volumes) == Created(old(volumes), req, listings, uuid)
    {
      if req.name == "" {
        return Err(InvalidArgument);
      }
      if req.name in volumes {
        return Ok(volumes[req.name]);
      }
      var context := Resolve(req, listings);
      if context.Err? {
        return Err(context.error);
      }
      var v := NewVolume(req, context.value, uuid);
      volumes := volumes[req.name := v];
      return Ok(v);
    }

    /** `delete_volume`: the map is searched in whatever order it iterates. */
    method DeleteVolume(id: string) returns (r: Result<(), Status>)
      requires Valid()
      modifies this
      ensures Valid()
      ensures if id == "" then r == Err(InvalidArgument) && volumes == old(volumes)
              else r == Ok(()) && volumes == Without(old(volumes), id)
    {
      if id == "" {
        return Err(InvalidArgument);
      }
      var unseen := volumes.Keys;
      var found: Option<string> := None;
      while unseen != {} && found.None?
        invariant unseen <= volumes.Keys
        invariant found.Some? ==> found.value in volumes && volumes[found.value].id == id
        invariant found.None? ==> forall n | n in volumes && n !in unseen :: volumes[n].id != id
        decreases unseen
      {
        var key :| key in unseen;
        unseen := unseen - {key};
        if volumes[key].id == id {
          found := Some(key);
        }
      }
      if found.Some? {
        FirstMatchIsEveryMatch(volumes, id, found.value);
        volumes := volumes - {found.value};
      } else {
        DeleteIsIdempotent(volumes, id);
      }
      return Ok(());
    }

    /** `list_volumes`: every volume once, in whatever order the map iterates. */
    method ListVolumes() returns (entries: seq<CsiVolume>)
      requires Valid()
      ensures |entries| == |volumes|
      ensures forall v :: v in entries <==> exists n :: n in volumes && volumes[n] == v
    {
      var unseen := volumes.Keys;
      entries := [];
      while unseen != {}
        invariant unseen <= volumes.Keys
        invariant |entries| + |unseen| == |volumes|
        invariant forall n | n in volumes && n !in unseen :: volumes[n] in entries
        invariant forall v | v in entries :: exists n :: n in volumes && volumes[n] == v
        decreases unseen
      {
        var key :| key in unseen;
        unseen := unseen - {key};
        entries := entries + [volumes[key]];
      }
    }
  }
}
