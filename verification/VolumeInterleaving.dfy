/** The same RPCs when any number of them run at once: the map is locked only for the check,
    for the insert and for a delete or a list, and anything may happen between a check and the
    insert that follows it. */
module VolumeInterleaving {
  import opened Cluster
  import opened VolumeContext
  import opened VolumeRegistry
  import opened Wrappers

  /** A create call: arrived, past the check without finding its name, past the lookup, or
      answered. */
  datatype Call =
    | Arrived(req: CreateRequest)
    | Missed(req: CreateRequest)
    | Resolved(req: CreateRequest, context: map<string, string>)
    | Answered(req: CreateRequest, answer: Result<CsiVolume, Status>)

  /** What callers were told, in order. */
  datatype Event =
    | CreatedEvent(name: string, volume: CsiVolume)
    | DeletedEvent(id: string)
    | ListedEvent(volumes: set<CsiVolume>)

  /** The service with its ledger: the ids ever inserted, and those that left the map by a
      delete and by an insert over them. */
  datatype Service = Service(
    volumes: map<string, CsiVolume>,
    calls: seq<Call>,
    issued: set<string>,
    deleted: set<string>,
    overwritten: set<string>,
    log: seq<Event>)

  datatype Action =
    | Arrive(req: CreateRequest)
    | Check(i: nat)
    | Lookup(i: nat, listings: Listings)
    | Insert(i: nat, uuid: string)
    | Delete(id: string, found: Option<string>)
    | List

  /** The uuid of an insert is new, and a delete's search finds an entry if there is one. */
  predicate Enabled(st: Service, a: Action) {
    match a
    case Arrive(_) => true
    case Check(i) => i < |st.calls| && st.calls[i].Arrived?
    case Lookup(i, _) => i < |st.calls| && st.calls[i].Missed?
    case Insert(i, uuid) => i < |st.calls| && st.calls[i].Resolved? && VolumeId(uuid) !in st.issued
    case Delete(id, found) =>
      && id != ""
      && (if found.Some? then found.value in st.volumes && st.volumes[found.value].id == id
          else forall n | n in st.volumes :: st.volumes[n].id != id)
    case List => true
  }

  function CheckCall(st: Service, i: nat, req: CreateRequest): Service
    requires i < |st.calls|
  {
    if req.name == "" then st.(calls := st.calls[i := Answered(req, Err(InvalidArgument))])
    else if req.name in st.volumes then
      st.(calls := st.calls[i := Answered(req, Ok(st.volumes[req.name]))],
          log := st.log + [CreatedEvent(req.name, st.volumes[req.name])])
    else st.(calls := st.calls[i := Missed(req)])
  }

  function InsertCall(st: Service, i: nat, req: CreateRequest, v: CsiVolume): Service
    requires i < |st.calls|
  {
    st.(
      volumes := st.volumes[req.name := v],
      calls := st.calls[i := Answered(req, Ok(v))],
      issued := st.issued + {v.id},
      overwritten := st.overwritten + if req.name in st.volumes then {st.volumes[req.name].id} else {},
      log := st.log + [CreatedEvent(req.name, v)])
  }

  function Apply(st: Service, a: Action): Service
    requires Enabled(st, a)
  {
    match a
    case Arrive(req) => st.(calls := st.calls + [Arrived(req)])
    case Check(i) => CheckCall(st, i, st.calls[i].req)
    case Lookup(i, listings) =>
      var req := st.calls[i].req;
      (match Resolve(req, listings)
       case Ok(context) => st.(calls := st.calls[i := Resolved(req, context)])
       case Err(e) => st.(calls := st.calls[i := Answered(req, Err(e))]))
    case Insert(i, uuid) =>
      var Resolved(req, context) := st.calls[i];
      InsertCall(st, i, req, NewVolume(req, context, uuid))
    case Delete(id, found) =>
      st.(volumes := if found.Some? then st.volumes - {found.value} else st.volumes,
          deleted := if found.Some? then st.deleted + {id} else st.deleted,
          log := st.log + [DeletedEvent(id)])
    case List => st.(log := st.log + [ListedEvent(st.volumes.Values)])
  }

  predicate Init(st: Service) {
    st == Service(map[], [], {}, {}, {}, [])
  }

  ghost predicate StepsAt(run: seq<Service>, i: nat)
    requires i + 1 < |run|
  {
    exists a :: Enabled(run[i], a) && run[i + 1] == Apply(run[i], a)
  }

  ghost predicate IsRun(run: seq<Service>) {
    run != [] && Init(run[0]) && forall i: nat | i + 1 < |run| :: StepsAt(run, i)
  }

  /** A request that can get past the lookup: it names a namespace, and its volume is named
      after a PVC. */
  predicate Resolvable(req: CreateRequest) {
    RESOURCE_NAMESPACE in req.parameters && CLAIM_PREFIX <= req.name
  }

  /** Between its check and its insert, and not bound to fail. */
  predicate Pending(c: Call) {
    (c.Missed? || c.Resolved?) && Resolvable(c.req)
  }

  /** No two creates of the same name overlap. */
  predicate Serial(st: Service) {
    forall i, j | 0 <= i < j < |st.calls| && Pending(st.calls[i]) && Pending(st.calls[j]) ::
      st.calls[i].req.name != st.calls[j].req.name
  }

  /** Alone, the three steps of a create are the create of the program. */
  lemma StepsAreCreate(st: Service, req: CreateRequest, listings: Listings, uuid: string)
    requires VolumeId(uuid) !in st.issued
    ensures var i, st1 := |st.calls|, Apply(st, Arrive(req));
            var st2 := Apply(st1, Check(i));
            var st3 := if st2.calls[i].Missed? then Apply(st2, Lookup(i, listings)) else st2;
            var st4 := if st3.calls[i].Resolved? then Apply(st3, Insert(i, uuid)) else st3;
            st4.calls[i].Answered? && (st4.calls[i].answer, st4.volumes) == Created(st.volumes, req, listings, uuid)
  {
  }

  /** The ledger: live names have ids of their own, and every id ever inserted is live, or
      deleted, or overwritten, and only one of these. */
  function LiveIds(st: Service): set<string> {
    set n | n in st.volumes :: st.volumes[n].id
  }

  predicate LedgerOk(st: Service) {
    && DistinctIds(st.volumes)
    && st.issued == LiveIds(st) + st.deleted + st.overwritten
    && LiveIds(st) !! st.deleted && LiveIds(st) !! st.overwritten && st.deleted !! st.overwritten
  }

  lemma InsertKeepsLedger(st: Service, i: nat, req: CreateRequest, v: CsiVolume)
    requires LedgerOk(st) && i < |st.calls| && v.id !in st.issued
    ensures LedgerOk(InsertCall(st, i, req, v))
  {
    var st' := InsertCall(st, i, req, v);
    var gone := if req.name in st.volumes then {st.volumes[req.name].id} else {};
    assert forall n | n in st.volumes :: st.volumes[n].id in LiveIds(st);
    assert LiveIds(st') == (LiveIds(st) - gone) + {v.id} by {
      forall id | id in LiveIds(st') ensures id in (LiveIds(st) - gone) + {v.id} {
        var n :| n in st'.volumes && st'.volumes[n].id == id;
      }
      forall id | id in (LiveIds(st) - gone) + {v.id} ensures id in LiveIds(st') {
        if id == v.id {
          assert st'.volumes[req.name].id == id;
        } else {
          var n :| n in st.volumes && st.volumes[n].id == id;
          assert n != req.name && st'.volumes[n].id == id;
        }
      }
    }
  }

  lemma DeleteKeepsLedger(st: Service, id: string, found: Option<string>)
    requires LedgerOk(st) && Enabled(st, Delete(id, found))
    ensures LedgerOk(Apply(st, Delete(id, found)))
    ensures Apply(st, Delete(id, found)).volumes == Without(st.volumes, id)
  {
    var st' := Apply(st, Delete(id, found));
    if found.Some? {
      FirstMatchIsEveryMatch(st.volumes, id, found.value);
      assert id in LiveIds(st);
      assert LiveIds(st') == LiveIds(st) - {id} by {
        forall x | x in LiveIds(st) - {id} ensures x in LiveIds(st') {
          var n :| n in st.volumes && st.volumes[n].id == x;
          assert n in st'.volumes && st'.volumes[n].id == x;
        }
      }
    } else {
      DeleteIsIdempotent(st.volumes, id);
    }
  }

  lemma StepKeepsLedger(st: Service, a: Action)
    requires LedgerOk(st) && Enabled(st, a)
    ensures LedgerOk(Apply(st, a))
  {
    match a
    case Insert(i, uuid) =>
      var Resolved(req, context) := st.calls[i];
      InsertKeepsLedger(st, i, req, NewVolume(req, context, uuid));
    case Delete(id, found) => DeleteKeepsLedger(st, id, found);
    case _ => assert LiveIds(Apply(st, a)) == LiveIds(st);
  }

  /** The ledger holds under every interleaving. */
  lemma {:induction false} IdLedger(run: seq<Service>, i: nat)
    requires IsRun(run) && i < |run|
    ensures LedgerOk(run[i])
  {
    if i > 0 {
      IdLedger(run, i - 1);
      assert StepsAt(run, i - 1);
      var a :| Enabled(run[i - 1], a) && run[i] == Apply(run[i - 1], a);
      StepKeepsLedger(run[i - 1], a);
    }
  }

  /** Without overlaps, the name of a pending create is not in the map, and nothing was ever
      overwritten. */
  predicate PendingAbsent(st: Service) {
    && (forall i | 0 <= i < |st.calls| && Pending(st.calls[i]) :: st.calls[i].req.name !in st.volumes)
    && (forall c | c in st.calls && c.Resolved? :: Resolvable(c.req))
    && st.overwritten == {}
  }

  lemma StepKeepsAbsent(st: Service, a: Action)
    requires Serial(st) && PendingAbsent(st) && Enabled(st, a)
    ensures PendingAbsent(Apply(st, a))
  {
    var st' := Apply(st, a);
    forall j | 0 <= j < |st'.calls| && Pending(st'.calls[j]) ensures st'.calls[j].req.name !in st'.volumes {
      if a.Insert? {
        assert a.i != j && st'.calls[j] == st.calls[j];
        assert st.calls[a.i].req.name != st.calls[j].req.name;
      }
    }
  }

  predicate SerialRun(run: seq<Service>) {
    forall st | st in run :: Serial(st)
  }

  lemma {:induction false} NothingOverwritten(run: seq<Service>, i: nat)
    requires IsRun(run) && SerialRun(run) && i < |run|
    ensures PendingAbsent(run[i])
  {
    if i > 0 {
      NothingOverwritten(run, i - 1);
      assert StepsAt(run, i - 1);
      var a :| Enabled(run[i - 1], a) && run[i] == Apply(run[i - 1], a);
      StepKeepsAbsent(run[i - 1], a);
    }
  }

  /** The atomic registry: a create finds its name or inserts a volume with a new id, a delete
      removes whatever has the id, a list shows the volumes, each in one step. */
  datatype Registry = Registry(live: map<string, CsiVolume>, issued: set<string>, log: seq<Event>)

  function Abstract(st: Service): Registry {
    Registry(st.volumes, st.issued, st.log)
  }

  predicate AtomicCreate(r: Registry, r': Registry, name: string, v: CsiVolume) {
    && r'.log == r.log + [CreatedEvent(name, v)]
    && if name in r.live then
         v == r.live[name] && r'.live == r.live && r'.issued == r.issued
       else
         v.id !in r.issued && r'.live == r.live[name := v] && r'.issued == r.issued + {v.id}
  }

  predicate AtomicDelete(r: Registry, r': Registry, id: string) {
    r' == r.(live := Without(r.live, id), log := r.log + [DeletedEvent(id)])
  }

  predicate AtomicList(r: Registry, r': Registry) {
    r' == r.(log := r.log + [ListedEvent(r.live.Values)])
  }

  ghost predicate AtomicStep(r: Registry, r': Registry) {
    || (exists name, v :: AtomicCreate(r, r', name, v))
    || (exists id :: AtomicDelete(r, r', id))
    || AtomicList(r, r')
  }

  /** Every step of the service is a step of the atomic registry, or none. */
  lemma StepRefines(st: Service, a: Action)
    requires LedgerOk(st) && PendingAbsent(st) && Enabled(st, a)
    ensures Abstract(Apply(st, a)) == Abstract(st) || AtomicStep(Abstract(st), Abstract(Apply(st, a)))
  {
    var r, r' := Abstract(st), Abstract(Apply(st, a));
    match a
    case Check(i) =>
      var name := st.calls[i].req.name;
      assert name != "" && name in st.volumes ==> AtomicCreate(r, r', name, st.volumes[name]);
    case Insert(i, uuid) =>
      var Resolved(req, context) := st.calls[i];
      assert AtomicCreate(r, r', req.name, NewVolume(req, context, uuid));
    case Delete(id, found) =>
      DeleteKeepsLedger(st, id, found);
      assert AtomicDelete(r, r', id);
    case _ =>
  }

  /** A run without overlapping creates of one name refines the atomic registry, step by step. */
  lemma RunRefines(run: seq<Service>, i: nat)
    requires IsRun(run) && SerialRun(run) && i + 1 < |run|
    ensures Abstract(run[0]) == Registry(map[], {}, [])
    ensures Abstract(run[i + 1]) == Abstract(run[i]) || AtomicStep(Abstract(run[i]), Abstract(run[i + 1]))
  {
    IdLedger(run, i);
    NothingOverwritten(run, i);
    assert StepsAt(run, i);
    var a :| Enabled(run[i], a) && run[i + 1] == Apply(run[i], a);
    StepRefines(run[i], a);
  }

  /** The idempotency of creates, on the atomic registry's log. `Undeleted`: no delete of the
      id among the events from `i` up to `j`. */
  predicate Undeleted(log: seq<Event>, id: string, i: nat, j: nat)
    requires j <= |log|
  {
    forall k | i <= k < j :: log[k] != DeletedEvent(id)
  }

  /** Two creates of one name with no delete of the first volume between them. */
  predicate SameVolume(log: seq<Event>, i: nat, j: nat)
    requires i < j < |log|
  {
    (&& log[i].CreatedEvent? && log[j].CreatedEvent? && log[i].name == log[j].name
     && Undeleted(log, log[i].volume.id, i, j))
    ==> log[i].volume == log[j].volume
  }

  predicate StillLive(r: Registry, i: nat)
    requires i < |r.log|
  {
    r.log[i].CreatedEvent? && Undeleted(r.log, r.log[i].volume.id, i, |r.log|) ==>
      r.log[i].name in r.live && r.live[r.log[i].name] == r.log[i].volume
  }

  predicate LogOk(r: Registry) {
    && (forall i: nat | i < |r.log| :: StillLive(r, i))
    && (forall i: nat, j: nat | i < j < |r.log| :: SameVolume(r.log, i, j))
  }

  /** Every atomic step adds one event, */
  lemma StillLiveStep(r: Registry, r': Registry, e: Event)
    requires forall i: nat | i < |r.log| :: StillLive(r, i)
    requires r'.log == r.log + [e]
    requires match e
             case CreatedEvent(name, v) => AtomicCreate(r, r', name, v)
             case DeletedEvent(id) => AtomicDelete(r, r', id)
             case ListedEvent(_) => AtomicList(r, r')
    ensures forall i: nat | i < |r'.log| :: StillLive(r', i)
  {
    forall i: nat | i < |r'.log| ensures StillLive(r', i) {
      if i < |r.log| {
        assert StillLive(r, i) && r'.log[i] == r.log[i];
        if r.log[i].CreatedEvent? && Undeleted(r'.log, r.log[i].volume.id, i, |r'.log|) {
          assert Undeleted(r.log, r.log[i].volume.id, i, |r.log|) by {
            assert forall k | i <= k < |r.log| :: r.log[k] == r'.log[k];
          }
          assert r'.log[|r.log|] == e;
        }
      }
    }
  }

  /** and that event agrees with all the events before it. */
  lemma LogOkStep(r: Registry, r': Registry, e: Event)
    requires LogOk(r) && r'.log == r.log + [e]
    requires match e
             case CreatedEvent(name, v) => AtomicCreate(r, r', name, v)
             case DeletedEvent(id) => AtomicDelete(r, r', id)
             case ListedEvent(_) => AtomicList(r, r')
    ensures LogOk(r')
  {
    StillLiveStep(r, r', e);
    forall i: nat, j: nat | i < j < |r'.log| ensures SameVolume(r'.log, i, j) {
      assert r'.log[i] == r.log[i];
      if j < |r.log| {
        assert SameVolume(r.log, i, j);
        assert forall k | i <= k < j :: r'.log[k] == r.log[k];
      } else {
        assert StillLive(r, i);
        assert forall k | i <= k < |r.log| :: r'.log[k] == r.log[k];
      }
    }
  }

  lemma AtomicStepKeepsLog(r: Registry, r': Registry)
    requires LogOk(r) && AtomicStep(r, r')
    ensures LogOk(r')
  {
    if name, v :| AtomicCreate(r, r', name, v) {
      LogOkStep(r, r', CreatedEvent(name, v));
    } else if id :| AtomicDelete(r, r', id) {
      LogOkStep(r, r', DeletedEvent(id));
    } else {
      LogOkStep(r, r', ListedEvent(r.live.Values));
    }
  }

  /** In every run without overlapping creates of one name, all creates of a name between
      deletes answered with the same record. */
  lemma {:induction false} CreatesAgree(run: seq<Service>, i: nat)
    requires IsRun(run) && SerialRun(run) && i < |run|
    ensures LogOk(Abstract(run[i]))
    ensures forall a: nat, b: nat | a < b < |run[i].log| :: SameVolume(run[i].log, a, b)
  {
    if i > 0 {
      CreatesAgree(run, i - 1);
      RunRefines(run, i - 1);
      if Abstract(run[i]) != Abstract(run[i - 1]) {
        AtomicStepKeepsLog(Abstract(run[i - 1]), Abstract(run[i]));
      }
    }
  }

  /** And only then: such a request gets past the lookup for some PVCs. */
  function SomeListings(req: CreateRequest): Listings
    requires Resolvable(req)
  {
    var annotations := map[NODE_NAME := "node", POD_NAME := "pod", MOUNT := "fuse"];
    map[req.parameters[RESOURCE_NAMESPACE] := [Claim("claim", "default", req.name[|CLAIM_PREFIX|..], annotations)]]
  }

  lemma ResolvableIff(req: CreateRequest)
    ensures Resolvable(req) <==> exists listings :: Resolve(req, listings).Ok?
  {
    if Resolvable(req) {
      KeysDistinct();
      assert Resolve(req, SomeListings(req)).Ok?;
    }
  }

  function Last(run: seq<Service>): Service
    requires run != []
  {
    run[|run| - 1]
  }

  lemma Extend(run: seq<Service>, a: Action)
    requires IsRun(run) && Enabled(Last(run), a)
    ensures IsRun(run + [Apply(Last(run), a)])
  {
    var run' := run + [Apply(Last(run), a)];
    forall i: nat | i + 1 < |run'| ensures StepsAt(run', i) {
      if i + 1 < |run| {
        assert StepsAt(run, i) && run'[i] == run[i] && run'[i + 1] == run[i + 1];
      } else {
        assert run'[i] == Last(run) && run'[i + 1] == Apply(Last(run), a);
      }
    }
  }

  /** A pending call can be brought past its lookup, with nothing else changed. */
  lemma BringPastLookup(run: seq<Service>, i: nat) returns (run': seq<Service>)
    requires IsRun(run) && i < |Last(run).calls| && Pending(Last(run).calls[i])
    ensures IsRun(run') && run <= run'
    ensures var st, st' := Last(run), Last(run');
            && i < |st'.calls| && st'.calls[i].Resolved? && st'.calls[i].req == st.calls[i].req
            && st' == st.(calls := st.calls[i := st'.calls[i]])
  {
    var st := Last(run);
    if st.calls[i].Resolved? {
      assert st.calls[i := st.calls[i]] == st.calls;
      run' := run;
    } else {
      var listings := SomeListings(st.calls[i].req);
      KeysDistinct();
      assert Resolve(st.calls[i].req, listings).Ok?;
      Extend(run, Lookup(i, listings));
      run' := run + [Apply(st, Lookup(i, listings))];
    }
  }

  /** Two creates of one name answered with different volumes and no delete between them, and
      the first volume no longer in the map. */
  predicate Broken(st: Service, uuid: string) {
    && VolumeId(uuid) in st.overwritten && VolumeId(uuid) !in LiveIds(st)
    && |st.log| >= 2 && !SameVolume(st.log, |st.log| - 2, |st.log| - 1)
  }

  lemma InsertTwice(run: seq<Service>, i: nat, j: nat, uuid: string, uuid': string) returns (run': seq<Service>)
    requires IsRun(run) && i < |Last(run).calls| && j < |Last(run).calls| && i != j
    requires Last(run).calls[i].Resolved? && Last(run).calls[j].Resolved?
    requires Last(run).calls[i].req.name == Last(run).calls[j].req.name
    requires VolumeId(uuid) !in Last(run).issued && VolumeId(uuid') !in Last(run).issued
             && VolumeId(uuid) != VolumeId(uuid')
    ensures IsRun(run') && run <= run' && Broken(Last(run'), uuid)
  {
    var st := Last(run);
    IdLedger(run, |run| - 1);
    Extend(run, Insert(i, uuid));
    var st1 := Apply(st, Insert(i, uuid));
    StepKeepsLedger(st, Insert(i, uuid));
    run' := run + [st1];
    Extend(run', Insert(j, uuid'));
    var st2 := Apply(st1, Insert(j, uuid'));
    StepKeepsLedger(st1, Insert(j, uuid'));
    run' := run' + [st2];
    assert st2.log[|st.log|].volume.id == VolumeId(uuid) && st2.log[|st.log| + 1].volume.id == VolumeId(uuid');
  }

  /** Every run in which two creates of one name overlap can go on to answer them with different
      volumes and lose the first. */
  lemma OverlapBreaks(run: seq<Service>, i: nat, j: nat, uuid: string, uuid': string) returns (run': seq<Service>)
    requires IsRun(run) && i < |Last(run).calls| && j < |Last(run).calls| && i != j
    requires Pending(Last(run).calls[i]) && Pending(Last(run).calls[j])
    requires Last(run).calls[i].req.name == Last(run).calls[j].req.name
    requires VolumeId(uuid) !in Last(run).issued && VolumeId(uuid') !in Last(run).issued
             && VolumeId(uuid) != VolumeId(uuid')
    ensures IsRun(run') && run <= run' && Broken(Last(run'), uuid)
  {
    var one := BringPastLookup(run, i);
    var two := BringPastLookup(one, j);
    run' := InsertTwice(two, i, j, uuid, uuid');
  }

  /** Such a run there is for every request: two calls arrive, and both are checked before
      either goes on. */
  lemma OverlapHappens(req: CreateRequest, uuid: string, uuid': string) returns (run: seq<Service>)
    requires Resolvable(req) && VolumeId(uuid) != VolumeId(uuid')
    ensures IsRun(run) && Broken(Last(run), uuid)
  {
    run := [Service(map[], [], {}, {}, {}, [])];
    run := Going(run, Arrive(req));
    run := Going(run, Arrive(req));
    run := Going(run, Check(0));
    run := Going(run, Check(1));
    run := OverlapBreaks(run, 0, 1, uuid, uuid');
  }

  lemma Going(run: seq<Service>, a: Action) returns (run': seq<Service>)
    requires IsRun(run) && Enabled(Last(run), a)
    ensures IsRun(run') && run <= run' && Last(run') == Apply(Last(run), a)
  {
    Extend(run, a);
    run' := run + [Apply(Last(run), a)];
  }
}
