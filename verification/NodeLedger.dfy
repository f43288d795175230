/** The node service under any number of calls at once, no two of them for one volume: the mount
    is made before the volume is tracked, and the volume is forgotten before it is unmounted. */
module NodeLedger {
  import opened MountHelper
  import opened NodeService
  import opened Wrappers

  /** A call in progress: before its mount, between its mount and its entry in the map, before
      it takes the entry out, and, the map still locked, before it unmounts. */
  datatype Call =
    | Preparing(a: Attachment)
    | Mounted(a: Attachment)
    | Removing
    | Unmounting(a: Attachment)

  /** `errored` are the mounts whose unmount answered with an error, in that order; `holder` is
      the volume of the call that keeps the map locked. */
  datatype State = State(books: Books, errored: Table, calls: map<string, Call>, holder: Option<string>)

  const INITIAL := State(Books(map[], map[]), map[], map[], None)

  datatype Action =
    | BeginPublish(a: Attachment)
    | MountDone(id: string)
    | MountFailed(id: string)
    | Track(id: string)
    | BeginUnpublish(id: string)
    | Remove(id: string)
    | UnmountDone(id: string)
    | UnmountFailed(id: string)

  /** The mount a volume has, is about to have, or is about to lose. */
  function Claim(st: State, id: string): Option<Attachment> {
    if id in st.books.tracked then Some(st.books.tracked[id])
    else if id in st.calls && !st.calls[id].Removing? then Some(st.calls[id].a)
    else None
  }

  /** The mount a volume has. */
  function Live(st: State, id: string): Option<Attachment> {
    if id in st.books.tracked then Some(st.books.tracked[id])
    else if id in st.calls && (st.calls[id].Mounted? || st.calls[id].Unmounting?) then Some(st.calls[id].a)
    else None
  }

  predicate Claims(st: State, id: string, target: string) {
    Claim(st, id).Some? && Claim(st, id).value.target == target
  }

  predicate Uses(st: State, id: string, target: string) {
    Live(st, id).Some? && Live(st, id).value.target == target
  }

  /** When an action can happen. Its callers begin no call for a volume that has one, publish
      no volume that is published, and give every volume a target of its own. */
  ghost predicate Enabled(st: State, act: Action) {
    match act
    case BeginPublish(a) =>
      && a.volume !in st.calls && a.volume !in st.books.tracked
      && forall w :: !Claims(st, w, a.target)
    case BeginUnpublish(id) => id !in st.calls
    case MountDone(id) => id in st.calls && st.calls[id].Preparing?
    case MountFailed(id) => id in st.calls && st.calls[id].Preparing?
    case Track(id) => id in st.calls && st.calls[id].Mounted? && st.holder == None
    case Remove(id) => id in st.calls && st.calls[id].Removing? && st.holder == None
    case UnmountDone(id) =>
      id in st.calls && st.calls[id].Unmounting? && Stack(st.books.table, st.calls[id].a.target) != []
    case UnmountFailed(id) => id in st.calls && st.calls[id].Unmounting?
  }

  function Apply(st: State, act: Action): State
    requires Enabled(st, act)
  {
    var b := st.books;
    match act
    case BeginPublish(a) => st.(calls := st.calls[a.volume := Preparing(a)])
    case MountDone(id) =>
      var a := st.calls[id].a;
      st.(books := b.(table := Attach(b.table, a)), calls := st.calls[id := Mounted(a)])
    case MountFailed(id) => st.(calls := st.calls - {id})
    case Track(id) =>
      st.(books := b.(tracked := b.tracked[id := st.calls[id].a]), calls := st.calls - {id})
    case BeginUnpublish(id) => st.(calls := st.calls[id := Removing])
    case Remove(id) =>
      if id in b.tracked
      then st.(books := b.(tracked := b.tracked - {id}), calls := st.calls[id := Unmounting(b.tracked[id])],
               holder := Some(id))
      else st.(calls := st.calls - {id})
    case UnmountDone(id) =>
      st.(books := b.(table := Detach(b.table, st.calls[id].a.target)), calls := st.calls - {id}, holder := None)
    case UnmountFailed(id) =>
      st.(errored := Attach(st.errored, st.calls[id].a), calls := st.calls - {id}, holder := None)
  }

  ghost predicate Next(st: State, st': State) {
    exists act :: Enabled(st, act) && st' == Apply(st, act)
  }

  ghost predicate NextAt(run: seq<State>, i: nat)
    requires i + 1 < |run|
  {
    Next(run[i], run[i + 1])
  }

  ghost predicate IsRun(run: seq<State>) {
    && |run| > 0
    && run[0] == INITIAL
    && forall i: nat | i + 1 < |run| :: NextAt(run, i)
  }

  /** Each volume has its own name on its entries, and a call only where it can be. */
  predicate OwnEntry(st: State, id: string) {
    && (Claim(st, id).Some? ==> Claim(st, id).value.volume == id)
    && (id in st.calls && !st.calls[id].Removing? ==> id !in st.books.tracked)
    && (st.holder == Some(id) <==> id in st.calls && st.calls[id].Unmounting?)
  }

  predicate Apart(st: State, v: string, w: string) {
    Claim(st, v).Some? && Claim(st, w).Some? && Claim(st, v).value.target == Claim(st, w).value.target ==> v == w
  }

  /** A live mount lies on top of those whose unmount failed at its target, */
  predicate OnTop(st: State, id: string) {
    Live(st, id).Some? ==>
      var a := Live(st, id).value;
      Stack(st.books.table, a.target) == Stack(st.errored, a.target) + [a]
  }

  /** and elsewhere there are only those. */
  ghost predicate OnlyErrored(st: State, target: string) {
    (forall v :: !Uses(st, v, target)) ==> Stack(st.books.table, target) == Stack(st.errored, target)
  }

  ghost predicate Inv(st: State) {
    && (forall id :: OwnEntry(st, id))
    && (forall v, w :: Apart(st, v, w))
    && (forall id :: OnTop(st, id))
    && (forall t :: OnlyErrored(st, t))
  }

  /** The volume an action is for. */
  function Of(act: Action): string {
    if act.BeginPublish? then act.a.volume else act.id
  }

  lemma StepKeepsEntries(st: State, act: Action, id: string)
    requires Enabled(st, act) && OwnEntry(st, id) && OwnEntry(st, Of(act))
    ensures OwnEntry(Apply(st, act), id)
  {
    if id != Of(act) {
      assert Claim(Apply(st, act), id) == Claim(st, id);
    }
  }

  lemma StepKeepsApart(st: State, act: Action, v: string, w: string)
    requires Enabled(st, act) && Apart(st, v, w)
    requires OwnEntry(st, v) && OwnEntry(st, w)
    ensures Apart(Apply(st, act), v, w)
  {
    if act.BeginPublish? {
      assert !Claims(st, v, act.a.target) && !Claims(st, w, act.a.target);
    }
  }

  /** Where a mount is about to be made, no volume has one. */
  lemma NobodyThere(st: State, id: string)
    requires Inv(st) && id in st.calls && st.calls[id].Preparing?
    ensures var t := st.calls[id].a.target; Stack(st.books.table, t) == Stack(st.errored, t)
  {
    var t := st.calls[id].a.target;
    assert OwnEntry(st, id);
    forall v ensures !Uses(st, v, t) {
      assert Apart(st, v, id) && OwnEntry(st, v);
    }
    assert OnlyErrored(st, t);
  }

  lemma StepKeepsOnTop(st: State, act: Action, id: string)
    requires Enabled(st, act) && Inv(st)
    ensures OnTop(Apply(st, act), id)
  {
    assert OnTop(st, id) && OwnEntry(st, id) && Apart(st, id, Of(act)) && OwnEntry(st, Of(act));
    if act.MountDone? {
      NobodyThere(st, act.id);
    }
  }

  /** The other volumes keep what they have. */
  lemma OthersUse(st: State, act: Action, v: string, target: string)
    requires Enabled(st, act) && v != Of(act)
    ensures Uses(Apply(st, act), v, target) == Uses(st, v, target)
  {
  }

  /** Where the volume itself has nothing before and after, nothing is mounted or unmounted, */
  lemma NothingMoves(st: State, act: Action, target: string)
    requires Enabled(st, act) && OwnEntry(st, Of(act))
    requires !Uses(st, Of(act), target) && !Uses(Apply(st, act), Of(act), target)
    ensures Stack(Apply(st, act).books.table, target) == Stack(st.books.table, target)
    ensures Stack(Apply(st, act).errored, target) == Stack(st.errored, target)
  {
  }

  /** and where it has lost its mount, that was taken off or has failed to be. */
  lemma MountLost(st: State, act: Action, target: string)
    requires Enabled(st, act) && OwnEntry(st, Of(act)) && OnTop(st, Of(act))
    requires Uses(st, Of(act), target) && !Uses(Apply(st, act), Of(act), target)
    ensures Stack(Apply(st, act).books.table, target) == Stack(Apply(st, act).errored, target)
  {
  }

  lemma StepKeepsErroredOnly(st: State, act: Action, target: string)
    requires Enabled(st, act) && OnlyErrored(st, target)
    requires OnTop(st, Of(act)) && OwnEntry(st, Of(act))
    ensures OnlyErrored(Apply(st, act), target)
  {
    var st' := Apply(st, act);
    if forall v :: !Uses(st', v, target) {
      assert !Uses(st', Of(act), target);
      if Uses(st, Of(act), target) {
        MountLost(st, act, target);
      } else {
        forall v ensures !Uses(st, v, target) {
          if v != Of(act) {
            OthersUse(st, act, v, target);
            assert !Uses(st', v, target);
          }
        }
        NothingMoves(st, act, target);
      }
    }
  }

  lemma StepKeepsInv(st: State, act: Action)
    requires Enabled(st, act) && Inv(st)
    ensures Inv(Apply(st, act))
  {
    var st' := Apply(st, act);
    forall id ensures OwnEntry(st', id) {
      assert OwnEntry(st, id) && OwnEntry(st, Of(act));
      StepKeepsEntries(st, act, id);
    }
    forall v, w ensures Apart(st', v, w) {
      assert Apart(st, v, w) && OwnEntry(st, v) && OwnEntry(st, w);
      StepKeepsApart(st, act, v, w);
    }
    forall id ensures OnTop(st', id) {
      StepKeepsOnTop(st, act, id);
    }
    forall t ensures OnlyErrored(st', t) {
      assert OnlyErrored(st, t) && OnTop(st, Of(act)) && OwnEntry(st, Of(act));
      StepKeepsErroredOnly(st, act, t);
    }
  }

  lemma {:induction false} RunKeepsInv(run: seq<State>, i: nat)
    requires IsRun(run) && i < |run|
    ensures Inv(run[i])
  {
    if i > 0 {
      RunKeepsInv(run, i - 1);
      assert NextAt(run, i - 1);
      var act :| Enabled(run[i - 1], act) && run[i] == Apply(run[i - 1], act);
      StepKeepsInv(run[i - 1], act);
    }
  }

  function Copies(t: Table, a: Attachment): nat {
    multiset(Stack(t, a.target))[a]
  }

  function Tracks(books: Books, a: Attachment): nat {
    if a.volume in books.tracked && books.tracked[a.volume] == a then 1 else 0
  }

  /** The mounts in the kernel are the tracked ones and those whose unmount failed. */
  ghost predicate Balanced(books: Books, errored: Table) {
    forall a :: Copies(books.table, a) == Copies(errored, a) + Tracks(books, a)
  }

  /** Every mount is listed at its own target. */
  ghost predicate Placed(t: Table) {
    forall target, a | a in Stack(t, target) :: a.target == target
  }

  lemma QuietVolume(st: State, a: Attachment)
    requires Inv(st) && a.volume !in st.calls
    ensures Copies(st.books.table, a) == Copies(st.errored, a) + Tracks(st.books, a)
  {
    if v :| Uses(st, v, a.target) {
      assert OnTop(st, v) && OwnEntry(st, v) && OwnEntry(st, a.volume) && Apart(st, v, a.volume);
    } else {
      assert OnlyErrored(st, a.target);
      assert !Uses(st, a.volume, a.target);
    }
  }

  lemma AttachCounts(t: Table, a: Attachment)
    ensures forall b :: Copies(Attach(t, a), b) == Copies(t, b) + if b == a then 1 else 0
    ensures Placed(t) ==> Placed(Attach(t, a))
  {
    if Placed(t) {
      forall target, b | b in Stack(Attach(t, a), target) ensures b.target == target {
        assert target != a.target ==> Stack(Attach(t, a), target) == Stack(t, target);
      }
    }
  }

  lemma DetachCounts(t: Table, target: string)
    requires Placed(t)
    ensures Placed(Detach(t, target))
    ensures var stack := Stack(t, target);
            stack != [] ==>
              forall b :: Copies(t, b) == Copies(Detach(t, target), b) + if b == stack[|stack| - 1] then 1 else 0
  {
    var stack := Stack(t, target);
    if stack != [] {
      assert stack == stack[..|stack| - 1] + [stack[|stack| - 1]];
      assert stack[|stack| - 1] in stack;
    }
    forall target', b | b in Stack(Detach(t, target), target') ensures b.target == target' {
      assert b in Stack(t, target');
    }
  }

  lemma StepKeepsPlaced(st: State, act: Action)
    requires Enabled(st, act) && Placed(st.books.table) && Placed(st.errored)
    ensures Placed(Apply(st, act).books.table) && Placed(Apply(st, act).errored)
  {
    if act.MountDone? {
      AttachCounts(st.books.table, st.calls[act.id].a);
    } else if act.UnmountDone? {
      DetachCounts(st.books.table, st.calls[act.id].a.target);
    } else if act.UnmountFailed? {
      AttachCounts(st.errored, st.calls[act.id].a);
    }
  }

  lemma {:induction false} RunKeepsPlaced(run: seq<State>, i: nat)
    requires IsRun(run) && i < |run|
    ensures Placed(run[i].books.table) && Placed(run[i].errored)
  {
    if i > 0 {
      RunKeepsPlaced(run, i - 1);
      assert NextAt(run, i - 1);
      var act :| Enabled(run[i - 1], act) && run[i] == Apply(run[i - 1], act);
      StepKeepsPlaced(run[i - 1], act);
    }
  }

  /** The mount ledger. In every run and at every moment, for every volume with no call in
      progress, whatever calls are in progress for others: its mounts in the kernel are the
      tracked one and exactly those whose unmount failed. */
  lemma MountLedger(run: seq<State>, i: nat)
    requires IsRun(run) && i < |run|
    ensures Placed(run[i].books.table)
    ensures forall a: Attachment | a.volume !in run[i].calls ::
              Copies(run[i].books.table, a) == Copies(run[i].errored, a) + Tracks(run[i].books, a)
    ensures run[i].calls == map[] ==> Balanced(run[i].books, run[i].errored)
  {
    RunKeepsPlaced(run, i);
    RunKeepsInv(run, i);
    forall a: Attachment | a.volume !in run[i].calls
      ensures Copies(run[i].books.table, a) == Copies(run[i].errored, a) + Tracks(run[i].books, a)
    {
      QuietVolume(run[i], a);
    }
  }

  /** An unmount that is asked for finds its own mount on top, takes off that one and no other,
      and one such call is in progress at a time. */
  lemma UnmountTakesOwn(run: seq<State>, i: nat, id: string)
    requires IsRun(run) && i < |run| && id in run[i].calls && run[i].calls[id].Unmounting?
    ensures Enabled(run[i], UnmountDone(id))
    ensures var a := run[i].calls[id].a;
            && a.volume == id
            && run[i].books.table
              == Apply(run[i], UnmountDone(id)).books.table[a.target := Stack(run[i].errored, a.target) + [a]]
            && Stack(Apply(run[i], UnmountDone(id)).books.table, a.target) == Stack(run[i].errored, a.target)
    ensures forall v | v in run[i].calls && run[i].calls[v].Unmounting? :: v == id
  {
    RunKeepsInv(run, i);
    assert OnTop(run[i], id) && OwnEntry(run[i], id);
    forall v | v in run[i].calls && run[i].calls[v].Unmounting? ensures v == id {
      assert OwnEntry(run[i], v);
    }
  }

  lemma ErroredInKernel(st: State, target: string)
    requires Inv(st)
    ensures Stack(st.errored, target) <= Stack(st.books.table, target)
  {
    if v :| Uses(st, v, target) {
      assert OnTop(st, v);
    } else {
      assert OnlyErrored(st, target);
    }
  }

  lemma StepKeepsErrored(st: State, act: Action, target: string)
    requires Enabled(st, act)
    ensures Stack(st.errored, target) <= Stack(Apply(st, act).errored, target)
  {
  }

  /** A mount whose unmount failed once is never unmounted: no later call takes it off. */
  lemma {:induction false} ErrorsStay(run: seq<State>, i: nat, j: nat, target: string)
    requires IsRun(run) && i <= j < |run|
    ensures Stack(run[i].errored, target) <= Stack(run[j].errored, target)
    ensures Stack(run[i].errored, target) <= Stack(run[j].books.table, target)
    decreases j
  {
    if i < j {
      ErrorsStay(run, i, j - 1, target);
      assert NextAt(run, j - 1);
      var act :| Enabled(run[j - 1], act) && run[j] == Apply(run[j - 1], act);
      StepKeepsErrored(run[j - 1], act, target);
    }
    RunKeepsInv(run, j);
    ErroredInKernel(run[j], target);
  }

  /** And a second unpublish call for it succeeds without doing anything. */
  lemma RetryHidesTheError(run: seq<State>, i: nat, id: string)
    requires IsRun(run) && i < |run| && id in run[i].calls && run[i].calls[id].Unmounting?
    ensures var failed := Apply(run[i], UnmountFailed(id));
            var a := run[i].calls[id].a;
            && Enabled(failed, BeginUnpublish(id))
            && var retried := Apply(failed, BeginUnpublish(id));
               && Enabled(retried, Remove(id))
               && Apply(retried, Remove(id)) == failed
               && a in Stack(failed.books.table, a.target)
  {
    RunKeepsInv(run, i);
    assert OnTop(run[i], id) && OwnEntry(run[i], id);
    var failed := Apply(run[i], UnmountFailed(id));
    var retried := Apply(failed, BeginUnpublish(id));
    assert Apply(retried, Remove(id)).calls == failed.calls;
  }

  /** The steps of a publish call, one after the other, are the call as the service runs it. */
  lemma StepsArePublish(st: State, req: PublishRequest, outside: Outside)
    requires Wanted(req, outside).Ok? && st.holder == None
    requires Enabled(st, BeginPublish(Wanted(req, outside).value))
    ensures var begun := Apply(st, BeginPublish(Wanted(req, outside).value));
            && Enabled(begun, MountFailed(req.volumeId)) && Apply(begun, MountFailed(req.volumeId)) == st
            && Enabled(begun, MountDone(req.volumeId))
            && var mounted := Apply(begun, MountDone(req.volumeId));
               && Enabled(mounted, Track(req.volumeId))
               && var after := Apply(mounted, Track(req.volumeId));
                  && Published(st.books, req, outside, Ok(()), after.books)
                  && after == st.(books := after.books)
  {
    var begun := Apply(st, BeginPublish(Wanted(req, outside).value));
    assert Apply(begun, MountFailed(req.volumeId)).calls == st.calls;
    var mounted := Apply(begun, MountDone(req.volumeId));
    assert Apply(mounted, Track(req.volumeId)).calls == st.calls;
  }

  /** And those of an unpublish call. */
  lemma StepsAreUnpublish(st: State, id: string, target: string, detached: bool)
    requires Inv(st) && id != "" && target != "" && st.holder == None && id !in st.calls
    ensures Enabled(st, BeginUnpublish(id)) && Enabled(Apply(st, BeginUnpublish(id)), Remove(id))
    ensures var removed := Apply(Apply(st, BeginUnpublish(id)), Remove(id));
            var (r, books) := Unpublished(st.books, id, target, detached);
            if id !in st.books.tracked then r == Ok(()) && removed == st && books == st.books
            else
              var last := if detached then UnmountDone(id) else UnmountFailed(id);
              && Enabled(removed, last)
              && (r.Ok? <==> detached)
              && Apply(removed, last) == st.(books := books, errored := Apply(removed, last).errored)
  {
    assert OnTop(st, id) && OwnEntry(st, id);
    var removed := Apply(Apply(st, BeginUnpublish(id)), Remove(id));
    if id !in st.books.tracked {
      assert removed.calls == st.calls;
    } else {
      assert Apply(removed, if detached then UnmountDone(id) else UnmountFailed(id)).calls == st.calls;
    }
  }

  /** When a publish call keeps the books balanced: exactly when its volume is not tracked yet.
      A second one at any target, the same or another, loses sight of a cached mount. */
  lemma PublishBalancesIff(books: Books, errored: Table, a: Attachment)
    requires Balanced(books, errored)
    requires a.volume in books.tracked ==>
               books.tracked[a.volume].volume == a.volume && books.tracked[a.volume].mode.Cached?
    ensures Balanced(Books(books.tracked[a.volume := a], Attach(books.table, a)), errored) <==>
            a.volume !in books.tracked
  {
    var after := Books(books.tracked[a.volume := a], Attach(books.table, a));
    AttachCounts(books.table, a);
    assert Copies(books.table, a) == Copies(errored, a) + Tracks(books, a);
    if a.volume in books.tracked {
      var was := books.tracked[a.volume];
      assert Copies(books.table, was) == Copies(errored, was) + 1;
      assert Copies(after.table, was) != Copies(errored, was) + Tracks(after, was);
    }
  }

  /** When an unmount does: exactly when the volume's own mount is the topmost at its target,
      which `UnmountTakesOwn` shows of volumes with targets of their own. */
  lemma UnmountBalancesIff(books: Books, errored: Table, id: string)
    requires Balanced(books, errored) && Placed(books.table)
    requires id in books.tracked && books.tracked[id].volume == id
    requires Stack(books.table, books.tracked[id].target) != []
    ensures var own := books.tracked[id];
            var stack := Stack(books.table, own.target);
            Balanced(Books(books.tracked - {id}, Detach(books.table, own.target)), errored) <==>
            stack[|stack| - 1] == own
  {
    var own := books.tracked[id];
    var stack := Stack(books.table, own.target);
    var top := stack[|stack| - 1];
    var after := Books(books.tracked - {id}, Detach(books.table, own.target));
    DetachCounts(books.table, own.target);
    assert top in stack;
    assert Copies(books.table, top) == Copies(errored, top) + Tracks(books, top);
    if top != own {
      assert Copies(after.table, top) != Copies(errored, top) + Tracks(after, top);
    }
  }
}
