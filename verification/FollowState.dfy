/** What a follow has delivered (client/follow.go, FollowState): two bounded id
    lists, a since per relay, and the file they are saved to and loaded from. */
module FollowState {
  import opened Common
  import opened BoundedFifo

  type Id = string
  type Relay = string

  const MAX_SEEN: nat := 5000
  const MAX_SEEN_ONLY: nat := 5000

  /** followStateFile. */
  datatype File = File(seen: seq<Id>, seenOnly: seq<Id>, since: map<Relay, int>)

  /** The state in memory: ids delivered, ids only seen, both oldest first. */
  datatype State = State(order: seq<Id>, onlyOrder: seq<Id>, since: map<Relay, int>, dirty: bool) {

    predicate Known(id: Id) {
      id in order || id in onlyOrder
    }

    function Since(relay: Relay): int {
      if relay in since then since[relay] else 0
    }

    function AddOnly(id: Id): State {
      if id in order then this else this.(onlyOrder := Insert(onlyOrder, id, MAX_SEEN_ONLY))
    }

    function Mark(id: Id, relay: Relay, createdAt: int, now: int): State {
      if Known(id) then this else
        var at := if createdAt > now then now else createdAt;
        State(Insert(order, id, MAX_SEEN), onlyOrder,
              if at > Since(relay) then since[relay := at] else since, true)
    }

    function MarkSeen(id: Id): State {
      if Known(id) then this else this.AddOnly(id).(dirty := true)
    }

    function Snapshot(): File {
      File(order, onlyOrder, since)
    }

    ghost predicate Valid(now: int) {
      && Fits(order, MAX_SEEN) && Fits(onlyOrder, MAX_SEEN_ONLY)
      && (forall id :: id in order ==> id !in onlyOrder)
      && (forall r :: r in since ==> since[r] <= now)
    }
  }

  function AddOnlyAll(s: State, ids: seq<Id>): State
    decreases |ids|
  {
    if ids == [] then s else AddOnlyAll(s.AddOnly(ids[0]), ids[1..])
  }

  /** LoadFollowState; a missing file is an empty state. */
  function Load(file: Option<File>, now: int): State {
    match file
    case None => State([], [], map[], false)
    case Some(f) =>
      var kept := map r | r in f.since && f.since[r] <= now :: f.since[r];
      var s := AddOnlyAll(State(InsertAll([], f.seen, MAX_SEEN), [], map[], false), f.seenOnly);
      State(s.order, s.onlyOrder, kept, exists r :: r in f.since && f.since[r] > now)
  }

  // ------------------------------------------------------- what loading does

  lemma {:induction false} AddOnlyAllKeeps(s: State, ids: seq<Id>, now: int)
    requires s.Valid(now)
    ensures AddOnlyAll(s, ids).Valid(now)
    ensures AddOnlyAll(s, ids).order == s.order && AddOnlyAll(s, ids).since == s.since
    decreases |ids|
  {
    if ids != [] {
      AddOnlyAllKeeps(s.AddOnly(ids[0]), ids[1..], now);
    }
  }

  /** Any file at all loads into a valid state. */
  lemma LoadValid(file: Option<File>, now: int)
    ensures Load(file, now).Valid(now)
  {
    if file.Some? {
      InsertAllFits([], file.value.seen, MAX_SEEN);
      AddOnlyAllKeeps(State(InsertAll([], file.value.seen, MAX_SEEN), [], map[], false), file.value.seenOnly, now);
    }
  }

  lemma {:induction false} AddOnlyAllRebuilds(s: State, ids: seq<Id>)
    requires Fits(s.onlyOrder + ids, MAX_SEEN_ONLY) && forall id :: id in ids ==> id !in s.order
    ensures AddOnlyAll(s, ids) == s.(onlyOrder := s.onlyOrder + ids)
    decreases |ids|
  {
    if ids == [] {
      assert s.onlyOrder + ids == s.onlyOrder;
    } else {
      var front := s.onlyOrder + [ids[0]];
      NextIsNew(s.onlyOrder, ids);
      assert front + ids[1..] == s.onlyOrder + ids;
      assert s.AddOnly(ids[0]) == s.(onlyOrder := front);
      AddOnlyAllRebuilds(s.(onlyOrder := front), ids[1..]);
    }
  }

  /** Save then Load restores the state, at any later time. */
  lemma SaveThenLoad(s: State, now: int, later: int)
    requires s.Valid(now) && now <= later
    ensures Load(Some(s.Snapshot()), later) == s.(dirty := false)
  {
    InsertAllRebuilds([], s.order, MAX_SEEN);
    assert [] + s.order == s.order && [] + s.onlyOrder == s.onlyOrder;
    AddOnlyAllRebuilds(State(s.order, [], map[], false), s.onlyOrder);
    assert (map r | r in s.since && s.since[r] <= later :: s.since[r]) == s.since;
  }

  // --------------------------------------------------------------- whole runs

  /** The state, the file, what a save is about to write to it, and the ids
      delivered since the state was loaded. */
  datatype World = World(mem: State, file: Option<File>, saving: Option<File>, clock: int, loaded: seq<Id>, delivered: seq<Id>)

  /** A state just loaded. */
  function Loaded(file: Option<File>, now: int): World {
    World(Load(file, now), file, None, now, Load(file, now).order, [])
  }

  datatype Op =
    | OpMark(id: Id, relay: Relay, createdAt: int, now: int)
    | OpMarkSeen(id: Id)
    | OpSaveBegin
    | OpSaveEnd(ok: bool)
    | OpLoad(now: int)

  /** Time does not go back, and one save ends before the next begins. */
  predicate Later(w: World, op: Op) {
    match op
    case OpMark(_, _, _, now) => w.clock <= now
    case OpLoad(now) => w.clock <= now
    case OpSaveBegin => w.saving.None?
    case OpSaveEnd(_) => w.saving.Some?
    case OpMarkSeen(_) => true
  }

  function Next(w: World, op: Op): World {
    match op
    case OpMark(id, relay, createdAt, now) =>
      w.(mem := w.mem.Mark(id, relay, createdAt, now), clock := now,
         delivered := if w.mem.Known(id) then w.delivered else w.delivered + [id])
    case OpMarkSeen(id) => w.(mem := w.mem.MarkSeen(id))
    case OpSaveBegin =>
      // dirty is cleared under the lock, before the file is written
      if w.mem.dirty then w.(saving := Some(w.mem.Snapshot()), mem := w.mem.(dirty := false)) else w
    case OpSaveEnd(ok) =>
      if ok then w.(file := w.saving, saving := None)
      else w.(saving := None, mem := w.mem.(dirty := true))
    case OpLoad(now) => Loaded(w.file, now)
  }

  ghost predicate Inv(w: World) {
    && w.mem.Valid(w.clock)
    // a clean state is what the file loads to, or what is being written to it
    && (!w.mem.dirty && w.saving.None? ==> forall t :: t >= w.clock ==> Load(w.file, t) == w.mem)
    && (!w.mem.dirty && w.saving.Some? ==> w.saving.value == w.mem.Snapshot())
    // the delivered list is the newest of what was loaded and then delivered
    && w.mem.order == LastN(w.loaded + w.delivered, MAX_SEEN)
  }

  lemma {:induction false} MarkKeeps(w: World, id: Id, relay: Relay, createdAt: int, now: int)
    requires Inv(w) && w.clock <= now
    ensures Inv(Next(w, OpMark(id, relay, createdAt, now)))
  {
    if !w.mem.Known(id) {
      InsertFits(w.mem.order, id, MAX_SEEN);
      assert w.loaded + (w.delivered + [id]) == w.loaded + w.delivered + [id];
    }
  }

  lemma MarkSeenKeeps(w: World, id: Id)
    requires Inv(w)
    ensures Inv(Next(w, OpMarkSeen(id)))
    ensures Next(w, OpMarkSeen(id)).mem.order == w.mem.order && Next(w, OpMarkSeen(id)).mem.since == w.mem.since
  {
  }

  lemma SaveKeeps(w: World, ok: bool)
    requires Inv(w) && w.saving.Some?
    ensures Inv(Next(w, OpSaveEnd(ok)))
  {
    if ok && !w.mem.dirty {
      forall t | t >= w.clock ensures Load(Some(w.mem.Snapshot()), t) == w.mem {
        SaveThenLoad(w.mem, w.clock, t);
      }
    }
  }

  lemma LoadKeeps(file: Option<File>, now: int)
    ensures Inv(Loaded(file, now))
  {
    LoadValid(file, now);
    var mem := Load(file, now);
    assert mem.order + [] == mem.order;
    if !mem.dirty && file.Some? {
      forall t | t >= now ensures Load(file, t) == mem {
        assert forall r :: r in file.value.since ==> file.value.since[r] <= now;
        assert (map r | r in file.value.since && file.value.since[r] <= t :: file.value.since[r]) == mem.since;
      }
    }
  }

  ghost predicate Run(worlds: seq<World>, ops: seq<Op>) {
    && |worlds| == |ops| + 1
    && (exists file, now :: worlds[0] == Loaded(file, now))
    && forall i :: 0 <= i < |ops| ==> Later(worlds[i], ops[i]) && worlds[i + 1] == Next(worlds[i], ops[i])
  }

  /** At every point of every run, from any file: both lists are duplicate-free,
      within their bounds and disjoint; no since is past now; the delivered list
      is the newest MAX_SEEN of what was loaded and delivered; and a state with
      nothing to save is what its file loads to, or what is being written to it. */
  lemma {:induction false} RunKeeps(worlds: seq<World>, ops: seq<Op>, k: nat)
    requires Run(worlds, ops) && k < |worlds|
    ensures Inv(worlds[k])
  {
    if k == 0 {
      var file, now :| worlds[0] == Loaded(file, now);
      LoadKeeps(file, now);
    } else {
      RunKeeps(worlds, ops, k - 1);
      var w := worlds[k - 1];
      match ops[k - 1]
      case OpMark(id, relay, createdAt, now) => MarkKeeps(w, id, relay, createdAt, now);
      case OpMarkSeen(id) => MarkSeenKeeps(w, id);
      case OpSaveBegin =>
      case OpSaveEnd(ok) => SaveKeeps(w, ok);
      case OpLoad(now) => LoadKeeps(w.file, now);
    }
  }

  /** A relay's since in a file, as a load at `now` takes it. */
  function FileSince(file: Option<File>, relay: Relay, now: int): int {
    if file.Some? && relay in file.value.since && file.value.since[relay] <= now then file.value.since[relay] else 0
  }

  /** A relay's since goes back exactly when a load finds an older one in the file;
      and then something was not saved. */
  lemma SinceGoesBackIff(w: World, op: Op, relay: Relay)
    requires Inv(w) && Later(w, op)
    ensures Next(w, op).mem.Since(relay) < w.mem.Since(relay) <==>
            op.OpLoad? && FileSince(w.file, relay, op.now) < w.mem.Since(relay)
    ensures Next(w, op).mem.Since(relay) < w.mem.Since(relay) ==> w.mem.dirty || w.saving.Some?
    ensures op.OpLoad? && !w.mem.dirty && w.saving.None? ==> Next(w, op).mem == w.mem
  {
  }

  // ------------------------------------------------- a since over whole runs

  /** The mark at `m` moves the relay's since forward. */
  ghost predicate Advances(worlds: seq<World>, ops: seq<Op>, m: nat, relay: Relay)
    requires |worlds| == |ops| + 1 && m < |ops|
  {
    ops[m].OpMark? && worlds[m + 1].mem.Since(relay) > worlds[m].mem.Since(relay)
  }

  /** Where the save that is under way, or was last, began; -1 if none did. */
  function LastBegin(ops: seq<Op>, k: nat): (b: int)
    requires k <= |ops|
    ensures -1 <= b < k && (b >= 0 ==> ops[b] == OpSaveBegin)
  {
    if k == 0 then -1 else if ops[k - 1] == OpSaveBegin then k - 1 else LastBegin(ops, k - 1)
  }

  /** No save that began after `m` was completed before `k`. */
  ghost predicate NotSavedSince(ops: seq<Op>, m: nat, k: nat)
    requires k <= |ops|
  {
    forall e :: m < e < k && ops[e] == OpSaveEnd(true) ==> LastBegin(ops, e) < m
  }

  /** The relay's since at `k` was set by the mark at `m`, and is not saved. */
  ghost predicate UnsavedFrom(worlds: seq<World>, ops: seq<Op>, m: nat, k: nat, relay: Relay)
    requires |worlds| == |ops| + 1 && k <= |ops|
  {
    m < k && Advances(worlds, ops, m, relay) && worlds[m + 1].mem.Since(relay) == worlds[k].mem.Since(relay)
    && NotSavedSince(ops, m, k)
  }

  /** A file that holds the relay's since of `w`, or a later one. */
  predicate HoldsSince(file: Option<File>, w: World, relay: Relay) {
    FileSince(file, relay, w.clock) >= w.mem.Since(relay)
  }

  /** Where the relay's since stands at `k`: in the file, and in what is being
      written; or set by a mark that is not saved, though a save begun after that
      mark has it. */
  ghost predicate Accounted(worlds: seq<World>, ops: seq<Op>, k: nat, relay: Relay)
    requires |worlds| == |ops| + 1 && k <= |ops|
  {
    || (HoldsSince(worlds[k].file, worlds[k], relay)
        && (worlds[k].saving.Some? ==> HoldsSince(worlds[k].saving, worlds[k], relay)))
    || exists m :: 0 <= m < k && Awaits(worlds, ops, m, k, relay)
  }

  ghost predicate Awaits(worlds: seq<World>, ops: seq<Op>, m: nat, k: nat, relay: Relay)
    requires |worlds| == |ops| + 1 && k <= |ops|
  {
    UnsavedFrom(worlds, ops, m, k, relay)
    && (worlds[k].saving.Some? && LastBegin(ops, k) > m ==> HoldsSince(worlds[k].saving, worlds[k], relay))
  }

  ghost predicate FromNow(worlds: seq<World>) {
    worlds != [] && worlds[0].clock >= 0
  }

  lemma {:induction false} ClockRises(worlds: seq<World>, ops: seq<Op>, k: nat)
    requires Run(worlds, ops) && k < |worlds| && FromNow(worlds)
    ensures worlds[k].clock >= 0
  {
    if k > 0 {
      ClockRises(worlds, ops, k - 1);
      assert Later(worlds[k - 1], ops[k - 1]);
    }
  }

  /** The step at `k` leaves the since, and the mark it awaits a save of. */
  lemma StillUnsaved(worlds: seq<World>, ops: seq<Op>, m: nat, k: nat, relay: Relay)
    requires |worlds| == |ops| + 1 && k < |ops| && UnsavedFrom(worlds, ops, m, k, relay)
    requires worlds[k + 1].mem.Since(relay) == worlds[k].mem.Since(relay)
    requires ops[k] == OpSaveEnd(true) ==> LastBegin(ops, k) < m
    ensures UnsavedFrom(worlds, ops, m, k + 1, relay)
  {
  }

  /** A step that leaves the since as it is leaves it accounted for. */
  lemma SameSinceStep(worlds: seq<World>, ops: seq<Op>, k: nat, relay: Relay)
    requires |worlds| == |ops| + 1 && k < |ops| && 0 <= worlds[k].clock <= worlds[k + 1].clock && Accounted(worlds, ops, k, relay)
    requires ops[k] != OpSaveBegin && ops[k] != OpSaveEnd(true) && worlds[k + 1].file == worlds[k].file
    requires worlds[k + 1].saving == worlds[k].saving || worlds[k + 1].saving.None?
    requires worlds[k + 1].mem.Since(relay) == worlds[k].mem.Since(relay)
    ensures Accounted(worlds, ops, k + 1, relay)
  {
    assert LastBegin(ops, k + 1) == LastBegin(ops, k);
    if m :| 0 <= m < k && Awaits(worlds, ops, m, k, relay) {
      StillUnsaved(worlds, ops, m, k, relay);
      assert Awaits(worlds, ops, m, k + 1, relay);
    }
  }

  lemma BeginStep(worlds: seq<World>, ops: seq<Op>, k: nat, relay: Relay)
    requires |worlds| == |ops| + 1 && k < |ops| && worlds[k].mem.Valid(worlds[k].clock) && Accounted(worlds, ops, k, relay)
    requires ops[k] == OpSaveBegin && worlds[k].saving.None? && worlds[k + 1] == Next(worlds[k], OpSaveBegin)
    ensures Accounted(worlds, ops, k + 1, relay)
  {
    var w' := worlds[k + 1];
    assert w'.saving.Some? ==> HoldsSince(w'.saving, w', relay);
    if m :| 0 <= m < k && Awaits(worlds, ops, m, k, relay) {
      StillUnsaved(worlds, ops, m, k, relay);
      assert Awaits(worlds, ops, m, k + 1, relay);
    }
  }

  lemma EndStep(worlds: seq<World>, ops: seq<Op>, k: nat, relay: Relay)
    requires |worlds| == |ops| + 1 && k < |ops| && Accounted(worlds, ops, k, relay)
    requires ops[k] == OpSaveEnd(true) && worlds[k].saving.Some? && worlds[k + 1] == Next(worlds[k], OpSaveEnd(true))
    ensures Accounted(worlds, ops, k + 1, relay)
  {
    var w := worlds[k];
    if !HoldsSince(w.saving, w, relay) {
      var m :| 0 <= m < k && Awaits(worlds, ops, m, k, relay);
      assert LastBegin(ops, k) <= m && ops[m].OpMark?;
      StillUnsaved(worlds, ops, m, k, relay);
      assert Awaits(worlds, ops, m, k + 1, relay);
    }
  }

  lemma MarkStep(worlds: seq<World>, ops: seq<Op>, k: nat, relay: Relay)
    requires |worlds| == |ops| + 1 && k < |ops| && 0 <= worlds[k].clock && Accounted(worlds, ops, k, relay)
    requires ops[k].OpMark? && worlds[k].clock <= ops[k].now && worlds[k + 1] == Next(worlds[k], ops[k])
    ensures Accounted(worlds, ops, k + 1, relay)
  {
    if worlds[k + 1].mem.Since(relay) == worlds[k].mem.Since(relay) {
      SameSinceStep(worlds, ops, k, relay);
    } else {
      assert UnsavedFrom(worlds, ops, k, k + 1, relay);
      assert Awaits(worlds, ops, k, k + 1, relay);
    }
  }

  lemma LoadStep(file: Option<File>, now: int, relay: Relay)
    ensures Loaded(file, now).mem.Since(relay) == FileSince(file, relay, now)
    ensures HoldsSince(file, Loaded(file, now), relay)
  {
  }

  lemma SinceStep(worlds: seq<World>, ops: seq<Op>, k: nat, relay: Relay)
    requires |worlds| == |ops| + 1 && k < |ops| && 0 <= worlds[k].clock && worlds[k].mem.Valid(worlds[k].clock)
    requires Accounted(worlds, ops, k, relay) && Later(worlds[k], ops[k]) && worlds[k + 1] == Next(worlds[k], ops[k])
    ensures Accounted(worlds, ops, k + 1, relay)
  {
    match ops[k]
    case OpMark(_, _, _, _) => MarkStep(worlds, ops, k, relay);
    case OpMarkSeen(_) => SameSinceStep(worlds, ops, k, relay);
    case OpSaveBegin => BeginStep(worlds, ops, k, relay);
    case OpSaveEnd(ok) =>
      if ok {
        EndStep(worlds, ops, k, relay);
      } else {
        SameSinceStep(worlds, ops, k, relay);
      }
    case OpLoad(now) => LoadStep(worlds[k].file, now, relay);
  }

  lemma ValidAt(worlds: seq<World>, ops: seq<Op>, k: nat)
    requires Run(worlds, ops) && k < |worlds|
    ensures worlds[k].mem.Valid(worlds[k].clock)
  {
    RunKeeps(worlds, ops, k);
  }

  lemma {:induction false} SinceAccounted(worlds: seq<World>, ops: seq<Op>, k: nat, relay: Relay)
    requires Run(worlds, ops) && k < |worlds| && FromNow(worlds)
    ensures Accounted(worlds, ops, k, relay)
  {
    if k == 0 {
      var file, now :| worlds[0] == Loaded(file, now);
      LoadStep(file, now, relay);
    } else {
      SinceAccounted(worlds, ops, k - 1, relay);
      ValidAt(worlds, ops, k - 1);
      ClockRises(worlds, ops, k - 1);
      SinceStep(worlds, ops, k - 1, relay);
    }
  }

  /** Across a run a relay's since falls only at a load that follows an advance no
      completed save had seen. */
  lemma {:induction false} SinceFallsOnlyAtUnsavedLoad(worlds: seq<World>, ops: seq<Op>, i: nat, j: nat, relay: Relay)
    requires Run(worlds, ops) && FromNow(worlds) && i <= j < |worlds|
    requires worlds[j].mem.Since(relay) < worlds[i].mem.Since(relay)
    ensures exists k, m :: i <= k < j && 0 <= m < k && ops[k].OpLoad? && UnsavedFrom(worlds, ops, m, k, relay)
              && worlds[k + 1].mem.Since(relay) < worlds[k].mem.Since(relay)
  {
    var k := j - 1;
    if worlds[j].mem.Since(relay) < worlds[k].mem.Since(relay) {
      RunKeeps(worlds, ops, k);
      ClockRises(worlds, ops, k);
      SinceAccounted(worlds, ops, k, relay);
      assert Later(worlds[k], ops[k]) && worlds[k + 1] == Next(worlds[k], ops[k]);
      SinceGoesBackIff(worlds[k], ops[k], relay);
      LoadFindsLater(worlds[k], ops[k].now, relay);
      assert !HoldsSince(worlds[k].file, worlds[k], relay);
      var m :| 0 <= m < k && Awaits(worlds, ops, m, k, relay);
    } else {
      SinceFallsOnlyAtUnsavedLoad(worlds, ops, i, k, relay);
    }
  }

  /** A file's since is no earlier at a later time. */
  lemma LoadFindsLater(w: World, now: int, relay: Relay)
    requires 0 <= w.clock <= now
    ensures FileSince(w.file, relay, w.clock) <= FileSince(w.file, relay, now)
  {
  }

  // ---------------------------------------------------- what a since stands for

  /** The op delivers a new event from the relay, dated `at` once cut at now. */
  ghost predicate Delivers(w: World, op: Op, relay: Relay, at: int) {
    && op.OpMark? && op.relay == relay && at == (if op.createdAt > op.now then op.now else op.createdAt)
    && op.id !in w.mem.order && op.id !in w.mem.onlyOrder
  }

  lemma SinceAfter(w: World, op: Op, relay: Relay)
    requires !op.OpLoad?
    ensures var now, was := Next(w, op).mem.Since(relay), w.mem.Since(relay);
            && was <= now
            && (now != was ==> Delivers(w, op, relay, now))
            && (forall at :: Delivers(w, op, relay, at) ==> at <= now)
  {
  }

  /** Between loads a relay's since is the latest of where it stood and the dates,
      cut at now, of the new events it delivered: none of them is later, and it is
      one of them if it moved. */
  lemma {:induction false} SinceIsLatest(worlds: seq<World>, ops: seq<Op>, i: nat, j: nat, relay: Relay)
    requires Run(worlds, ops) && i <= j < |worlds| && forall m :: i <= m < j ==> !ops[m].OpLoad?
    ensures worlds[i].mem.Since(relay) <= worlds[j].mem.Since(relay)
    ensures forall m, at :: i <= m < j && Delivers(worlds[m], ops[m], relay, at) ==> at <= worlds[j].mem.Since(relay)
    ensures worlds[j].mem.Since(relay) != worlds[i].mem.Since(relay) ==>
              exists m :: i <= m < j && Delivers(worlds[m], ops[m], relay, worlds[j].mem.Since(relay))
  {
    if i < j {
      SinceIsLatest(worlds, ops, i, j - 1, relay);
      SinceAfter(worlds[j - 1], ops[j - 1], relay);
      var was, now := worlds[j - 1].mem.Since(relay), worlds[j].mem.Since(relay);
      if now == was && was != worlds[i].mem.Since(relay) {
        var m :| i <= m < j - 1 && Delivers(worlds[m], ops[m], relay, was);
      }
    }
  }

  function MarkSeenAll(s: State, junk: seq<Id>): State
    decreases |junk|
  {
    if junk == [] then s else MarkSeenAll(s.MarkSeen(junk[0]), junk[1..])
  }

  /** However many ids are only seen, no delivered id is pushed out and no since
      moves. */
  lemma {:induction false} JunkEvictsNothing(s: State, junk: seq<Id>, now: int)
    requires s.Valid(now)
    ensures MarkSeenAll(s, junk).order == s.order && MarkSeenAll(s, junk).since == s.since
    decreases |junk|
  {
    if junk != [] {
      JunkEvictsNothing(s.MarkSeen(junk[0]), junk[1..], now);
    }
  }

  /** A delivered id stays known, and so is not delivered again, until MAX_SEEN
      further ids were delivered. */
  lemma DeliveredStaysKnown(w: World, i: nat)
    requires Inv(w) && i < |w.delivered| && |w.delivered| - i <= MAX_SEEN
    ensures w.mem.Known(w.delivered[i])
  {
    var all := w.loaded + w.delivered;
    var drop := if |all| <= MAX_SEEN then 0 else |all| - MAX_SEEN;
    assert w.mem.order[|w.loaded| + i - drop] == all[|w.loaded| + i] == w.delivered[i];
  }

  // ------------------------------------------------------------- as an object

  class Tracker {
    var seen: set<Id>
    var order: seq<Id>
    var only: set<Id>
    var onlyOrder: seq<Id>
    var since: map<Relay, int>
    var dirty: bool

    ghost function Value(): State
      reads this
    {
      State(order, onlyOrder, since, dirty)
    }

    ghost predicate Valid()
      reads this
    {
      && seen == (set id | id in order) && only == (set id | id in onlyOrder)
      && Fits(order, MAX_SEEN) && Fits(onlyOrder, MAX_SEEN_ONLY)
    }

    constructor ()
      ensures Valid() && Value() == State([], [], map[], false)
    {
      seen, order, only, onlyOrder, since, dirty := {}, [], {}, [], map[], false;
    }

    predicate Known(id: Id)
      requires Valid()
      reads this
      ensures Known(id) == Value().Known(id)
    {
      id in seen || id in only
    }

    method Add(id: Id)
      requires Valid()
      modifies this`seen, this`order
      ensures Valid() && order == Insert(old(order), id, MAX_SEEN)
    {
      if id in seen {
        return;
      }
      InsertFits(order, id, MAX_SEEN);
      seen := seen + {id};
      order := order + [id];
      if |order| > MAX_SEEN {
        DropFirst(order);
        seen := seen - {order[0]};
        order := order[1..];
      }
    }

    method AddOnly(id: Id)
      requires Valid()
      modifies this`only, this`onlyOrder
      ensures Valid() && Value() == old(Value()).AddOnly(id)
    {
      if id in seen || id in only {
        return;
      }
      InsertFits(onlyOrder, id, MAX_SEEN_ONLY);
      only := only + {id};
      onlyOrder := onlyOrder + [id];
      if |onlyOrder| > MAX_SEEN_ONLY {
        DropFirst(onlyOrder);
        only := only - {onlyOrder[0]};
        onlyOrder := onlyOrder[1..];
      }
    }

    method Mark(id: Id, relay: Relay, createdAt: int, now: int) returns (isNew: bool)
      requires Valid()
      modifies this
      ensures Valid() && Value() == old(Value()).Mark(id, relay, createdAt, now)
      ensures isNew == !old(Value()).Known(id)
    {
      if Known(id) {
        return false;
      }
      Add(id);
      var at := if createdAt > now then now else createdAt;
      if at > (if relay in since then since[relay] else 0) {
        since := since[relay := at];
      }
      dirty := true;
      isNew := true;
    }

    method MarkSeen(id: Id) returns (isNew: bool)
      requires Valid()
      modifies this
      ensures Valid() && Value() == old(Value()).MarkSeen(id)
      ensures isNew == !old(Value()).Known(id)
    {
      if Known(id) {
        return false;
      }
      AddOnly(id);
      dirty := true;
      isNew := true;
    }

    /** The locked part of Save: what to write, if anything changed. */
    method BeginSave() returns (file: Option<File>)
      modifies this`dirty
      ensures file == if old(dirty) then Some(old(Value()).Snapshot()) else None
      ensures Value() == old(Value()).(dirty := false)
    {
      if !dirty {
        return None;
      }
      file := Some(File(order, onlyOrder, since));
      dirty := false;
    }

    /** The write failed: try again on the next Save. */
    method SaveFailed()
      modifies this`dirty
      ensures Value() == old(Value()).(dirty := true)
    {
      dirty := true;
    }
  }

  /** LoadFollowState. */
  method LoadFollowState(file: Option<File>, now: int) returns (t: Tracker)
    ensures fresh(t) && t.Valid() && t.Value() == Load(file, now)
  {
    t := new Tracker();
    if file.None? {
      return;
    }
    var f := file.value;
    for i := 0 to |f.seen|
      invariant t.Valid() && t.onlyOrder == [] && t.since == map[] && !t.dirty
      invariant InsertAll(t.order, f.seen[i..], MAX_SEEN) == InsertAll([], f.seen, MAX_SEEN)
    {
      assert f.seen[i..][1..] == f.seen[i + 1..];
      t.Add(f.seen[i]);
    }
    ghost var base := t.Value();
    for i := 0 to |f.seenOnly|
      invariant t.Valid() && t.since == map[] && !t.dirty
      invariant AddOnlyAll(t.Value(), f.seenOnly[i..]) == AddOnlyAll(base, f.seenOnly)
    {
      assert f.seenOnly[i..][1..] == f.seenOnly[i + 1..];
      t.AddOnly(f.seenOnly[i]);
    }
    ghost var lists := t.Value();
    var left := f.since.Keys;
    while left != {}
      invariant left <= f.since.Keys
      invariant t.Valid() && t.order == lists.order && t.onlyOrder == lists.onlyOrder
      invariant t.since == map r | r in f.since && r !in left && f.since[r] <= now :: f.since[r]
      invariant t.dirty <==> exists r :: r in f.since && r !in left && f.since[r] > now
      decreases left
    {
      var r :| r in left;
      left := left - {r};
      if f.since[r] > now {
        t.dirty := true;
      } else {
        t.since := t.since[r := f.since[r]];
      }
    }
  }
}
