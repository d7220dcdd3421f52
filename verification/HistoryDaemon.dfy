/** The daemon's side of the history: each resolution, signature and restart
    keeps the bounded tail in memory equal to what the log replays to. */
module HistoryDaemon {
  import opened Common
  import opened HistoryLog

  datatype State = State(log: seq<Record>, sinceCompact: nat, tail: seq<HistoryEntry>) {

    /** The tail in memory is what a restart would rebuild from the log. */
    ghost predicate Mirror() {
      LastN(Rebuilt(log), MAX_TAIL) == tail
    }

    ghost predicate Inv() {
      && Mirror()
      && ResolvedLines(log) == |Rebuilt(log)| <= MAX_TAIL + sinceCompact
      && sinceCompact <= MAX_TAIL
    }

    // ------------------------------------------------------------ the steps

    function RecordAdded(p: Pending): State {
      this.(log := log + [Added(p)])
    }

    predicate CompactsNext() {
      sinceCompact + 1 >= MAX_TAIL
    }

    function RecordHistory(h: HistoryEntry): State {
      var tail' := LastN(tail + [h], MAX_TAIL);
      if CompactsNext() then State(Compacted(tail'), 0, tail')
      else State(log + [Resolved(h)], sinceCompact + 1, tail')
    }

    function RecordSigned(id: Id, ev: Event): State {
      if HasId(tail, id) then State(log + [Signed(id, ev)], sinceCompact, PatchLast(tail, id, ev)) else this
    }

    /** LoadEventLog on this log, folding the leftovers in the order `ids`. */
    function Restart(ids: seq<Id>, now: int): State
      requires forall id :: id in ids ==> id in ReplayLog(log).pending
    {
      var expired := ExpireAll(ReplayLog(log).pending, ids, now);
      var out := Rebuilt(log) + expired;
      if |out| > MAX_TAIL then State(Compacted(LastN(out, MAX_TAIL)), 0, LastN(out, MAX_TAIL))
      else State(log + Compacted(expired), |ids|, out)
    }

    /** When a resolution keeps the mirror: its id is not in the log, or this
        very resolution compacts the log and its id is not in what stays of the
        tail. */
    predicate Resolvable(h: HistoryEntry) {
      || !HasId(Rebuilt(log), h.id)
      || (CompactsNext() && !HasId(LastN(tail, MAX_TAIL - 1), h.id))
    }
  }

  /** recordSignedEvent patches the newest entry with that id. */
  function PatchLast(es: seq<HistoryEntry>, id: Id, ev: Event): (r: seq<HistoryEntry>)
    ensures |r| == |es|
  {
    if es == [] then []
    else
      var n := |es| - 1;
      if es[n].id == id then es[n := es[n].(event := Some(ev))]
      else PatchLast(es[..n], id, ev) + [es[n]]
  }

  function Expire(p: Pending, now: int): HistoryEntry {
    HistoryEntry(p.id, p.clientKey, p.methodName, p.kind, p.createdAt, now, Deny, false, false, true, None)
  }

  function ExpireAll(pending: map<Id, Pending>, ids: seq<Id>, now: int): seq<HistoryEntry>
    requires forall id :: id in ids ==> id in pending
  {
    seq(|ids|, i requires 0 <= i < |ids| => assert ids[i] in ids; Expire(pending[ids[i]], now))
  }

  /** An order LoadEventLog may fold the leftovers in: all of them, once each,
      oldest first. Ties come in any order, as a map is iterated. */
  ghost predicate LeftoverOrder(pending: map<Id, Pending>, ids: seq<Id>) {
    && NoDup(ids)
    && (forall id :: id in ids <==> id in pending)
    && OldestFirst(pending, ids)
  }

  ghost predicate OldestFirst(pending: map<Id, Pending>, ids: seq<Id>)
    requires forall id :: id in ids ==> id in pending
  {
    forall i, j :: 0 <= i < j < |ids| ==> pending[ids[i]].createdAt <= pending[ids[j]].createdAt
  }

  // ------------------------------------------------------------- sequences

  lemma LastNSnoc<T>(s: seq<T>, x: T, n: nat)
    requires n > 0
    ensures LastN(s + [x], n) == LastN(LastN(s, n) + [x], n)
    ensures LastN(s + [x], n) == LastN(s, n - 1) + [x]
    ensures LastN(s, n - 1) == LastN(LastN(s, n), n - 1)
  {
  }

  lemma {:induction false} PatchLastIsPatch(es: seq<HistoryEntry>, id: Id, ev: Event)
    requires DistinctIds(es)
    ensures PatchLast(es, id, ev) == Patch(es, id, ev)
  {
    if es != [] {
      PatchLastIsPatch(es[..|es| - 1], id, ev);
    }
  }

  // ------------------------------------------------- what every step keeps

  lemma AddedKeeps(s: State, p: Pending)
    requires s.Inv()
    ensures s.RecordAdded(p).Inv()
  {
    ReplayAppend(s.log, Added(p));
    ResolvedLinesAppend(s.log, Added(p));
  }

  lemma SignedKeeps(s: State, id: Id, ev: Event)
    requires s.Inv()
    ensures s.RecordSigned(id, ev).Inv()
  {
    if HasId(s.tail, id) {
      ReplayAppend(s.log, Signed(id, ev));
      ResolvedLinesAppend(s.log, Signed(id, ev));
      ReplayValid(s.log);
      PatchLastIsPatch(s.tail, id, ev);
    }
  }

  lemma SnocDistinct(es: seq<HistoryEntry>, h: HistoryEntry)
    requires DistinctIds(es)
    ensures DistinctIds(es + [h]) <==> !HasId(es, h.id)
  {
    if HasId(es, h.id) {
      var i :| 0 <= i < |es| && es[i].id == h.id;
      assert (es + [h])[i].id == (es + [h])[|es|].id;
    }
  }

  /** The tail a resolution leaves holds its ids once each exactly when the new
      id is not among those that stay. */
  lemma TailAfter(s: State, h: HistoryEntry)
    requires s.Inv()
    ensures LastN(s.tail + [h], MAX_TAIL) == LastN(s.tail, MAX_TAIL - 1) + [h]
    ensures DistinctIds(LastN(s.tail, MAX_TAIL - 1))
    ensures DistinctIds(LastN(s.tail + [h], MAX_TAIL)) <==> !HasId(LastN(s.tail, MAX_TAIL - 1), h.id)
  {
    ReplayValid(s.log);
    LastNSnoc(s.tail, h, MAX_TAIL);
    SnocDistinct(LastN(s.tail, MAX_TAIL - 1), h);
  }

  /** A resolution keeps the mirror and the bound, and leaves fewer than twice
      MAX_TAIL resolved lines. */
  lemma ResolvedKeeps(s: State, h: HistoryEntry)
    requires s.Inv() && s.Resolvable(h)
    ensures s.RecordHistory(h).Inv()
    ensures ResolvedLines(s.RecordHistory(h).log) < 2 * MAX_TAIL
  {
    TailAfter(s, h);
    var tail' := LastN(s.tail + [h], MAX_TAIL);
    if s.CompactsNext() {
      FreshNotInTailOf(s, h);
      ReplayCompacted(tail');
    } else {
      ReplayAppend(s.log, Resolved(h));
      ResolvedLinesAppend(s.log, Resolved(h));
      LastNSnoc(Rebuilt(s.log), h, MAX_TAIL);
    }
  }

  lemma FreshNotInTailOf(s: State, h: HistoryEntry)
    requires s.Inv() && s.Resolvable(h) && s.CompactsNext()
    ensures !HasId(LastN(s.tail, MAX_TAIL - 1), h.id)
  {
  }

  /** Replacing an entry in place can never look like dropping the oldest and
      appending: the tail would be one shorter, or hold an id twice. */
  lemma InPlaceDiffers(es: seq<HistoryEntry>, h: HistoryEntry)
    requires DistinctIds(es) && HasId(es, h.id)
    ensures LastN(Put(es, h), MAX_TAIL) != LastN(LastN(es, MAX_TAIL) + [h], MAX_TAIL)
  {
    var left, right := LastN(Put(es, h), MAX_TAIL), LastN(LastN(es, MAX_TAIL) + [h], MAX_TAIL);
    if |es| >= MAX_TAIL {
      var k := |es| - MAX_TAIL;
      assert left[0].id == es[k].id;
      assert right[0].id == es[k + 1].id;
    }
  }

  /** Exactly when a resolution keeps the mirror. */
  lemma MirrorKeptIff(s: State, h: HistoryEntry)
    requires s.Inv()
    ensures s.RecordHistory(h).Mirror() <==> s.Resolvable(h)
  {
    if s.Resolvable(h) {
      ResolvedKeeps(s, h);
    } else if s.CompactsNext() {
      TailAfter(s, h);
      ReplayValid(s.RecordHistory(h).log);
    } else {
      ReplayAppend(s.log, Resolved(h));
      ReplayValid(s.log);
      InPlaceDiffers(Rebuilt(s.log), h);
    }
  }

  /** A request id resolved a second time splits the two, on a concrete run. */
  lemma RepeatedIdBreaksMirror()
    ensures exists s: State, h: HistoryEntry :: s.Inv() && !s.RecordHistory(h).Mirror()
  {
    var h := Expire(Pending("a", "", "", 0, 0, None), 0);
    var s0 := State([], 0, []);
    ResolvedKeeps(s0, h);
    var s := s0.RecordHistory(h);
    ReplayAppend([], Resolved(h));
    assert s.log == [] + [Resolved(h)];
    assert Rebuilt(s.log) == [h];
    assert Rebuilt(s.log)[0].id == h.id;
    MirrorKeptIff(s, h);
  }

  // ---------------------------------------------------------------- restart

  lemma LeftoversFresh(log: seq<Record>, ids: seq<Id>, now: int)
    requires LeftoverOrder(ReplayLog(log).pending, ids)
    ensures DistinctIds(ExpireAll(ReplayLog(log).pending, ids, now))
    ensures forall h :: h in ExpireAll(ReplayLog(log).pending, ids, now) ==> !HasId(Rebuilt(log), h.id)
    ensures Ids(ExpireAll(ReplayLog(log).pending, ids, now)) == ReplayLog(log).pending.Keys
  {
    ReplayValid(log);
    var pending := ReplayLog(log).pending;
    var es := ExpireAll(pending, ids, now);
    forall i | 0 <= i < |es| ensures es[i].id == ids[i] && ids[i] in pending && !HasId(Rebuilt(log), es[i].id) {
      assert ids[i] in ids;
    }
    forall id | id in pending ensures id in Ids(es) {
      var i :| 0 <= i < |ids| && ids[i] == id;
      assert es[i].id == id;
    }
  }

  /** A restart rebuilds the last MAX_TAIL of the old history followed by every
      leftover, once, as an expired denial; and leaves nothing pending. */
  lemma RestartFolds(s: State, ids: seq<Id>, now: int)
    requires LeftoverOrder(ReplayLog(s.log).pending, ids)
    ensures s.Restart(ids, now).tail ==
            LastN(Rebuilt(s.log) + ExpireAll(ReplayLog(s.log).pending, ids, now), MAX_TAIL)
    ensures s.Restart(ids, now).Mirror()
    ensures ReplayLog(s.Restart(ids, now).log).pending == map[]
    ensures ResolvedLines(s.log) == |Rebuilt(s.log)| ==> s.Restart(ids, now).Inv()
    ensures |Rebuilt(s.Restart(ids, now).log)| <= MAX_TAIL
  {
    var pending := ReplayLog(s.log).pending;
    var es := ExpireAll(pending, ids, now);
    LeftoversFresh(s.log, ids, now);
    ReplayResolvedRun(s.log, es);
    assert pending - Ids(es) == map[];
    var out := Rebuilt(s.log) + es;
    if |out| > MAX_TAIL {
      ReplayValid(s.log + Compacted(es));
      ReplayCompacted(LastN(out, MAX_TAIL));
    }
  }

  lemma NothingInside(ids: seq<Id>)
    ensures (forall id :: id !in ids) ==> ids == []
  {
    if ids != [] {
      assert ids[0] in ids;
    }
  }

  /** A second restart with nothing in between finds no leftovers and returns
      the same history and the same log. */
  lemma SecondRestartSame(s: State, ids: seq<Id>, now: int, ids': seq<Id>, now': int)
    requires LeftoverOrder(ReplayLog(s.log).pending, ids)
    requires LeftoverOrder(ReplayLog(s.Restart(ids, now).log).pending, ids')
    ensures ids' == []
    ensures s.Restart(ids, now).Restart(ids', now').tail == s.Restart(ids, now).tail
    ensures s.Restart(ids, now).Restart(ids', now').log == s.Restart(ids, now).log
  {
    RestartFolds(s, ids, now);
    var s1 := s.Restart(ids, now);
    NothingInside(ids');
    RestartFolds(s1, ids', now');
    assert s1.log + Compacted([]) == s1.log;
    assert Rebuilt(s1.log) + [] == Rebuilt(s1.log);
  }

  // ------------------------------------------- what a crash leaves to be found

  /** What happens in a daemon between two starts. */
  datatype Live = LiveAdded(p: Pending) | LiveResolved(h: HistoryEntry) | LiveSigned(id: Id, ev: Event)

  function Carry(s: State, op: Live): State {
    match op
    case LiveAdded(p) => s.RecordAdded(p)
    case LiveResolved(h) => s.RecordHistory(h)
    case LiveSigned(id, ev) => s.RecordSigned(id, ev)
  }

  function CarryAll(s: State, ops: seq<Live>): State
    decreases |ops|
  {
    if ops == [] then s else CarryAll(Carry(s, ops[0]), ops[1..])
  }

  /** Some resolution of the run rewrites the log. */
  predicate Compacts(s: State, ops: seq<Live>)
    decreases |ops|
  {
    ops != [] && ((ops[0].LiveResolved? && s.CompactsNext()) || Compacts(Carry(s, ops[0]), ops[1..]))
  }

  /** The run neither adds nor resolves `id`. */
  predicate LeavesAlone(ops: seq<Live>, id: Id) {
    forall k :: 0 <= k < |ops| ==>
      match ops[k]
      case LiveAdded(p) => p.id != id
      case LiveResolved(h) => h.id != id
      case LiveSigned(_, _) => true
  }

  lemma {:induction false} CompactedNothingPending(es: seq<HistoryEntry>)
    ensures ReplayLog(Compacted(es)).pending == map[]
  {
    if es != [] {
      var front, last := es[..|es| - 1], es[|es| - 1];
      CompactedNothingPending(front);
      assert Compacted(es) == Compacted(front) + [Resolved(last)];
      ReplayAppend(Compacted(front), Resolved(last));
    }
  }

  /** One operation on other ids: a request stays pending in the log unless the
      operation rewrites it, and one that is not pending does not become so. */
  lemma CarryPending(s: State, op: Live, id: Id)
    requires LeavesAlone([op], id)
    ensures var before, after := ReplayLog(s.log).pending, ReplayLog(Carry(s, op).log).pending;
            if op.LiveResolved? && s.CompactsNext() then id !in after
            else (id in after <==> id in before) && (id in before ==> after[id] == before[id])
  {
    assert [op][0] == op;
    match op
    case LiveAdded(p) => ReplayAppend(s.log, Added(p));
    case LiveResolved(h) =>
      if s.CompactsNext() {
        CompactedNothingPending(LastN(s.tail + [h], MAX_TAIL));
      } else {
        ReplayAppend(s.log, Resolved(h));
      }
    case LiveSigned(x, ev) => ReplayAppend(s.log, Signed(x, ev));
  }

  lemma {:induction false} RunPending(s: State, ops: seq<Live>, id: Id)
    requires LeavesAlone(ops, id)
    ensures var before, after := ReplayLog(s.log).pending, ReplayLog(CarryAll(s, ops).log).pending;
            (id in after <==> id in before && !Compacts(s, ops)) && (id in after ==> after[id] == before[id])
    decreases |ops|
  {
    if ops != [] {
      assert LeavesAlone([ops[0]], id);
      CarryPending(s, ops[0], id);
      RunPending(Carry(s, ops[0]), ops[1..], id);
    }
  }

  /** A request that was added, and is neither resolved nor added again before a
      crash, is found and folded in by the next start exactly when no compaction
      came after its Added line: the rewritten log holds resolved lines only. */
  lemma FoundIffNotCompacted(s: State, p: Pending, ops: seq<Live>, ids: seq<Id>, now: int)
    requires !HasId(Rebuilt(s.log), p.id) && LeavesAlone(ops, p.id)
    requires LeftoverOrder(ReplayLog(CarryAll(s.RecordAdded(p), ops).log).pending, ids)
    ensures var s1 := s.RecordAdded(p);
            var s2 := CarryAll(s1, ops);
            (p.id in ids <==> !Compacts(s1, ops))
            && (p.id in ids ==> Expire(p, now) in ExpireAll(ReplayLog(s2.log).pending, ids, now))
  {
    var s1 := s.RecordAdded(p);
    var s2 := CarryAll(s1, ops);
    ReplayAppend(s.log, Added(p));
    RunPending(s1, ops, p.id);
    if p.id in ids {
      var i :| 0 <= i < |ids| && ids[i] == p.id;
      assert ExpireAll(ReplayLog(s2.log).pending, ids, now)[i] == Expire(p, now);
    }
  }

  /** Compactions come: any resolution is the one that rewrites the log once
      MAX_TAIL - 1 others came since the last. */
  lemma CompactionLosesWaiting(s: State, p: Pending, h: HistoryEntry)
    requires !HasId(Rebuilt(s.log), p.id) && h.id != p.id && s.sinceCompact + 1 == MAX_TAIL
    ensures p.id in ReplayLog(s.RecordAdded(p).log).pending
    ensures p.id !in ReplayLog(s.RecordAdded(p).RecordHistory(h).log).pending
  {
    ReplayAppend(s.log, Added(p));
    CarryPending(s.RecordAdded(p), LiveResolved(h), p.id);
  }

  // ------------------------------------------------------------- whole runs

  datatype Op =
    | OpAdded(p: Pending)
    | OpResolved(h: HistoryEntry)
    | OpSigned(id: Id, ev: Event)
    | OpRestart(ids: seq<Id>, now: int)

  ghost predicate Admissible(s: State, op: Op) {
    match op
    case OpAdded(_) => true
    case OpResolved(h) => s.Resolvable(h)
    case OpSigned(_, _) => true
    case OpRestart(ids, _) => LeftoverOrder(ReplayLog(s.log).pending, ids)
  }

  ghost function Step(s: State, op: Op): State
    requires Admissible(s, op)
  {
    match op
    case OpAdded(p) => s.RecordAdded(p)
    case OpResolved(h) => s.RecordHistory(h)
    case OpSigned(id, ev) => s.RecordSigned(id, ev)
    case OpRestart(ids, now) => s.Restart(ids, now)
  }

  const Empty := State([], 0, [])

  /** `states` is the run of `ops` from an empty log. */
  ghost predicate Run(states: seq<State>, ops: seq<Op>) {
    && |states| == |ops| + 1
    && states[0] == Empty
    && forall i :: 0 <= i < |ops| ==> Admissible(states[i], ops[i]) && states[i + 1] == Step(states[i], ops[i])
  }

  /** At every point of every run the tail is what the log replays to, and
      after each resolution the log holds fewer than 2 * MAX_TAIL resolved
      lines. */
  lemma {:induction false} RunMirrors(states: seq<State>, ops: seq<Op>, k: nat)
    requires Run(states, ops) && k < |states|
    ensures states[k].Inv()
    ensures k > 0 && ops[k - 1].OpResolved? ==> ResolvedLines(states[k].log) < 2 * MAX_TAIL
  {
    if k > 0 {
      RunMirrors(states, ops, k - 1);
      var s := states[k - 1];
      match ops[k - 1]
      case OpAdded(p) => AddedKeeps(s, p);
      case OpResolved(h) => ResolvedKeeps(s, h);
      case OpSigned(id, ev) => SignedKeeps(s, id, ev);
      case OpRestart(ids, now) => RestartFolds(s, ids, now);
    }
  }

  // ------------------------------------------- the log and daemon as objects

  /** The in-memory order and lookup table of the replay loop stand for the
      list of entries. */
  ghost predicate Represents(order: seq<Id>, history: map<Id, HistoryEntry>, es: seq<HistoryEntry>) {
    && |order| == |es|
    && (forall i :: 0 <= i < |es| ==> order[i] == es[i].id && order[i] in history && history[order[i]] == es[i])
    && (forall id :: id in history ==> HasId(es, id))
  }

  lemma RepresentsPut(order: seq<Id>, history: map<Id, HistoryEntry>, es: seq<HistoryEntry>, h: HistoryEntry)
    requires Represents(order, history, es)
    ensures Represents(if h.id in history then order else order + [h.id], history[h.id := h], Put(es, h))
  {
    var es', history' := Put(es, h), history[h.id := h];
    forall id | id in history' ensures HasId(es', id) {
      if HasId(es, id) {
        var i :| 0 <= i < |es| && es[i].id == id;
        assert es'[i].id == id;
      } else {
        assert es'[|es|].id == h.id;
      }
    }
  }

  lemma RepresentsPatch(order: seq<Id>, history: map<Id, HistoryEntry>, es: seq<HistoryEntry>, id: Id, ev: Event)
    requires Represents(order, history, es)
    ensures id in history ==> Represents(order, history[id := history[id].(event := Some(ev))], Patch(es, id, ev))
    ensures id !in history ==> Patch(es, id, ev) == es
  {
    forall id' | id' in history ensures HasId(Patch(es, id, ev), id') {
      var i :| 0 <= i < |es| && es[i].id == id';
      assert Patch(es, id, ev)[i].id == id';
    }
  }

  /** The replay loop of LoadEventLog. */
  method ReplayRecords(log: seq<Record>)
    returns (pending: map<Id, Pending>, out: seq<HistoryEntry>)
    ensures Replay(pending, out) == ReplayLog(log)
  {
    pending := map[];
    var history: map<Id, HistoryEntry> := map[];
    var order: seq<Id> := [];
    for k := 0 to |log|
      invariant pending == ReplayLog(log[..k]).pending
      invariant Represents(order, history, Rebuilt(log[..k]))
    {
      ghost var st := ReplayLog(log[..k]);
      assert log[..k + 1] == log[..k] + [log[k]];
      ReplayAppend(log[..k], log[k]);
      match log[k] {
        case Added(p) =>
          if p.id !in history {
            pending := pending[p.id := p];
          }
        case Resolved(h) =>
          RepresentsPut(order, history, st.entries, h);
          pending := pending - {h.id};
          if h.id !in history {
            order := order + [h.id];
          }
          history := history[h.id := h];
        case Signed(id, ev) =>
          RepresentsPatch(order, history, st.entries, id, ev);
          if id in history {
            history := history[id := history[id].(event := Some(ev))];
          }
      }
    }
    assert log[..|log|] == log;
    out := [];
    for k := 0 to |order|
      invariant out == Rebuilt(log)[..k]
    {
      out := out + [history[order[k]]];
    }
  }

  function InsertAt<T>(s: seq<T>, k: nat, x: T): (r: seq<T>)
    requires k <= |s|
    ensures |r| == |s| + 1
    ensures forall i {:trigger r[i]} :: 0 <= i < |r| ==> r[i] == if i < k then s[i] else if i == k then x else s[i - 1]
  {
    s[..k] + [x] + s[k..]
  }

  lemma InsertAtFacts<T(!new)>(s: seq<T>, k: nat, x: T)
    requires k <= |s| && NoDup(s) && x !in s
    ensures NoDup(InsertAt(s, k, x))
    ensures forall y :: y in InsertAt(s, k, x) <==> y in s || y == x
  {
    assert s == s[..k] + s[k..];
  }

  /** Puts `id` into its place among ids already in order. */
  method InsertOldestFirst(pending: map<Id, Pending>, ids: seq<Id>, id: Id) returns (r: seq<Id>)
    requires forall x :: x in ids ==> x in pending
    requires id in pending && id !in ids && NoDup(ids) && OldestFirst(pending, ids)
    ensures forall x :: x in r <==> x in ids || x == id
    ensures NoDup(r) && OldestFirst(pending, r)
  {
    var k := 0;
    while k < |ids| && pending[ids[k]].createdAt <= pending[id].createdAt
      invariant 0 <= k <= |ids|
      invariant forall i :: 0 <= i < k ==> pending[ids[i]].createdAt <= pending[id].createdAt
    {
      k := k + 1;
    }
    InsertAtFacts(ids, k, id);
    r := InsertAt(ids, k, id);
  }

  /** The leftovers, oldest first. */
  method SortLeftovers(pending: map<Id, Pending>) returns (ids: seq<Id>)
    ensures LeftoverOrder(pending, ids)
  {
    ids := [];
    var left := pending.Keys;
    while left != {}
      invariant left <= pending.Keys
      invariant forall id :: id in ids <==> id in pending && id !in left
      invariant NoDup(ids) && OldestFirst(pending, ids)
      decreases left
    {
      var id :| id in left;
      ids := InsertOldestFirst(pending, ids, id);
      left := left - {id};
    }
  }

  class EventLog {
    var records: seq<Record>
    var resolvedSinceCompact: nat

    constructor (records: seq<Record>)
      ensures this.records == records && resolvedSinceCompact == 0
    {
      this.records := records;
      resolvedSinceCompact := 0;
    }

    method AppendAdded(p: Pending)
      modifies this`records
      ensures records == old(records) + [Added(p)]
    {
      records := records + [Added(p)];
    }

    method AppendResolved(h: HistoryEntry)
      modifies this
      ensures records == old(records) + [Resolved(h)]
      ensures resolvedSinceCompact == old(resolvedSinceCompact) + 1
    {
      records := records + [Resolved(h)];
      resolvedSinceCompact := resolvedSinceCompact + 1;
    }

    method AppendSigned(id: Id, ev: Event)
      modifies this`records
      ensures records == old(records) + [Signed(id, ev)]
    {
      records := records + [Signed(id, ev)];
    }

    predicate CompactDue()
      reads this
    {
      resolvedSinceCompact >= MAX_TAIL
    }

    /** Rewrites the log, through a temporary file, to the given entries. */
    method Compact(entries: seq<HistoryEntry>)
      modifies this
      ensures records == Compacted(entries) && resolvedSinceCompact == 0
    {
      var tmp: seq<Record> := [];
      for i := 0 to |entries|
        invariant tmp == Compacted(entries[..i])
      {
        tmp := tmp + [Resolved(entries[i])];
      }
      assert entries[..|entries|] == entries;
      records := tmp;
      resolvedSinceCompact := 0;
    }
  }

  /** LoadEventLog: replay, fold the leftovers in, compact if that is more than
      the tail holds. */
  method LoadEventLog(file: seq<Record>, now: int)
    returns (l: EventLog, out: seq<HistoryEntry>, ghost ids: seq<Id>)
    ensures fresh(l)
    ensures LeftoverOrder(ReplayLog(file).pending, ids)
    ensures State(l.records, l.resolvedSinceCompact, out) == State(file, 0, []).Restart(ids, now)
  {
    var pending, history := ReplayRecords(file);
    out := history;
    l := new EventLog(file);
    var leftovers := SortLeftovers(pending);
    ids := leftovers;
    ghost var expired := ExpireAll(pending, ids, now);
    for i := 0 to |leftovers|
      invariant l.records == file + Compacted(expired[..i])
      invariant l.resolvedSinceCompact == i
      invariant out == Rebuilt(file) + expired[..i]
    {
      assert leftovers[i] in leftovers;
      var h := Expire(pending[leftovers[i]], now);
      l.AppendResolved(h);
      out := out + [h];
    }
    assert expired[..|expired|] == expired;
    if |out| > MAX_TAIL {
      out := out[|out| - MAX_TAIL..];
      l.Compact(out);
    }
  }

  lemma HistoryKept(s: State, h: HistoryEntry)
    ensures s.Inv() && s.Resolvable(h) ==> s.RecordHistory(h).Inv() && ResolvedLines(s.RecordHistory(h).log) < 2 * MAX_TAIL
  {
    if s.Inv() && s.Resolvable(h) {
      ResolvedKeeps(s, h);
    }
  }

  class Daemon {
    const eventLog: EventLog
    var historyTail: seq<HistoryEntry>

    ghost function Snapshot(): State
      reads this, eventLog
    {
      State(eventLog.records, eventLog.resolvedSinceCompact, historyTail)
    }

    constructor (eventLog: EventLog, initialHistory: seq<HistoryEntry>)
      ensures this.eventLog == eventLog && historyTail == initialHistory
    {
      this.eventLog := eventLog;
      historyTail := initialHistory;
    }

    method RecordAdded(p: Pending)
      modifies eventLog
      ensures Snapshot() == old(Snapshot()).RecordAdded(p)
    {
      eventLog.AppendAdded(p);
    }

    method RecordHistory(h: HistoryEntry)
      modifies this, eventLog
      ensures Snapshot() == old(Snapshot()).RecordHistory(h)
      ensures old(Snapshot()).Inv() && old(Snapshot()).Resolvable(h) ==>
                Snapshot().Inv() && ResolvedLines(eventLog.records) < 2 * MAX_TAIL
    {
      ghost var before := Snapshot();
      eventLog.AppendResolved(h);
      historyTail := historyTail + [h];
      if |historyTail| > MAX_TAIL {
        historyTail := historyTail[|historyTail| - MAX_TAIL..];
      }
      if eventLog.CompactDue() {
        eventLog.Compact(historyTail);
      }
      HistoryKept(before, h);
    }

    /** A decided request becomes an entry with what was decided, dated now. */
    method RecordResolved(p: Pending, verdict: Decision, remembered: bool, expired: bool, autoApproved: bool, now: int)
      modifies this, eventLog
      ensures Snapshot() == old(Snapshot()).RecordHistory(HistoryEntry(
                id := p.id, clientKey := p.clientKey, methodName := p.methodName, kind := p.kind, createdAt := p.createdAt,
                resolvedAt := now, verdict := verdict, remembered := remembered, autoApproved := autoApproved,
                expired := expired, event := p.event))
    {
      var h := HistoryEntry(p.id, p.clientKey, p.methodName, p.kind, p.createdAt, now,
                            verdict, remembered, autoApproved, expired, p.event);
      RecordHistory(h);
    }

    /** A request a standing grant allowed. */
    method RecordAutoApproved(p: Pending, now: int)
      modifies this, eventLog
      ensures Snapshot() == old(Snapshot()).RecordHistory(HistoryEntry(
                id := p.id, clientKey := p.clientKey, methodName := p.methodName, kind := p.kind, createdAt := p.createdAt,
                resolvedAt := now, verdict := Allow, remembered := false, autoApproved := true, expired := false, event := p.event))
    {
      RecordResolved(p, Allow, false, false, true, now);
    }

    method RecordSignedEvent(id: Id, ev: Event)
      modifies this, eventLog
      ensures Snapshot() == old(Snapshot()).RecordSigned(id, ev)
      ensures old(Snapshot()).Inv() ==> Snapshot().Inv()
    {
      ghost var before := Snapshot();
      if before.Inv() {
        SignedKeeps(before, id, ev);
      }
      var i := |historyTail| - 1;
      while i >= 0 && historyTail[i].id != id
        invariant -1 <= i < |historyTail|
        invariant forall j :: i < j < |historyTail| ==> historyTail[j].id != id
      {
        i := i - 1;
      }
      PatchLastAt(historyTail, id, ev, i);
      if i >= 0 {
        historyTail := historyTail[i := historyTail[i].(event := Some(ev))];
        eventLog.AppendSigned(id, ev);
      }
    }
  }

  lemma {:induction false} PatchLastAt(es: seq<HistoryEntry>, id: Id, ev: Event, i: int)
    requires -1 <= i < |es|
    requires forall j :: i < j < |es| ==> es[j].id != id
    requires i >= 0 ==> es[i].id == id
    ensures i >= 0 <==> HasId(es, id)
    ensures i >= 0 ==> PatchLast(es, id, ev) == es[i := es[i].(event := Some(ev))]
  {
    if 0 <= i < |es| - 1 {
      PatchLastAt(es[..|es| - 1], id, ev, i);
    }
  }
}
