/** What the bunker's history holds, said from the operations alone: the tail is
    what was recorded, in order, with the events signed since. */
module HistoryJournal {
  import opened Common
  import opened HistoryLog
  import opened HistoryDaemon

  /** An entry given to the history, and which operation gave it. */
  datatype Item = Item(given: HistoryEntry, at: nat)

  /** The request of the last Added operation for an id. */
  function LastAdded(ops: seq<Op>, id: Id): Option<Pending> {
    if ops == [] then None
    else
      var op := ops[|ops| - 1];
      if op.OpAdded? && op.p.id == id then Some(op.p) else LastAdded(ops[..|ops| - 1], id)
  }

  /** A request nobody answered, as a start records it. */
  function Unanswered(p: Pending, start: int): HistoryEntry {
    HistoryEntry(
      id := p.id, clientKey := p.clientKey, methodName := p.methodName, kind := p.kind, createdAt := p.createdAt,
      resolvedAt := start, verdict := Deny, remembered := false, autoApproved := false, expired := true, event := None)
  }

  const NoRequest := Pending("", "", "", 0, 0, None)

  function Folded(ops: seq<Op>, ids: seq<Id>, start: int): (r: seq<Item>)
    ensures |r| == |ids|
  {
    seq(|ids|, i requires 0 <= i < |ids| =>
      var p := LastAdded(ops, ids[i]);
      Item(Unanswered(if p.Some? then p.value else NoRequest, start), |ops|))
  }

  /** What one operation gives the history. */
  function Gives(ops: seq<Op>, op: Op): seq<Item> {
    match op
    case OpResolved(h) => [Item(h, |ops|)]
    case OpRestart(ids, start) => Folded(ops, ids, start)
    case OpAdded(_) => []
    case OpSigned(_, _) => []
  }

  /** Everything the history was given, oldest first. */
  function Items(ops: seq<Op>): seq<Item> {
    if ops == [] then []
    else
      var front := ops[..|ops| - 1];
      Items(front) + Gives(front, ops[|ops| - 1])
  }

  /** The event an entry shows: the last signed for its id since it was given, or
      the one it was given with. */
  function EventAfter(ops: seq<Op>, x: Item): Option<Event> {
    if |ops| <= x.at + 1 then x.given.event
    else
      var op := ops[|ops| - 1];
      if op.OpSigned? && op.id == x.given.id then Some(op.ev) else EventAfter(ops[..|ops| - 1], x)
  }

  /** `tail` shows these items, each as given but for its event. */
  ghost predicate Shows(tail: seq<HistoryEntry>, items: seq<Item>, ops: seq<Op>) {
    |tail| == |items| && forall i :: 0 <= i < |tail| ==> tail[i] == items[i].given.(event := EventAfter(ops, items[i]))
  }

  predicate SignsAt(ops: seq<Op>, x: Item, j: nat)
    requires j < |ops|
  {
    ops[j].OpSigned? && ops[j].id == x.given.id
  }

  /** The event shown, without recursion: the one signed by the last operation for
      that id since, */
  lemma {:induction false} LastSignedShows(ops: seq<Op>, x: Item, j: nat)
    requires x.at < j < |ops| && SignsAt(ops, x, j) && forall k :: j < k < |ops| ==> !SignsAt(ops, x, k)
    ensures EventAfter(ops, x) == Some(ops[j].ev)
  {
    if j < |ops| - 1 {
      assert !SignsAt(ops, x, |ops| - 1);
      var front := ops[..|ops| - 1];
      assert forall k :: 0 <= k < |front| ==> SignsAt(front, x, k) == SignsAt(ops, x, k);
      LastSignedShows(front, x, j);
    }
  }

  /** or the one it was given with, if there is none. */
  lemma {:induction false} UnsignedShows(ops: seq<Op>, x: Item)
    requires forall k :: x.at < k < |ops| ==> !SignsAt(ops, x, k)
    ensures EventAfter(ops, x) == x.given.event
  {
    if |ops| > x.at + 1 {
      assert !SignsAt(ops, x, |ops| - 1);
      var front := ops[..|ops| - 1];
      assert forall k :: 0 <= k < |front| ==> SignsAt(front, x, k) == SignsAt(ops, x, k);
      UnsignedShows(front, x);
    }
  }

  // ------------------------------------------------------------ small steps

  lemma {:induction false} ItemsBefore(ops: seq<Op>)
    ensures forall x :: x in Items(ops) ==> x.at < |ops|
  {
    if ops != [] {
      ItemsBefore(ops[..|ops| - 1]);
    }
  }

  lemma EventSnoc(ops: seq<Op>, op: Op, x: Item)
    requires x.at < |ops|
    ensures EventAfter(ops + [op], x) == if op.OpSigned? && op.id == x.given.id then Some(op.ev) else EventAfter(ops, x)
  {
    assert (ops + [op])[..|ops|] == ops;
  }

  ghost predicate Before(items: seq<Item>, ops: seq<Op>) {
    forall i :: 0 <= i < |items| ==> items[i].at < |ops|
  }

  /** An operation that signs nothing shown leaves what is shown. */
  lemma ShowsQuiet(tail: seq<HistoryEntry>, items: seq<Item>, ops: seq<Op>, op: Op)
    requires Shows(tail, items, ops) && Before(items, ops) && (op.OpSigned? ==> !HasId(tail, op.id))
    ensures Shows(tail, items, ops + [op])
  {
    forall i | 0 <= i < |tail| ensures tail[i] == items[i].given.(event := EventAfter(ops + [op], items[i])) {
      EventSnoc(ops, op, items[i]);
    }
  }

  lemma ShowsSigned(tail: seq<HistoryEntry>, items: seq<Item>, ops: seq<Op>, id: Id, ev: Event)
    requires Shows(tail, items, ops) && Before(items, ops)
    ensures Shows(Patch(tail, id, ev), items, ops + [OpSigned(id, ev)])
  {
    forall i | 0 <= i < |tail|
      ensures Patch(tail, id, ev)[i] == items[i].given.(event := EventAfter(ops + [OpSigned(id, ev)], items[i]))
    {
      EventSnoc(ops, OpSigned(id, ev), items[i]);
    }
  }

  /** Entries just given are shown as given. */
  lemma ShowsMore(tail: seq<HistoryEntry>, items: seq<Item>, ops: seq<Op>, more: seq<HistoryEntry>, added: seq<Item>)
    requires Shows(tail, items, ops) && |more| == |added|
    requires forall i :: 0 <= i < |added| ==> added[i].at + 1 >= |ops| && added[i].given == more[i]
    ensures Shows(tail + more, items + added, ops)
  {
  }

  lemma ShowsLastN(tail: seq<HistoryEntry>, items: seq<Item>, ops: seq<Op>, n: nat)
    requires Shows(tail, items, ops)
    ensures Shows(LastN(tail, n), LastN(items, n), ops)
  {
  }

  lemma LastNConcat<T>(s: seq<T>, more: seq<T>, n: nat)
    ensures LastN(LastN(s, n) + more, n) == LastN(s + more, n)
  {
  }

  // ------------------------------------------------------ what is left waiting

  /** What the log still holds undecided is what was last added under that id. */
  ghost predicate PendingIsAdded(log: seq<Record>, ops: seq<Op>) {
    forall id :: id in ReplayLog(log).pending ==> LastAdded(ops, id) == Some(ReplayLog(log).pending[id])
  }

  lemma AddedSnoc(ops: seq<Op>, op: Op, id: Id)
    ensures LastAdded(ops + [op], id) == if op.OpAdded? && op.p.id == id then Some(op.p) else LastAdded(ops, id)
  {
    assert (ops + [op])[..|ops|] == ops;
  }

  /** An operation that adds no request, and leaves no more waiting. */
  lemma FewerPending(log: seq<Record>, log': seq<Record>, ops: seq<Op>, op: Op)
    requires PendingIsAdded(log, ops) && !op.OpAdded?
    requires forall id :: id in ReplayLog(log').pending ==>
               id in ReplayLog(log).pending && ReplayLog(log').pending[id] == ReplayLog(log).pending[id]
    ensures PendingIsAdded(log', ops + [op])
  {
    forall id | id in ReplayLog(log').pending ensures LastAdded(ops + [op], id) == Some(ReplayLog(log').pending[id]) {
      AddedSnoc(ops, op, id);
    }
  }

  lemma PendingStep(s: State, ops: seq<Op>, op: Op)
    requires Admissible(s, op) && PendingIsAdded(s.log, ops)
    ensures PendingIsAdded(Step(s, op).log, ops + [op])
  {
    match op
    case OpAdded(p) =>
      ReplayAppend(s.log, Added(p));
      ReplayValid(s.log);
      forall id | id in ReplayLog(s.log + [Added(p)]).pending
        ensures LastAdded(ops + [op], id) == Some(ReplayLog(s.log + [Added(p)]).pending[id])
      {
        AddedSnoc(ops, op, id);
      }
    case OpResolved(h) =>
      if s.CompactsNext() {
        CompactedNothingPending(LastN(s.tail + [h], MAX_TAIL));
      } else {
        ReplayAppend(s.log, Resolved(h));
      }
      FewerPending(s.log, s.RecordHistory(h).log, ops, op);
    case OpSigned(id, ev) =>
      ReplayAppend(s.log, Signed(id, ev));
      FewerPending(s.log, s.RecordSigned(id, ev).log, ops, op);
    case OpRestart(ids, start) =>
      RestartFolds(s, ids, start);
      FewerPending(s.log, s.Restart(ids, start).log, ops, op);
  }

  // ---------------------------------------------------------------- each step

  /** A resolution is kept as it was given, at the end. */
  lemma ResolvedStep(s: State, ops: seq<Op>, h: HistoryEntry, items: seq<Item>)
    requires s.Inv() && Shows(s.tail, LastN(items, MAX_TAIL), ops) && Before(LastN(items, MAX_TAIL), ops)
    ensures Shows(s.RecordHistory(h).tail, LastN(items + [Item(h, |ops|)], MAX_TAIL), ops + [OpResolved(h)])
  {
    var op, x := OpResolved(h), Item(h, |ops|);
    ShowsQuiet(s.tail, LastN(items, MAX_TAIL), ops, op);
    ShowsMore(s.tail, LastN(items, MAX_TAIL), ops + [op], [h], [x]);
    ShowsLastN(s.tail + [h], LastN(items, MAX_TAIL) + [x], ops + [op], MAX_TAIL);
    LastNConcat(items, [x], MAX_TAIL);
  }

  lemma SignedStep(s: State, ops: seq<Op>, id: Id, ev: Event, items: seq<Item>)
    requires s.Inv() && Shows(s.tail, items, ops) && Before(items, ops)
    ensures Shows(s.RecordSigned(id, ev).tail, items, ops + [OpSigned(id, ev)])
  {
    if HasId(s.tail, id) {
      ReplayValid(s.log);
      assert DistinctIds(s.tail);
      PatchLastIsPatch(s.tail, id, ev);
      ShowsSigned(s.tail, items, ops, id, ev);
    } else {
      ShowsQuiet(s.tail, items, ops, OpSigned(id, ev));
    }
  }

  /** A start adds every request left waiting, as unanswered. */
  lemma RestartStep(s: State, ops: seq<Op>, ids: seq<Id>, start: int, items: seq<Item>)
    requires s.Inv() && Shows(s.tail, LastN(items, MAX_TAIL), ops) && Before(LastN(items, MAX_TAIL), ops)
    requires LeftoverOrder(ReplayLog(s.log).pending, ids) && PendingIsAdded(s.log, ops)
    ensures Shows(s.Restart(ids, start).tail, LastN(items + Folded(ops, ids, start), MAX_TAIL), ops + [OpRestart(ids, start)])
  {
    var op, added := OpRestart(ids, start), Folded(ops, ids, start);
    var expired := ExpireAll(ReplayLog(s.log).pending, ids, start);
    RestartFolds(s, ids, start);
    LastNConcat(Rebuilt(s.log), expired, MAX_TAIL);
    ShowsQuiet(s.tail, LastN(items, MAX_TAIL), ops, op);
    forall i | 0 <= i < |ids| ensures added[i].given == expired[i] {
      assert ids[i] in ids;
    }
    ShowsMore(s.tail, LastN(items, MAX_TAIL), ops + [op], expired, added);
    ShowsLastN(s.tail + expired, LastN(items, MAX_TAIL) + added, ops + [op], MAX_TAIL);
    LastNConcat(items, added, MAX_TAIL);
  }

  lemma ItemsSnoc(ops: seq<Op>, op: Op)
    ensures Items(ops + [op]) == Items(ops) + Gives(ops, op)
  {
    assert (ops + [op])[..|ops|] == ops;
  }

  lemma RecentBefore(ops: seq<Op>, n: nat)
    ensures Before(LastN(Items(ops), n), ops)
  {
    ItemsBefore(ops);
    var recent := LastN(Items(ops), n);
    assert forall i :: 0 <= i < |recent| ==> recent[i] in Items(ops);
  }

  lemma JournalStep(s: State, ops: seq<Op>, op: Op)
    requires s.Inv() && Admissible(s, op) && PendingIsAdded(s.log, ops) && Shows(s.tail, LastN(Items(ops), MAX_TAIL), ops)
    ensures Shows(Step(s, op).tail, LastN(Items(ops + [op]), MAX_TAIL), ops + [op])
  {
    RecentBefore(ops, MAX_TAIL);
    ItemsSnoc(ops, op);
    match op
    case OpAdded(p) =>
      assert Items(ops) + [] == Items(ops);
      ShowsQuiet(s.tail, LastN(Items(ops), MAX_TAIL), ops, op);
    case OpResolved(h) => ResolvedStep(s, ops, h, Items(ops));
    case OpSigned(id, ev) =>
      assert Items(ops) + [] == Items(ops);
      SignedStep(s, ops, id, ev, LastN(Items(ops), MAX_TAIL));
    case OpRestart(ids, start) => RestartStep(s, ops, ids, start, Items(ops));
  }

  /** At every point of every run the tail is the last MAX_TAIL of what was recorded
      and of what starts found unanswered, in order: each entry equal in every field
      to the one given, but for its event, which is the last signed for it since.
      What a start finds is what was last added under that id. */
  lemma {:induction false} TailIsWhatWasRecorded(states: seq<State>, ops: seq<Op>, k: nat)
    requires Run(states, ops) && k < |states|
    ensures Shows(states[k].tail, LastN(Items(ops[..k]), MAX_TAIL), ops[..k])
    ensures PendingIsAdded(states[k].log, ops[..k])
  {
    if k > 0 {
      var s, front, op := states[k - 1], ops[..k - 1], ops[k - 1];
      TailIsWhatWasRecorded(states, ops, k - 1);
      RunMirrors(states, ops, k - 1);
      assert ops[..k] == front + [op];
      assert Admissible(s, op) && states[k] == Step(s, op);
      JournalStep(s, front, op);
      PendingStep(s, front, op);
    }
  }

  /** A start records exactly the requests left waiting, each denied as expired at
      the time of the start, and nothing else of them changed. */
  lemma LeftoverFields(states: seq<State>, ops: seq<Op>, k: nat, i: nat)
    requires Run(states, ops) && k < |ops| && ops[k].OpRestart? && i < |ops[k].ids|
    ensures var p, h := LastAdded(ops[..k], ops[k].ids[i]), Folded(ops[..k], ops[k].ids, ops[k].now)[i].given;
            p.Some? && h.id == ops[k].ids[i] == p.value.id && h.clientKey == p.value.clientKey
            && h.methodName == p.value.methodName && h.kind == p.value.kind && h.createdAt == p.value.createdAt
            && h.resolvedAt == ops[k].now && h.verdict == Deny && h.expired && !h.remembered && !h.autoApproved && h.event == None
  {
    TailIsWhatWasRecorded(states, ops, k);
    var pending, id := ReplayLog(states[k].log).pending, ops[k].ids[i];
    assert Admissible(states[k], ops[k]) && id in ops[k].ids && id in pending;
    ReplayValid(states[k].log);
  }
}
