/** The history of events awaiting an ack (client/stream.go,
    StreamEventHistory): a lookup table and a recency list, capped, with
    entries marked by the connection that dispatched them. */
module PendingHistory {
  import opened Common

  type Id = string

  const MAX_SIZE: nat := 24000

  datatype Event = Event(id: Id, body: string)

  /** `gen` is the connection generation that dispatched it, 0 for none. */
  datatype Entry = Entry(event: Event, gen: nat)

  /** The entries, most recently added first. */
  type History = seq<Entry>

  function Without(h: History, id: Id): History {
    Filter(h, (e: Entry) => e.event.id != id)
  }

  function Take<T>(s: seq<T>, n: nat): seq<T> {
    if |s| <= n then s else s[..n]
  }

  predicate Contains(h: History, id: Id) {
    exists e :: e in h && e.event.id == id
  }

  ghost predicate DistinctIds(h: History) {
    forall i, j :: 0 <= i < j < |h| ==> h[i].event.id != h[j].event.id
  }

  function Add(h: History, ev: Event): History {
    Take([Entry(ev, 0)] + Without(h, ev.id), MAX_SIZE)
  }

  function MarkDispatched(h: History, id: Id, generation: nat): History {
    if h == [] then []
    else [MarkedEntry(h[0], id, generation)] + MarkDispatched(h[1..], id, generation)
  }

  function MarkedEntry(e: Entry, id: Id, generation: nat): Entry {
    if e.event.id == id then e.(gen := generation) else e
  }

  /** What stays when generation `cur` begins. */
  function Survivors(h: History, cur: nat): History {
    Filter(h, (e: Entry) => e.gen == 0 || e.gen >= cur)
  }

  /** The entries never handed to the wire. */
  function Undispatched(h: History): History {
    Filter(h, (e: Entry) => e.gen == 0)
  }

  // -------------------------------------------------- the recency reference

  /** Every event ever added, the latest addition of each id, newest first,
      without a cap. */
  function Recent(evs: seq<Event>): History {
    if evs == [] then []
    else
      var ev := evs[|evs| - 1];
      [Entry(ev, 0)] + Without(Recent(evs[..|evs| - 1]), ev.id)
  }

  function AddAll(evs: seq<Event>): History {
    if evs == [] then [] else Add(AddAll(evs[..|evs| - 1]), evs[|evs| - 1])
  }

  lemma {:induction false} WithoutAbsent(h: History, id: Id)
    requires !Contains(h, id)
    ensures Without(h, id) == h
  {
    if h != [] {
      assert h[0] in h;
      assert forall e :: e in h[1..] ==> e in h;
      WithoutAbsent(h[1..], id);
    }
  }

  lemma {:induction false} WithoutDistinct(h: History, id: Id)
    requires DistinctIds(h)
    ensures DistinctIds(Without(h, id)) && !Contains(Without(h, id), id)
    ensures h != [] && h[0].event.id == id ==> Without(h, id) == h[1..]
  {
    if h != [] {
      WithoutDistinct(h[1..], id);
      assert forall e :: e in h[1..] ==> e.event.id != h[0].event.id;
      if h[0].event.id == id {
        WithoutAbsent(h[1..], id);
      }
    }
  }

  lemma {:induction false} RecentDistinct(evs: seq<Event>)
    ensures DistinctIds(Recent(evs))
  {
    if evs != [] {
      var front, id := Recent(evs[..|evs| - 1]), evs[|evs| - 1].id;
      RecentDistinct(evs[..|evs| - 1]);
      WithoutDistinct(front, id);
      assert forall e :: e in Without(front, id) ==> e.event.id != id;
    }
  }

  /** Removing the head, capped or not. */
  lemma TakeWithoutHead(h: History, n: nat)
    requires DistinctIds(h) && n >= 1 && h != []
    ensures Without(Take(h, n), h[0].event.id) == Take(h[1..], n - 1) && Without(h, h[0].event.id) == h[1..]
  {
    WithoutDistinct(h, h[0].event.id);
    WithoutDistinct(Take(h, n), h[0].event.id);
    assert Take(h, n)[1..] == Take(h[1..], n - 1);
  }

  lemma TakeTail(h: History, n: nat)
    requires h != [] && n >= 1
    ensures Take(h, n) != [] && Take(h, n)[0] == h[0] && Take(h, n)[1..] == Take(h[1..], n - 1)
  {
  }

  /** Capping first or removing first is the same, one below the cap. */
  lemma {:induction false} TakeWithout(h: History, id: Id, n: nat)
    requires DistinctIds(h) && n >= 1
    ensures Take(Without(Take(h, n), id), n - 1) == Take(Without(h, id), n - 1)
    decreases |h|
  {
    if h != [] && h[0].event.id == id {
      TakeWithoutHead(h, n);
    } else if h != [] && n >= 2 {
      TakeWithout(h[1..], id, n - 1);
      TakeTail(h, n);
      TakeCons(h[0], Without(Take(h[1..], n - 1), id), n - 1);
      TakeCons(h[0], Without(h[1..], id), n - 1);
    }
  }

  lemma TakeCons<T>(x: T, s: seq<T>, n: nat)
    requires n >= 1
    ensures Take([x] + s, n) == [x] + Take(s, n - 1)
  {
  }

  /** The capped history is the MAX_SIZE most recently added: what is evicted is
      always the least recently added. */
  lemma {:induction false} KeepsMostRecent(evs: seq<Event>)
    ensures AddAll(evs) == Take(Recent(evs), MAX_SIZE)
    ensures |AddAll(evs)| <= MAX_SIZE
  {
    if evs != [] {
      var front, ev := evs[..|evs| - 1], evs[|evs| - 1];
      KeepsMostRecent(front);
      RecentDistinct(front);
      TakeWithout(Recent(front), ev.id, MAX_SIZE);
      TakeCons(Entry(ev, 0), Without(Take(Recent(front), MAX_SIZE), ev.id), MAX_SIZE);
      TakeCons(Entry(ev, 0), Without(Recent(front), ev.id), MAX_SIZE);
    }
  }

  // --------------------------------------------------------------- generations

  ghost predicate GensUpTo(h: History, generation: nat) {
    forall e :: e in h ==> e.gen <= generation
  }

  /** A new generation drops exactly the entries an earlier connection
      dispatched, and keeps the others in order. */
  lemma {:induction false} NewGenerationExact(h: History, generation: nat)
    requires GensUpTo(h, generation)
    ensures Survivors(h, generation + 1) == Undispatched(h)
    ensures forall e :: e in Survivors(h, generation + 1) <==> e in h && e.gen == 0
  {
    if h != [] {
      assert h[0] in h;
      assert forall e :: e in h[1..] ==> e in h;
      NewGenerationExact(h[1..], generation);
    }
  }

  /** An event marked under this generation does not outlive it, whatever else
      was added, acked or marked; one added again afterwards does. */
  lemma DispatchedDoesNotOutlive(h: History, id: Id, generation: nat)
    requires GensUpTo(h, generation) && generation >= 1 && DistinctIds(h)
    ensures !Contains(Survivors(MarkDispatched(h, id, generation), generation + 1), id)
  {
    MarkedGen(h, id, generation);
    NewGenerationExact(MarkDispatched(h, id, generation), generation);
  }

  lemma {:induction false} MarkedGen(h: History, id: Id, generation: nat)
    requires GensUpTo(h, generation)
    ensures GensUpTo(MarkDispatched(h, id, generation), generation)
    ensures forall e :: e in MarkDispatched(h, id, generation) && e.event.id == id ==> e.gen == generation
  {
    if h != [] {
      assert h[0] in h;
      assert forall e :: e in h[1..] ==> e in h;
      MarkedGen(h[1..], id, generation);
    }
  }

  // ---------------------------------------------------------------- any run

  datatype Op = AddOp(ev: Event) | DeleteOp(id: Id) | MarkOp(id: Id) | NewGeneration

  /** The history and the generation after a run. */
  function RunOps(ops: seq<Op>): (History, nat) {
    if ops == [] then ([], 0)
    else
      var (h, generation) := RunOps(ops[..|ops| - 1]);
      Apply(h, generation, ops[|ops| - 1])
  }

  function Apply(h: History, generation: nat, op: Op): (History, nat) {
    match op
    case AddOp(ev) => (Add(h, ev), generation)
    case DeleteOp(id) => (Without(h, id), generation)
    case MarkOp(id) => (MarkDispatched(h, id, generation), generation)
    case NewGeneration => (Survivors(h, generation + 1), generation + 1)
  }

  /** When an id was last added in a run, or -1. */
  function LastAdded(ops: seq<Op>, id: Id): (t: int)
    ensures -1 <= t < |ops|
  {
    if ops == [] then -1
    else
      var last := ops[|ops| - 1];
      if last.AddOp? && last.ev.id == id then |ops| - 1 else LastAdded(ops[..|ops| - 1], id)
  }

  /** Newest addition first. */
  ghost predicate ByRecency(h: History, ops: seq<Op>) {
    forall i, j :: 0 <= i < j < |h| ==> LastAdded(ops, h[i].event.id) > LastAdded(ops, h[j].event.id)
  }

  lemma {:induction false} FilterByRecency(h: History, keep: Entry -> bool, ops: seq<Op>)
    requires ByRecency(h, ops)
    ensures ByRecency(Filter(h, keep), ops)
  {
    if h != [] {
      FilterByRecency(h[1..], keep, ops);
      forall e | e in h[1..] ensures LastAdded(ops, h[0].event.id) > LastAdded(ops, e.event.id) {
        var i :| 0 <= i < |h| - 1 && h[1..][i] == e;
        assert e == h[i + 1];
      }
    }
  }

  lemma AddByRecency(h: History, ops: seq<Op>, ev: Event)
    requires ByRecency(h, ops)
    ensures ByRecency(Add(h, ev), ops + [AddOp(ev)])
  {
    var rest, ops' := Without(h, ev.id), ops + [AddOp(ev)];
    WithoutByRecency(h, ev.id, ops);
    assert ops'[..|ops|] == ops;
    var whole := [Entry(ev, 0)] + rest;
    forall i, j | 0 <= i < j < |whole| ensures LastAdded(ops', whole[i].event.id) > LastAdded(ops', whole[j].event.id) {
      assert whole[j] == rest[j - 1] && rest[j - 1] in rest;
      if i > 0 {
        assert whole[i] == rest[i - 1] && rest[i - 1] in rest;
      }
    }
  }

  lemma WithoutByRecency(h: History, id: Id, ops: seq<Op>)
    requires ByRecency(h, ops)
    ensures ByRecency(Without(h, id), ops)
  {
    FilterByRecency(h, (e: Entry) => e.event.id != id, ops);
  }

  lemma SurvivorsByRecency(h: History, cur: nat, ops: seq<Op>)
    requires ByRecency(h, ops)
    ensures ByRecency(Survivors(h, cur), ops)
  {
    FilterByRecency(h, (e: Entry) => e.gen == 0 || e.gen >= cur, ops);
  }

  lemma MarkByRecency(h: History, id: Id, generation: nat, ops: seq<Op>)
    requires ByRecency(h, ops)
    ensures ByRecency(MarkDispatched(h, id, generation), ops)
  {
    MarkedAt(h, id, generation);
  }

  lemma ApplyKeepsOrder(h: History, generation: nat, op: Op, ops: seq<Op>)
    requires ByRecency(h, ops)
    ensures ByRecency(Apply(h, generation, op).0, ops + [op])
  {
    match op
    case AddOp(ev) => AddByRecency(h, ops, ev);
    case DeleteOp(id) =>
      WithoutByRecency(h, id, ops);
    case MarkOp(id) =>
      MarkByRecency(h, id, generation, ops);
    case NewGeneration =>
      SurvivorsByRecency(h, generation + 1, ops);
  }

  lemma ApplyKeepsBounds(h: History, generation: nat, op: Op)
    requires |h| <= MAX_SIZE && GensUpTo(h, generation)
    ensures |Apply(h, generation, op).0| <= MAX_SIZE && GensUpTo(Apply(h, generation, op).0, Apply(h, generation, op).1)
  {
    match op
    case AddOp(ev) => AddGens(h, ev, generation);
    case MarkOp(id) =>
      MarkedGen(h, id, generation);
      MarkedAt(h, id, generation);
    case _ =>
  }

  /** After any run of additions, acks, dispatches and reconnects: at most
      MAX_SIZE entries, no generation ahead of its time, newest addition first. */
  lemma {:induction false} EveryRun(ops: seq<Op>)
    ensures |RunOps(ops).0| <= MAX_SIZE && ByRecency(RunOps(ops).0, ops) && GensUpTo(RunOps(ops).0, RunOps(ops).1)
  {
    if ops != [] {
      var front, op := ops[..|ops| - 1], ops[|ops| - 1];
      var (h, generation) := RunOps(front);
      EveryRun(front);
      assert ops == front + [op];
      ApplyKeepsOrder(h, generation, op, front);
      ApplyKeepsBounds(h, generation, op);
    }
  }

  /** An addition evicts only from a full history, and only the entry added
      longest ago. */
  lemma EvictsOldest(ops: seq<Op>, ev: Event, e: Entry)
    requires e in RunOps(ops).0 && e.event.id != ev.id && e !in Add(RunOps(ops).0, ev)
    ensures |RunOps(ops).0| == MAX_SIZE
    ensures forall x :: x in RunOps(ops).0 ==> LastAdded(ops, x.event.id) >= LastAdded(ops, e.event.id)
  {
    var h := RunOps(ops).0;
    EveryRun(ops);
    var whole := [Entry(ev, 0)] + Without(h, ev.id);
    assert e in Without(h, ev.id) && e in whole;
    assert |whole| > MAX_SIZE && |whole| == |h| + 1;
    if Contains(h, ev.id) {
      ShorterWithout(h, ev.id);
    } else {
      WithoutAbsent(h, ev.id);
      assert e == h[|h| - 1];
      forall x | x in h ensures LastAdded(ops, x.event.id) >= LastAdded(ops, e.event.id) {
        var i :| 0 <= i < |h| && h[i] == x;
      }
    }
  }

  // ----------------------------------------------------------- as an object

  /** The list and the lookup table hold the same entries, one for each id. */
  ghost predicate Linked(h: History, data: map<Id, Entry>) {
    && DistinctIds(h)
    && (forall e :: e in h ==> e.event.id in data && data[e.event.id] == e)
    && (forall id :: id in data ==> data[id] in h && data[id].event.id == id)
  }

  lemma RemoveLinked(h: History, data: map<Id, Entry>, id: Id)
    requires Linked(h, data)
    ensures Linked(Without(h, id), data - {id})
  {
    WithoutDistinct(h, id);
  }

  lemma BackLinked(h: History, data: map<Id, Entry>)
    requires h != [] && Linked(h, data)
    ensures Linked(h[..|h| - 1], data - {h[|h| - 1].event.id})
  {
    var n := |h| - 1;
    forall e | e in h[..n] ensures e.event.id != h[n].event.id {
      var i :| 0 <= i < n && h[..n][i] == e;
    }
    forall id | id in data - {h[n].event.id} ensures data[id] in h[..n] {
      var i :| 0 <= i < |h| && h[i] == data[id];
      assert i < n && h[..n][i] == data[id];
    }
  }

  lemma MarkLinked(h: History, data: map<Id, Entry>, id: Id, generation: nat)
    requires Linked(h, data) && id in data
    ensures Linked(MarkDispatched(h, id, generation), data[id := data[id].(gen := generation)])
  {
    var h', data' := MarkDispatched(h, id, generation), data[id := MarkedEntry(data[id], id, generation)];
    MarkedElements(h, id, generation);
    forall e | e in h' ensures e.event.id in data' && data'[e.event.id] == e {
      var x :| x in h && e == MarkedEntry(x, id, generation);
    }
    forall k | k in data' ensures data'[k] in h' && data'[k].event.id == k {
      assert data'[k] == MarkedEntry(data[k], id, generation) && data[k] in h;
    }
    MarkedDistinct(h, id, generation);
  }

  lemma MarkedDistinct(h: History, id: Id, generation: nat)
    requires DistinctIds(h)
    ensures DistinctIds(MarkDispatched(h, id, generation))
  {
    MarkedAt(h, id, generation);
  }

  lemma {:induction false} MarkedElements(h: History, id: Id, generation: nat)
    ensures forall e :: e in h ==> MarkedEntry(e, id, generation) in MarkDispatched(h, id, generation)
    ensures forall e :: e in MarkDispatched(h, id, generation) ==> exists x :: x in h && e == MarkedEntry(x, id, generation)
  {
    if h != [] {
      MarkedElements(h[1..], id, generation);
      assert h == [h[0]] + h[1..];
      forall e | e in MarkDispatched(h, id, generation) ensures exists x :: x in h && e == MarkedEntry(x, id, generation) {
        if e == MarkedEntry(h[0], id, generation) {
          assert h[0] in h;
        } else {
          assert e in MarkDispatched(h[1..], id, generation);
          var x :| x in h[1..] && e == MarkedEntry(x, id, generation);
          assert x in h;
        }
      }
    }
  }

  lemma {:induction false} MarkedAt(h: History, id: Id, generation: nat)
    ensures |MarkDispatched(h, id, generation)| == |h|
    ensures forall i :: 0 <= i < |h| ==>
              MarkDispatched(h, id, generation)[i] == MarkedEntry(h[i], id, generation)
  {
    if h != [] {
      MarkedAt(h[1..], id, generation);
    }
  }

  lemma UnlinkAt(h: History, data: map<Id, Entry>, i: nat)
    requires Linked(h, data) && i < |h|
    ensures Linked(h[..i] + h[i + 1..], data - {h[i].event.id})
  {
  }

  /** Adding a known id: replaced and moved to the front, nothing evicted. */
  lemma AddKnown(h: History, data: map<Id, Entry>, ev: Event)
    requires Linked(h, data) && |h| <= MAX_SIZE && ev.id in data
    ensures Add(h, ev) == [Entry(ev, 0)] + Without(h, ev.id) && |Add(h, ev)| <= MAX_SIZE
    ensures Linked(Add(h, ev), data[ev.id := Entry(ev, 0)])
  {
    RemoveLinked(h, data, ev.id);
    ShorterWithout(h, ev.id);
    assert data[ev.id := Entry(ev, 0)] == (data - {ev.id})[ev.id := Entry(ev, 0)];
  }

  /** Adding a new id: put in front, the back evicted past the cap. */
  lemma AddNew(h: History, data: map<Id, Entry>, ev: Event)
    requires Linked(h, data) && |h| <= MAX_SIZE && ev.id !in data
    ensures var h', data' := [Entry(ev, 0)] + h, data[ev.id := Entry(ev, 0)];
            if |h'| <= MAX_SIZE then Add(h, ev) == h' && Linked(h', data')
            else Add(h, ev) == h'[..|h'| - 1] && Linked(h'[..|h'| - 1], data' - {h'[|h'| - 1].event.id})
  {
    WithoutAbsent(h, ev.id);
    BackLinked([Entry(ev, 0)] + h, data[ev.id := Entry(ev, 0)]);
  }

  lemma AddGens(h: History, ev: Event, generation: nat)
    requires GensUpTo(h, generation)
    ensures GensUpTo(Add(h, ev), generation)
  {
    forall e | e in Add(h, ev) ensures e.gen <= generation {
      assert e in [Entry(ev, 0)] + Without(h, ev.id);
    }
  }

  class StreamEventHistory {
    var data: map<Id, Entry>
    var order: History
    var generation: nat

    ghost predicate Valid()
      reads this
    {
      Linked(order, data) && |order| <= MAX_SIZE && GensUpTo(order, generation)
    }

    constructor ()
      ensures Valid() && order == [] && generation == 0
    {
      data, order, generation := map[], [], 0;
    }

    method Get(id: Id) returns (r: Option<Event>)
      requires Valid()
      ensures r.Some? <==> Contains(order, id)
      ensures r.Some? ==> exists e :: e in order && e.event == r.value && e.event.id == id
    {
      if id !in data {
        return None;
      }
      r := Some(data[id].event);
      assert data[id] in order;
    }

    /** A known id is replaced and moved to the front; a new one is put there,
        and the back evicted past the cap. */
    method AddEvent(ev: Event)
      requires Valid()
      modifies this
      ensures Valid() && order == Add(old(order), ev) && generation == old(generation)
    {
      AddGens(order, ev, generation);
      order, data := LinkFront(order, data, ev);
    }

    method Delete(id: Id)
      requires Valid()
      modifies this
      ensures Valid() && order == Without(old(order), id) && generation == old(generation)
    {
      if id in data {
        RemoveLinked(order, data, id);
        order := Without(order, id);
        data := data - {id};
      } else {
        WithoutAbsent(order, id);
      }
    }

    method Mark(id: Id)
      requires Valid()
      modifies this
      ensures Valid() && order == MarkDispatched(old(order), id, generation) && generation == old(generation)
    {
      MarkedAt(order, id, generation);
      MarkedGen(order, id, generation);
      if id in data {
        MarkLinked(order, data, id, generation);
        data := data[id := data[id].(gen := generation)];
        order := MarkDispatched(order, id, generation);
      } else {
        forall i | 0 <= i < |order| ensures order[i].event.id != id {
          assert order[i] in order;
        }
        assert MarkDispatched(order, id, generation) == order;
      }
    }

    /** Unlinks what an earlier connection sent. */
    method BeginGeneration()
      requires Valid()
      modifies this
      ensures Valid() && generation == old(generation) + 1
      ensures order == Undispatched(old(order))
    {
      NewGenerationExact(order, generation);
      order, data := UnlinkDispatched(order, data, generation + 1);
      generation := generation + 1;
    }
  }

  /** The entry moved or put to the front, and the back unlinked past the cap. */
  method LinkFront(h: History, table: map<Id, Entry>, ev: Event) returns (order: History, data: map<Id, Entry>)
    requires Linked(h, table) && |h| <= MAX_SIZE
    ensures order == Add(h, ev) && |order| <= MAX_SIZE && Linked(order, data)
  {
    var e := Entry(ev, 0);
    data := table[ev.id := e];
    if ev.id in table {
      AddKnown(h, table, ev);
      order := [e] + Without(h, ev.id);
    } else {
      AddNew(h, table, ev);
      order := [e] + h;
      if |order| > MAX_SIZE {
        data := data - {order[|order| - 1].event.id};
        order := order[..|order| - 1];
      }
    }
  }

  /** The walk from the back, over the list and the table it was given. */
  method UnlinkDispatched(h: History, table: map<Id, Entry>, cur: nat) returns (order: History, data: map<Id, Entry>)
    requires Linked(h, table) && GensUpTo(h, cur)
    ensures order == Survivors(h, cur) && |order| <= |h|
    ensures Linked(order, data) && GensUpTo(order, cur)
  {
    order, data := h, table;
    var i := |h|;
    assert h[i..] == [];
    while i > 0
      invariant 0 <= i <= |h| && i <= |order| <= |h| && order == h[..i] + Survivors(h[i..], cur)
      invariant Linked(order, data) && GensUpTo(order, cur)
    {
      i := i - 1;
      BackStep(order, data, h, i, cur);
      if order[i].gen != 0 && order[i].gen < cur {
        data := data - {order[i].event.id};
        order := order[..i] + order[i + 1..];
      }
    }
  }

  /** One step of the walk: the entry at `i` is unlinked or left. */
  lemma BackStep(order: History, data: map<Id, Entry>, h: History, i: nat, cur: nat)
    requires i < |h| && order == h[..i + 1] + Survivors(h[i + 1..], cur)
    requires Linked(order, data) && GensUpTo(order, cur)
    ensures i < |order|
    ensures if order[i].gen != 0 && order[i].gen < cur
            then order[..i] + order[i + 1..] == h[..i] + Survivors(h[i..], cur)
              && Linked(order[..i] + order[i + 1..], data - {order[i].event.id})
              && GensUpTo(order[..i] + order[i + 1..], cur)
            else order == h[..i] + Survivors(h[i..], cur)
  {
    SurvivorsCons(h, i, cur);
    SplitBack(order, h[..i], h[i], Survivors(h[i + 1..], cur));
    if order[i].gen != 0 && order[i].gen < cur {
      UnlinkAt(order, data, i);
    }
  }

  lemma SplitBack(order: History, front: History, e: Entry, back: History)
    requires order == front + [e] + back
    ensures order[|front|] == e && order[..|front|] + order[|front| + 1..] == front + back
    ensures order == front + ([e] + back)
  {
  }

  lemma SurvivorsCons(h: History, i: nat, cur: nat)
    requires i < |h|
    ensures Survivors(h[i..], cur) == (if h[i].gen == 0 || h[i].gen >= cur then [h[i]] else []) + Survivors(h[i + 1..], cur)
    ensures h[..i + 1] == h[..i] + [h[i]]
  {
    assert h[i..][1..] == h[i + 1..];
  }

  lemma {:induction false} ShorterWithout(h: History, id: Id)
    requires Contains(h, id)
    ensures |Without(h, id)| < |h|
  {
    if h[0].event.id != id {
      var e :| e in h && e.event.id == id;
      assert e in h[1..];
      ShorterWithout(h[1..], id);
    }
  }
}
