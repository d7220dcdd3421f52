/** The bunker's request history: the append-only event log
    (cli/bunker/eventlog.go) and the bounded in-memory tail it has to rebuild
    (the history half of cli/bunker/daemon.go), at the level of log records. */
module HistoryLog {
  import opened Common

  type Id = string
  type Event = string

  const MAX_TAIL: nat := 200

  datatype Pending = Pending(id: Id, clientKey: string, methodName: string, kind: int, createdAt: int, event: Option<Event>)

  datatype HistoryEntry = HistoryEntry(
    id: Id, clientKey: string, methodName: string, kind: int, createdAt: int, resolvedAt: int,
    verdict: Decision, remembered: bool, autoApproved: bool, expired: bool, event: Option<Event>)

  /** One line of the log. */
  datatype Record = Added(pending: Pending) | Resolved(entry: HistoryEntry) | Signed(id: Id, event: Event)

  // -------------------------------------------------------- lists of entries

  predicate HasId(es: seq<HistoryEntry>, id: Id) {
    exists i :: 0 <= i < |es| && es[i].id == id
  }

  ghost predicate DistinctIds(es: seq<HistoryEntry>) {
    forall i, j :: 0 <= i < j < |es| ==> es[i].id != es[j].id
  }

  /** `h` in the place of the entry with its id, or at the end. */
  function Put(es: seq<HistoryEntry>, h: HistoryEntry): seq<HistoryEntry> {
    if HasId(es, h.id)
    then seq(|es|, i requires 0 <= i < |es| => if es[i].id == h.id then h else es[i])
    else es + [h]
  }

  /** The signed event attached to the entry with that id. */
  function Patch(es: seq<HistoryEntry>, id: Id, ev: Event): seq<HistoryEntry> {
    seq(|es|, i requires 0 <= i < |es| => if es[i].id == id then es[i].(event := Some(ev)) else es[i])
  }

  // ---------------------------------------------------------------- replay

  /** What replaying a log yields: requests still undecided, and the history,
      oldest first. */
  datatype Replay = Replay(pending: map<Id, Pending>, entries: seq<HistoryEntry>) {

    ghost predicate Valid() {
      && DistinctIds(entries)
      && (forall id :: id in pending ==> pending[id].id == id && !HasId(entries, id))
    }

    function Apply(r: Record): Replay {
      match r
      case Added(p) => if HasId(entries, p.id) then this else this.(pending := pending[p.id := p])
      case Resolved(h) => Replay(pending - {h.id}, Put(entries, h))
      case Signed(id, ev) => this.(entries := Patch(entries, id, ev))
    }
  }

  const EmptyReplay := Replay(map[], [])

  function ReplayLog(log: seq<Record>): Replay {
    if log == [] then EmptyReplay else ReplayLog(log[..|log| - 1]).Apply(log[|log| - 1])
  }

  lemma ReplayAppend(log: seq<Record>, r: Record)
    ensures ReplayLog(log + [r]) == ReplayLog(log).Apply(r)
  {
    assert (log + [r])[..|log|] == log;
  }

  /** The rebuilt history never holds an id twice, and never an id that is
      still pending. */
  lemma {:induction false} ReplayValid(log: seq<Record>)
    ensures ReplayLog(log).Valid()
  {
    if log != [] {
      ReplayValid(log[..|log| - 1]);
    }
  }

  function Rebuilt(log: seq<Record>): seq<HistoryEntry> {
    ReplayLog(log).entries
  }

  function ResolvedLines(log: seq<Record>): nat {
    if log == [] then 0
    else ResolvedLines(log[..|log| - 1]) + (if log[|log| - 1].Resolved? then 1 else 0)
  }

  lemma ResolvedLinesAppend(log: seq<Record>, r: Record)
    ensures ResolvedLines(log + [r]) == ResolvedLines(log) + (if r.Resolved? then 1 else 0)
  {
    assert (log + [r])[..|log|] == log;
  }

  /** The file `compact` writes: one resolved line per entry. */
  function Compacted(es: seq<HistoryEntry>): seq<Record> {
    seq(|es|, i requires 0 <= i < |es| => Resolved(es[i]))
  }

  function Ids(es: seq<HistoryEntry>): set<Id> {
    set i | 0 <= i < |es| :: es[i].id
  }

  lemma SnocFacts(log: seq<Record>, base: seq<HistoryEntry>, es: seq<HistoryEntry>)
    requires es != []
    ensures log + Compacted(es) == log + Compacted(es[..|es| - 1]) + [Resolved(es[|es| - 1])]
    ensures base + es == base + es[..|es| - 1] + [es[|es| - 1]]
    ensures Ids(es) == Ids(es[..|es| - 1]) + {es[|es| - 1].id}
  {
    assert es == es[..|es| - 1] + [es[|es| - 1]];
  }

  /** Resolved lines with distinct ids the log does not hold yet append exactly
      those entries, and settle exactly those pending requests. */
  lemma {:induction false} ReplayResolvedRun(log: seq<Record>, es: seq<HistoryEntry>)
    requires DistinctIds(es)
    requires forall h :: h in es ==> !HasId(Rebuilt(log), h.id)
    ensures ReplayLog(log + Compacted(es)) == Replay(ReplayLog(log).pending - Ids(es), Rebuilt(log) + es)
    ensures ResolvedLines(log + Compacted(es)) == ResolvedLines(log) + |es|
  {
    if es == [] {
      assert log + Compacted(es) == log;
    } else {
      var front, h := es[..|es| - 1], es[|es| - 1];
      var before := log + Compacted(front);
      ReplayResolvedRun(log, front);
      SnocFacts(log, Rebuilt(log), es);
      ReplayAppend(before, Resolved(h));
      ResolvedLinesAppend(before, Resolved(h));
    }
  }

  /** Nothing was pending, and nothing recorded. */
  lemma OntoNothing(pending: map<Id, Pending>, base: seq<HistoryEntry>, es: seq<HistoryEntry>, ids: set<Id>)
    requires pending == map[] && base == []
    ensures Replay(pending - ids, base + es) == Replay(map[], es)
  {
    assert pending - ids == map[] && base + es == es;
  }

  lemma ReplayCompacted(es: seq<HistoryEntry>)
    requires DistinctIds(es)
    ensures ReplayLog(Compacted(es)) == Replay(map[], es)
    ensures ResolvedLines(Compacted(es)) == |es|
  {
    assert [] + Compacted(es) == Compacted(es);
    ReplayResolvedRun([], es);
    OntoNothing(ReplayLog([]).pending, Rebuilt([]), es, Ids(es));
  }

  /** A request's Added line that lands after its own Resolved line changes
      nothing while that entry is in the log; once the entry is gone it leaves a
      pending request behind. The rebuilt history is the same either way. */
  lemma LateAddedIsStale(log: seq<Record>, p: Pending)
    ensures Rebuilt(log + [Added(p)]) == Rebuilt(log)
    ensures HasId(Rebuilt(log), p.id) <==> p.id !in ReplayLog(log + [Added(p)]).pending
    ensures HasId(Rebuilt(log), p.id) ==> ReplayLog(log + [Added(p)]) == ReplayLog(log)
  {
    ReplayAppend(log, Added(p));
    ReplayValid(log);
  }
}
