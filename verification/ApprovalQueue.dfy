/** The approval queue (cli/bunker/queue.go): callers of Add block on an entry
    until Resolve or the expiry sweep decides it. Every lock section, and every
    write, callback and close done outside the lock, is a step of its own. */
module ApprovalQueue {
  import opened Common

  type Id = string
  /** An entry's identity, as a pointer to it would give. */
  type Ref = nat

  const DEFAULT_MAX: nat := 200
  const DEFAULT_TTL: nat := 300_000_000_000

  datatype Pending = Pending(id: Id, client: string, body: string, created: int, expires: int)

  datatype Resolution = Resolution(verdict: Decision, remembered: bool, expired: bool)

  datatype Entry = Entry(pending: Pending, resolved: bool, result: Option<Resolution>, notified: bool, closed: bool)

  datatype Table = Table(entries: seq<Entry>, byId: map<Id, Ref>)

  datatype Stage = Write | Notify | Close

  /** Where a call of Add, Resolve or the sweep stands. */
  datatype Call =
    | Adding(p: Pending)
    | Announcing(ref: Ref)
    | Waiting(ref: Ref)
    | Answered(ref: Ref, verdict: Decision, remembered: bool)
    | Full
    | Resolving(id: Id, verdict: Decision, remembered: bool)
    | NotPending
    | Sweeping(at: int)
    | Deciding(res: Resolution, todo: seq<Ref>, stage: Stage)

  /** What the outside sees, in order: the two callbacks, and Add returning. */
  datatype Note =
    | Added(ref: Ref)
    | Resolved(ref: Ref, pending: Pending, res: Resolution)
    | Returned(call: nat, ref: Ref, verdict: Decision, remembered: bool)

  datatype State = State(
    max: nat, ttl: int, clock: int, swept: Option<int>,
    table: Table, calls: seq<Call>, log: seq<Note>)

  function Init(max: int, ttl: int, clock: int): State {
    State(if max <= 0 then DEFAULT_MAX else max, if ttl <= 0 then DEFAULT_TTL else ttl,
          clock, None, Table([], map[]), [], [])
  }

  // ------------------------------------------------------- the lock sections

  ghost predicate InRange(tb: Table) {
    forall id :: id in tb.byId ==> tb.byId[id] < |tb.entries|
  }

  function UndecidedIds(tb: Table): set<Id>
    requires InRange(tb)
  {
    set id | id in tb.byId && !tb.entries[tb.byId[id]].resolved
  }

  function Undecided(entries: seq<Entry>): set<Ref> {
    set r: Ref | 0 <= r < |entries| && !entries[r].resolved
  }

  /** Get: pending only while undecided. */
  predicate IsPending(tb: Table, id: Id)
    requires InRange(tb)
  {
    id in tb.byId && !tb.entries[tb.byId[id]].resolved
  }

  function NewEntry(p: Pending, now: int, ttl: int): Entry {
    Entry(p.(created := now, expires := now + ttl), false, None, false, false)
  }

  function Enter(tb: Table, p: Pending, now: int, ttl: int): Table {
    Table(tb.entries + [NewEntry(p, now, ttl)], tb.byId[p.id := |tb.entries|])
  }

  function Marked(entries: seq<Entry>, refs: set<Ref>): seq<Entry> {
    seq(|entries|, i requires 0 <= i < |entries| =>
      if i in refs then entries[i].(resolved := true) else entries[i])
  }

  /** The undecided entries at or past their expiry. */
  function Expired(entries: seq<Entry>, at: int): set<Ref> {
    set r: Ref | 0 <= r < |entries| && !entries[r].resolved && entries[r].pending.expires <= at
  }

  function DecidedIds(tb: Table): set<Id>
    requires InRange(tb)
  {
    set id | id in tb.byId && tb.entries[tb.byId[id]].resolved
  }

  /** Entries decided before this sweep leave the lookup table, those it decides stay. */
  function Swept(tb: Table, at: int): Table
    requires InRange(tb)
  {
    Table(Marked(tb.entries, Expired(tb.entries, at)), tb.byId - DecidedIds(tb))
  }

  // ------------------------------------------------------------------- steps

  datatype Step =
    | Tick(d: nat)
    | StartAdd(p: Pending)
    | StartResolve(id: Id, verdict: Decision, remembered: bool)
    | StartSweep
    | LockAdd(t: nat)
    | LockResolve(t: nat)
    | LockSweep(t: nat, todo: seq<Ref>)
    | Announce(t: nat)
    | Act(t: nat)
    | Wake(t: nat)

  ghost predicate Enabled(s: State, st: Step) {
    match st
    case Tick(_) | StartAdd(_) | StartResolve(_, _, _) | StartSweep => true
    case LockAdd(t) => t < |s.calls| && s.calls[t].Adding?
    case LockResolve(t) => t < |s.calls| && s.calls[t].Resolving?
    case LockSweep(t, todo) =>
      // the map is walked in any order
      t < |s.calls| && s.calls[t].Sweeping? && NoDup(todo)
      && (set r | r in todo) == Expired(s.table.entries, s.calls[t].at)
    case Announce(t) => t < |s.calls| && s.calls[t].Announcing?
    case Act(t) => t < |s.calls| && s.calls[t].Deciding? && s.calls[t].todo != [] && s.calls[t].todo[0] < |s.table.entries|
    case Wake(t) =>
      t < |s.calls| && s.calls[t].Waiting? && s.calls[t].ref < |s.table.entries|
      && s.table.entries[s.calls[t].ref].closed
  }

  function Next(s: State, st: Step): State
    requires InRange(s.table) && Enabled(s, st)
  {
    match st
    case Tick(d) => s.(clock := s.clock + d)
    case StartAdd(p) => s.(calls := s.calls + [Adding(p)])
    case StartResolve(id, verdict, remembered) => s.(calls := s.calls + [Resolving(id, verdict, remembered)])
    case StartSweep => s.(calls := s.calls + [Sweeping(s.clock)])
    case LockAdd(t) => NextAdd(s, t)
    case LockResolve(t) => NextResolve(s, t)
    case LockSweep(t, todo) =>
      s.(table := Swept(s.table, s.calls[t].at),
         calls := s.calls[t := Deciding(Resolution(Deny, false, true), todo, Write)],
         swept := Later(s.swept, s.calls[t].at))
    case Announce(t) =>
      s.(calls := s.calls[t := Waiting(s.calls[t].ref)], log := s.log + [Added(s.calls[t].ref)])
    case Act(t) => NextAct(s, t)
    case Wake(t) =>
      var ref := s.calls[t].ref;
      var res := Outcome(s.table.entries[ref]);
      s.(calls := s.calls[t := Answered(ref, res.verdict, res.remembered)],
         log := s.log + [Returned(t, ref, res.verdict, res.remembered)])
  }

  function Later(swept: Option<int>, at: int): Option<int> {
    if swept.Some? && at < swept.value then swept else Some(at)
  }

  /** What a waiter reads: the zero resolution if nothing was ever written. */
  function Outcome(e: Entry): Resolution {
    if e.result.Some? then e.result.value else Resolution(Ask, false, false)
  }

  function NextAdd(s: State, t: nat): State
    requires InRange(s.table) && t < |s.calls| && s.calls[t].Adding?
  {
    var p := s.calls[t].p;
    if p.id in s.table.byId then s.(calls := s.calls[t := Waiting(s.table.byId[p.id])])
    else if |UndecidedIds(s.table)| >= s.max then s.(calls := s.calls[t := Full])
    else s.(table := Enter(s.table, p, s.clock, s.ttl), calls := s.calls[t := Announcing(|s.table.entries|)])
  }

  function NextResolve(s: State, t: nat): State
    requires InRange(s.table) && t < |s.calls| && s.calls[t].Resolving?
  {
    var c := s.calls[t];
    if !IsPending(s.table, c.id) then s.(calls := s.calls[t := NotPending])
    else
      var ref := s.table.byId[c.id];
      s.(table := s.table.(entries := Marked(s.table.entries, {ref})),
         calls := s.calls[t := Deciding(Resolution(c.verdict, c.remembered, false), [ref], Write)])
  }

  function NextAct(s: State, t: nat): State
    requires t < |s.calls| && s.calls[t].Deciding? && s.calls[t].todo != [] && s.calls[t].todo[0] < |s.table.entries|
  {
    var c := s.calls[t];
    var ref := c.todo[0];
    var e := s.table.entries[ref];
    match c.stage
    case Write => SetEntry(s, ref, e.(result := Some(c.res))).(calls := s.calls[t := c.(stage := Notify)])
    case Notify =>
      SetEntry(s, ref, e.(notified := true)).(
      calls := s.calls[t := c.(stage := Close)], log := s.log + [Resolved(ref, e.pending, c.res)])
    case Close =>
      SetEntry(s, ref, e.(closed := true)).(calls := s.calls[t := c.(todo := c.todo[1..], stage := Write)])
  }

  function SetEntry(s: State, ref: Ref, e: Entry): State
    requires ref < |s.table.entries|
  {
    s.(table := s.table.(entries := s.table.entries[ref := e]))
  }

  // -------------------------------------------------------------- invariants

  /** An entry only moves forward: decided, written, announced, closed. */
  predicate EntryOk(e: Entry) {
    && (e.result.Some? ==> e.resolved)
    && (e.notified ==> e.result.Some?)
    && (e.closed ==> e.notified)
  }

  /** Every lookup finds an entry with that id, and every undecided entry is
      found under its own id. */
  ghost predicate TableInv(tb: Table) {
    && InRange(tb)
    && (forall id :: id in tb.byId ==> tb.entries[tb.byId[id]].pending.id == id)
    && (forall r :: 0 <= r < |tb.entries| ==> Reachable(tb, r))
  }

  predicate Reachable(tb: Table, r: Ref)
    requires r < |tb.entries|
  {
    var e := tb.entries[r];
    EntryOk(e) && (!e.resolved ==> e.pending.id in tb.byId && tb.byId[e.pending.id] == r)
  }

  /** Call `t` still has entry `r` to settle. */
  predicate Owns(calls: seq<Call>, t: nat, r: Ref) {
    t < |calls| && calls[t].Deciding? && r in calls[t].todo
  }

  /** The stage of the call matches the entry it is settling. */
  predicate InStage(c: Call, e: Entry, head: bool)
    requires c.Deciding?
  {
    && e.resolved && !e.closed
    && (if head && c.stage != Write
        then e.result == Some(c.res) && (e.notified <==> c.stage == Close)
        else e.result == None)
  }

  ghost predicate CallOk(entries: seq<Entry>, c: Call) {
    match c
    case Announcing(r) => r < |entries|
    case Waiting(r) => r < |entries|
    case Answered(r, verdict, remembered) =>
      r < |entries| && entries[r].closed && Outcome(entries[r]).verdict == verdict && Outcome(entries[r]).remembered == remembered
    case Deciding(_, todo, _) =>
      && NoDup(todo)
      && (forall k :: 0 <= k < |todo| ==> todo[k] < |entries| && InStage(c, entries[todo[k]], k == 0))
    case _ => true
  }

  /** A decided entry that is not closed is being settled by exactly one call. */
  ghost predicate Owners(entries: seq<Entry>, calls: seq<Call>) {
    && (forall t, u, r :: Owns(calls, t, r) && Owns(calls, u, r) ==> t == u)
    && (forall r :: 0 <= r < |entries| && entries[r].resolved && !entries[r].closed ==> exists t :: Owns(calls, t, r))
  }

  ghost predicate Calls(entries: seq<Entry>, calls: seq<Call>) {
    forall t :: 0 <= t < |calls| ==> CallOk(entries, calls[t])
  }

  /** A note is borne out by the entries and by the notes before it. */
  ghost predicate NoteOk(entries: seq<Entry>, log: seq<Note>, k: nat)
    requires k < |log|
  {
    match log[k]
    case Added(r) => r < |entries|
    case Resolved(r, p, res) =>
      && r < |entries| && entries[r].notified && entries[r].pending == p && entries[r].result == Some(res)
      && (forall j :: 0 <= j < k && log[j].Resolved? ==> log[j].ref != r)
    case Returned(_, r, verdict, remembered) =>
      exists j :: 0 <= j < k && log[j].Resolved? && log[j].ref == r && log[j].res.verdict == verdict && log[j].res.remembered == remembered
  }

  ghost predicate LogInv(entries: seq<Entry>, log: seq<Note>) {
    && (forall k :: 0 <= k < |log| ==> NoteOk(entries, log, k))
    && (forall r :: 0 <= r < |entries| && entries[r].notified ==> exists k :: 0 <= k < |log| && log[k].Resolved? && log[k].ref == r)
  }

  ghost predicate Timely(s: State) {
    && s.ttl > 0
    && (s.swept.Some? ==> s.swept.value <= s.clock)
    && (forall t :: 0 <= t < |s.calls| && s.calls[t].Sweeping? ==> s.calls[t].at <= s.clock)
    && (forall r :: 0 <= r < |s.table.entries| ==> s.table.entries[r].pending.expires == s.table.entries[r].pending.created + s.ttl)
    && (s.swept.Some? ==> forall r :: 0 <= r < |s.table.entries| && !s.table.entries[r].resolved ==>
          s.swept.value < s.table.entries[r].pending.expires)
  }

  ghost predicate Inv(s: State) {
    && TableInv(s.table)
    && Calls(s.table.entries, s.calls)
    && Owners(s.table.entries, s.calls)
    && LogInv(s.table.entries, s.log)
    && |Undecided(s.table.entries)| <= s.max
    && Timely(s)
  }

  lemma InitInv(max: int, ttl: int, clock: int)
    ensures Inv(Init(max, ttl, clock))
  {
    assert Undecided([]) == {};
  }

  // ------------------------------------------------------------------ frames

  /** An entry is never undone: its request is fixed, its flags only rise, and a
      result once written stays. */
  predicate Forward(e: Entry, e': Entry) {
    && e'.pending == e.pending
    && (e.resolved ==> e'.resolved) && (e.notified ==> e'.notified) && (e.closed ==> e'.closed)
    && (e.result.Some? ==> e'.result == e.result)
  }

  ghost predicate Grows(es: seq<Entry>, es': seq<Entry>) {
    |es| <= |es'| && forall r :: 0 <= r < |es| ==> Forward(es[r], es'[r])
  }

  /** Calls stay sound when call `t` moves to `c` and no other call's entries change. */
  lemma CallsStep(es: seq<Entry>, es': seq<Entry>, calls: seq<Call>, t: nat, c: Call)
    requires Calls(es, calls) && Grows(es, es') && t < |calls| && CallOk(es', c)
    requires forall r :: 0 <= r < |es| ==> EntryOk(es[r])
    requires forall u: nat, r: Ref :: Owns(calls, u, r) && u != t && r < |es| ==> es'[r] == es[r]
    ensures Calls(es', calls[t := c])
  {
    forall u | 0 <= u < |calls| && u != t ensures CallOk(es', calls[u]) {
      if calls[u].Deciding? {
        forall k | 0 <= k < |calls[u].todo| ensures es'[calls[u].todo[k]] == es[calls[u].todo[k]] {
          assert Owns(calls, u, calls[u].todo[k]);
        }
      }
    }
  }

  lemma NotesFrame(es: seq<Entry>, es': seq<Entry>, log: seq<Note>)
    requires LogInv(es, log) && Grows(es, es')
    requires forall r :: 0 <= r < |es'| && es'[r].notified ==> r < |es| && es[r].notified
    ensures LogInv(es', log)
  {
    forall k | 0 <= k < |log| ensures NoteOk(es', log, k) {
      assert NoteOk(es, log, k);
    }
  }

  /** Appending one sound note. */
  lemma NotesAppend(es: seq<Entry>, log: seq<Note>, n: Note)
    requires LogInv(es, log) && NoteOk(es, log + [n], |log|)
    ensures LogInv(es, log + [n])
  {
    var log' := log + [n];
    forall k | 0 <= k < |log'| ensures NoteOk(es, log', k) {
      if k < |log| {
        assert NoteOk(es, log, k);
        NotePrefix(es, log, n, k);
      }
    }
    forall r | 0 <= r < |es| && es[r].notified ensures exists k :: 0 <= k < |log'| && log'[k].Resolved? && log'[k].ref == r {
      var k :| 0 <= k < |log| && log[k].Resolved? && log[k].ref == r;
      assert log'[k] == log[k];
    }
  }

  lemma NotePrefix(es: seq<Entry>, log: seq<Note>, n: Note, k: nat)
    requires k < |log| && NoteOk(es, log, k)
    ensures NoteOk(es, log + [n], k)
  {
    var log' := log + [n];
    assert forall j :: 0 <= j <= k ==> log'[j] == log[j];
    if log[k].Returned? {
      var j :| 0 <= j < k && log[j].Resolved? && log[j].ref == log[k].ref
        && log[j].res.verdict == log[k].verdict && log[j].res.remembered == log[k].remembered;
      assert log'[j] == log[j];
    }
  }

  lemma OwnersKeep(es: seq<Entry>, es': seq<Entry>, calls: seq<Call>, calls': seq<Call>)
    requires Owners(es, calls)
    requires forall u, r :: Owns(calls', u, r) <==> Owns(calls, u, r)
    requires forall r :: 0 <= r < |es'| && es'[r].resolved && !es'[r].closed ==> r < |es| && es[r].resolved && !es[r].closed
    ensures Owners(es', calls')
  {
    forall r | 0 <= r < |es'| && es'[r].resolved && !es'[r].closed ensures exists t :: Owns(calls', t, r) {
      var t :| Owns(calls, t, r);
      assert Owns(calls', t, r);
    }
  }

  lemma OwnersTake(es: seq<Entry>, calls: seq<Call>, t: nat, c: Call, refs: set<Ref>)
    requires Owners(es, calls) && Calls(es, calls)
    requires t < |calls| && !calls[t].Deciding? && c.Deciding? && (set r | r in c.todo) == refs
    requires forall r :: r in refs ==> r < |es| && !es[r].resolved
    ensures Owners(Marked(es, refs), calls[t := c])
  {
    var calls' := calls[t := c];
    forall u, r | Owns(calls', u, r) ensures if u == t then r in refs else Owns(calls, u, r) && r !in refs {
      if u == t {
        assert r in (set x | x in c.todo);
      }
    }
    forall r | 0 <= r < |es| && Marked(es, refs)[r].resolved && !es[r].closed ensures exists u :: Owns(calls', u, r) {
      if r in refs {
        assert r in (set x | x in c.todo);
        assert Owns(calls', t, r);
      } else {
        var u :| Owns(calls, u, r);
        assert Owns(calls', u, r);
      }
    }
  }

  // ------------------------------------------------------------ the table

  lemma EnterTable(tb: Table, p: Pending, now: int, ttl: int)
    requires TableInv(tb) && p.id !in tb.byId
    ensures TableInv(Enter(tb, p, now, ttl)) && Grows(tb.entries, Enter(tb, p, now, ttl).entries)
    ensures Undecided(Enter(tb, p, now, ttl).entries) == Undecided(tb.entries) + {|tb.entries|}
  {
    var tb' := Enter(tb, p, now, ttl);
    forall r | 0 <= r < |tb'.entries| ensures Reachable(tb', r) {
      if r < |tb.entries| {
        assert Reachable(tb, r);
      }
    }
  }

  lemma MarkTable(tb: Table, refs: set<Ref>)
    requires TableInv(tb)
    ensures TableInv(tb.(entries := Marked(tb.entries, refs))) && Grows(tb.entries, Marked(tb.entries, refs))
    ensures Undecided(Marked(tb.entries, refs)) == Undecided(tb.entries) - refs
  {
    var tb' := tb.(entries := Marked(tb.entries, refs));
    forall r | 0 <= r < |tb'.entries| ensures Reachable(tb', r) {
      assert Reachable(tb, r);
    }
  }

  lemma SweepTable(tb: Table, at: int)
    requires TableInv(tb)
    ensures TableInv(Swept(tb, at))
  {
    var tb' := Swept(tb, at);
    forall r | 0 <= r < |tb'.entries| ensures Reachable(tb', r) {
      assert Reachable(tb, r);
    }
  }

  lemma SetTable(tb: Table, r: Ref, e: Entry)
    requires TableInv(tb) && r < |tb.entries| && EntryOk(e) && Forward(tb.entries[r], e)
    requires e.resolved == tb.entries[r].resolved
    ensures TableInv(tb.(entries := tb.entries[r := e])) && Grows(tb.entries, tb.entries[r := e])
    ensures Undecided(tb.entries[r := e]) == Undecided(tb.entries)
  {
    var tb' := tb.(entries := tb.entries[r := e]);
    forall i | 0 <= i < |tb'.entries| ensures Reachable(tb', i) {
      assert Reachable(tb, i);
    }
  }

  /** Counting ids in the table counts the undecided entries. */
  lemma SameCount(tb: Table)
    requires TableInv(tb)
    ensures |UndecidedIds(tb)| == |Undecided(tb.entries)|
  {
    var ids := UndecidedIds(tb);
    var refs := set id | id in ids :: tb.byId[id];
    forall r | r in Undecided(tb.entries) ensures r in refs {
      assert Reachable(tb, r);
      assert tb.entries[r].pending.id in ids;
    }
    assert refs == Undecided(tb.entries);
    ImageSize(tb, ids);
  }

  lemma {:induction false} ImageSize(tb: Table, ids: set<Id>)
    requires TableInv(tb) && ids <= tb.byId.Keys
    ensures |set id | id in ids :: tb.byId[id]| == |ids|
    decreases |ids|
  {
    if ids != {} {
      var x :| x in ids;
      var rest := ids - {x};
      ImageSize(tb, rest);
      var image := set id | id in rest :: tb.byId[id];
      assert forall id :: id in rest ==> tb.entries[tb.byId[id]].pending.id == id;
      assert tb.entries[tb.byId[x]].pending.id == x;
      assert tb.byId[x] !in image;
      assert (set id | id in ids :: tb.byId[id]) == image + {tb.byId[x]};
    }
  }

  lemma EntriesOk(tb: Table)
    requires TableInv(tb)
    ensures forall r :: 0 <= r < |tb.entries| ==> EntryOk(tb.entries[r])
  {
    forall r | 0 <= r < |tb.entries| ensures EntryOk(tb.entries[r]) {
      assert Reachable(tb, r);
    }
  }

  // ----------------------------------------------------------------- steps

  /** Call `t`, which settles nothing, moves to `c`, which settles nothing. */
  lemma CallMoves(es: seq<Entry>, calls: seq<Call>, t: nat, c: Call)
    requires Calls(es, calls) && Owners(es, calls) && t < |calls|
    requires !calls[t].Deciding? && !c.Deciding? && CallOk(es, c)
    ensures Calls(es, calls[t := c]) && Owners(es, calls[t := c])
  {
    OwnersKeep(es, es, calls, calls[t := c]);
  }

  lemma StartKeeps(s: State, c: Call)
    requires Inv(s) && (c.Adding? || c.Resolving? || c == Sweeping(s.clock))
    ensures Inv(s.(calls := s.calls + [c]))
  {
    OwnersKeep(s.table.entries, s.table.entries, s.calls, s.calls + [c]);
  }

  lemma AddKeeps(s: State, t: nat)
    requires Inv(s) && Enabled(s, LockAdd(t))
    ensures Inv(NextAdd(s, t))
  {
    var p, es := s.calls[t].p, s.table.entries;
    SameCount(s.table);
    if p.id in s.table.byId {
      CallMoves(es, s.calls, t, Waiting(s.table.byId[p.id]));
    } else if |UndecidedIds(s.table)| >= s.max {
      CallMoves(es, s.calls, t, Full);
    } else {
      EnterTable(s.table, p, s.clock, s.ttl);
      EntriesOk(s.table);
      EnterKeeps(es, NewEntry(p, s.clock, s.ttl), s.calls, s.log, t);
    }
  }

  /** A new entry disturbs no call and no note. */
  lemma EnterKeeps(es: seq<Entry>, e: Entry, calls: seq<Call>, log: seq<Note>, t: nat)
    requires Calls(es, calls) && Owners(es, calls) && LogInv(es, log)
    requires forall r :: 0 <= r < |es| ==> EntryOk(es[r])
    requires t < |calls| && !calls[t].Deciding? && !e.resolved && !e.notified
    ensures var es', calls' := es + [e], calls[t := Announcing(|es|)];
            Calls(es', calls') && Owners(es', calls') && LogInv(es', log)
  {
    assert Grows(es, es + [e]);
    CallsStep(es, es + [e], calls, t, Announcing(|es|));
    OwnersKeep(es, es + [e], calls, calls[t := Announcing(|es|)]);
    NotesFrame(es, es + [e], log);
  }

  /** Deciding the undecided entries `refs`, in call `t`. */
  lemma TakeKeeps(es: seq<Entry>, calls: seq<Call>, log: seq<Note>, t: nat, res: Resolution, todo: seq<Ref>, refs: set<Ref>)
    requires Calls(es, calls) && Owners(es, calls) && LogInv(es, log)
    requires forall r :: 0 <= r < |es| ==> EntryOk(es[r])
    requires t < |calls| && !calls[t].Deciding? && NoDup(todo) && (set r | r in todo) == refs
    requires forall r :: r in refs ==> r < |es| && !es[r].resolved
    ensures var es', calls' := Marked(es, refs), calls[t := Deciding(res, todo, Write)];
            Calls(es', calls') && Owners(es', calls') && LogInv(es', log)
  {
    var es', c := Marked(es, refs), Deciding(res, todo, Write);
    OwnersTake(es, calls, t, c, refs);
    forall k | 0 <= k < |todo| ensures todo[k] < |es'| && InStage(c, es'[todo[k]], k == 0) {
      assert todo[k] in (set r | r in todo) && todo[k] in refs;
      assert EntryOk(es[todo[k]]);
    }
    assert forall u: nat, r: Ref :: Owns(calls, u, r) ==> r < |es| && es'[r] == es[r];
    CallsStep(es, es', calls, t, c);
    NotesFrame(es, es', log);
  }

  lemma ResolveKeeps(s: State, t: nat)
    requires Inv(s) && Enabled(s, LockResolve(t))
    ensures Inv(NextResolve(s, t))
  {
    var c, es := s.calls[t], s.table.entries;
    if !IsPending(s.table, c.id) {
      CallMoves(es, s.calls, t, NotPending);
    } else {
      var ref := s.table.byId[c.id];
      MarkTable(s.table, {ref});
      EntriesOk(s.table);
      SubsetSize(Undecided(Marked(es, {ref})), Undecided(es));
      TakeKeeps(es, s.calls, s.log, t, Resolution(c.verdict, c.remembered, false), [ref], {ref});
    }
  }

  lemma SweepKeeps(s: State, t: nat, todo: seq<Ref>)
    requires Inv(s) && Enabled(s, LockSweep(t, todo))
    ensures Inv(Next(s, LockSweep(t, todo)))
  {
    var at, es := s.calls[t].at, s.table.entries;
    var refs := Expired(es, at);
    MarkTable(s.table, refs);
    SweepTable(s.table, at);
    EntriesOk(s.table);
    SubsetSize(Undecided(Marked(es, refs)), Undecided(es));
    TakeKeeps(es, s.calls, s.log, t, Resolution(Deny, false, true), todo, refs);
  }

  /** Call `t` rewrites the entry it is settling: no other call is disturbed. */
  lemma HeadStep(s: State, t: nat, e: Entry, c: Call)
    requires Inv(s) && Enabled(s, Act(t)) && CallOk(s.table.entries[s.calls[t].todo[0] := e], c)
    requires Forward(s.table.entries[s.calls[t].todo[0]], e) && EntryOk(e)
    requires e.resolved == s.table.entries[s.calls[t].todo[0]].resolved
    ensures Calls(s.table.entries[s.calls[t].todo[0] := e], s.calls[t := c])
    ensures TableInv(s.table.(entries := s.table.entries[s.calls[t].todo[0] := e]))
    ensures Grows(s.table.entries, s.table.entries[s.calls[t].todo[0] := e])
    ensures Undecided(s.table.entries[s.calls[t].todo[0] := e]) == Undecided(s.table.entries)
  {
    var ref, es := s.calls[t].todo[0], s.table.entries;
    SetTable(s.table, ref, e);
    EntriesOk(s.table);
    assert Owns(s.calls, t, ref);
    CallsStep(es, es[ref := e], s.calls, t, c);
  }

  lemma HeadInStage(s: State, t: nat)
    requires Inv(s) && Enabled(s, Act(t))
    ensures InStage(s.calls[t], s.table.entries[s.calls[t].todo[0]], true)
    ensures EntryOk(s.table.entries[s.calls[t].todo[0]])
  {
    EntriesOk(s.table);
    assert CallOk(s.table.entries, s.calls[t]);
  }

  lemma ActKeeps(s: State, t: nat)
    requires Inv(s) && Enabled(s, Act(t))
    ensures Inv(NextAct(s, t))
  {
    HeadInStage(s, t);
    match s.calls[t].stage
    case Write => WriteKeeps(s, t);
    case Notify => NotifyKeeps(s, t);
    case Close => CloseKeeps(s, t);
  }

  lemma WriteKeeps(s: State, t: nat)
    requires Inv(s) && Enabled(s, Act(t)) && s.calls[t].stage == Write
    ensures Inv(NextAct(s, t))
  {
    HeadInStage(s, t);
    var c, es := s.calls[t], s.table.entries;
    var ref := c.todo[0];
    var e', c' := es[ref].(result := Some(c.res)), c.(stage := Notify);
    TodoUpdated(es, c, e', c');
    HeadStep(s, t, e', c');
    OwnersKeep(es, es[ref := e'], s.calls, s.calls[t := c']);
    NotesFrame(es, es[ref := e'], s.log);
  }

  /** The call's own condition, after it rewrote its first entry. */
  lemma TodoUpdated(es: seq<Entry>, c: Call, e': Entry, c': Call)
    requires CallOk(es, c) && c.Deciding? && c.todo != [] && c'.Deciding? && c'.todo == c.todo && c'.res == c.res
    requires InStage(c', e', true)
    ensures CallOk(es[c.todo[0] := e'], c')
  {
  }

  lemma NotifyKeeps(s: State, t: nat)
    requires Inv(s) && Enabled(s, Act(t)) && s.calls[t].stage == Notify
    ensures Inv(NextAct(s, t))
  {
    HeadInStage(s, t);
    var c, es := s.calls[t], s.table.entries;
    var ref := c.todo[0];
    var e', c' := es[ref].(notified := true), c.(stage := Close);
    TodoUpdated(es, c, e', c');
    HeadStep(s, t, e', c');
    OwnersKeep(es, es[ref := e'], s.calls, s.calls[t := c']);
    NotifyLog(es, s.log, ref, c.res);
  }

  lemma NotifyLog(es: seq<Entry>, log: seq<Note>, ref: Ref, res: Resolution)
    requires LogInv(es, log) && ref < |es| && es[ref].result == Some(res) && !es[ref].notified
    ensures LogInv(es[ref := es[ref].(notified := true)], log + [Resolved(ref, es[ref].pending, res)])
  {
    var es', n := es[ref := es[ref].(notified := true)], Resolved(ref, es[ref].pending, res);
    var log' := log + [n];
    forall k | 0 <= k < |log'| ensures NoteOk(es', log', k) {
      if k < |log| {
        assert NoteOk(es, log, k);
        NotePrefix(es, log, n, k);
      } else {
        forall j | 0 <= j < |log| && log'[j].Resolved? ensures log'[j].ref != ref {
          assert NoteOk(es, log, j);
        }
      }
    }
    forall r | 0 <= r < |es'| && es'[r].notified ensures exists k :: 0 <= k < |log'| && log'[k].Resolved? && log'[k].ref == r {
      if r == ref {
        assert log'[|log|] == n;
      } else {
        var k :| 0 <= k < |log| && log[k].Resolved? && log[k].ref == r;
        assert log'[k] == log[k];
      }
    }
  }

  lemma CloseKeeps(s: State, t: nat)
    requires Inv(s) && Enabled(s, Act(t)) && s.calls[t].stage == Close
    ensures Inv(NextAct(s, t))
  {
    HeadInStage(s, t);
    var c, es := s.calls[t], s.table.entries;
    var ref := c.todo[0];
    var e', c' := es[ref].(closed := true), c.(todo := c.todo[1..], stage := Write);
    TodoShortened(es, c, e', c');
    HeadStep(s, t, e', c');
    OwnersRelease(es, s.calls, t, e', c');
    NotesFrame(es, es[ref := e'], s.log);
  }

  lemma TodoShortened(es: seq<Entry>, c: Call, e': Entry, c': Call)
    requires CallOk(es, c) && c.Deciding? && c.todo != [] && c' == c.(todo := c.todo[1..], stage := Write)
    ensures CallOk(es[c.todo[0] := e'], c')
  {
    var es' := es[c.todo[0] := e'];
    forall k | 0 <= k < |c'.todo| ensures c'.todo[k] < |es'| && InStage(c', es'[c'.todo[k]], k == 0) {
      assert c'.todo[k] == c.todo[k + 1] && c.todo[k + 1] != c.todo[0];
    }
  }

  lemma OwnersRelease(es: seq<Entry>, calls: seq<Call>, t: nat, e': Entry, c': Call)
    requires Owners(es, calls) && t < |calls| && calls[t].Deciding? && calls[t].todo != [] && calls[t].todo[0] < |es|
    requires c' == calls[t].(todo := calls[t].todo[1..], stage := Write) && e'.closed
    ensures Owners(es[calls[t].todo[0] := e'], calls[t := c'])
  {
    var ref, es', calls' := calls[t].todo[0], es[calls[t].todo[0] := e'], calls[t := c'];
    assert calls[t].todo == [ref] + c'.todo;
    assert forall u, r :: Owns(calls', u, r) ==> Owns(calls, u, r);
    forall r | 0 <= r < |es'| && es'[r].resolved && !es'[r].closed ensures exists u :: Owns(calls', u, r) {
      var u :| Owns(calls, u, r);
      assert Owns(calls', u, r);
    }
  }

  lemma WakeKeeps(s: State, t: nat)
    requires Inv(s) && Enabled(s, Wake(t))
    ensures Inv(Next(s, Wake(t)))
  {
    var es, ref := s.table.entries, s.calls[t].ref;
    var res := Outcome(es[ref]);
    EntriesOk(s.table);
    CallMoves(es, s.calls, t, Answered(ref, res.verdict, res.remembered));
    var n := Returned(t, ref, res.verdict, res.remembered);
    var j :| 0 <= j < |s.log| && s.log[j].Resolved? && s.log[j].ref == ref;
    assert NoteOk(es, s.log, j);
    assert (s.log + [n])[j] == s.log[j];
    NotesAppend(es, s.log, n);
  }

  lemma AnnounceKeeps(s: State, t: nat)
    requires Inv(s) && Enabled(s, Announce(t))
    ensures Inv(Next(s, Announce(t)))
  {
    assert CallOk(s.table.entries, s.calls[t]);
    CallMoves(s.table.entries, s.calls, t, Waiting(s.calls[t].ref));
    NotesAppend(s.table.entries, s.log, Added(s.calls[t].ref));
  }

  lemma StepKeeps(s: State, st: Step)
    requires Inv(s) && Enabled(s, st)
    ensures Inv(Next(s, st))
  {
    match st
    case Tick(_) =>
    case StartAdd(p) => StartKeeps(s, Adding(p));
    case StartResolve(id, verdict, remembered) => StartKeeps(s, Resolving(id, verdict, remembered));
    case StartSweep => StartKeeps(s, Sweeping(s.clock));
    case LockAdd(t) => AddKeeps(s, t);
    case LockResolve(t) => ResolveKeeps(s, t);
    case LockSweep(t, todo) => SweepKeeps(s, t, todo);
    case Announce(t) => AnnounceKeeps(s, t);
    case Act(t) => ActKeeps(s, t);
    case Wake(t) => WakeKeeps(s, t);
  }

  // ------------------------------------------------------------------- runs

  ghost predicate Reaches(s: State, steps: seq<Step>, s': State)
    decreases |steps|
  {
    if steps == [] then s' == s
    else InRange(s.table) && Enabled(s, steps[0]) && Reaches(Next(s, steps[0]), steps[1..], s')
  }

  lemma {:induction false} RunKeeps(s: State, steps: seq<Step>, s': State)
    requires Inv(s) && Reaches(s, steps, s')
    ensures Inv(s') && s'.max == s.max && Grows(s.table.entries, s'.table.entries)
    decreases |steps|
  {
    if steps != [] {
      StepKeeps(s, steps[0]);
      StepForward(s, steps[0]);
      RunKeeps(Next(s, steps[0]), steps[1..], s');
      GrowsTransitive(s.table.entries, Next(s, steps[0]).table.entries, s'.table.entries);
    } else {
      assert Grows(s.table.entries, s'.table.entries);
    }
  }

  lemma GrowsTransitive(a: seq<Entry>, b: seq<Entry>, c: seq<Entry>)
    requires Grows(a, b) && Grows(b, c)
    ensures Grows(a, c)
  {
    forall r | 0 <= r < |a| ensures Forward(a[r], c[r]) {
      assert Forward(a[r], b[r]) && Forward(b[r], c[r]);
    }
  }

  /** No step undoes a decision or rewrites a result. */
  lemma StepForward(s: State, st: Step)
    requires Inv(s) && Enabled(s, st)
    ensures Grows(s.table.entries, Next(s, st).table.entries)
  {
    match st
    case LockAdd(t) =>
      if s.calls[t].p.id !in s.table.byId {
        EnterTable(s.table, s.calls[t].p, s.clock, s.ttl);
      }
    case LockResolve(t) =>
      if IsPending(s.table, s.calls[t].id) {
        MarkTable(s.table, {s.table.byId[s.calls[t].id]});
      }
    case LockSweep(t, todo) => MarkTable(s.table, Expired(s.table.entries, s.calls[t].at));
    case Act(t) => HeadInStage(s, t);
    case _ =>
  }

  /** One decision, one callback, then the waiters: what the log of any run shows. */
  ghost predicate OneDecision(log: seq<Note>) {
    && (forall j, k :: 0 <= j < |log| && 0 <= k < |log| && log[j].Resolved? && log[k].Resolved? && log[j].ref == log[k].ref ==> j == k)
    && (forall k :: 0 <= k < |log| && log[k].Returned? ==> CallbackBefore(log, k))
    && (forall j, k :: 0 <= j < |log| && 0 <= k < |log| && log[j].Returned? && log[k].Returned? && log[j].ref == log[k].ref ==>
          log[j].verdict == log[k].verdict && log[j].remembered == log[k].remembered)
  }

  ghost predicate CallbackBefore(log: seq<Note>, k: nat)
    requires k < |log| && log[k].Returned?
  {
    exists j :: 0 <= j < k && log[j].Resolved? && log[j].ref == log[k].ref
      && log[j].res.verdict == log[k].verdict && log[j].res.remembered == log[k].remembered
  }

  lemma LogShowsOneDecision(es: seq<Entry>, log: seq<Note>)
    requires LogInv(es, log)
    ensures OneDecision(log)
  {
    forall j, k | 0 <= j < k < |log| && log[j].Resolved? && log[k].Resolved? ensures log[j].ref != log[k].ref {
      assert NoteOk(es, log, k);
    }
    forall k | 0 <= k < |log| && log[k].Returned? ensures CallbackBefore(log, k) {
      assert NoteOk(es, log, k);
    }
  }

  predicate SameUndecidedId(es: seq<Entry>, q: Ref, r: Ref) {
    q in Undecided(es) && r in Undecided(es) && es[q].pending.id == es[r].pending.id
  }

  /** In every interleaving of Add, Resolve and the sweep: one decision and one
      callback for each entry, before any Add on it returns, and all of those
      with that verdict; at most `max` undecided, no two with the same id. */
  lemma EveryRun(max: int, ttl: int, clock: int, steps: seq<Step>, s: State)
    requires Reaches(Init(max, ttl, clock), steps, s)
    ensures OneDecision(s.log)
    ensures |Undecided(s.table.entries)| <= (if max <= 0 then DEFAULT_MAX else max)
    ensures forall q, r :: SameUndecidedId(s.table.entries, q, r) ==> q == r
    ensures forall t :: 0 <= t < |s.calls| && (s.calls[t].Waiting? || s.calls[t].Announcing?) ==> NotStranded(s, s.calls[t].ref)
  {
    InitInv(max, ttl, clock);
    RunKeeps(Init(max, ttl, clock), steps, s);
    LogShowsOneDecision(s.table.entries, s.log);
    forall q, r | SameUndecidedId(s.table.entries, q, r) ensures q == r {
      assert Reachable(s.table, q) && Reachable(s.table, r);
    }
    forall t | 0 <= t < |s.calls| && (s.calls[t].Waiting? || s.calls[t].Announcing?) ensures NotStranded(s, s.calls[t].ref) {
      assert CallOk(s.table.entries, s.calls[t]);
      WaiterIsServed(s, s.calls[t].ref);
    }
  }

  /** What a call waiting on `r` has to hope for: it is closed, or one call is
      settling it, or Resolve and the next sweep past its expiry will find it. */
  ghost predicate NotStranded(s: State, r: Ref) {
    && InRange(s.table) && r < |s.table.entries|
    && var e := s.table.entries[r];
       if e.closed then e.result.Some?
       else if e.resolved then exists t :: Owns(s.calls, t, r) && forall u :: Owns(s.calls, u, r) ==> u == t
       else IsPending(s.table, e.pending.id) && s.table.byId[e.pending.id] == r
  }

  lemma WaiterIsServed(s: State, r: Ref)
    requires Inv(s) && r < |s.table.entries|
    ensures NotStranded(s, r)
  {
    assert Reachable(s.table, r);
    var e := s.table.entries[r];
    if e.resolved && !e.closed {
      var t :| Owns(s.calls, t, r);
      assert forall u :: Owns(s.calls, u, r) ==> u == t;
    }
  }

  /** A sweep that read the clock at `at` leaves nothing undecided at or past its
      expiry, and no later run brings any back: what is undecided now expires
      after every sweep so far. */
  lemma SweepClears(s: State, t: nat, todo: seq<Ref>, steps: seq<Step>, s': State)
    requires Inv(s) && Enabled(s, LockSweep(t, todo)) && Reaches(Next(s, LockSweep(t, todo)), steps, s')
    ensures forall r :: r in Undecided(s'.table.entries) ==> s.calls[t].at < s'.table.entries[r].pending.expires
  {
    StepKeeps(s, LockSweep(t, todo));
    RunKeeps(Next(s, LockSweep(t, todo)), steps, s');
    SweptGrows(Next(s, LockSweep(t, todo)), steps, s');
  }

  lemma {:induction false} SweptGrows(s: State, steps: seq<Step>, s': State)
    requires s.swept.Some? && Reaches(s, steps, s')
    ensures s'.swept.Some? && s.swept.value <= s'.swept.value
    decreases |steps|
  {
    if steps != [] {
      SweptGrows(Next(s, steps[0]), steps[1..], s');
    }
  }

  /** An Add under an id already decided, before the next sweep, joins the decided
      entry: nobody is asked again. */
  lemma LateRepeatJoins(s: State, st: Step, r: Ref, steps: seq<Step>, s': State, t: nat)
    requires Inv(s) && Enabled(s, st) && r in Undecided(s.table.entries) && r !in Undecided(Next(s, st).table.entries)
    requires Reaches(Next(s, st), steps, s') && forall k :: 0 <= k < |steps| ==> !steps[k].LockSweep?
    requires Enabled(s', LockAdd(t)) && s'.calls[t].p.id == s.table.entries[r].pending.id && InRange(s'.table)
    ensures Next(s', LockAdd(t)) == s'.(calls := s'.calls[t := Waiting(r)])
  {
    DecisionLingers(s, st, r);
    LookupStays(Next(s, st), steps, s', s.table.entries[r].pending.id);
  }

  /** The step that decides an entry leaves it in the lookup. */
  lemma DecisionLingers(s: State, st: Step, r: Ref)
    requires Inv(s) && Enabled(s, st) && r in Undecided(s.table.entries)
    ensures var id, byId := s.table.entries[r].pending.id, Next(s, st).table.byId; id in byId && byId[id] == r
  {
    assert Reachable(s.table, r);
  }

  /** Only a sweep takes an id out of the lookup. */
  lemma {:induction false} LookupStays(s: State, steps: seq<Step>, s': State, id: Id)
    requires Reaches(s, steps, s') && id in s.table.byId
    requires forall k :: 0 <= k < |steps| ==> !steps[k].LockSweep?
    ensures id in s'.table.byId && s'.table.byId[id] == s.table.byId[id]
    decreases |steps|
  {
    if steps != [] {
      assert !steps[0].LockSweep?;
      LookupStays(Next(s, steps[0]), steps[1..], s', id);
    }
  }

  // --------------------------------------------- whose request was decided

  /** The same request, whenever it was added. */
  predicate SameRequest(p: Pending, q: Pending) {
    p.id == q.id && p.client == q.client && p.body == q.body
  }

  /** Call `c` waits on entry `r`, or has its answer. */
  predicate WaitsOn(c: Call, r: Ref) {
    c == Announcing(r) || c == Waiting(r) || (c.Answered? && c.ref == r)
  }

  lemma {:induction false} StaysOn(s: State, steps: seq<Step>, s': State, t: nat, r: Ref)
    requires Reaches(s, steps, s') && t < |s.calls| && WaitsOn(s.calls[t], r)
    ensures t < |s'.calls| && WaitsOn(s'.calls[t], r)
    decreases |steps|
  {
    if steps != [] {
      StaysOn(Next(s, steps[0]), steps[1..], s', t, r);
    }
  }

  /** The decision an Add returns was taken on the very request it carried exactly
      when, as it took the lock, the id was free or its entry held that request:
      requests are joined by id alone. */
  lemma OwnDecisionIff(s: State, t: nat, steps: seq<Step>, s': State)
    requires Inv(s) && Enabled(s, LockAdd(t)) && Reaches(Next(s, LockAdd(t)), steps, s')
    requires t < |s'.calls| && s'.calls[t].Answered?
    ensures DecidedOn(s', t)
    ensures var p := s.calls[t].p;
            SameRequest(s'.table.entries[s'.calls[t].ref].pending, p) <==>
            p.id !in s.table.byId || SameRequest(s.table.entries[s.table.byId[p.id]].pending, p)
  {
    var p, s1 := s.calls[t].p, Next(s, LockAdd(t));
    StepKeeps(s, LockAdd(t));
    RunKeeps(s1, steps, s');
    AnswerHasDecision(s', t);
    LockedOn(s, t);
    if s1.calls[t] != Full {
      StaysOn(s1, steps, s', t, s1.calls[t].ref);
      assert Forward(s1.table.entries[s1.calls[t].ref], s'.table.entries[s1.calls[t].ref]);
    } else {
      StaysFull(s1, steps, s', t);
    }
  }

  /** What a locked Add waits on. */
  lemma LockedOn(s: State, t: nat)
    requires Inv(s) && Enabled(s, LockAdd(t))
    ensures var p, s1 := s.calls[t].p, Next(s, LockAdd(t));
            s1.calls[t] == Full
            || (WaitsOn(s1.calls[t], s1.calls[t].ref) && s1.calls[t].ref < |s1.table.entries|
                && (SameRequest(s1.table.entries[s1.calls[t].ref].pending, p) <==>
                    p.id !in s.table.byId || SameRequest(s.table.entries[s.table.byId[p.id]].pending, p)))
  {
  }

  lemma {:induction false} StaysFull(s: State, steps: seq<Step>, s': State, t: nat)
    requires Reaches(s, steps, s') && t < |s.calls| && s.calls[t] == Full
    ensures t < |s'.calls| && s'.calls[t] == Full
    decreases |steps|
  {
    if steps != [] {
      StaysFull(Next(s, steps[0]), steps[1..], s', t);
    }
  }

  /** The callback told of a decision on the request the entry holds, with the
      verdict call `t` returned. */
  ghost predicate DecidedOn(s: State, t: nat)
    requires t < |s.calls| && s.calls[t].Answered?
  {
    var c := s.calls[t];
    c.ref < |s.table.entries|
    && exists k :: 0 <= k < |s.log| && s.log[k].Resolved? && s.log[k].ref == c.ref
         && s.log[k].pending == s.table.entries[c.ref].pending
         && s.log[k].res.verdict == c.verdict && s.log[k].res.remembered == c.remembered
  }

  lemma AnswerHasDecision(s: State, t: nat)
    requires Inv(s) && t < |s.calls| && s.calls[t].Answered?
    ensures DecidedOn(s, t)
  {
    var c := s.calls[t];
    assert CallOk(s.table.entries, c);
    EntriesOk(s.table);
    var k :| 0 <= k < |s.log| && s.log[k].Resolved? && s.log[k].ref == c.ref;
    assert NoteOk(s.table.entries, s.log, k);
  }

  lemma Before(s: State, st: Step, rest: seq<Step>, s': State)
    requires InRange(s.table) && Enabled(s, st) && Reaches(Next(s, st), rest, s')
    ensures Reaches(s, [st] + rest, s')
  {
    assert ([st] + rest)[1..] == rest;
  }

  /** One request approved and answered: the state its entry is left in. */
  function Approved(p: Pending): State {
    var e := Entry(p.(created := 0, expires := 1), true, Some(Resolution(Allow, false, false)), true, true);
    State(1, 1, 0, None, Table([e], map[p.id := 0]),
          [Waiting(0), Deciding(Resolution(Allow, false, false), [], Write)],
          [Added(0), Resolved(0, e.pending, Resolution(Allow, false, false))])
  }

  /** One request waiting. */
  function Asking(p: Pending): State {
    State(1, 1, 0, None, Table([NewEntry(p, 0, 1)], map[p.id := 0]), [Waiting(0)], [Added(0)])
  }

  /** A settling call's entry and stage, as its approval goes on. */
  function Settling(p: Pending, e: Entry, stage: Stage, log: seq<Note>): State {
    State(1, 1, 0, None, Table([e], map[p.id := 0]), [Waiting(0), Deciding(Resolution(Allow, false, false), [0], stage)], log)
  }

  lemma {:induction false} RunConcat(s: State, a: seq<Step>, t: State, b: seq<Step>, u: State)
    requires Reaches(s, a, t) && Reaches(t, b, u)
    ensures Reaches(s, a + b, u)
    decreases |a|
  {
    if a == [] {
      assert a + b == b;
    } else {
      RunConcat(Next(s, a[0]), a[1..], t, b, u);
      assert (a + b)[1..] == a[1..] + b;
    }
  }

  lemma OneStep(s: State, st: Step, s': State)
    requires InRange(s.table) && Enabled(s, st) && Next(s, st) == s'
    ensures Reaches(s, [st], s')
  {
    assert Reaches(s', [], s');
    Before(s, st, [], s');
  }

  lemma AskingIsReached(p: Pending)
    ensures Reaches(Init(1, 1, 0), [StartAdd(p)] + [LockAdd(0)] + [Announce(0)], Asking(p))
  {
    var s0 := Init(1, 1, 0);
    var s1 := s0.(calls := [Adding(p)]);
    var s2 := s1.(calls := [Announcing(0)], table := Table([NewEntry(p, 0, 1)], map[p.id := 0]));
    assert s0.calls + [Adding(p)] == [Adding(p)];
    OneStep(s0, StartAdd(p), s1);
    assert UndecidedIds(s1.table) == {};
    assert Enter(s1.table, p, 0, 1) == s2.table && s1.calls[0 := Announcing(0)] == [Announcing(0)];
    OneStep(s1, LockAdd(0), s2);
    assert s2.calls[0 := Waiting(0)] == [Waiting(0)] && s2.log + [Added(0)] == [Added(0)];
    OneStep(s2, Announce(0), Asking(p));
    RunConcat(s0, [StartAdd(p)], s1, [LockAdd(0)], s2);
    RunConcat(s0, [StartAdd(p)] + [LockAdd(0)], s2, [Announce(0)], Asking(p));
  }

  lemma DecidedIsReached(p: Pending)
    ensures var e := NewEntry(p, 0, 1).(resolved := true);
            Reaches(Asking(p), [StartResolve(p.id, Allow, false)] + [LockResolve(1)], Settling(p, e, Write, [Added(0)]))
  {
    var s0, e := Asking(p), NewEntry(p, 0, 1).(resolved := true);
    var s1 := s0.(calls := [Waiting(0), Resolving(p.id, Allow, false)]);
    assert s0.calls + [Resolving(p.id, Allow, false)] == s1.calls;
    OneStep(s0, StartResolve(p.id, Allow, false), s1);
    assert Marked(s1.table.entries, {0}) == [e];
    var c := Deciding(Resolution(Allow, false, false), [0], Write);
    assert s1.calls[1 := c] == [Waiting(0), c];
    OneStep(s1, LockResolve(1), Settling(p, e, Write, [Added(0)]));
    RunConcat(s0, [StartResolve(p.id, Allow, false)], s1, [LockResolve(1)], Settling(p, e, Write, [Added(0)]));
  }

  /** The write, the callback and the close of that approval. */
  lemma ApprovalSettles(p: Pending)
    ensures var e := NewEntry(p, 0, 1).(resolved := true);
            Reaches(Settling(p, e, Write, [Added(0)]), [Act(1)] + [Act(1)] + [Act(1)], Approved(p))
  {
    var res := Resolution(Allow, false, false);
    var e := NewEntry(p, 0, 1).(resolved := true);
    var e1 := e.(result := Some(res));
    var e2 := e1.(notified := true);
    var log := [Added(0), Resolved(0, e.pending, res)];
    var s0, s1, s2 := Settling(p, e, Write, [Added(0)]), Settling(p, e1, Notify, [Added(0)]), Settling(p, e2, Close, log);
    SettleStep(s0, s1);
    SettleStep(s1, s2);
    SettleStep(s2, Approved(p));
    RunConcat(s0, [Act(1)], s1, [Act(1)], s2);
    RunConcat(s0, [Act(1)] + [Act(1)], s2, [Act(1)], Approved(p));
  }

  lemma SettleStep(s: State, s': State)
    requires |s.calls| == 2 && |s.table.entries| == 1 && s.calls[1].Deciding? && s.calls[1].todo == [0] && InRange(s.table)
    requires |s'.table.entries| == 1 && s'.table.entries[0] == NextAct(s, 1).table.entries[0] && s'.table.byId == s.table.byId && |s'.calls| == 2 && s'.calls[0] == s.calls[0]
    requires s'.calls[1] == NextAct(s, 1).calls[1] && s'.log == NextAct(s, 1).log
    requires s'.max == s.max && s'.ttl == s.ttl && s'.clock == s.clock && s'.swept == s.swept
    ensures Reaches(s, [Act(1)], s')
  {
    var n := NextAct(s, 1);
    assert n.table.entries == s'.table.entries && n.calls == s'.calls;
    OneStep(s, Act(1), s');
  }

  lemma ApprovedIsReached(p: Pending) returns (steps: seq<Step>)
    ensures Reaches(Init(1, 1, 0), steps, Approved(p))
  {
    var e := NewEntry(p, 0, 1).(resolved := true);
    AskingIsReached(p);
    DecidedIsReached(p);
    ApprovalSettles(p);
    var a, b, c := [StartAdd(p)] + [LockAdd(0)] + [Announce(0)], [StartResolve(p.id, Allow, false)] + [LockResolve(1)], [Act(1)] + [Act(1)] + [Act(1)];
    RunConcat(Init(1, 1, 0), a, Asking(p), b, Settling(p, e, Write, [Added(0)]));
    RunConcat(Init(1, 1, 0), a + b, Settling(p, e, Write, [Added(0)]), c, Approved(p));
    steps := a + b + c;
  }

  /** A run in which a different request, under the id of an approved one, is told
      Allow by that approval. */
  lemma OtherRequestJoins(p: Pending, q: Pending) returns (steps: seq<Step>, s: State)
    requires p.id == q.id && !SameRequest(p, q)
    ensures Reaches(Init(1, 1, 0), steps, s)
    ensures |s.calls| == 3 && s.calls[2] == Answered(0, Allow, false)
    ensures |s.table.entries| == 1 && SameRequest(s.table.entries[0].pending, p) && !SameRequest(s.table.entries[0].pending, q)
  {
    var s0 := Approved(p);
    var s1 := Next(s0, StartAdd(q));
    var s2 := Next(s1, LockAdd(2));
    s := Next(s2, Wake(2));
    OneStep(s0, StartAdd(q), s1);
    OneStep(s1, LockAdd(2), s2);
    OneStep(s2, Wake(2), s);
    var before := ApprovedIsReached(p);
    RunConcat(Init(1, 1, 0), before, s0, [StartAdd(q)], s1);
    RunConcat(Init(1, 1, 0), before + [StartAdd(q)], s1, [LockAdd(2)], s2);
    RunConcat(Init(1, 1, 0), before + [StartAdd(q)] + [LockAdd(2)], s2, [Wake(2)], s);
    steps := before + [StartAdd(q)] + [LockAdd(2)] + [Wake(2)];
  }

  // ------------------------------------------------------- who said Allow

  /** A resolution of the request that someone asked for in the past, or an expiry,
      which denies, is not remembered, and has its time come. */
  predicate Ruled(p: Pending, res: Resolution, past: seq<Step>, clock: int) {
    if res.expired then res.verdict == Deny && !res.remembered && p.expires <= clock
    else StartResolve(p.id, res.verdict, res.remembered) in past
  }

  ghost predicate CallSourced(entries: seq<Entry>, c: Call, past: seq<Step>, clock: int) {
    match c
    case Resolving(id, verdict, remembered) => StartResolve(id, verdict, remembered) in past
    case Deciding(res, todo, _) => forall r :: r in todo ==> r < |entries| && Ruled(entries[r].pending, res, past, clock)
    case _ => true
  }

  ghost predicate Sourced(s: State, past: seq<Step>) {
    && (forall t :: 0 <= t < |s.calls| ==> CallSourced(s.table.entries, s.calls[t], past, s.clock))
    && (forall r :: 0 <= r < |s.table.entries| && s.table.entries[r].result.Some? ==>
          Ruled(s.table.entries[r].pending, s.table.entries[r].result.value, past, s.clock))
  }

  /** Requests stay, the past grows: what was sourced stays so. */
  lemma CallStaysSourced(es: seq<Entry>, es': seq<Entry>, c: Call, past: seq<Step>, st: Step, clock: int, clock': int)
    requires CallSourced(es, c, past, clock) && Grows(es, es') && clock <= clock'
    ensures CallSourced(es', c, past + [st], clock')
  {
    if c.Deciding? {
      forall r | r in c.todo ensures r < |es'| && Ruled(es'[r].pending, c.res, past + [st], clock') {
        assert Forward(es[r], es'[r]);
      }
    }
  }

  lemma CallsStaySourced(s: State, s': State, past: seq<Step>, st: Step, t: nat)
    requires Sourced(s, past) && Grows(s.table.entries, s'.table.entries) && t < |s'.calls| && s.clock <= s'.clock
    requires |s.calls| <= |s'.calls| && forall u :: 0 <= u < |s.calls| && u != t ==> s'.calls[u] == s.calls[u]
    requires |s'.calls| <= |s.calls| + 1 && (|s'.calls| > |s.calls| ==> t == |s.calls|)
    requires CallSourced(s'.table.entries, s'.calls[t], past + [st], s'.clock)
    ensures forall u :: 0 <= u < |s'.calls| ==> CallSourced(s'.table.entries, s'.calls[u], past + [st], s'.clock)
  {
    forall u | 0 <= u < |s'.calls| && u != t ensures CallSourced(s'.table.entries, s'.calls[u], past + [st], s'.clock) {
      CallStaysSourced(s.table.entries, s'.table.entries, s.calls[u], past, st, s.clock, s'.clock);
    }
  }

  /** The call a step starts or moves. */
  function Mover(s: State, st: Step): nat {
    match st
    case Tick(_) => 0
    case StartAdd(_) => |s.calls|
    case StartResolve(_, _, _) => |s.calls|
    case StartSweep => |s.calls|
    case LockAdd(t) => t
    case LockResolve(t) => t
    case LockSweep(t, _) => t
    case Announce(t) => t
    case Act(t) => t
    case Wake(t) => t
  }

  lemma OthersUnmoved(s: State, st: Step, t: nat)
    requires Inv(s) && Enabled(s, st) && t < |s.calls| && (st.Tick? || t != Mover(s, st))
    ensures t < |Next(s, st).calls| && Next(s, st).calls[t] == s.calls[t]
  {
  }

  /** A locked Add is refused, or waits on an entry under its id. */
  lemma AddLocked(s: State, t: nat)
    requires Inv(s) && Enabled(s, LockAdd(t))
    ensures var s', id := Next(s, LockAdd(t)), s.calls[t].p.id;
            t < |s'.calls| && (s'.calls[t] == Full
            || ((s'.calls[t].Waiting? || s'.calls[t].Announcing?) && s'.calls[t].ref < |s'.table.entries|
                && s'.table.entries[s'.calls[t].ref].pending.id == id))
  {
  }

  /** The call a step moves is sourced where it gets to. */
  lemma MovedIsSourced(s: State, st: Step, past: seq<Step>, t: nat)
    requires Inv(s) && Enabled(s, st) && Sourced(s, past) && !st.Tick?
    requires t == Mover(s, st)
    ensures t < |Next(s, st).calls| && CallSourced(Next(s, st).table.entries, Next(s, st).calls[t], past + [st], s.clock)
  {
    StepForward(s, st);
    match st
    case LockResolve(_) => ResolveIsSourced(s, t, past);
    case LockSweep(_, todo) =>
      forall r | r in todo ensures r < |s.table.entries| && s.table.entries[r].pending.expires <= s.clock {
        assert r in (set x | x in todo) && r in Expired(s.table.entries, s.calls[t].at);
      }
    case Act(_) =>
      assert CallOk(s.table.entries, s.calls[t]) && CallSourced(s.table.entries, s.calls[t], past, s.clock);
      CallStaysSourced(s.table.entries, Next(s, st).table.entries, s.calls[t], past, st, s.clock, s.clock);
    case _ =>
  }

  lemma ResolveIsSourced(s: State, t: nat, past: seq<Step>)
    requires Inv(s) && Enabled(s, LockResolve(t)) && Sourced(s, past)
    ensures CallSourced(NextResolve(s, t).table.entries, NextResolve(s, t).calls[t], past + [LockResolve(t)], s.clock)
  {
    assert CallSourced(s.table.entries, s.calls[t], past, s.clock);
  }

  /** Only a settling call writes a result. */
  lemma ResultsStay(s: State, st: Step)
    requires Inv(s) && Enabled(s, st) && !st.Act?
    ensures var es, es' := s.table.entries, Next(s, st).table.entries;
            forall r :: 0 <= r < |es'| && es'[r].result.Some? ==> r < |es| && es'[r].result == es[r].result && es'[r].pending == es[r].pending
  {
  }

  lemma WriteIsSourced(s: State, t: nat, past: seq<Step>)
    requires Inv(s) && Enabled(s, Act(t)) && Sourced(s, past)
    ensures var es := NextAct(s, t).table.entries;
            forall r :: 0 <= r < |es| && es[r].result.Some? ==> Ruled(es[r].pending, es[r].result.value, past, s.clock)
  {
    assert CallSourced(s.table.entries, s.calls[t], past, s.clock) && s.calls[t].todo[0] in s.calls[t].todo;
  }

  lemma EntriesStaySourced(s: State, st: Step, past: seq<Step>)
    requires Inv(s) && Enabled(s, st) && Sourced(s, past)
    ensures var es := Next(s, st).table.entries;
            forall r :: 0 <= r < |es| && es[r].result.Some? ==> Ruled(es[r].pending, es[r].result.value, past + [st], Next(s, st).clock)
  {
    if st.Act? {
      WriteIsSourced(s, st.t, past);
    } else {
      ResultsStay(s, st);
    }
  }

  lemma StepSourced(s: State, st: Step, past: seq<Step>)
    requires Inv(s) && Enabled(s, st) && Sourced(s, past)
    ensures Sourced(Next(s, st), past + [st])
  {
    StepForward(s, st);
    EntriesStaySourced(s, st, past);
    var s' := Next(s, st);
    assert s.clock <= s'.clock;
    if st.Tick? {
      forall u | 0 <= u < |s'.calls| ensures CallSourced(s'.table.entries, s'.calls[u], past + [st], s'.clock) {
        CallStaysSourced(s.table.entries, s'.table.entries, s.calls[u], past, st, s.clock, s'.clock);
      }
    } else {
      OneMoved(s, st, past, Mover(s, st));
    }
  }

  lemma OneMoved(s: State, st: Step, past: seq<Step>, t: nat)
    requires Inv(s) && Enabled(s, st) && Sourced(s, past) && !st.Tick?
    requires t == Mover(s, st)
    ensures var s' := Next(s, st); forall u :: 0 <= u < |s'.calls| ==> CallSourced(s'.table.entries, s'.calls[u], past + [st], s'.clock)
  {
    StepForward(s, st);
    MovedIsSourced(s, st, past, t);
    CallsStaySourced(s, Next(s, st), past, st, t);
  }

  lemma {:induction false} RunSourced(s: State, past: seq<Step>, steps: seq<Step>, s': State)
    requires Inv(s) && Sourced(s, past) && Reaches(s, steps, s')
    ensures Sourced(s', past + steps)
    decreases |steps|
  {
    if steps == [] {
      assert past + steps == past;
    } else {
      StepKeeps(s, steps[0]);
      StepSourced(s, steps[0], past);
      RunSourced(Next(s, steps[0]), past + [steps[0]], steps[1..], s');
      assert past + [steps[0]] + steps[1..] == past + steps;
    }
  }

  /** Every callback of a resolution tells what someone resolved under the request's
      id, and says expired only of a request past its expiry, denied and not
      remembered. */
  lemma CallbackIsRuled(max: int, ttl: int, clock: int, steps: seq<Step>, s: State, k: nat)
    requires Reaches(Init(max, ttl, clock), steps, s) && k < |s.log| && s.log[k].Resolved?
    ensures var Resolved(_, p, res) := s.log[k];
            if res.expired then res.verdict == Deny && !res.remembered && p.expires <= s.clock
            else StartResolve(p.id, res.verdict, res.remembered) in steps
    ensures s.log[k].pending.expires == s.log[k].pending.created + if ttl <= 0 then 300_000_000_000 else ttl
  {
    var s0 := Init(max, ttl, clock);
    InitInv(max, ttl, clock);
    RunKeeps(s0, steps, s);
    LimitsStay(s0, steps, s);
    RunSourced(s0, [], steps, s);
    assert [] + steps == steps && NoteOk(s.table.entries, s.log, k);
  }

  lemma {:induction false} LimitsStay(s: State, steps: seq<Step>, s': State)
    requires Reaches(s, steps, s')
    ensures s'.ttl == s.ttl && s'.max == s.max && s.clock <= s'.clock
    decreases |steps|
  {
    if steps != [] {
      LimitsStay(Next(s, steps[0]), steps[1..], s');
    }
  }

  /** The request that enters is the one asked about, dated now and due after the
      time to live. */
  lemma EntersAsAsked(s: State, t: nat)
    requires Inv(s) && Enabled(s, LockAdd(t)) && s.calls[t].p.id !in s.table.byId && |Undecided(s.table.entries)| < s.max
    ensures var s', p := Next(s, LockAdd(t)), s.calls[t].p;
            && |s'.table.entries| == |s.table.entries| + 1 && s'.table.entries[..|s.table.entries|] == s.table.entries
            && var e := s'.table.entries[|s.table.entries|];
            && e.pending.id == p.id && e.pending.client == p.client && e.pending.body == p.body
            && e.pending.created == s.clock && e.pending.expires == s.clock + s.ttl
            && !e.resolved && !e.notified && !e.closed && e.result == None
  {
    SameCount(s.table);
  }

  /** An Add that returns Allow was decided by a Resolve with Allow for the id of its
      entry: an expiry only ever denies. */
  lemma AllowMeansResolve(max: int, ttl: int, clock: int, steps: seq<Step>, s: State, t: nat)
    requires Reaches(Init(max, ttl, clock), steps, s) && t < |s.calls| && s.calls[t].Answered? && s.calls[t].verdict == Allow
    ensures s.calls[t].ref < |s.table.entries|
    ensures StartResolve(s.table.entries[s.calls[t].ref].pending.id, Allow, s.calls[t].remembered) in steps
  {
    var s0 := Init(max, ttl, clock);
    InitInv(max, ttl, clock);
    RunKeeps(s0, steps, s);
    RunSourced(s0, [], steps, s);
    assert [] + steps == steps;
    assert CallOk(s.table.entries, s.calls[t]);
    EntriesOk(s.table);
  }

  // --------------------------------------------------------------- progress

  function Remaining(c: Call): nat
    requires c.Deciding?
  {
    if c.todo == [] then 0 else 3 * |c.todo| - (match c.stage case Write => 0 case Notify => 1 case Close => 2)
  }

  /** A call that decided entries closes them all by its own steps alone: none of
      those steps waits for anyone. */
  lemma {:induction false} DeciderSettles(s: State, t: nat)
    requires Inv(s) && t < |s.calls| && s.calls[t].Deciding?
    ensures exists s' :: Reaches(s, Repeat(Act(t), Remaining(s.calls[t])), s') && Settled(s', t, s.calls[t].todo)
    decreases Remaining(s.calls[t])
  {
    var c := s.calls[t];
    if c.todo == [] {
      assert Settled(s, t, c.todo);
    } else {
      ActAdvances(s, t);
      var s1 := Next(s, Act(t));
      DeciderSettles(s1, t);
      var n := Remaining(s1.calls[t]);
      var s' :| Reaches(s1, Repeat(Act(t), n), s') && Settled(s', t, s1.calls[t].todo);
      assert Repeat(Act(t), n + 1)[1..] == Repeat(Act(t), n);
      RunKeeps(s1, Repeat(Act(t), n), s');
      SettledToo(s1, s', t, c.todo);
      assert Settled(s', t, c.todo);
    }
  }

  /** One step of a decider: never blocked, and one closer to done. */
  lemma ActAdvances(s: State, t: nat)
    requires Inv(s) && t < |s.calls| && s.calls[t].Deciding? && s.calls[t].todo != []
    ensures Enabled(s, Act(t)) && Inv(Next(s, Act(t)))
    ensures var c' := Next(s, Act(t)).calls[t];
            c'.Deciding? && Remaining(c') == Remaining(s.calls[t]) - 1
    ensures ClosedOrLeft(Next(s, Act(t)), t, s.calls[t].todo)
  {
    var c := s.calls[t];
    assert CallOk(s.table.entries, c) && InStage(c, s.table.entries[c.todo[0]], true);
    StepKeeps(s, Act(t));
    assert c.todo == [c.todo[0]] + c.todo[1..];
  }

  ghost predicate ClosedOrLeft(s: State, t: nat, refs: seq<Ref>) {
    forall r :: r in refs ==> Owns(s.calls, t, r) || (r < |s.table.entries| && s.table.entries[r].closed)
  }

  lemma SettledToo(s: State, s': State, t: nat, refs: seq<Ref>)
    requires t < |s.calls| && s.calls[t].Deciding? && Settled(s', t, s.calls[t].todo)
    requires ClosedOrLeft(s, t, refs) && Grows(s.table.entries, s'.table.entries)
    ensures Settled(s', t, refs)
  {
    forall r | r in refs ensures r < |s'.table.entries| && s'.table.entries[r].closed {
      if !Owns(s.calls, t, r) {
        assert Forward(s.table.entries[r], s'.table.entries[r]);
      }
    }
  }

  ghost predicate Settled(s: State, t: nat, refs: seq<Ref>) {
    && t < |s.calls| && s.calls[t].Deciding? && s.calls[t].todo == []
    && forall r :: r in refs ==> r < |s.table.entries| && s.table.entries[r].closed
  }

  function Repeat(st: Step, n: nat): seq<Step> {
    seq(n, _ => st)
  }

  /** And no other call's step takes that work away. */
  lemma OthersLeaveDecider(s: State, st: Step, t: nat)
    requires Inv(s) && Enabled(s, st) && st != Act(t) && t < |s.calls| && s.calls[t].Deciding?
    ensures Next(s, st).calls[t] == s.calls[t]
  {
  }

  // ------------------------------------------------- the sections, as a class

  datatype AddOutcome = Joined(ref: Ref) | Entered(ref: Ref) | Refused

  class Queue {
    var entries: seq<Entry>
    var byId: map<Id, Ref>
    var max: nat
    var ttl: int

    function Contents(): Table
      reads this
    {
      Table(entries, byId)
    }

    ghost predicate Valid()
      reads this
    {
      TableInv(Contents())
    }

    constructor (limit: int, life: int)
      ensures Valid() && Contents() == Init(limit, life, 0).table
      ensures max == Init(limit, life, 0).max && ttl == Init(limit, life, 0).ttl
    {
      entries, byId := [], map[];
      max := if limit <= 0 then DEFAULT_MAX else limit;
      ttl := if life <= 0 then DEFAULT_TTL else life;
    }

    method Get(id: Id) returns (r: Option<Pending>)
      requires Valid()
      ensures r.Some? <==> exists k :: k in Undecided(entries) && entries[k].pending.id == id
      ensures r.Some? ==> exists k :: k in Undecided(entries) && entries[k].pending == r.value && r.value.id == id
    {
      forall k | k in Undecided(entries) && entries[k].pending.id == id ensures id in byId && byId[id] == k {
        assert Reachable(Contents(), k);
      }
      if id !in byId || entries[byId[id]].resolved {
        return None;
      }
      assert byId[id] in Undecided(entries);
      r := Some(entries[byId[id]].pending);
    }

    /** The locked part of Add. */
    method AddSection(p: Pending, now: int) returns (r: AddOutcome)
      requires Valid()
      modifies this`entries, this`byId
      ensures Valid()
      ensures match r
              case Joined(ref) =>
                p.id in old(byId) && ref == old(byId)[p.id] && Contents() == old(Contents())
              case Refused =>
                p.id !in old(byId) && |Undecided(old(entries))| >= max && Contents() == old(Contents())
              case Entered(ref) =>
                p.id !in old(byId) && |Undecided(old(entries))| < max && ref == |old(entries)|
                && Contents() == Enter(old(Contents()), p, now, ttl)
    {
      if p.id in byId {
        return Joined(byId[p.id]);
      }
      var n := CountPending(Contents());
      if n >= max {
        return Refused;
      }
      EnterTable(Contents(), p, now, ttl);
      r := Entered(|entries|);
      byId := byId[p.id := |entries|];
      entries := entries + [NewEntry(p, now, ttl)];
    }

    /** The locked part of Resolve: the entry it takes, if it is still undecided. */
    method ResolveSection(id: Id) returns (r: Option<Ref>)
      requires Valid()
      modifies this`entries
      ensures Valid()
      ensures r.Some? <==> IsPending(old(Contents()), id)
      ensures r.Some? ==> r.value == byId[id] && entries == Marked(old(entries), {r.value})
      ensures r.None? ==> entries == old(entries)
    {
      if id !in byId || entries[byId[id]].resolved {
        return None;
      }
      MarkTable(Contents(), {byId[id]});
      assert Marked(entries, {byId[id]}) == entries[byId[id] := entries[byId[id]].(resolved := true)];
      r := Some(byId[id]);
      entries := entries[byId[id] := entries[byId[id]].(resolved := true)];
    }

    /** The locked part of the sweep. */
    method SweepSection(now: int) returns (todo: seq<Ref>)
      requires Valid()
      modifies this`entries, this`byId
      ensures Valid() && Contents() == Swept(old(Contents()), now)
      ensures NoDup(todo) && (set r | r in todo) == Expired(old(entries), now)
    {
      SweepTable(Contents(), now);
      entries, byId, todo := SweepLoop(Contents(), now);
    }
  }

  /** How many requests in the table are still undecided. */
  method CountPending(tb: Table) returns (n: nat)
    requires TableInv(tb)
    ensures n == |Undecided(tb.entries)|
  {
    n := 0;
    var left := tb.byId.Keys;
    assert UndecidedIds(tb) * left == UndecidedIds(tb);
    while left != {}
      invariant left <= tb.byId.Keys
      invariant n + |UndecidedIds(tb) * left| == |UndecidedIds(tb)|
    {
      var id :| id in left;
      VisitOne(UndecidedIds(tb), left, id);
      if !tb.entries[tb.byId[id]].resolved {
        n := n + 1;
      }
      left := left - {id};
    }
    SameCount(tb);
  }

  /** Of the keys left to visit, those in `among`, less the one visited. */
  lemma VisitOne(among: set<Id>, left: set<Id>, id: Id)
    requires id in left
    ensures |among * left| == |among * (left - {id})| + (if id in among then 1 else 0)
  {
    assert among * left == among * (left - {id}) + (if id in among then {id} else {});
  }

  lemma PruneOne(tb: Table, left: set<Id>, prune: set<Id>, id: Id)
    requires InRange(tb) && id in left && prune + DecidedIds(tb) * left == DecidedIds(tb)
    ensures (if id in DecidedIds(tb) then prune + {id} else prune) + DecidedIds(tb) * (left - {id}) == DecidedIds(tb)
  {
  }

  /** The walk over the table: an entry decided before is dropped from the lookup,
      one at or past its expiry is decided now. */
  method SweepLoop(tb: Table, now: int) returns (entries: seq<Entry>, byId: map<Id, Ref>, todo: seq<Ref>)
    requires TableInv(tb)
    ensures Table(entries, byId) == Swept(tb, now)
    ensures NoDup(todo) && (set r | r in todo) == Expired(tb.entries, now)
  {
    entries, byId, todo := tb.entries, tb.byId, [];
    var left, prune: set<Id> := byId.Keys, {};
    assert Marked(entries, {}) == entries;
    NothingSeen(tb, now);
    while left != {}
      invariant left <= byId.Keys
      invariant prune + DecidedIds(tb) * left == DecidedIds(tb)
      invariant NoDup(todo) && (set r | r in todo) == ExpiredOutside(tb, left, now)
      invariant entries == Marked(tb.entries, ExpiredOutside(tb, left, now))
    {
      var id :| id in left;
      var ref := byId[id];
      PruneOne(tb, left, prune, id);
      ExpiredOneMore(tb, left, id, now);
      if entries[ref].resolved {
        prune := prune + {id};
      } else if entries[ref].pending.expires <= now {
        NoDupAppend(todo, ref);
        MarkedOneMore(tb.entries, ExpiredOutside(tb, left, now), ref);
        todo := todo + [ref];
        entries := entries[ref := entries[ref].(resolved := true)];
      }
      left := left - {id};
    }
    AllExpired(tb, now);
    byId := byId - prune;
  }

  lemma NoDupAppend(todo: seq<Ref>, r: Ref)
    requires NoDup(todo) && r !in (set x | x in todo)
    ensures NoDup(todo + [r]) && (set x | x in todo + [r]) == (set x | x in todo) + {r}
  {
    assert forall k :: 0 <= k < |todo| ==> todo[k] in (set x | x in todo);
  }

  /** The expired entries the sweep has come across, with `left` to visit. */
  ghost function ExpiredOutside(tb: Table, left: set<Id>, at: int): set<Ref>
    requires InRange(tb)
  {
    set id | id in tb.byId && id !in left && tb.byId[id] in Expired(tb.entries, at) :: tb.byId[id]
  }

  lemma NothingSeen(tb: Table, at: int)
    requires InRange(tb)
    ensures ExpiredOutside(tb, tb.byId.Keys, at) == {}
  {
  }

  lemma ExpiredOneMore(tb: Table, left: set<Id>, id: Id, at: int)
    requires TableInv(tb) && id in tb.byId && id in left
    ensures tb.byId[id] !in ExpiredOutside(tb, left, at)
    ensures ExpiredOutside(tb, left - {id}, at)
            == if tb.byId[id] in Expired(tb.entries, at) then ExpiredOutside(tb, left, at) + {tb.byId[id]}
               else ExpiredOutside(tb, left, at)
  {
    forall x | x in tb.byId && x != id ensures tb.byId[x] != tb.byId[id] {
      assert tb.entries[tb.byId[x]].pending.id == x;
    }
  }

  lemma MarkedOneMore(es: seq<Entry>, refs: set<Ref>, r: Ref)
    requires r < |es|
    ensures Marked(es, refs + {r}) == Marked(es, refs)[r := Marked(es, refs)[r].(resolved := true)]
  {
  }

  lemma AllExpired(tb: Table, at: int)
    requires TableInv(tb)
    ensures ExpiredOutside(tb, {}, at) == Expired(tb.entries, at)
  {
    forall r | r in Expired(tb.entries, at) ensures r in ExpiredOutside(tb, {}, at) {
      assert Reachable(tb, r);
      assert tb.byId[tb.entries[r].pending.id] == r;
    }
  }
}
