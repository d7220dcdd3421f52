/** Each attestation approves one request: the persistent used set
    (signer/usedset.go), pruned on every start, and the part of
    Server.authorize that consumes attestations (signer/server.go). */
module UsedAttestations {
  import opened Common
  import opened Attestations

  /** usedRetention: an hour more than the largest max_age. */
  const RETENTION: int := MAX_ATTESTATION_AGE + Nanos(3_600)

  datatype UsedEntry = UsedEntry(id: Id, createdAt: int)

  // ----------------------------------------------------------------- the file

  /** A line of the file: an entry, or one that does not parse. */
  datatype Line = Whole(entry: UsedEntry) | Bad

  /** What follows the last line break: nothing, part of an entry, or an entry
      without its line break. */
  datatype Rest = NoRest | Fragment | Unended(entry: UsedEntry)

  datatype File = File(lines: seq<Line>, rest: Rest)

  /** The ids lines hold, a later one over an earlier one. */
  function LineIds(lines: seq<Line>): (r: map<Id, int>)
    ensures "" !in r
  {
    if lines == [] then map[]
    else
      var n := |lines| - 1;
      if lines[n].Whole? && lines[n].entry.id != "" then LineIds(lines[..n])[lines[n].entry.id := lines[n].entry.createdAt]
      else LineIds(lines[..n])
  }

  /** The ids a load finds. */
  function OnDisk(f: File): map<Id, int> {
    LineIds(f.lines + (if f.rest.Unended? then [Whole(f.rest.entry)] else []))
  }

  function Cutoff(now: int): int { (now - RETENTION) / 1_000_000_000 }

  function Pruned(ids: map<Id, int>, now: int): map<Id, int> {
    map id | id in ids && ids[id] >= Cutoff(now) :: ids[id]
  }

  function Lines(entries: seq<UsedEntry>): seq<Line> {
    seq(|entries|, i requires 0 <= i < |entries| => Whole(entries[i]))
  }

  /** How far a write got into the entry after the last it wrote whole. */
  datatype Part = NoPart | SomePart | AllButBreak

  predicate Within(n: nat, kept: nat, part: Part) {
    kept <= n && (part != NoPart ==> kept < n)
  }

  predicate Wrote(entries: seq<UsedEntry>, kept: nat, part: Part) {
    Within(|entries|, kept, part)
  }

  function RestOf(entries: seq<UsedEntry>, kept: nat, part: Part): Rest
    requires Wrote(entries, kept, part)
  {
    match part
    case NoPart => NoRest
    case SomePart => Fragment
    case AllButBreak => Unended(entries[kept])
  }

  /** A write of `entries` that got through `kept` of them, and `part` of the next.
      What is written after an unfinished line is glued onto it, and that line no
      longer parses. */
  function Append(f: File, entries: seq<UsedEntry>, kept: nat, part: Part): File
    requires Wrote(entries, kept, part)
  {
    if kept == 0 && part == NoPart then f
    else if f.rest == NoRest then File(f.lines + Lines(entries[..kept]), RestOf(entries, kept, part))
    else if kept == 0 then File(f.lines, Fragment)
    else File(f.lines + [Bad] + Lines(entries[1..kept]), RestOf(entries, kept, part))
  }

  // ---------------------------------------------------------------- requests

  /** A sign_event request that a rule with requirements selected. `timeOf`
      stands for the hash: an event that verifies has a nonempty id, and that id
      fixes its time. */
  datatype Request = Request(specs: seq<Spec>, atts: seq<Event>, context: Context)

  ghost predicate Authentic(atts: seq<Event>, timeOf: Id -> int) {
    forall a :: a in atts && a.verifies ==> a.id != "" && a.createdAt == timeOf(a.id)
  }

  /** The entry authorize records for an id: the time of the first attestation
      listed under it. */
  function FirstWithId(atts: seq<Event>, id: Id): (k: nat)
    requires exists a :: a in atts && a.id == id
    ensures k < |atts| && atts[k].id == id
    ensures forall i :: 0 <= i < k ==> atts[i].id != id
  {
    if atts[0].id == id then 0 else
      assert exists a :: a in atts[1..] && a.id == id by {
        var a :| a in atts && a.id == id;
        assert a in atts[1..];
      }
      FirstWithId(atts[1..], id) + 1
  }

  function EntriesFor(atts: seq<Event>, picked: seq<nat>): (r: seq<UsedEntry>)
    requires forall i :: 0 <= i < |picked| ==> picked[i] < |atts|
    ensures |r| == |picked|
    ensures forall i :: 0 <= i < |picked| ==> r[i].id == atts[picked[i]].id
    ensures forall i, j :: 0 <= i < |picked| && 0 <= j < |picked| && r[i].id == r[j].id ==> r[i] == r[j]
  {
    seq(|picked|, i requires 0 <= i < |picked| =>
      var id := atts[picked[i]].id;
      assert atts[picked[i]] in atts;
      UsedEntry(id, atts[FirstWithId(atts, id)].createdAt))
  }

  // --------------------------------------------------------------- the steps

  datatype Process = Down | Up(started: int, ids: map<Id, int>)

  /** `allowed` is the history: the ids each allowed request consumed. */
  datatype State = State(file: File, proc: Process, clock: int, allowed: seq<seq<Id>>)

  /** What a run may meet: `reach`, the longest a requirement lets an attestation
      outlive a start (the smaller of its max_age and the clock skew); `lag`, by
      how many seconds the date recorded for an attestation may precede its own;
      whether a write may follow an unfinished line; and whether authorizations
      may overlap, so that one decides on an older view of the set. The signer is
      called for sign_event under the socket server's sign lock, so they do not. */
  datatype Conditions = Conditions(reach: int, lag: nat, glue: bool, overlap: bool)

  datatype Step =
    | Start(now: int, rewritten: seq<Line>)
    | Crash
    | Pass(now: int)
    | Authorize(now: int, req: Request, picked: seq<nat>)
    | AppendFails(now: int, req: Request, picked: seq<nat>, kept: nat, part: Part)
    | CrashInAppend(now: int, req: Request, picked: seq<nat>, kept: nat, part: Part)

  predicate Reaches(spec: Spec, skew: int, reach: int) {
    spec.maxAge <= reach || skew <= reach
  }

  /** The policy allowed the request and chose these attestations. */
  ghost predicate Chosen(s: State, now: int, req: Request, picked: seq<nat>, timeOf: Id -> int, k: Conditions) {
    && s.proc.Up? && now >= s.clock
    && AllValidated(req.specs, req.context.signerPub)
    && (forall spec :: spec in req.specs ==> Reaches(spec, req.context.skew, k.reach))
    && Authentic(req.atts, timeOf)
    && req.context.now == now && req.context.startTime == Some(s.proc.started)
    && req.context.used <= s.proc.ids.Keys && (!k.overlap ==> req.context.used == s.proc.ids.Keys)
    && IsFullChoice(req.specs, req.atts, req.context, picked)
    && (forall i :: 0 <= i < |picked| ==> EntriesFor(req.atts, picked)[i].createdAt + k.lag >= req.atts[picked[i]].createdAt)
    && (!k.glue ==> s.file.rest == NoRest || picked == [])
  }

  ghost predicate Enabled(s: State, step: Step, timeOf: Id -> int, k: Conditions) {
    match step
    case Start(now, rewritten) => s.proc.Down? && now >= s.clock && LineIds(rewritten) == Pruned(OnDisk(s.file), now)
    case Crash => s.proc.Up?
    case Pass(now) => now >= s.clock
    case Authorize(now, req, picked) => Chosen(s, now, req, picked, timeOf, k)
    case AppendFails(now, req, picked, kept, part) =>
      Chosen(s, now, req, picked, timeOf, k) && Wrote(EntriesFor(req.atts, picked), kept, part)
    case CrashInAppend(now, req, picked, kept, part) =>
      Chosen(s, now, req, picked, timeOf, k) && Wrote(EntriesFor(req.atts, picked), kept, part)
  }

  function WithEntries(ids: map<Id, int>, entries: seq<UsedEntry>): map<Id, int> {
    if entries == [] then ids
    else
      var n := |entries| - 1;
      WithEntries(ids, entries[..n])[entries[n].id := entries[n].createdAt]
  }

  ghost function Next(s: State, step: Step, timeOf: Id -> int, k: Conditions): State
    requires Enabled(s, step, timeOf, k)
  {
    match step
    case Start(now, rewritten) => State(File(rewritten, NoRest), Up(now, Pruned(OnDisk(s.file), now)), now, s.allowed)
    case Crash => s.(proc := Down)
    case Pass(now) => s.(clock := now)
    case Authorize(now, req, picked) =>
      var entries := EntriesFor(req.atts, picked);
      State(Append(s.file, entries, |entries|, NoPart), s.proc.(ids := WithEntries(s.proc.ids, entries)), now,
            s.allowed + [Consumed(req.atts, picked)])
    case AppendFails(now, req, picked, kept, part) =>
      s.(file := Append(s.file, EntriesFor(req.atts, picked), kept, part), clock := now)
    case CrashInAppend(now, req, picked, kept, part) =>
      State(Append(s.file, EntriesFor(req.atts, picked), kept, part), Down, now, s.allowed)
  }

  /** No id in two of the lists. */
  ghost predicate OnceEach(allowed: seq<seq<Id>>) {
    forall i, j, id :: 0 <= i < j < |allowed| && id in allowed[i] ==> id !in allowed[j]
  }

  ghost predicate Run(states: seq<State>, steps: seq<Step>, timeOf: Id -> int, k: Conditions) {
    && |states| == |steps| + 1
    && states[0].file == File([], NoRest) && states[0].proc.Down? && states[0].allowed == []
    && forall i :: 0 <= i < |steps| ==> Enabled(states[i], steps[i], timeOf, k) && states[i + 1] == Next(states[i], steps[i], timeOf, k)
  }

  // ----------------------------------------------------------- the invariant

  /** A start at this time, or later, is too late for the attestation. */
  ghost predicate OutOfReach(timeOf: Id -> int, id: Id, now: int, k: Conditions) {
    Nanos(timeOf(id)) + k.reach < now
  }

  /** A start while the attestation is in reach finds it on file, dated so that it
      is not pruned. */
  ghost predicate KeptOnFile(ids: map<Id, int>, timeOf: Id -> int, id: Id, k: Conditions) {
    id in ids && Nanos(timeOf(id)) + k.reach < Nanos(ids[id] + 1) + RETENTION
  }

  /** The id can not be consumed again, in this process or a later one. */
  ghost predicate Guarded(s: State, id: Id, timeOf: Id -> int, k: Conditions) {
    && (s.proc.Up? ==> id in s.proc.ids || OutOfReach(timeOf, id, s.proc.started, k))
    && (OutOfReach(timeOf, id, s.clock, k) || KeptOnFile(OnDisk(s.file), timeOf, id, k))
  }

  ghost predicate AllGuarded(s: State, timeOf: Id -> int, k: Conditions) {
    forall i, id {:trigger id in s.allowed[i]} :: 0 <= i < |s.allowed| && id in s.allowed[i] ==> Guarded(s, id, timeOf, k)
  }

  ghost predicate Inv(s: State, timeOf: Id -> int, k: Conditions) {
    (s.proc.Up? ==> s.proc.started <= s.clock) && AllGuarded(s, timeOf, k) && OnceEach(s.allowed)
  }

  /** The three things that keep the law. */
  predicate Lawful(k: Conditions) {
    !k.glue && !k.overlap && Nanos(k.lag) + k.reach < RETENTION + Nanos(1)
  }

  // -------------------------------------------------------- what a file holds

  function IdsOf(entries: seq<UsedEntry>): set<Id> {
    set i | 0 <= i < |entries| :: entries[i].id
  }

  /** Later lines change only the ids they name. */
  lemma {:induction false} LineIdsAppend(lines: seq<Line>, entries: seq<UsedEntry>)
    ensures forall id :: id !in IdsOf(entries) ==>
              (id in LineIds(lines + Lines(entries)) <==> id in LineIds(lines))
              && (id in LineIds(lines) ==> LineIds(lines + Lines(entries))[id] == LineIds(lines)[id])
  {
    if entries == [] {
      assert lines + Lines(entries) == lines;
    } else {
      var n := |entries| - 1;
      LineIdsAppend(lines, entries[..n]);
      LinesSnoc(lines, entries);
      assert IdsOf(entries) == IdsOf(entries[..n]) + {entries[n].id};
    }
  }

  lemma LinesSnoc(lines: seq<Line>, entries: seq<UsedEntry>)
    requires entries != []
    ensures lines + Lines(entries) == lines + Lines(entries[..|entries| - 1]) + [Whole(entries[|entries| - 1])]
    ensures LineIds(lines + Lines(entries)) ==
            var front, e := LineIds(lines + Lines(entries[..|entries| - 1])), entries[|entries| - 1];
            if e.id != "" then front[e.id := e.createdAt] else front
  {
    var all, front := lines + Lines(entries), lines + Lines(entries[..|entries| - 1]);
    assert all == front + [Whole(entries[|entries| - 1])];
    assert all[..|all| - 1] == front;
  }

  /** What was appended is on file, with the date it carries. */
  lemma {:induction false} LineIdsHave(lines: seq<Line>, entries: seq<UsedEntry>, i: nat)
    requires i < |entries| && entries[i].id != ""
    requires forall a, b :: 0 <= a < |entries| && 0 <= b < |entries| && entries[a].id == entries[b].id ==> entries[a] == entries[b]
    ensures entries[i].id in LineIds(lines + Lines(entries))
    ensures LineIds(lines + Lines(entries))[entries[i].id] == entries[i].createdAt
  {
    var n := |entries| - 1;
    LinesSnoc(lines, entries);
    if entries[i].id != entries[n].id {
      assert entries[..n][i] == entries[i];
      LineIdsHave(lines, entries[..n], i);
    }
  }

  /** A write onto a finished file adds a prefix of the entries to what a load finds. */
  lemma AppendLands(f: File, entries: seq<UsedEntry>, kept: nat, part: Part) returns (n: nat)
    requires Wrote(entries, kept, part) && (f.rest == NoRest || entries == [])
    ensures n <= |entries| && (part == NoPart ==> n == kept)
    ensures f.rest == NoRest ==> OnDisk(Append(f, entries, kept, part)) == LineIds(f.lines + Lines(entries[..n]))
    ensures entries == [] ==> Append(f, entries, kept, part) == f
  {
    n := if part == AllButBreak then kept + 1 else kept;
    if f.rest == NoRest {
      if part == AllButBreak {
        LinesSnoc(f.lines, entries[..n]);
        assert entries[..n][..kept] == entries[..kept];
      } else {
        assert f.lines + Lines(entries[..n]) + [] == f.lines + Lines(entries[..n]);
        assert kept == 0 ==> f.lines + Lines(entries[..n]) == f.lines && f.lines + [] == f.lines;
      }
    }
  }

  // --------------------------------------------------- what every step keeps

  /** An entry dropped on a start is dated more than the retention before it; so
      one that is kept on file is still there at any start in its reach. */
  lemma InReachIsKept(ids: map<Id, int>, now: int, timeOf: Id -> int, id: Id, k: Conditions)
    requires KeptOnFile(ids, timeOf, id, k) && !OutOfReach(timeOf, id, now, k)
    ensures id in Pruned(ids, now) && Pruned(ids, now)[id] == ids[id]
  {
    assert Nanos(Cutoff(now)) <= now - RETENTION;
  }

  lemma StartKeeps(s: State, now: int, rewritten: seq<Line>, timeOf: Id -> int, k: Conditions)
    requires Inv(s, timeOf, k) && Enabled(s, Start(now, rewritten), timeOf, k)
    ensures Inv(Next(s, Start(now, rewritten), timeOf, k), timeOf, k)
  {
    var s' := Next(s, Start(now, rewritten), timeOf, k);
    assert rewritten + [] == rewritten;
    forall i, id | 0 <= i < |s'.allowed| && id in s'.allowed[i] ensures Guarded(s', id, timeOf, k) {
      assert Guarded(s, id, timeOf, k);
      if !OutOfReach(timeOf, id, now, k) {
        InReachIsKept(OnDisk(s.file), now, timeOf, id, k);
      }
    }
  }

  /** What a chosen attestation satisfies: it was not used as far as the request
      could see, and is in reach of this process. */
  lemma ChosenInReach(s: State, now: int, req: Request, picked: seq<nat>, timeOf: Id -> int, k: Conditions, i: nat)
    requires Chosen(s, now, req, picked, timeOf, k) && s.proc.started <= s.clock && i < |picked|
    ensures var a := req.atts[picked[i]];
            a.id != "" && a.id !in req.context.used && a.createdAt == timeOf(a.id) && !OutOfReach(timeOf, a.id, s.proc.started, k)
  {
    assert Passes(req.specs, req.atts, req.context, i, picked[i]);
    assert req.atts[picked[i]] in req.atts && req.specs[i] in req.specs;
  }

  /** Nothing chosen was consumed before. */
  lemma ChosenIsNew(s: State, now: int, req: Request, picked: seq<nat>, timeOf: Id -> int, k: Conditions, i: nat, j: nat)
    requires Inv(s, timeOf, k) && Lawful(k) && Chosen(s, now, req, picked, timeOf, k) && i < |picked| && j < |s.allowed|
    ensures req.atts[picked[i]].id !in s.allowed[j]
  {
    ChosenInReach(s, now, req, picked, timeOf, k, i);
    assert AllGuarded(s, timeOf, k);
  }

  /** A write leaves what was consumed before guarded. */
  lemma AppendGuards(s: State, now: int, req: Request, picked: seq<nat>, kept: nat, part: Part, timeOf: Id -> int, k: Conditions)
    requires Inv(s, timeOf, k) && Lawful(k) && Chosen(s, now, req, picked, timeOf, k)
    requires Wrote(EntriesFor(req.atts, picked), kept, part)
    ensures AllGuarded(s.(file := Append(s.file, EntriesFor(req.atts, picked), kept, part), clock := now), timeOf, k)
  {
    var entries := EntriesFor(req.atts, picked);
    var s' := s.(file := Append(s.file, entries, kept, part), clock := now);
    var n := AppendLands(s.file, entries, kept, part);
    if s.file.rest == NoRest {
      LineIdsAppend(s.file.lines, entries[..n]);
      assert s.file.lines + [] == s.file.lines;
    }
    forall j, id | 0 <= j < |s.allowed| && id in s.allowed[j] ensures Guarded(s', id, timeOf, k) {
      assert Guarded(s, id, timeOf, k);
      forall i | 0 <= i < n ensures entries[..n][i].id != id {
        ChosenIsNew(s, now, req, picked, timeOf, k, i, j);
      }
    }
  }

  lemma {:induction false} WithEntriesKeys(ids: map<Id, int>, entries: seq<UsedEntry>)
    ensures WithEntries(ids, entries).Keys == ids.Keys + IdsOf(entries)
  {
    if entries != [] {
      var n := |entries| - 1;
      WithEntriesKeys(ids, entries[..n]);
      assert IdsOf(entries) == IdsOf(entries[..n]) + {entries[n].id};
    }
  }

  /** A pick is on file after it is consumed, dated closely enough. */
  lemma PickIsKept(s: State, now: int, req: Request, picked: seq<nat>, timeOf: Id -> int, k: Conditions, i: nat)
    requires Inv(s, timeOf, k) && Lawful(k) && Chosen(s, now, req, picked, timeOf, k) && i < |picked|
    ensures var entries := EntriesFor(req.atts, picked);
            KeptOnFile(OnDisk(Append(s.file, entries, |entries|, NoPart)), timeOf, req.atts[picked[i]].id, k)
  {
    var entries := EntriesFor(req.atts, picked);
    ChosenInReach(s, now, req, picked, timeOf, k, i);
    var n := AppendLands(s.file, entries, |entries|, NoPart);
    assert entries[..n] == entries;
    LineIdsHave(s.file.lines, entries, i);
    DateIsClose(entries[i].createdAt, req.atts[picked[i]].createdAt, k);
  }

  lemma DateIsClose(recorded: int, created: int, k: Conditions)
    requires Lawful(k) && recorded + k.lag >= created
    ensures Nanos(created) + k.reach < Nanos(recorded + 1) + RETENTION
  {
  }

  lemma AuthorizeKeeps(s: State, now: int, req: Request, picked: seq<nat>, timeOf: Id -> int, k: Conditions)
    requires Inv(s, timeOf, k) && Lawful(k) && Chosen(s, now, req, picked, timeOf, k)
    ensures Inv(Next(s, Authorize(now, req, picked), timeOf, k), timeOf, k)
  {
    var s', entries, ids := Next(s, Authorize(now, req, picked), timeOf, k), EntriesFor(req.atts, picked), Consumed(req.atts, picked);
    AppendGuards(s, now, req, picked, |entries|, NoPart, timeOf, k);
    WithEntriesKeys(s.proc.ids, entries);
    forall id | id in ids ensures Guarded(s', id, timeOf, k) && forall j :: 0 <= j < |s.allowed| ==> id !in s.allowed[j] {
      var i :| 0 <= i < |ids| && ids[i] == id;
      assert entries[i].id == id && id in IdsOf(entries);
      PickIsKept(s, now, req, picked, timeOf, k, i);
      forall j | 0 <= j < |s.allowed| ensures id !in s.allowed[j] {
        ChosenIsNew(s, now, req, picked, timeOf, k, i, j);
      }
    }
    OldStayGuarded(s.(file := s'.file, clock := now), s', timeOf, k);
  }

  lemma OldStayGuarded(s: State, s': State, timeOf: Id -> int, k: Conditions)
    requires AllGuarded(s, timeOf, k) && s'.file == s.file && s'.clock == s.clock && s.proc.Up? && s'.proc.Up?
    requires s'.proc.started == s.proc.started && s.proc.ids.Keys <= s'.proc.ids.Keys
    requires |s'.allowed| == |s.allowed| + 1 && s'.allowed[..|s.allowed|] == s.allowed && OnceEach(s.allowed)
    requires forall id :: id in s'.allowed[|s.allowed|] ==> Guarded(s', id, timeOf, k) && forall j :: 0 <= j < |s.allowed| ==> id !in s.allowed[j]
    ensures AllGuarded(s', timeOf, k) && OnceEach(s'.allowed)
  {
    forall i, id | 0 <= i < |s'.allowed| && id in s'.allowed[i] ensures Guarded(s', id, timeOf, k) {
      if i < |s.allowed| {
        assert s'.allowed[..|s.allowed|][i] == s'.allowed[i];
        assert Guarded(s, id, timeOf, k);
      }
    }
    forall i, j, id | 0 <= i < j < |s'.allowed| && id in s'.allowed[i] ensures id !in s'.allowed[j] {
      assert s'.allowed[..|s.allowed|][i] == s'.allowed[i];
      assert j < |s.allowed| ==> s'.allowed[..|s.allowed|][j] == s'.allowed[j];
    }
  }

  /** Under these conditions every step keeps every consumed id from being consumed
      again. */
  lemma StepKeeps(s: State, step: Step, timeOf: Id -> int, k: Conditions)
    requires Inv(s, timeOf, k) && Lawful(k) && Enabled(s, step, timeOf, k)
    ensures Inv(Next(s, step, timeOf, k), timeOf, k)
  {
    match step
    case Start(now, rewritten) => StartKeeps(s, now, rewritten, timeOf, k);
    case Crash => assert forall i, id {:trigger id in s.allowed[i]} :: 0 <= i < |s.allowed| && id in s.allowed[i] ==> Guarded(s, id, timeOf, k);
    case Pass(now) => assert forall i, id {:trigger id in s.allowed[i]} :: 0 <= i < |s.allowed| && id in s.allowed[i] ==> Guarded(s, id, timeOf, k);
    case Authorize(now, req, picked) => AuthorizeKeeps(s, now, req, picked, timeOf, k);
    case AppendFails(now, req, picked, kept, part) => AppendGuards(s, now, req, picked, kept, part, timeOf, k);
    case CrashInAppend(now, req, picked, kept, part) => AppendGuards(s, now, req, picked, kept, part, timeOf, k);
  }

  /** Over any such run of authorizations, failed writes, crashes and restarts, no
      attestation id is consumed by two allowed requests. */
  lemma {:induction false} NoAttestationUsedTwice(states: seq<State>, steps: seq<Step>, timeOf: Id -> int, k: Conditions, n: nat)
    requires Run(states, steps, timeOf, k) && Lawful(k) && n < |states|
    ensures Inv(states[n], timeOf, k) && OnceEach(states[n].allowed)
  {
    if n > 0 {
      NoAttestationUsedTwice(states, steps, timeOf, k, n - 1);
      StepKeeps(states[n - 1], steps[n - 1], timeOf, k);
    }
  }

  // ---------------------------------------------------- and without them not

  /** A request that lists an approval made at `created`, and before it another
      event under the same id, dated `first`, that does not verify. */
  function Approval(first: int, created: int, now: int, started: int, skew: int, used: set<Id>): Request {
    Request([Spec("approval", [1], {"approver"}, MAX_ATTESTATION_AGE, [TagFromId("e")])],
            [Event("a", "", 1, first, [], "", false), Event("a", "approver", 1, created, [["e", "target"]], "", true)],
            Context(Event("target", "", 1, created, [], "", false), now, Some(started), skew, "signer", used))
  }

  function MadeAt(created: int): Id -> int {
    _ => created
  }

  lemma ApprovalPasses(first: int, created: int, now: int, started: int, skew: int, used: set<Id>)
    requires Nanos(created) <= now + skew && now - Nanos(created) <= MAX_ATTESTATION_AGE
    requires started - skew <= Nanos(created) && "a" !in used && 0 <= skew
    ensures var req := Approval(first, created, now, started, skew, used);
            IsFullChoice(req.specs, req.atts, req.context, [1])
  {
    var req := Approval(first, created, now, started, skew, used);
    var a := req.atts[1];
    assert TagValues(a.tags, "e") == ["target"] + TagValues(a.tags[1..], "e");
    assert BindHolds(TagFromId("e"), a, req.context);
    assert FirstFailingBind(req.specs[0].binds, a, req.context, 1) == None;
    assert Passes(req.specs, req.atts, req.context, 0, 1);
  }

  lemma ApprovalEntries(first: int, created: int, now: int, started: int, skew: int, used: set<Id>)
    ensures var req := Approval(first, created, now, started, skew, used);
            EntriesFor(req.atts, [1]) == [UsedEntry("a", first)] && Consumed(req.atts, [1]) == ["a"]
            && Authentic(req.atts, MadeAt(created)) && AllValidated(req.specs, req.context.signerPub)
  {
    var req := Approval(first, created, now, started, skew, used);
    assert req.atts[0].id == req.atts[1].id;
  }

  /** An approval a running process takes. */
  lemma ApprovalChosen(s: State, first: int, created: int, now: int, skew: int, used: set<Id>, k: Conditions)
    requires s.proc.Up? && now >= s.clock && used <= s.proc.ids.Keys && (!k.overlap ==> used == s.proc.ids.Keys)
    requires Nanos(created) <= now + skew && now - Nanos(created) <= MAX_ATTESTATION_AGE
    requires s.proc.started - skew <= Nanos(created) && "a" !in used && 0 <= skew <= k.reach
    requires first + k.lag >= created && (!k.glue ==> s.file.rest == NoRest)
    ensures Chosen(s, now, Approval(first, created, now, s.proc.started, skew, used), [1], MadeAt(created), k)
  {
    ApprovalPasses(first, created, now, s.proc.started, skew, used);
    ApprovalEntries(first, created, now, s.proc.started, skew, used);
  }

  lemma TwiceIsNotOnce(allowed: seq<seq<Id>>)
    requires |allowed| == 2 && allowed[0] == ["a"] && allowed[1] == ["a"]
    ensures !OnceEach(allowed)
  {
    assert "a" in allowed[0] && "a" in allowed[1];
  }

  /** A run, and where it has got to. */
  datatype Path = Path(states: seq<State>, steps: seq<Step>) {
    ghost predicate IsRun(timeOf: Id -> int, k: Conditions) {
      Run(states, steps, timeOf, k)
    }

    function Last(): State
      requires states != []
    {
      states[|states| - 1]
    }
  }

  /** One step more. */
  lemma Extend(p: Path, step: Step, timeOf: Id -> int, k: Conditions) returns (p': Path)
    requires p.IsRun(timeOf, k) && Enabled(p.Last(), step, timeOf, k)
    ensures p'.IsRun(timeOf, k) && p'.Last() == Next(p.Last(), step, timeOf, k)
  {
    p' := Path(p.states + [Next(p.Last(), step, timeOf, k)], p.steps + [step]);
    forall i | 0 <= i < |p'.steps|
      ensures Enabled(p'.states[i], p'.steps[i], timeOf, k) && p'.states[i + 1] == Next(p'.states[i], p'.steps[i], timeOf, k)
    {
      if i < |p.steps| {
        assert p'.states[i] == p.states[i] && p'.states[i + 1] == p.states[i + 1] && p'.steps[i] == p.steps[i];
      }
    }
  }

  /** A process that just started, with nothing on file. */
  lemma BeginRun(t: int, timeOf: Id -> int, k: Conditions) returns (p: Path)
    ensures p.IsRun(timeOf, k) && p.Last() == State(File([], NoRest), Up(t, map[]), t, [])
  {
    var none: seq<Line> := [];
    assert none + [] == none && Pruned(map[], t) == map[];
    p := Extend(Path([State(File([], NoRest), Down, t, [])], []), Start(t, none), timeOf, k);
  }

  /** The approval taken: what a fresh process with this file then holds. */
  lemma Approve(p: Path, first: int, created: int, now: int, skew: int, used: set<Id>, k: Conditions) returns (p': Path)
    requires p.IsRun(MadeAt(created), k)
    requires var s := p.Last();
             && s.proc.Up? && now >= s.clock && used <= s.proc.ids.Keys && (!k.overlap ==> used == s.proc.ids.Keys)
             && s.proc.started - skew <= Nanos(created) && (!k.glue ==> s.file.rest == NoRest)
    requires Nanos(created) <= now + skew && now - Nanos(created) <= MAX_ATTESTATION_AGE && "a" !in used
    requires 0 <= skew <= k.reach && first + k.lag >= created
    ensures p'.IsRun(MadeAt(created), k)
    ensures var s, s' := p.Last(), p'.Last();
            && s'.proc.Up? && s'.proc.started == s.proc.started && s'.clock == now && s'.allowed == s.allowed + [["a"]]
            && s'.file == Append(s.file, [UsedEntry("a", first)], 1, NoPart)
  {
    var req := Approval(first, created, now, p.Last().proc.started, skew, used);
    ApprovalChosen(p.Last(), first, created, now, skew, used, k);
    ApprovalEntries(first, created, now, p.Last().proc.started, skew, used);
    p' := Extend(p, Authorize(now, req, [1]), MadeAt(created), k);
  }

  /** A start that forgets the id, and the approval again. */
  lemma AgainAfterStart(p: Path, created: int, at: int, skew: int, k: Conditions) returns (p': Path)
    requires p.IsRun(MadeAt(created), k) && p.Last().proc.Up? && p.Last().allowed == [["a"]]
    requires at >= p.Last().clock && Pruned(OnDisk(p.Last().file), at) == map[]
    requires at - Nanos(created) <= MAX_ATTESTATION_AGE && at - skew <= Nanos(created) <= at && 0 <= skew <= k.reach
    ensures p'.IsRun(MadeAt(created), k) && !OnceEach(p'.Last().allowed)
  {
    p' := Extend(p, Crash, MadeAt(created), k);
    p' := Extend(p', Start(at, []), MadeAt(created), k);
    p' := Approve(p', created, created, at, skew, {}, k);
    TwiceIsNotOnce(p'.Last().allowed);
  }

  /** The law rests on that lock: without it, two authorizations that overlap would
      consume the same attestation. */
  lemma OverlapTwice(k: Conditions) returns (p: Path)
    requires k.overlap && k.reach >= 0
    ensures p.IsRun(MadeAt(0), k) && !OnceEach(p.Last().allowed)
  {
    p := BeginRun(0, MadeAt(0), k);
    p := Approve(p, 0, 0, 0, 0, {}, k);
    p := Approve(p, 0, 0, 0, 0, {}, k);
    TwiceIsNotOnce(p.Last().allowed);
  }

  /** A write after an unfinished line is lost, and with it the consumed id. */
  lemma GluedTwice(k: Conditions) returns (p: Path)
    requires k.glue && k.reach >= 0
    ensures p.IsRun(MadeAt(0), k) && !OnceEach(p.Last().allowed)
  {
    p := BeginRun(0, MadeAt(0), k);
    ApprovalChosen(p.Last(), 0, 0, 0, 0, {}, k);
    ApprovalEntries(0, 0, 0, 0, 0, {});
    p := Extend(p, AppendFails(0, Approval(0, 0, 0, 0, 0, {}), [1], 0, SomePart), MadeAt(0), k);
    p := Approve(p, 0, 0, 0, 0, {}, k);
    GluedForgets(UsedEntry("a", 0));
    p := AgainAfterStart(p, 0, 0, 0, k);
  }

  lemma GluedForgets(e: UsedEntry)
    ensures OnDisk(Append(File([], Fragment), [e], 1, NoPart)) == map[]
  {
    var f, bad: seq<Line> := Append(File([], Fragment), [e], 1, NoPart), [Bad];
    assert Lines([e][1..1]) == [];
    assert f.lines == bad && f.lines + [] == bad && bad[..0] == [];
  }

  /** A recorded date old enough is pruned while the attestation is in reach. */
  lemma MisdatedTwice(k: Conditions) returns (p: Path)
    requires 0 <= k.reach <= MAX_ATTESTATION_AGE && Nanos(k.lag) + k.reach >= RETENTION + Nanos(1)
    ensures p.IsRun(MadeAt(k.lag), k) && !OnceEach(p.Last().allowed)
  {
    var t := Nanos(k.lag);
    p := BeginRun(t, MadeAt(k.lag), k);
    p := Approve(p, 0, k.lag, t, 0, {}, k);
    OldIsPruned(UsedEntry("a", 0), t + k.reach);
    p := AgainAfterStart(p, k.lag, t + k.reach, k.reach, k);
  }

  lemma OldIsPruned(e: UsedEntry, at: int)
    requires e.id != "" && Nanos(e.createdAt + 1) + RETENTION <= at
    ensures Pruned(OnDisk(Append(File([], NoRest), [e], 1, NoPart)), at) == map[]
  {
    var f := Append(File([], NoRest), [e], 1, NoPart);
    assert [e][..1] == [e];
    assert f.lines == [Whole(e)] && f.lines + [] == f.lines;
    assert f.lines[..0] == [];
    assert LineIds(f.lines) == map[e.id := e.createdAt];
    assert e.createdAt + 1 <= Cutoff(at);
  }

  /** No run consumes an attestation twice. */
  ghost predicate AlwaysOnce(k: Conditions) {
    forall timeOf, states: seq<State>, steps :: Run(states, steps, timeOf, k) ==> OnceEach(states[|states| - 1].allowed)
  }

  /** The law holds over all runs exactly when no write follows an unfinished line
      before the next start, authorizations do not overlap, and the date recorded
      for an attestation precedes its own by less than the retention exceeds its
      reach, to the second. */
  lemma UsedOnceIff(k: Conditions)
    requires 0 <= k.reach <= MAX_ATTESTATION_AGE
    ensures AlwaysOnce(k) <==> Lawful(k)
  {
    if Lawful(k) {
      forall timeOf, states: seq<State>, steps | Run(states, steps, timeOf, k) ensures OnceEach(states[|states| - 1].allowed) {
        NoAttestationUsedTwice(states, steps, timeOf, k, |states| - 1);
      }
    } else if k.overlap {
      var p := OverlapTwice(k);
      assert Run(p.states, p.steps, MadeAt(0), k);
    } else if k.glue {
      var p := GluedTwice(k);
      assert Run(p.states, p.steps, MadeAt(0), k);
    } else {
      var p := MisdatedTwice(k);
      assert Run(p.states, p.steps, MadeAt(k.lag), k);
    }
  }

  /** A date that is no more than the hour of slack behind is always harmless. */
  lemma AnHourIsHarmless(k: Conditions)
    requires 0 <= k.reach <= MAX_ATTESTATION_AGE && !k.glue && !k.overlap && k.lag <= 3_600
    ensures AlwaysOnce(k)
  {
    UsedOnceIff(k);
  }

  // ----------------------------------------------------------- the used set

  /** How a write and its sync ended. */
  datatype Outcome = Synced | Failed(kept: nat, part: Part)

  class UsedSet {
    var ids: map<Id, int>
    var file: File

    /** OpenUsedSet: load, drop what is past the retention, rewrite. */
    constructor (onDisk: File, now: int)
      ensures ids == Pruned(OnDisk(onDisk), now) && OnDisk(file) == ids && file.rest == NoRest
    {
      var all := onDisk.lines + if onDisk.rest.Unended? then [Whole(onDisk.rest.entry)] else [];
      var loaded := LoadIds(all);
      var kept := PruneIds(loaded, now);
      var lines := WriteIds(kept);
      assert lines + [] == lines;
      ids := kept;
      file := File(lines, NoRest);
    }

    predicate Has(id: Id)
      reads this
    {
      id in ids
    }

    /** Appends the entries, then remembers them; on an error nothing is
        remembered, and the file holds what was written. */
    method Add(entries: seq<UsedEntry>, out: Outcome) returns (ok: bool)
      requires out.Failed? ==> Wrote(entries, out.kept, out.part)
      modifies this
      ensures ok <==> entries == [] || out.Synced?
      ensures ids == if ok then WithEntries(old(ids), entries) else old(ids)
      ensures file == if ok then Append(old(file), entries, |entries|, NoPart) else Append(old(file), entries, out.kept, out.part)
    {
      if |entries| == 0 {
        return true;
      }
      if out.Failed? {
        file := Append(file, entries, out.kept, out.part);
        return false;
      }
      file := Append(file, entries, |entries|, NoPart);
      for i := 0 to |entries|
        invariant ids == WithEntries(old(ids), entries[..i]) && file == Append(old(file), entries, |entries|, NoPart)
      {
        assert entries[..i + 1][..i] == entries[..i];
        ids := ids[entries[i].id := entries[i].createdAt];
      }
      assert entries[..|entries|] == entries;
      ok := true;
    }
  }

  method LoadIds(lines: seq<Line>) returns (ids: map<Id, int>)
    ensures ids == LineIds(lines)
  {
    ids := map[];
    for i := 0 to |lines|
      invariant ids == LineIds(lines[..i])
    {
      assert lines[..i + 1][..i] == lines[..i];
      if lines[i].Whole? && lines[i].entry.id != "" {
        ids := ids[lines[i].entry.id := lines[i].entry.createdAt];
      }
    }
    assert lines[..|lines|] == lines;
  }

  method PruneIds(ids: map<Id, int>, now: int) returns (kept: map<Id, int>)
    ensures kept == Pruned(ids, now)
  {
    kept := ids;
    var left := ids.Keys;
    while left != {}
      invariant left <= ids.Keys
      invariant kept == map id | id in ids && (id in left || ids[id] >= Cutoff(now)) :: ids[id]
      decreases left
    {
      var id :| id in left;
      if ids[id] < Cutoff(now) {
        kept := kept - {id};
      }
      left := left - {id};
    }
  }

  method WriteIds(ids: map<Id, int>) returns (lines: seq<Line>)
    requires "" !in ids
    ensures LineIds(lines) == ids
  {
    lines := [];
    var left := ids.Keys;
    while left != {}
      invariant left <= ids.Keys
      invariant LineIds(lines) == map id | id in ids && id !in left :: ids[id]
      decreases left
    {
      var id :| id in left;
      ghost var before := lines;
      lines := lines + [Whole(UsedEntry(id, ids[id]))];
      assert lines[..|before|] == before;
      left := left - {id};
    }
  }

  // ---------------------------------------------------------------- authorize

  method FindFirst(atts: seq<Event>, id: Id) returns (k: nat)
    requires exists a :: a in atts && a.id == id
    ensures k == FirstWithId(atts, id)
  {
    k := 0;
    while atts[k].id != id
      invariant 0 <= k <= FirstWithId(atts, id)
      invariant forall i :: 0 <= i < k ==> atts[i].id != id
      decreases FirstWithId(atts, id) - k
    {
      k := k + 1;
    }
  }

  method CollectEntries(atts: seq<Event>, picked: seq<nat>) returns (entries: seq<UsedEntry>)
    requires forall i :: 0 <= i < |picked| ==> picked[i] < |atts|
    ensures entries == EntriesFor(atts, picked)
  {
    entries := [];
    for i := 0 to |picked|
      invariant entries == EntriesFor(atts, picked)[..i]
    {
      var id := atts[picked[i]].id;
      assert atts[picked[i]] in atts;
      var k := FindFirst(atts, id);
      entries := entries + [UsedEntry(id, atts[k].createdAt)];
    }
  }

  /** The consuming part of authorize, for a request whose rule requires these
      attestations and whose other tests passed. It allows exactly when a choice
      exists, the rate does, and the choice could be recorded; what it leaves is
      the file of the Authorize or the AppendFails step. */
  method AuthorizeSign(u: UsedSet, req: Request, rateAllows: bool, out: Outcome) returns (allowed: bool, picked: seq<nat>)
    requires req.context.used == u.ids.Keys
    requires out.Failed? ==> Within(|req.specs|, out.kept, out.part)
    modifies u
    ensures picked != [] ==> IsFullChoice(req.specs, req.atts, req.context, picked)
    ensures allowed <==> && rateAllows && (out.Synced? || req.specs == [])
                         && exists f :: IsFullChoice(req.specs, req.atts, req.context, f)
    ensures allowed ==> && IsFullChoice(req.specs, req.atts, req.context, picked)
                        && (var entries := EntriesFor(req.atts, picked);
                            u.file == Append(old(u.file), entries, |entries|, NoPart) && u.ids == WithEntries(old(u.ids), entries))
    ensures !allowed ==> u.ids == old(u.ids)
    ensures !allowed && picked == [] ==> u.file == old(u.file)
    ensures !allowed && picked != [] ==> out.Failed? && u.file == Append(old(u.file), EntriesFor(req.atts, picked), out.kept, out.part)
  {
    var r := AssignAttestations(req.specs, req.atts, req.context);
    if !r.Assigned? || !rateAllows {
      return false, [];
    }
    picked := r.picked;
    var entries := CollectEntries(req.atts, picked);
    allowed := u.Add(entries, out);
  }
}
