/** The read/write barrier of a local destination (client/stream.go,
    LocalSubscription.Write): one loop reads events, takes the barrier in read
    order and hands each event to a worker. Every interleaving of the loop and
    its workers is a run of the steps below; there is no shutdown. */
module DeleteBarrier {
  import opened Common

  /** Where event i is, once it was read: waiting for the barrier; holding it
      while the loop waits for a free worker; given to a worker; being written;
      written; its barrier released; gone, its worker free again. */
  datatype Phase = Wanting | Locked | Spawned | Writing | Written | Released | Gone

  /** What an observer of the store sees. */
  datatype Obs = Start(i: nat) | End(i: nat)

  /** `phase[i]` belongs to the i-th event read. */
  datatype State = State(phase: seq<Phase>, readers: nat, writer: bool, trace: seq<Obs>)

  datatype Step = Read | Lock | Go | Begin(i: nat) | Finish(i: nat) | Unlock(i: nat) | Exit(i: nat)

  /** Which of the events read are deletions. */
  type Deletes = nat -> bool

  predicate HoldsBarrier(p: Phase) { p.Locked? || p.Spawned? || p.Writing? || p.Written? }
  predicate HoldsWorker(p: Phase) { p.Spawned? || p.Writing? || p.Written? || p.Released? }
  predicate HasStarted(p: Phase) { p.Writing? || HasEnded(p) }
  predicate HasEnded(p: Phase) { p.Written? || p.Released? || p.Gone? }

  // ------------------------------------------------------------------- sums

  function Sum(s: seq<Phase>, w: (nat, Phase) -> nat): nat {
    if s == [] then 0 else Sum(s[..|s| - 1], w) + w(|s| - 1, s[|s| - 1])
  }

  lemma {:induction false} SumUpdate(s: seq<Phase>, w: (nat, Phase) -> nat, i: nat, p: Phase)
    requires i < |s|
    ensures Sum(s[i := p], w) + w(i, s[i]) == Sum(s, w) + w(i, p)
  {
    var n := |s| - 1;
    if i == n {
      assert s[i := p][..n] == s[..n];
    } else {
      SumUpdate(s[..n], w, i, p);
      assert s[i := p][..n] == s[..n][i := p];
    }
  }

  lemma {:induction false} SumAtLeast(s: seq<Phase>, w: (nat, Phase) -> nat, i: nat)
    requires i < |s|
    ensures w(i, s[i]) <= Sum(s, w)
  {
    if i < |s| - 1 {
      SumAtLeast(s[..|s| - 1], w, i);
    }
  }

  lemma {:induction false} SumZero(s: seq<Phase>, w: (nat, Phase) -> nat)
    requires forall i :: 0 <= i < |s| ==> w(i, s[i]) == 0
    ensures Sum(s, w) == 0
  {
    if s != [] {
      SumZero(s[..|s| - 1], w);
    }
  }

  lemma {:induction false} SumPointwise(s: seq<Phase>, v: (nat, Phase) -> nat, w: (nat, Phase) -> nat)
    requires forall i, p :: v(i, p) <= w(i, p)
    ensures Sum(s, v) <= Sum(s, w)
  {
    if s != [] {
      SumPointwise(s[..|s| - 1], v, w);
    }
  }

  function Reads(del: Deletes): (nat, Phase) -> nat {
    (i: nat, p: Phase) => if HoldsBarrier(p) && !del(i) then 1 else 0
  }

  function Writes(del: Deletes): (nat, Phase) -> nat {
    (i: nat, p: Phase) => if HoldsBarrier(p) && del(i) then 1 else 0
  }

  function Workers(): (nat, Phase) -> nat {
    (i: nat, p: Phase) => if HoldsWorker(p) then 1 else 0
  }

  function AtStore(): (nat, Phase) -> nat {
    (i: nat, p: Phase) => if p.Writing? then 1 else 0
  }

  // ------------------------------------------------------------------ steps

  /** The loop is ready to read: the last event it read is with a worker. */
  predicate Idle(s: State) {
    s.phase == [] || !(Last(s).Wanting? || Last(s).Locked?)
  }

  function Last(s: State): Phase
    requires s.phase != []
  {
    s.phase[|s.phase| - 1]
  }

  predicate Enabled(s: State, step: Step, del: Deletes, limit: nat) {
    match step
    case Read => Idle(s)
    case Lock => s.phase != [] && Last(s).Wanting? && !s.writer && (del(|s.phase| - 1) ==> s.readers == 0)
    case Go => s.phase != [] && Last(s).Locked? && Sum(s.phase, Workers()) < limit
    case Begin(i) => i < |s.phase| && s.phase[i].Spawned?
    case Finish(i) => i < |s.phase| && s.phase[i].Writing?
    case Unlock(i) => i < |s.phase| && s.phase[i].Written? && (!del(i) ==> s.readers > 0)
    case Exit(i) => i < |s.phase| && s.phase[i].Released?
  }

  function Next(s: State, step: Step, del: Deletes, limit: nat): State
    requires Enabled(s, step, del, limit)
  {
    var last := |s.phase| - 1;
    match step
    case Read => s.(phase := s.phase + [Wanting])
    case Lock =>
      if del(last) then s.(phase := s.phase[last := Locked], writer := true)
      else s.(phase := s.phase[last := Locked], readers := s.readers + 1)
    case Go => s.(phase := s.phase[last := Spawned])
    case Begin(i) => s.(phase := s.phase[i := Writing], trace := s.trace + [Start(i)])
    case Finish(i) => s.(phase := s.phase[i := Written], trace := s.trace + [End(i)])
    case Unlock(i) =>
      if del(i) then s.(phase := s.phase[i := Released], writer := false)
      else s.(phase := s.phase[i := Released], readers := s.readers - 1)
    case Exit(i) => s.(phase := s.phase[i := Gone])
  }

  // -------------------------------------------------------------- invariant

  /** A write that had to wait for another starts after it ended: the one is a
      deletion, or the other is, and the other was read first. */
  ghost predicate Ordered(trace: seq<Obs>, del: Deletes) {
    forall i: nat, b :: 0 <= b < |trace| && trace[b].Start? && i < trace[b].i && (del(i) || del(trace[b].i)) ==>
      End(i) in trace[..b]
  }

  ghost predicate LockMatches(s: State, del: Deletes) {
    && s.readers == Sum(s.phase, Reads(del))
    && Sum(s.phase, Writes(del)) == (if s.writer then 1 else 0)
    && (s.writer ==> s.readers == 0)
  }

  ghost predicate OnlyLastWaits(s: State) {
    forall i :: 0 <= i < |s.phase| - 1 ==> !s.phase[i].Wanting? && !s.phase[i].Locked?
  }

  /** Once j is past the barrier, all it had to wait for is written. */
  ghost predicate Waited(s: State, del: Deletes) {
    forall i, j :: 0 <= i < j < |s.phase| && !s.phase[j].Wanting? && (del(i) || del(j)) ==> HasEnded(s.phase[i])
  }

  ghost predicate TraceMatches(s: State) {
    && (forall i: nat :: Start(i) in s.trace <==> i < |s.phase| && HasStarted(s.phase[i]))
    && (forall i: nat :: End(i) in s.trace <==> i < |s.phase| && HasEnded(s.phase[i]))
    && NoDup(s.trace)
  }

  ghost predicate Inv(s: State, del: Deletes, limit: nat) {
    && LockMatches(s, del) && OnlyLastWaits(s) && Waited(s, del) && TraceMatches(s) && Ordered(s.trace, del)
    && Sum(s.phase, Workers()) <= limit
  }

  lemma UpdateSums(s: State, i: nat, p: Phase, del: Deletes)
    requires i < |s.phase|
    ensures Sum(s.phase[i := p], Reads(del)) + Reads(del)(i, s.phase[i]) == Sum(s.phase, Reads(del)) + Reads(del)(i, p)
    ensures Sum(s.phase[i := p], Writes(del)) + Writes(del)(i, s.phase[i]) == Sum(s.phase, Writes(del)) + Writes(del)(i, p)
    ensures Sum(s.phase[i := p], Workers()) + Workers()(i, s.phase[i]) == Sum(s.phase, Workers()) + Workers()(i, p)
  {
    SumUpdate(s.phase, Reads(del), i, p);
    SumUpdate(s.phase, Writes(del), i, p);
    SumUpdate(s.phase, Workers(), i, p);
  }

  /** When the barrier is granted, nothing that conflicts holds it any more. */
  lemma LockWaits(s: State, del: Deletes, limit: nat, i: nat)
    requires Inv(s, del, limit) && Enabled(s, Lock, del, limit)
    requires i < |s.phase| - 1 && (del(i) || del(|s.phase| - 1))
    ensures HasEnded(s.phase[i])
  {
    SumAtLeast(s.phase, Reads(del), i);
    SumAtLeast(s.phase, Writes(del), i);
  }

  lemma LockKeeps(s: State, del: Deletes, limit: nat)
    requires Inv(s, del, limit) && Enabled(s, Lock, del, limit)
    ensures Inv(Next(s, Lock, del, limit), del, limit)
  {
    LockWaited(s, del, limit);
  }

  lemma LockWaited(s: State, del: Deletes, limit: nat)
    requires Inv(s, del, limit) && Enabled(s, Lock, del, limit)
    ensures Waited(Next(s, Lock, del, limit), del)
  {
    var s', last := Next(s, Lock, del, limit), |s.phase| - 1;
    forall i, j | 0 <= i < j < |s'.phase| && !s'.phase[j].Wanting? && (del(i) || del(j)) ensures HasEnded(s'.phase[i]) {
      if j == last {
        LockWaits(s, del, limit, i);
      }
    }
  }

  /** Steps of one event that start or end no write. */
  lemma QuietKeeps(s: State, s': State, i: nat, p: Phase, del: Deletes, limit: nat)
    requires Inv(s, del, limit) && i < |s.phase| && s'.phase == s.phase[i := p] && s'.trace == s.trace
    requires !p.Wanting? && !p.Locked? && !s.phase[i].Wanting?
    requires HasStarted(p) == HasStarted(s.phase[i]) && HasEnded(p) == HasEnded(s.phase[i])
    requires LockMatches(s', del) && Sum(s'.phase, Workers()) <= limit
    ensures Inv(s', del, limit)
  {
  }

  /** Starting and ending a write moves no lock and no worker. */
  lemma WriteSums(s: State, s': State, i: nat, p: Phase, del: Deletes)
    requires LockMatches(s, del) && i < |s.phase| && s'.phase == s.phase[i := p]
    requires s'.readers == s.readers && s'.writer == s.writer
    requires HoldsBarrier(p) && HoldsBarrier(s.phase[i]) && HoldsWorker(p) && HoldsWorker(s.phase[i])
    ensures LockMatches(s', del) && Sum(s'.phase, Workers()) == Sum(s.phase, Workers())
  {
    UpdateSums(s, i, p, del);
  }

  lemma OrderedStart(s: State, i: nat, del: Deletes)
    requires Ordered(s.trace, del) && Waited(s, del) && TraceMatches(s) && i < |s.phase| && !s.phase[i].Wanting?
    ensures Ordered(s.trace + [Start(i)], del)
  {
    var trace := s.trace + [Start(i)];
    forall k: nat, b | 0 <= b < |trace| && trace[b].Start? && k < trace[b].i && (del(k) || del(trace[b].i))
      ensures End(k) in trace[..b]
    {
      if b == |s.trace| {
        assert HasEnded(s.phase[k]);
        assert End(k) in s.trace && trace[..b] == s.trace;
      } else {
        assert trace[..b] == s.trace[..b];
      }
    }
  }

  lemma OrderedEnd(trace: seq<Obs>, i: nat, del: Deletes)
    requires Ordered(trace, del)
    ensures Ordered(trace + [End(i)], del)
  {
    var trace' := trace + [End(i)];
    forall k: nat, b | 0 <= b < |trace'| && trace'[b].Start? && k < trace'[b].i && (del(k) || del(trace'[b].i))
      ensures End(k) in trace'[..b]
    {
      assert trace'[..b] == trace[..b];
    }
  }

  lemma BeginKeeps(s: State, i: nat, del: Deletes, limit: nat)
    requires Inv(s, del, limit) && Enabled(s, Begin(i), del, limit)
    ensures Inv(Next(s, Begin(i), del, limit), del, limit)
  {
    var s' := Next(s, Begin(i), del, limit);
    WriteSums(s, s', i, Writing, del);
    OrderedStart(s, i, del);
    TraceGrows(s, s', i, Writing, Start(i));
  }

  lemma FinishKeeps(s: State, i: nat, del: Deletes, limit: nat)
    requires Inv(s, del, limit) && Enabled(s, Finish(i), del, limit)
    ensures Inv(Next(s, Finish(i), del, limit), del, limit)
  {
    var s' := Next(s, Finish(i), del, limit);
    WriteSums(s, s', i, Written, del);
    OrderedEnd(s.trace, i, del);
    TraceGrows(s, s', i, Written, End(i));
  }

  lemma TraceGrows(s: State, s': State, i: nat, p: Phase, o: Obs)
    requires TraceMatches(s) && i < |s.phase| && s'.phase == s.phase[i := p] && s'.trace == s.trace + [o]
    requires (o == Start(i) && s.phase[i].Spawned? && p.Writing?) || (o == End(i) && s.phase[i].Writing? && p.Written?)
    ensures TraceMatches(s')
  {
    assert o !in s.trace;
    assert forall x :: x in s'.trace <==> x in s.trace || x == o;
  }

  lemma UnlockKeeps(s: State, i: nat, del: Deletes, limit: nat)
    requires Inv(s, del, limit) && Enabled(s, Unlock(i), del, limit)
    ensures Inv(Next(s, Unlock(i), del, limit), del, limit)
  {
    UpdateSums(s, i, Released, del);
    SumAtLeast(s.phase, Writes(del), i);
    QuietKeeps(s, Next(s, Unlock(i), del, limit), i, Released, del, limit);
  }

  lemma GoKeeps(s: State, del: Deletes, limit: nat)
    requires Inv(s, del, limit) && Enabled(s, Go, del, limit)
    ensures Inv(Next(s, Go, del, limit), del, limit)
  {
    UpdateSums(s, |s.phase| - 1, Spawned, del);
    QuietKeeps(s, Next(s, Go, del, limit), |s.phase| - 1, Spawned, del, limit);
  }

  lemma ExitKeeps(s: State, i: nat, del: Deletes, limit: nat)
    requires Inv(s, del, limit) && Enabled(s, Exit(i), del, limit)
    ensures Inv(Next(s, Exit(i), del, limit), del, limit)
  {
    UpdateSums(s, i, Gone, del);
    QuietKeeps(s, Next(s, Exit(i), del, limit), i, Gone, del, limit);
  }

  lemma StepKeeps(s: State, step: Step, del: Deletes, limit: nat)
    requires Inv(s, del, limit) && Enabled(s, step, del, limit)
    ensures Inv(Next(s, step, del, limit), del, limit)
  {
    match step
    case Read =>
    case Lock => LockKeeps(s, del, limit);
    case Go => GoKeeps(s, del, limit);
    case Begin(i) => BeginKeeps(s, i, del, limit);
    case Finish(i) => FinishKeeps(s, i, del, limit);
    case Unlock(i) => UnlockKeeps(s, i, del, limit);
    case Exit(i) => ExitKeeps(s, i, del, limit);
  }

  // ------------------------------------------------------------- whole runs

  ghost predicate Run(states: seq<State>, steps: seq<Step>, del: Deletes, limit: nat) {
    && |states| == |steps| + 1 && states[0] == State([], 0, false, [])
    && forall k :: 0 <= k < |steps| ==>
         Enabled(states[k], steps[k], del, limit) && states[k + 1] == Next(states[k], steps[k], del, limit)
  }

  /** In every interleaving: a deletion's write starts after the writes of all
      earlier-read events ended, and ends before the write of any later-read
      event starts; each write starts and ends once; and at most `limit` writes
      run at the same time. */
  lemma {:induction false} BarrierOrders(states: seq<State>, steps: seq<Step>, del: Deletes, limit: nat, k: nat)
    requires Run(states, steps, del, limit) && k < |states|
    ensures Inv(states[k], del, limit)
    ensures Ordered(states[k].trace, del) && NoDup(states[k].trace)
    ensures Sum(states[k].phase, AtStore()) <= limit
  {
    if k > 0 {
      BarrierOrders(states, steps, del, limit, k - 1);
      StepKeeps(states[k - 1], steps[k - 1], del, limit);
    }
    SumPointwise(states[k].phase, AtStore(), Workers());
  }

  /** What Ordered says of a deletion, by position in the trace. */
  lemma DeletionOrder(trace: seq<Obs>, del: Deletes, d: nat, other: nat, a: nat, b: nat)
    requires Ordered(trace, del) && NoDup(trace) && del(d) && a < |trace| && b < |trace|
    ensures other < d && trace[b] == Start(d) && trace[a] == End(other) ==> a < b
    ensures d < other && trace[b] == Start(other) && trace[a] == End(d) ==> a < b
  {
    if trace[b].Start? && other < d && trace[b] == Start(d) && trace[a] == End(other) {
      var c :| 0 <= c < b && trace[..b][c] == End(other);
      assert trace[c] == trace[a];
    }
    if d < other && trace[b] == Start(other) && trace[a] == End(d) {
      var c :| 0 <= c < b && trace[..b][c] == End(d);
      assert trace[c] == trace[a];
    }
  }

  // ------------------------------------------------------- never stuck

  /** Steps left before an event read is gone. */
  function LeftOf(p: Phase): nat {
    match p
    case Wanting => 6
    case Locked => 5
    case Spawned => 4
    case Writing => 3
    case Written => 2
    case Released => 1
    case Gone => 0
  }

  function Left(): (nat, Phase) -> nat {
    (i: nat, p: Phase) => LeftOf(p)
  }

  lemma OneStepLess(phase: seq<Phase>, i: nat, p: Phase)
    requires i < |phase| && LeftOf(p) + 1 == LeftOf(phase[i])
    ensures Sum(phase[i := p], Left()) == Sum(phase, Left()) - 1
  {
    SumUpdate(phase, Left(), i, p);
  }

  /** Every step but reading brings the events already read closer to done. */
  lemma StepsRunOut(s: State, step: Step, del: Deletes, limit: nat)
    requires Enabled(s, step, del, limit) && !step.Read?
    ensures Sum(Next(s, step, del, limit).phase, Left()) == Sum(s.phase, Left()) - 1
  {
    var last := |s.phase| - 1;
    match step
    case Lock => OneStepLess(s.phase, last, Locked);
    case Go => OneStepLess(s.phase, last, Spawned);
    case Begin(i) => OneStepLess(s.phase, i, Writing);
    case Finish(i) => OneStepLess(s.phase, i, Written);
    case Unlock(i) => OneStepLess(s.phase, i, Released);
    case Exit(i) => OneStepLess(s.phase, i, Gone);
  }

  /** Unless everything read is done, some step other than reading can be taken:
      the loop can not be stuck on the barrier or on a full pool. So it is back
      to reading after at most Sum(Left) steps. */
  lemma NeverStuck(s: State, del: Deletes, limit: nat) returns (step: Step)
    requires Inv(s, del, limit) && limit >= 1
    requires exists i :: 0 <= i < |s.phase| && !s.phase[i].Gone?
    ensures !step.Read? && Enabled(s, step, del, limit)
  {
    if i :| 0 <= i < |s.phase| && HoldsWorker(s.phase[i]) {
      SumAtLeast(s.phase, Reads(del), i);
      match s.phase[i]
      case Spawned => step := Begin(i);
      case Writing => step := Finish(i);
      case Written => step := Unlock(i);
      case Released => step := Exit(i);
    } else {
      var i :| 0 <= i < |s.phase| && !s.phase[i].Gone?;
      assert i == |s.phase| - 1;
      SumZero(s.phase, Workers());
      if Last(s).Wanting? {
        SumZero(s.phase, Reads(del));
        SumZero(s.phase, Writes(del));
        step := Lock;
      } else {
        step := Go;
      }
    }
  }
}
