/** The bunker's policy and its approval queue together: a request the handler
    asks about is an Add of the queue, and goes on with what that Add returns. */
module BunkerRun {
  import opened Common
  import opened GrantStore
  import H = BunkerHandler
  import Q = ApprovalQueue

  /** How a request is described to the human; the queue does not look into it. */
  type Describe = H.Request -> string

  /** The queue's limits, as configured. */
  datatype Config = Config(max: int, ttl: int, clock: int)

  /** Both machines, the steps the queue took, and which Add each asking call made. */
  datatype State = State(h: H.State, q: Q.State, past: seq<Q.Step>, link: map<nat, nat>)

  datatype Step =
    | Handler(st: H.Step)
    | Queue(qst: Q.Step)
    | Enqueue(t: nat)
    | Answer(t: nat, now: int)

  predicate IsAsking(h: H.State, t: nat) {
    t < |h.calls| && h.calls[t].stage.Asking?
  }

  function PendingOf(r: H.Request, describe: Describe): Q.Pending {
    Q.Pending(r.id, r.client, describe(r), 0, 0)
  }

  /** The Add returned: what the handler reads. */
  predicate HasReturned(q: Q.State, i: nat) {
    i < |q.calls| && (q.calls[i].Full? || (q.calls[i].Answered? && q.calls[i].ref < |q.table.entries|))
  }

  function AnswerOf(q: Q.State, i: nat): H.Answer
    requires HasReturned(q, i)
  {
    match q.calls[i]
    case Answered(ref, verdict, remembered) =>
      var p := q.table.entries[ref].pending;
      H.Given(verdict, remembered, H.Asked(p.id, p.client, p.body))
    case _ => H.Busy
  }

  ghost predicate Enabled(s: State, step: Step) {
    match step
    case Handler(st) => H.Enabled(s.h, st) && !(st.Advance? && IsAsking(s.h, st.t))
    case Queue(st) => Q.InRange(s.q.table) && Q.Enabled(s.q, st) && !st.StartAdd?
    case Enqueue(t) => Q.InRange(s.q.table) && IsAsking(s.h, t) && t !in s.link
    case Answer(t, now) =>
      && IsAsking(s.h, t) && t in s.link && HasReturned(s.q, s.link[t])
      && H.Enabled(s.h, H.Advance(t, now, AnswerOf(s.q, s.link[t])))
  }

  function Next(s: State, step: Step, describe: Describe): State
    requires Enabled(s, step)
  {
    match step
    case Handler(st) => s.(h := H.Next(s.h, st))
    case Queue(st) => s.(q := Q.Next(s.q, st), past := s.past + [st])
    case Enqueue(t) =>
      var st := Q.StartAdd(PendingOf(s.h.calls[t].req, describe));
      s.(q := Q.Next(s.q, st), past := s.past + [st], link := s.link[t := |s.q.calls|])
    case Answer(t, now) => s.(h := H.Next(s.h, H.Advance(t, now, AnswerOf(s.q, s.link[t]))))
  }

  function Init(store: Sessions, k: Config): State {
    State(H.Init(store), Q.Init(k.max, k.ttl, k.clock), [], map[])
  }

  // -------------------------------------------------------------- invariants

  /** Queue call `i` is an Add for `id`, wherever it stands. */
  predicate AddFor(q: Q.State, i: nat, id: string) {
    i < |q.calls| &&
    match q.calls[i]
    case Adding(p) => p.id == id
    case Announcing(r) => r < |q.table.entries| && q.table.entries[r].pending.id == id
    case Waiting(r) => r < |q.table.entries| && q.table.entries[r].pending.id == id
    case Answered(r, _, _) => r < |q.table.entries| && q.table.entries[r].pending.id == id
    case Full => true
    case _ => false
  }

  ghost predicate Links(h: H.State, q: Q.State, link: map<nat, nat>) {
    forall t :: t in link ==> t < |h.calls| && AddFor(q, link[t], h.calls[t].req.id)
  }

  /** Every Allow the handler was told was someone's Resolve of that id. */
  ghost predicate AllowsResolved(log: seq<H.Note>, past: seq<Q.Step>) {
    forall n :: n in log && n.Answered? && n.verdict == Allow ==> Q.StartResolve(n.on.id, Allow, n.remembered) in past
  }

  ghost predicate Inv(s: State, k: Config) {
    && H.Inv(s.h)
    && Q.Reaches(Q.Init(k.max, k.ttl, k.clock), s.past, s.q)
    && Links(s.h, s.q, s.link)
    && AllowsResolved(s.h.log, s.past)
  }

  lemma QueueInv(s: State, k: Config)
    requires Inv(s, k)
    ensures Q.Inv(s.q)
  {
    Q.InitInv(k.max, k.ttl, k.clock);
    Q.RunKeeps(Q.Init(k.max, k.ttl, k.clock), s.past, s.q);
  }

  /** Requests of entries are fixed, so a call that did not move is still for its id. */
  lemma UnmovedStays(q: Q.State, q': Q.State, i: nat, id: string)
    requires AddFor(q, i, id) && Q.Grows(q.table.entries, q'.table.entries)
    requires i < |q'.calls| && q'.calls[i] == q.calls[i]
    ensures AddFor(q', i, id)
  {
    var c := q.calls[i];
    if c.Announcing? || c.Waiting? || c.Answered? {
      assert Q.Forward(q.table.entries[c.ref], q'.table.entries[c.ref]);
    }
  }

  /** The queue takes a step: an Add stays one for its id. */
  lemma AddStays(q: Q.State, st: Q.Step, i: nat, id: string)
    requires Q.Inv(q) && Q.Enabled(q, st) && AddFor(q, i, id)
    ensures AddFor(Q.Next(q, st), i, id)
  {
    if st.Tick? || i != Q.Mover(q, st) {
      Q.StepForward(q, st);
      Q.OthersUnmoved(q, st, i);
      UnmovedStays(q, Q.Next(q, st), i, id);
    } else if st.LockAdd? {
      Q.AddLocked(q, i);
    }
  }

  lemma QueueStep(s: State, st: Q.Step, k: Config)
    requires Inv(s, k) && Q.InRange(s.q.table) && Q.Enabled(s.q, st)
    ensures Inv(s.(q := Q.Next(s.q, st), past := s.past + [st]), k)
  {
    QueueInv(s, k);
    var q' := Q.Next(s.q, st);
    Q.OneStep(s.q, st, q');
    Q.RunConcat(Q.Init(k.max, k.ttl, k.clock), s.past, s.q, [st], q');
    forall t | t in s.link ensures t < |s.h.calls| && AddFor(q', s.link[t], s.h.calls[t].req.id) {
      AddStays(s.q, st, s.link[t], s.h.calls[t].req.id);
    }
  }

  /** A handler step keeps every request, and moves its own call only; a new call
      starts. */
  lemma HandlerFrame(h: H.State, st: H.Step)
    requires H.Enabled(h, st)
    ensures |h.calls| <= |H.Next(h, st).calls|
    ensures forall t :: 0 <= t < |h.calls| ==> H.Next(h, st).calls[t].req == h.calls[t].req
    ensures forall t :: 0 <= t < |h.calls| && !(st.Advance? && st.t == t) ==> H.Next(h, st).calls[t] == h.calls[t]
    ensures forall t :: |h.calls| <= t < |H.Next(h, st).calls| ==> H.Next(h, st).calls[t].stage == H.Start
  {
    if st.Advance? {
      var c := H.Next(h, st).calls[st.t];
      assert c.req == h.calls[st.t].req && H.Next(h, st).calls == h.calls[st.t := c];
    }
  }

  /** It logs no answer of the queue unless it is one. */
  lemma HandlerLogs(h: H.State, st: H.Step)
    requires H.Enabled(h, st) && !(st.Advance? && IsAsking(h, st.t))
    ensures forall n :: n in H.Next(h, st).log && n.Answered? ==> n in h.log
  {
  }

  lemma HandlerStep(s: State, st: H.Step, k: Config)
    requires Inv(s, k) && Enabled(s, Handler(st))
    ensures Inv(s.(h := H.Next(s.h, st)), k)
  {
    H.StepKeeps(s.h, st);
    HandlerFrame(s.h, st);
    HandlerLogs(s.h, st);
  }

  /** What an Add for an id returned is a decision under that id. */
  lemma AnswerFits(s: State, t: nat, now: int, k: Config)
    requires Inv(s, k) && IsAsking(s.h, t) && t in s.link && HasReturned(s.q, s.link[t])
    ensures H.Enabled(s.h, H.Advance(t, now, AnswerOf(s.q, s.link[t])))
    ensures var a := AnswerOf(s.q, s.link[t]);
            a.Given? && a.verdict == Allow ==> Q.StartResolve(a.on.id, Allow, a.remembered) in s.past
  {
    var i := s.link[t];
    assert AddFor(s.q, i, s.h.calls[t].req.id);
    if s.q.calls[i].Answered? && s.q.calls[i].verdict == Allow {
      Q.AllowMeansResolve(k.max, k.ttl, k.clock, s.past, s.q, i);
    }
  }

  lemma AnswerStep(s: State, t: nat, now: int, describe: Describe, k: Config)
    requires Inv(s, k) && Enabled(s, Answer(t, now))
    ensures Inv(Next(s, Answer(t, now), describe), k)
  {
    var a := AnswerOf(s.q, s.link[t]);
    AnswerFits(s, t, now, k);
    H.StepKeeps(s.h, H.Advance(t, now, a));
    HandlerFrame(s.h, H.Advance(t, now, a));
  }

  lemma EnqueueStep(s: State, t: nat, describe: Describe, k: Config)
    requires Inv(s, k) && Enabled(s, Enqueue(t))
    ensures Inv(Next(s, Enqueue(t), describe), k)
  {
    QueueStep(s, Q.StartAdd(PendingOf(s.h.calls[t].req, describe)), k);
  }

  lemma StepKeeps(s: State, step: Step, describe: Describe, k: Config)
    requires Inv(s, k) && Enabled(s, step)
    ensures Inv(Next(s, step, describe), k)
  {
    match step
    case Handler(st) => HandlerStep(s, st, k);
    case Queue(st) => QueueStep(s, st, k);
    case Enqueue(t) => EnqueueStep(s, t, describe, k);
    case Answer(t, now) => AnswerStep(s, t, now, describe, k);
  }

  // -------------------------------------------------------------------- runs

  /** A run, with every state it passes through. */
  ghost predicate Trace(states: seq<State>, steps: seq<Step>, store: Sessions, k: Config, describe: Describe) {
    && StoreOk(store) && |states| == |steps| + 1 && states[0] == Init(store, k)
    && forall i :: 0 <= i < |steps| ==> Follows(states[i], steps[i], states[i + 1], describe)
  }

  ghost predicate Follows(s: State, step: Step, s': State, describe: Describe) {
    Enabled(s, step) && s' == Next(s, step, describe)
  }

  lemma {:induction false} TraceKeeps(states: seq<State>, steps: seq<Step>, store: Sessions, k: Config, describe: Describe, i: nat)
    requires Trace(states, steps, store, k, describe) && i < |states|
    ensures Inv(states[i], k)
  {
    if i > 0 {
      TraceKeeps(states, steps, store, k, describe, i - 1);
      assert Follows(states[i - 1], steps[i - 1], states[i], describe);
      StepKeeps(states[i - 1], steps[i - 1], describe, k);
    }
  }

  /** Call `t` has arrived. */
  predicate Has(s: State, t: nat) {
    t < |s.h.calls|
  }

  function RequestOf(s: State, t: nat): H.Request
    requires Has(s, t)
  {
    s.h.calls[t].req
  }

  function StageOf(s: State, t: nat): H.Stage
    requires Has(s, t)
  {
    s.h.calls[t].stage
  }

  /** The step is the handler going on with call `t`, at `now`. */
  predicate Decides(step: Step, t: nat, now: int) {
    step.Handler? && step.st.Advance? && step.st.t == t && step.st.now == now
  }

  /** Someone resolved a request under `id` with Allow. */
  ghost predicate ResolvedAllow(past: seq<Q.Step>, id: string) {
    exists remembered :: Q.StartResolve(id, Allow, remembered) in past
  }

  /** Why a step may let call `t` through: it connects on a staged pairing, it
      manages the session of a paired app, the grants its app holds at that moment
      answer Allow, or it was waiting for a human and someone resolved Allow under
      its id. */
  ghost predicate Grounds(s: State, step: Step, t: nat) {
    && Has(s, t)
    && var r := RequestOf(s, t);
    || (StageOf(s, t) == H.Start && r.verb == "connect" && s.h.staged.Some?)
    || (StageOf(s, t) == H.Start && (r.verb == "switch_relays" || r.verb == "logout") && r.client in s.h.store)
    || (StageOf(s, t) == H.Deciding && exists now :: Decides(step, t, now) && StandsAs(s, r, now, Allow))
    || (StageOf(s, t) == H.Asking && ResolvedAllow(s.past, r.id))
  }

  /** The grants the app holds answer the request with that verdict. */
  ghost predicate StandsAs(s: State, r: H.Request, now: int, verdict: Decision) {
    var g := H.StandingGrant(s.h.store, r, now);
    g.Some? && g.value.verdict == verdict
  }

  /** Only its own call moves. */
  lemma OthersStay(s: State, step: Step, s': State, describe: Describe, t: nat)
    requires Follows(s, step, s', describe) && Has(s, t)
    ensures Has(s', t) && RequestOf(s', t) == RequestOf(s, t)
    ensures StageOf(s', t) != StageOf(s, t) ==>
              (step.Handler? && step.st.Advance? && step.st.t == t) || (step.Answer? && step.t == t)
  {
    match step
    case Handler(st) => HandlerFrame(s.h, st);
    case Queue(_) =>
    case Enqueue(_) =>
    case Answer(u, now) => HandlerFrame(s.h, H.Advance(u, now, AnswerOf(s.q, s.link[u])));
  }

  lemma NewcomerStarts(s: State, step: Step, s': State, describe: Describe, t: nat)
    requires Follows(s, step, s', describe) && !Has(s, t) && Has(s', t)
    ensures StageOf(s', t) == H.Start
  {
    match step
    case Handler(st) => HandlerFrame(s.h, st);
    case Queue(_) =>
    case Enqueue(_) =>
    case Answer(u, now) => HandlerFrame(s.h, H.Advance(u, now, AnswerOf(s.q, s.link[u])));
  }

  lemma LetThroughOnGrounds(s: State, step: Step, s': State, describe: Describe, k: Config, t: nat)
    requires Inv(s, k) && Follows(s, step, s', describe) && Has(s, t) && Has(s', t)
    requires !H.LetThrough(StageOf(s, t)) && H.LetThrough(StageOf(s', t))
    ensures Grounds(s, step, t)
  {
    OthersStay(s, step, s', describe, t);
    if step.Answer? {
      AnswerFits(s, t, step.now, k);
      H.AnswerOutcome(s.h, t, AnswerOf(s.q, s.link[t]));
    } else if StageOf(s, t) == H.Start {
      H.StartOutcome(s.h, t);
    } else {
      H.DecideOutcome(s.h, t, step.st.now);
      assert Decides(step, t, step.st.now);
    }
  }

  /** In every run, for every method and kind, a call that was let through was so by
      a step with grounds for it. */
  lemma {:induction false} AllowedOnlyIf(states: seq<State>, steps: seq<Step>, store: Sessions, k: Config, describe: Describe, n: nat, t: nat)
    requires Trace(states, steps, store, k, describe) && n < |states|
    requires Has(states[n], t) && H.LetThrough(StageOf(states[n], t))
    ensures exists i :: 0 <= i < n && Grounds(states[i], steps[i], t) && RequestOf(states[i], t) == RequestOf(states[n], t)
    decreases n
  {
    var s, step := states[n - 1], steps[n - 1];
    assert Follows(s, step, states[n], describe);
    TraceKeeps(states, steps, store, k, describe, n - 1);
    if !Has(s, t) {
      NewcomerStarts(s, step, states[n], describe, t);
    } else {
      OthersStay(s, step, states[n], describe, t);
      if H.LetThrough(StageOf(s, t)) {
        AllowedOnlyIf(states, steps, store, k, describe, n - 1, t);
      } else {
        LetThroughOnGrounds(s, step, states[n], describe, k, t);
      }
    }
  }

  /** A call waits for a human only after the grants its app held gave no verdict. */
  ghost predicate Unanswered(s: State, step: Step, t: nat) {
    && Has(s, t) && StageOf(s, t) == H.Deciding
    && exists now :: Decides(step, t, now) && !StandsAs(s, RequestOf(s, t), now, Allow) && !StandsAs(s, RequestOf(s, t), now, Deny)
  }

  lemma AsksWhenUnanswered(s: State, step: Step, s': State, describe: Describe, k: Config, t: nat)
    requires Inv(s, k) && Follows(s, step, s', describe) && Has(s, t) && Has(s', t)
    requires StageOf(s, t) != H.Asking && StageOf(s', t) == H.Asking
    ensures Unanswered(s, step, t)
  {
    OthersStay(s, step, s', describe, t);
    if StageOf(s, t) == H.Start {
      H.StartOutcome(s.h, t);
    } else {
      H.DecideOutcome(s.h, t, step.st.now);
      assert Decides(step, t, step.st.now);
    }
  }

  lemma {:induction false} AskedOnlyIf(states: seq<State>, steps: seq<Step>, store: Sessions, k: Config, describe: Describe, n: nat, t: nat)
    requires Trace(states, steps, store, k, describe) && n < |states| && Has(states[n], t) && StageOf(states[n], t) == H.Asking
    ensures exists i :: 0 <= i < n && Unanswered(states[i], steps[i], t) && RequestOf(states[i], t) == RequestOf(states[n], t)
    decreases n
  {
    var s, step := states[n - 1], steps[n - 1];
    assert Follows(s, step, states[n], describe);
    TraceKeeps(states, steps, store, k, describe, n - 1);
    if !Has(s, t) {
      NewcomerStarts(s, step, states[n], describe, t);
    } else {
      OthersStay(s, step, states[n], describe, t);
      if StageOf(s, t) == H.Asking {
        AskedOnlyIf(states, steps, store, k, describe, n - 1, t);
      } else {
        AsksWhenUnanswered(s, step, states[n], describe, k, t);
      }
    }
  }

  /** A refused call stays refused. */
  lemma {:induction false} RefusedStays(states: seq<State>, steps: seq<Step>, store: Sessions, k: Config, describe: Describe, i: nat, n: nat, t: nat)
    requires Trace(states, steps, store, k, describe) && i <= n < |states|
    requires Has(states[i], t) && StageOf(states[i], t) == H.Refused
    ensures Has(states[n], t) && StageOf(states[n], t) == H.Refused
    decreases n
  {
    if i < n {
      RefusedStays(states, steps, store, k, describe, i, n - 1, t);
      assert Follows(states[n - 1], steps[n - 1], states[n], describe);
      OthersStay(states[n - 1], steps[n - 1], states[n], describe, t);
    }
  }

  /** A remembered rejection is final: the call is refused at once and for good,
      whatever a human says. */
  lemma DenyIsFinal(states: seq<State>, steps: seq<Step>, store: Sessions, k: Config, describe: Describe, i: nat, n: nat, t: nat, now: int)
    requires Trace(states, steps, store, k, describe) && i < n < |states|
    requires Has(states[i], t) && StageOf(states[i], t) == H.Deciding
    requires Decides(steps[i], t, now) && StandsAs(states[i], RequestOf(states[i], t), now, Deny)
    ensures Has(states[n], t) && StageOf(states[n], t) == H.Refused
  {
    TraceKeeps(states, steps, store, k, describe, i);
    assert Follows(states[i], steps[i], states[i + 1], describe);
    H.DecideOutcome(states[i].h, t, now);
    RefusedStays(states, steps, store, k, describe, i + 1, n, t);
  }

  /** So is a human's: whatever the Add returned but Allow, or a full queue. */
  lemma RejectionIsFinal(states: seq<State>, steps: seq<Step>, store: Sessions, k: Config, describe: Describe, i: nat, n: nat, t: nat, now: int)
    requires Trace(states, steps, store, k, describe) && i < n < |states| && steps[i] == Answer(t, now)
    requires t in states[i].link && states[i].link[t] < |states[i].q.calls|
    requires var c := states[i].q.calls[states[i].link[t]]; c.Full? || (c.Answered? && c.verdict != Allow)
    ensures Has(states[n], t) && StageOf(states[n], t) == H.Refused
  {
    var s := states[i];
    assert Follows(s, steps[i], states[i + 1], describe);
    H.AnswerOutcome(s.h, t, AnswerOf(s.q, s.link[t]));
    RefusedStays(states, steps, store, k, describe, i + 1, n, t);
  }

  /** In every run of the handler and its queue, a profile (0, and the kind taken
      when there is no event), contact list (3) or deletion (5) is signed only after
      someone resolved a request under its id with Allow: no remembered grant and no
      expiry does it. */
  lemma SensitiveNeedsResolve(states: seq<State>, steps: seq<Step>, store: Sessions, k: Config, describe: Describe, n: nat, t: nat)
    requires Trace(states, steps, store, k, describe) && n < |states|
    requires Has(states[n], t) && H.LetThrough(StageOf(states[n], t)) && RequestOf(states[n], t).verb == "sign_event"
    requires RequestOf(states[n], t).kind in {None, Some(0), Some(3), Some(5)}
    ensures ResolvedAllow(states[n].past, RequestOf(states[n], t).id)
    ensures Q.Reaches(Q.Init(k.max, k.ttl, k.clock), states[n].past, states[n].q) && StoreOk(states[n].h.store)
  {
    var s := states[n];
    TraceKeeps(states, steps, store, k, describe, n);
    assert H.CallOk(s.h.calls[t], t, s.h.log);
    var id := RequestOf(s, t).id;
    var remembered, on: H.Asked :| on.id == id && H.Answered(t, Allow, remembered, on) in s.h.log;
    assert Q.StartResolve(id, Allow, remembered) in s.past;
  }

  /** A returned Add never leaves its call waiting: the handler can go on. */
  lemma AnswerIsTaken(states: seq<State>, steps: seq<Step>, store: Sessions, k: Config, describe: Describe, n: nat, t: nat, now: int)
    requires Trace(states, steps, store, k, describe) && n < |states| && IsAsking(states[n].h, t)
    requires t in states[n].link && states[n].link[t] < |states[n].q.calls|
    requires var c := states[n].q.calls[states[n].link[t]]; c.Answered? || c.Full?
    ensures Enabled(states[n], Answer(t, now))
  {
    var s := states[n];
    TraceKeeps(states, steps, store, k, describe, n);
    assert AddFor(s.q, s.link[t], s.h.calls[t].req.id);
    AnswerFits(s, t, now, k);
  }
}
