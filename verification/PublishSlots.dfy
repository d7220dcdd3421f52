/** The publish semaphore of a remote destination and the tracker of who holds
    its slots (client/stream.go: FlowContext.open and releaseSlot, dispatchTracker,
    the send loop of RemoteSubscription.Write, ack handling in handleFlow). One
    writer and one ack handler per connection; acks for any id may come at any
    time. The capped history of pending acks plays no part in any step. */
module PublishSlots {
  import opened Common

  type Id = string

  /** Where the write loop is: waiting for an event; waiting for a slot; holding
      one before the send; sent, not yet recorded; returned, with or without a
      slot it never handed over. */
  datatype Writer = Idle | Acquiring(id: Id) | HasSlot(id: Id) | Sent(id: Id) | Returned(holding: bool)

  datatype State = State(held: nat, dispatched: set<Id>, writer: Writer, releasing: bool)

  datatype Step =
    | TakeEvent(id: Id) | Acquire | SendOk | SendFails | Record | Stop
    | Ack(id: Id) | Release
    | Reopen

  predicate Enabled(s: State, step: Step, cap: nat) {
    match step
    case TakeEvent(_) => s.writer.Idle?
    case Acquire => s.writer.Acquiring? && s.held < cap
    case SendOk => s.writer.HasSlot?
    case SendFails => s.writer.HasSlot?
    case Record => s.writer.Sent?
    case Stop => s.writer.Idle? || s.writer.Acquiring?
    case Ack(_) => !s.releasing
    case Release => s.releasing && s.held > 0
    case Reopen => s.writer.Returned? && !s.releasing
  }

  function Next(s: State, step: Step, cap: nat): State
    requires Enabled(s, step, cap)
  {
    match step
    case TakeEvent(id) => s.(writer := Acquiring(id))
    case Acquire => s.(writer := HasSlot(s.writer.id), held := s.held + 1)
    case SendOk => s.(writer := Sent(s.writer.id))
    case SendFails => s.(writer := Returned(true))
    case Record => s.(writer := Idle, dispatched := s.dispatched + {s.writer.id})
    case Stop => s.(writer := Returned(false))
    case Ack(id) => if id in s.dispatched then s.(dispatched := s.dispatched - {id}, releasing := true) else s
    case Release => s.(held := s.held - 1, releasing := false)
    case Reopen => State(0, {}, Idle, false)
  }

  /** Slots the writer itself answers for, and the one being given back. */
  function Own(s: State): nat {
    (if s.writer.HasSlot? || s.writer.Sent? || s.writer == Returned(true) then 1 else 0) + (if s.releasing then 1 else 0)
  }

  /** Never more recorded than held, never more held than there are. */
  ghost predicate Safe(s: State, cap: nat) {
    |s.dispatched| + Own(s) <= s.held <= cap
  }

  /** Every held slot is accounted for. */
  ghost predicate Exact(s: State, cap: nat) {
    |s.dispatched| + Own(s) == s.held <= cap
  }

  lemma StepSafe(s: State, step: Step, cap: nat)
    requires Safe(s, cap) && Enabled(s, step, cap)
    ensures Safe(Next(s, step, cap), cap)
  {
    if step.Record? {
      assert |s.dispatched + {s.writer.id}| <= |s.dispatched| + 1;
    }
    if step.Ack? && step.id in s.dispatched {
      assert |s.dispatched - {step.id}| == |s.dispatched| - 1;
    }
  }

  /** A step keeps the books exact exactly when it does not record an id that is
      already recorded. */
  lemma StepExactIff(s: State, step: Step, cap: nat)
    requires Exact(s, cap) && Enabled(s, step, cap)
    ensures Exact(Next(s, step, cap), cap) <==> !(step.Record? && s.writer.id in s.dispatched)
  {
    if step.Record? {
      if s.writer.id in s.dispatched {
        assert s.dispatched + {s.writer.id} == s.dispatched;
      } else {
        assert |s.dispatched + {s.writer.id}| == |s.dispatched| + 1;
      }
    }
    if step.Ack? && step.id in s.dispatched {
      assert |s.dispatched - {step.id}| == |s.dispatched| - 1;
    }
  }

  // ------------------------------------------------------------- whole runs

  ghost predicate Run(states: seq<State>, steps: seq<Step>, cap: nat) {
    && |states| == |steps| + 1
    && forall k :: 0 <= k < |steps| ==> Enabled(states[k], steps[k], cap) && states[k + 1] == Next(states[k], steps[k], cap)
  }

  const Opened := State(0, {}, Idle, false)

  /** No id is recorded while it is already in flight. */
  ghost predicate DistinctInFlight(states: seq<State>, steps: seq<Step>) {
    |states| > |steps| && forall k :: 0 <= k < |steps| && steps[k].Record? && states[k].writer.Sent? ==>
      states[k].writer.id !in states[k].dispatched
  }

  /** In every interleaving the recorded never exceed the held, the held never
      exceed the cap, and giving a slot back never blocks. */
  lemma {:induction false} SlotsSafe(states: seq<State>, steps: seq<Step>, cap: nat, k: nat)
    requires Run(states, steps, cap) && states[0] == Opened && k < |states|
    ensures Safe(states[k], cap)
    ensures states[k].releasing ==> Enabled(states[k], Release, cap)
  {
    if k > 0 {
      SlotsSafe(states, steps, cap, k - 1);
      StepSafe(states[k - 1], steps[k - 1], cap);
    }
  }

  /** With distinct ids in flight, the held slots are exactly the recorded ids,
      the writer's own slot and the one being given back. */
  lemma {:induction false} SlotsExact(states: seq<State>, steps: seq<Step>, cap: nat, k: nat)
    requires Run(states, steps, cap) && states[0] == Opened && k < |states|
    requires DistinctInFlight(states, steps)
    ensures Exact(states[k], cap)
  {
    if k > 0 {
      SlotsExact(states, steps, cap, k - 1);
      StepExactIff(states[k - 1], steps[k - 1], cap);
    }
  }

  /** Handling an ack, slot and all, frees exactly one slot if its id is recorded
      and none otherwise. */
  lemma AckFreesOneIff(s: State, id: Id, cap: nat)
    requires Safe(s, cap) && !s.releasing
    ensures var s1 := Next(s, Ack(id), cap);
            if id in s.dispatched
            then Enabled(s1, Release, cap) && Next(s1, Release, cap).held == s.held - 1
                 && id !in Next(s1, Release, cap).dispatched
            else s1 == s
  {
    StepSafe(s, Ack(id), cap);
  }

  /** An ack handled between the send and its record frees nothing, and from then
      on, unless another ack for that id comes or the connection is reopened, its
      slot stays held. */
  lemma {:induction false} EarlyAckKeepsSlot(states: seq<State>, steps: seq<Step>, cap: nat, id: Id, k: nat)
    requires Run(states, steps, cap) && k < |states| && |steps| > 0
    requires Safe(states[0], cap) && states[0].writer == Sent(id) && steps[0] == Ack(id)
    requires forall i :: 0 < i < |steps| ==> steps[i] != Ack(id) && steps[i] != Reopen
    ensures Safe(states[k], cap)
    ensures k > 0 ==> (states[k].writer == Sent(id) || id in states[k].dispatched) && states[k].held >= 1
  {
    if k > 0 {
      EarlyAckKeepsSlot(states, steps, cap, id, k - 1);
      StepSafe(states[k - 1], steps[k - 1], cap);
      if id in states[k].dispatched {
        assert {id} <= states[k].dispatched;
        SubsetSize({id}, states[k].dispatched);
      }
    }
  }

  /** Slots lost that way add up: once as many ids as there are slots are recorded
      and acked for good, the writer never gets a slot again, unless another ack for
      one of them comes or the connection is reopened. */
  lemma {:induction false} LostSlotsBlock(states: seq<State>, steps: seq<Step>, cap: nat, lost: set<Id>, k: nat)
    requires Run(states, steps, cap) && k < |states|
    requires Safe(states[0], cap) && lost <= states[0].dispatched && |lost| == cap
    requires forall i :: 0 <= i < |steps| ==> steps[i] != Reopen && !(steps[i].Ack? && steps[i].id in lost)
    ensures Safe(states[k], cap) && lost <= states[k].dispatched
    ensures states[k].held == cap && !Enabled(states[k], Acquire, cap)
  {
    if k > 0 {
      LostSlotsBlock(states, steps, cap, lost, k - 1);
      StepSafe(states[k - 1], steps[k - 1], cap);
    }
    SubsetSize(lost, states[k].dispatched);
  }

  /** The connection with these ids sent, acked too early and recorded. */
  function Lost(ids: set<Id>): State {
    State(|ids|, ids, Idle, false)
  }

  /** What one event goes through: its ack comes between its send and its record. */
  function EarlyAcked(id: Id): seq<Step> {
    [TakeEvent(id), Acquire, SendOk, Ack(id), Record]
  }

  lemma LoseOne(ids: set<Id>, id: Id, cap: nat) returns (states: seq<State>)
    requires id !in ids && |ids| < cap
    ensures Run(states, EarlyAcked(id), cap) && states[0] == Lost(ids) && states[5] == Lost(ids + {id})
    ensures states[3].writer == Sent(id)
  {
    var n := |ids|;
    states := [Lost(ids), State(n, ids, Acquiring(id), false), State(n + 1, ids, HasSlot(id), false),
               State(n + 1, ids, Sent(id), false), State(n + 1, ids, Sent(id), false), Lost(ids + {id})];
  }

  lemma RunConcat(a: seq<State>, x: seq<Step>, b: seq<State>, y: seq<Step>, cap: nat)
    requires Run(a, x, cap) && Run(b, y, cap) && a[|x|] == b[0]
    ensures Run(a + b[1..], x + y, cap) && (a + b[1..])[|x| + |y|] == b[|y|]
  {
    var states, steps := a + b[1..], x + y;
    forall k | 0 <= k < |steps| ensures Enabled(states[k], steps[k], cap) && states[k + 1] == Next(states[k], steps[k], cap) {
      if k < |x| {
        assert states[k] == a[k] && states[k + 1] == a[k + 1];
      } else {
        assert states[k] == b[k - |x|] && states[k + 1] == b[k - |x| + 1];
      }
    }
  }

  function EarlyAckedAll(ids: seq<Id>): seq<Step> {
    if ids == [] then [] else EarlyAckedAll(ids[..|ids| - 1]) + EarlyAcked(ids[|ids| - 1])
  }

  /** It happens, for any number of slots: from a fresh connection, as many distinct
      events as there are slots, each acked between its send and its record, leave
      the writer idle with every slot held. */
  lemma {:induction false} LostSlotsHappen(ids: seq<Id>, cap: nat) returns (states: seq<State>)
    requires NoDup(ids) && |ids| <= cap
    ensures Run(states, EarlyAckedAll(ids), cap) && states[0] == Opened
    ensures states[|states| - 1] == Lost(set id | id in ids) && (states[|states| - 1].held == |ids|)
    decreases |ids|
  {
    NoDupSize(ids);
    if ids == [] {
      states := [Opened];
      assert (set id | id in ids) == {};
    } else {
      var front, last := ids[..|ids| - 1], ids[|ids| - 1];
      var before := LostSlotsHappen(front, cap);
      NoDupSize(front);
      assert last !in front;
      var after := LoseOne((set id | id in front), last, cap);
      RunConcat(before, EarlyAckedAll(front), after, EarlyAcked(last), cap);
      states := before + after[1..];
      assert ids == front + [last];
      assert (set id | id in ids) == (set id | id in front) + {last};
    }
  }
}
