/** The negentropy pull loop (client/neg_sync.go, pullEvents): needed ids are
    asked for in batches, and what a batch skipped is asked for again while
    batches still return something. The relay is a parameter. */
module PullLoop {
  import opened Common

  type Id = string

  /** A relay: what it returns for the batch of one round. */
  type Relay = (nat, seq<Id>) -> set<Id>

  /** An answer that is not empty names an id that was asked for; it may hold
      others as well. */
  ghost predicate NamesAsked(relay: Relay) {
    forall k, batch :: relay(k, batch) != {} ==> Asked(batch, relay(k, batch)) != {}
  }

  function Asked(batch: seq<Id>, returned: set<Id>): set<Id> {
    set id | id in batch && id in returned
  }

  /** A relay holding `stored` that answers with at most `cap` of the asked ids
      it holds, any of them. */
  ghost predicate Honest(relay: Relay, stored: set<Id>, cap: nat) {
    forall k, batch ::
      var got := Asked(batch, relay(k, batch));
      && got <= Held(batch, stored)
      && |got| == if |Held(batch, stored)| <= cap then |Held(batch, stored)| else cap
  }

  function Held(batch: seq<Id>, stored: set<Id>): set<Id> {
    set id | id in batch && id in stored
  }

  /** The ids of a batch the answer left out, and those it brought. */
  function Missing(batch: seq<Id>, returned: set<Id>): seq<Id> {
    Filter(batch, id => id !in returned)
  }

  function Brought(batch: seq<Id>, returned: set<Id>): seq<Id> {
    Filter(batch, id => id in returned)
  }

  lemma {:induction false} BatchSplits(batch: seq<Id>, returned: set<Id>)
    ensures multiset(batch) == multiset(Brought(batch, returned)) + multiset(Missing(batch, returned))
    ensures |batch| == |Brought(batch, returned)| + |Missing(batch, returned)|
  {
    if batch != [] {
      BatchSplits(batch[1..], returned);
      assert batch == [batch[0]] + batch[1..];
    }
  }

  /** One round: the batch is taken off the list; a batch that brought something
      puts what it skipped back in front, one that brought nothing is given up. */
  datatype Round = Round(pending: seq<Id>, served: seq<Id>, unserved: seq<Id>)

  function Pull(st: Round, size: nat, returned: set<Id>): Round
    requires 1 <= size
  {
    var n := if size <= |st.pending| then size else |st.pending|;
    var batch, rest := st.pending[..n], st.pending[n..];
    var missing := Missing(batch, returned);
    if returned != {}
    then Round(missing + rest, st.served + Brought(batch, returned), st.unserved)
    else Round(rest, st.served, st.unserved + missing)
  }

  function Batch(st: Round, size: nat): seq<Id> {
    st.pending[..if size <= |st.pending| then size else |st.pending|]
  }

  lemma {:induction false} MissingOfNothing(batch: seq<Id>)
    ensures Missing(batch, {}) == batch && Brought(batch, {}) == []
  {
    if batch != [] {
      MissingOfNothing(batch[1..]);
      assert batch == [batch[0]] + batch[1..];
    }
  }

  /** Exactly when a round shortens the list: the answer is empty or names an
      asked id. An answer of other ids only leaves the list as it was. */
  lemma RoundShrinksIff(st: Round, size: nat, returned: set<Id>)
    requires 1 <= size && st.pending != []
    ensures |Pull(st, size, returned).pending| < |st.pending| <==>
            returned == {} || exists id :: id in returned && id in Batch(st, size)
    ensures |Pull(st, size, returned).pending| <= |st.pending|
  {
    var batch := Batch(st, size);
    BatchSplits(batch, returned);
    var brought := Brought(batch, returned);
    if id :| id in returned && id in batch {
      assert id in brought;
    }
    if brought != [] {
      assert brought[0] in brought;
    }
  }

  /** No occurrence of a needed id is dropped or counted twice. */
  lemma RoundConserves(st: Round, size: nat, returned: set<Id>)
    requires 1 <= size
    ensures var st' := Pull(st, size, returned);
            multiset(st'.pending) + multiset(st'.served) + multiset(st'.unserved) ==
            multiset(st.pending) + multiset(st.served) + multiset(st.unserved)
  {
    var batch := Batch(st, size);
    var rest := st.pending[|batch|..];
    assert st.pending == batch + rest;
    BatchSplits(batch, returned);
    MissingOfNothing(batch);
  }

  ghost predicate Sorted(stored: set<Id>, served: seq<Id>, unserved: seq<Id>) {
    (forall id :: id in served ==> id in stored) && (forall id :: id in unserved ==> id !in stored)
  }

  /** An honest relay with a cap of at least one answers nothing only when it
      holds nothing of the batch. */
  lemma HonestRound(relay: Relay, stored: set<Id>, cap: nat, k: nat, st: Round, size: nat)
    requires 1 <= size && 1 <= cap && Honest(relay, stored, cap) && Sorted(stored, st.served, st.unserved)
    ensures var st' := Pull(st, size, relay(k, Batch(st, size))); Sorted(stored, st'.served, st'.unserved)
  {
    var batch := Batch(st, size);
    var returned := relay(k, batch);
    assert Asked(batch, returned) <= Held(batch, stored);
    forall id | id in Brought(batch, returned) ensures id in stored {
      assert id in Asked(batch, returned);
    }
    if returned == {} {
      assert Asked(batch, returned) == {};
      assert |Held(batch, stored)| == 0;
      assert Held(batch, stored) == {};
      forall id | id in Missing(batch, returned) ensures id !in stored {
        assert id in batch;
        assert id !in Held(batch, stored);
      }
    }
  }

  ghost predicate SortedIfHonest(relay: Relay, st: Round) {
    forall stored, cap: nat :: cap >= 1 && Honest(relay, stored, cap) ==> Sorted(stored, st.served, st.unserved)
  }

  lemma RoundKeeps(relay: Relay, k: nat, st: Round, size: nat)
    requires 1 <= size && st.pending != [] && NamesAsked(relay) && SortedIfHonest(relay, st)
    ensures |Pull(st, size, relay(k, Batch(st, size))).pending| < |st.pending|
    ensures SortedIfHonest(relay, Pull(st, size, relay(k, Batch(st, size))))
  {
    var batch := Batch(st, size);
    var returned := relay(k, batch);
    RoundShrinksIff(st, size, returned);
    if returned != {} {
      var one :| one in Asked(batch, returned);
      assert one in returned && one in batch;
    }
    forall stored, cap: nat | cap >= 1 && Honest(relay, stored, cap)
      ensures var st' := Pull(st, size, returned); Sorted(stored, st'.served, st'.unserved)
    {
      HonestRound(relay, stored, cap, k, st, size);
    }
  }

  /** The needed ids not in the answer, in the order asked. */
  method SplitBatch(batch: seq<Id>, returned: set<Id>) returns (missing: seq<Id>, brought: seq<Id>)
    ensures missing == Missing(batch, returned) && brought == Brought(batch, returned)
  {
    missing, brought := [], [];
    for i := 0 to |batch|
      invariant missing == Missing(batch[..i], returned) && brought == Brought(batch[..i], returned)
    {
      assert batch[..i + 1] == batch[..i] + [batch[i]];
      FilterSnoc(batch[..i], batch[i], id => id !in returned);
      FilterSnoc(batch[..i], batch[i], id => id in returned);
      if batch[i] !in returned {
        missing := missing + [batch[i]];
      } else {
        brought := brought + [batch[i]];
      }
    }
    assert batch[..|batch|] == batch;
  }

  lemma {:induction false} FilterSnoc(s: seq<Id>, x: Id, f: Id -> bool)
    ensures Filter(s + [x], f) == Filter(s, f) + if f(x) then [x] else []
  {
    if s != [] {
      FilterSnoc(s[1..], x, f);
      assert (s + [x])[1..] == s[1..] + [x];
    }
  }

  /** The loop of pullEvents. It ends for every relay whose answers, when they are
      not empty, name something it was asked for; every needed occurrence ends up
      served or unserved, once; and against an honest relay with any cap of at
      least one, the unserved are exactly the needed ids it does not hold. */
  method PullEvents(needIds: seq<Id>, size: nat, relay: Relay) returns (served: seq<Id>, unserved: seq<Id>)
    requires 1 <= size
    requires NamesAsked(relay)
    ensures multiset(needIds) == multiset(served) + multiset(unserved)
    ensures forall stored, cap: nat :: cap >= 1 && Honest(relay, stored, cap) ==>
              && multiset(served) == multiset(Filter(needIds, id => id in stored))
              && multiset(unserved) == multiset(Filter(needIds, id => id !in stored))
  {
    var pending := needIds;
    served, unserved := [], [];
    var k := 0;
    while |pending| > 0
      invariant multiset(pending) + multiset(served) + multiset(unserved) == multiset(needIds)
      invariant SortedIfHonest(relay, Round(pending, served, unserved))
      decreases |pending|
    {
      ghost var before := Round(pending, served, unserved);
      RoundKeeps(relay, k, before, size);
      var batch := pending[..if size <= |pending| then size else |pending|];
      var returned := relay(k, batch);
      RoundConserves(before, size, returned);
      var missing, brought := SplitBatch(batch, returned);
      if returned != {} {
        pending, served := missing + pending[|batch|..], served + brought;
      } else {
        pending, unserved := pending[|batch|..], unserved + missing;
      }
      assert Round(pending, served, unserved) == Pull(before, size, returned);
      k := k + 1;
    }
    assert multiset(pending) == multiset{};
    forall stored, cap: nat | cap >= 1 && Honest(relay, stored, cap)
      ensures multiset(served) == multiset(Filter(needIds, id => id in stored))
      ensures multiset(unserved) == multiset(Filter(needIds, id => id !in stored))
    {
      UnservedIsExact(needIds, served, unserved, stored);
    }
  }

  lemma {:induction false} FilterCounts(s: seq<Id>, f: Id -> bool, x: Id)
    ensures multiset(Filter(s, f))[x] == if f(x) then multiset(s)[x] else 0
  {
    if s != [] {
      FilterCounts(s[1..], f, x);
      assert s == [s[0]] + s[1..];
      assert multiset(s) == multiset{s[0]} + multiset(s[1..]);
    }
  }

  /** Once the served are all held and the unserved are not, they are the needed
      ids sorted by that. */
  lemma UnservedIsExact(needIds: seq<Id>, served: seq<Id>, unserved: seq<Id>, stored: set<Id>)
    requires multiset(needIds) == multiset(served) + multiset(unserved)
    requires Sorted(stored, served, unserved)
    ensures multiset(served) == multiset(Filter(needIds, id => id in stored))
    ensures multiset(unserved) == multiset(Filter(needIds, id => id !in stored))
  {
    var yes, no := Filter(needIds, id => id in stored), Filter(needIds, id => id !in stored);
    forall x ensures multiset(served)[x] == multiset(yes)[x] && multiset(unserved)[x] == multiset(no)[x] {
      FilterCounts(needIds, id => id in stored, x);
      FilterCounts(needIds, id => id !in stored, x);
      assert multiset(needIds)[x] == multiset(served)[x] + multiset(unserved)[x];
      assert x in multiset(served) ==> x in served;
      assert x in multiset(unserved) ==> x in unserved;
    }
  }

  /** A relay that answers only with ids it was not asked for can keep the list
      from ever shrinking. */
  lemma UnaskedAnswerStalls(st: Round, size: nat, other: Id)
    requires 1 <= size && st.pending != [] && other !in st.pending
    ensures Pull(st, size, {other}) == st
  {
    var batch := Batch(st, size);
    BatchSplits(batch, {other});
    AllMissing(batch, {other});
    assert st.pending == batch + st.pending[|batch|..];
    assert st.served + [] == st.served;
  }

  lemma {:induction false} AllMissing(batch: seq<Id>, returned: set<Id>)
    requires forall id :: id in batch ==> id !in returned
    ensures Missing(batch, returned) == batch && Brought(batch, returned) == []
  {
    if batch != [] {
      AllMissing(batch[1..], returned);
      assert batch == [batch[0]] + batch[1..];
    }
  }
}
