/** A bounded first-in-first-out set: the meaning shared by the follow state's
    two id lists (client/follow.go) and the memory of refused wraps
    (signer/refused.go). */
module BoundedFifo {
  import opened Common

  /** Adding a new element at the end, the oldest dropped past `max`. */
  function Insert<T(==)>(order: seq<T>, x: T, max: nat): seq<T> {
    if x in order then order else LastN(order + [x], max)
  }

  function InsertAll<T(==)>(order: seq<T>, xs: seq<T>, max: nat): seq<T>
    decreases |xs|
  {
    if xs == [] then order else InsertAll(Insert(order, xs[0], max), xs[1..], max)
  }

  ghost predicate Fits<T(!new)>(order: seq<T>, max: nat) {
    NoDup(order) && |order| <= max
  }

  lemma InsertFits<T(!new)>(order: seq<T>, x: T, max: nat)
    requires Fits(order, max) && max >= 1
    ensures Fits(Insert(order, x, max), max)
    ensures x in Insert(order, x, max)
    ensures forall y :: y in Insert(order, x, max) ==> y in order || y == x
  {
    if x !in order {
      var all := order + [x];
      assert all[|all| - 1] == x;
      assert LastN(all, max)[|LastN(all, max)| - 1] == x;
    }
  }

  lemma {:induction false} InsertAllFits<T(!new)>(order: seq<T>, xs: seq<T>, max: nat)
    requires Fits(order, max) && max >= 1
    ensures Fits(InsertAll(order, xs, max), max)
    ensures forall y :: y in InsertAll(order, xs, max) ==> y in order || y in xs
    decreases |xs|
  {
    if xs != [] {
      InsertFits(order, xs[0], max);
      InsertAllFits(Insert(order, xs[0], max), xs[1..], max);
    }
  }

  lemma NextIsNew<T(!new)>(front: seq<T>, rest: seq<T>)
    requires rest != [] && NoDup(front + rest)
    ensures rest[0] !in front
  {
    forall i | 0 <= i < |front| ensures front[i] != rest[0] {
      assert (front + rest)[i] == front[i] && (front + rest)[|front|] == rest[0];
    }
  }

  /** A list that fits is rebuilt by inserting its elements one by one. */
  lemma {:induction false} InsertAllRebuilds<T(!new)>(front: seq<T>, rest: seq<T>, max: nat)
    requires Fits(front + rest, max)
    ensures InsertAll(front, rest, max) == front + rest
    decreases |rest|
  {
    if rest == [] {
      assert front + rest == front;
    } else {
      NextIsNew(front, rest);
      assert front + [rest[0]] + rest[1..] == front + rest;
      InsertAllRebuilds(front + [rest[0]], rest[1..], max);
    }
  }

  /** Dropping the oldest of a duplicate-free list removes it from the set. */
  lemma DropFirst<T(!new)>(order: seq<T>)
    requires order != [] && NoDup(order)
    ensures (set x | x in order[1..]) == (set x | x in order) - {order[0]}
  {
    assert forall x :: x in order <==> x == order[0] || x in order[1..];
    assert order[0] !in order[1..];
  }
}
