/**
 * The per-shovel admission pool (simpy's `Resource(env, capacity)`): at most
 * `capacity` requests are admitted at once; further requests wait in a FIFO
 * queue and are admitted, in the order they were made, as holders release.
 * Requests are identified by the number of the process that made them.
 */
module Resources {
  import opened Wrappers

  /** No process occurs twice. */
  ghost predicate NoDup(s: seq<nat>)
  {
    forall x :: multiset(s)[x] <= 1
  }

  /** `list.remove(p)` when `p` may be absent: the first occurrence goes, if any. */
  function RemoveFirst(s: seq<nat>, p: nat): (s': seq<nat>)
    ensures |s'| == if p in s then |s| - 1 else |s|
  {
    if s == [] then []
    else if s[0] == p then s[1..]
    else [s[0]] + RemoveFirst(s[1..], p)
  }

  /** Exactly one occurrence of `p`, if any, is removed. */
  lemma {:induction false} RemoveFirstCount(s: seq<nat>, p: nat)
    ensures multiset(RemoveFirst(s, p)) == multiset(s) - multiset{p}
  {
    if s != [] {
      assert s == [s[0]] + s[1..];
      if s[0] != p {
        RemoveFirstCount(s[1..], p);
      }
    }
  }

  /** The admitted requests (`users`) and the waiting ones (`put_queue`). */
  datatype PoolState = PoolState(users: seq<nat>, queue: seq<nat>)

  /** The admission rule: never more than `cap` holders, and nobody waits while a slot is free. */
  ghost predicate PoolOk(ps: PoolState, cap: nat)
  {
    |ps.users| <= cap && (ps.queue != [] ==> |ps.users| == cap)
  }

  /**
   * `request()`: admitted at once if a slot is free, otherwise appended to the
   * wait queue. The boolean says whether it was admitted.
   */
  function Requested(ps: PoolState, cap: nat, p: nat): (r: (PoolState, bool))
    ensures r.1 <==> |ps.users| < cap
    ensures r.1 ==> r.0.users == ps.users + [p] && r.0.queue == ps.queue
    ensures !r.1 ==> r.0.users == ps.users && r.0.queue == ps.queue + [p]
  {
    if |ps.users| < cap then (PoolState(ps.users + [p], ps.queue), true)
    else (PoolState(ps.users, ps.queue + [p]), false)
  }

  /**
   * `release()`: the holder leaves (nothing happens if `p` holds nothing)
   * and, if that frees a slot, the earliest waiting request is admitted and
   * returned.
   */
  function Released(ps: PoolState, cap: nat, p: nat): (r: (PoolState, Option<nat>))
    ensures r.1.Some? ==> ps.queue != [] && r.1.value == ps.queue[0]
    ensures r.1.Some? ==> r.0.queue == ps.queue[1..]
    ensures r.1.None? ==> r.0.queue == ps.queue
  {
    var users := RemoveFirst(ps.users, p);
    if |users| < cap && ps.queue != [] then (PoolState(users + [ps.queue[0]], ps.queue[1..]), Some(ps.queue[0]))
    else (PoolState(users, ps.queue), None)
  }

  /** On a list without duplicates, removing `p` removes exactly `p`. */
  lemma RemoveFirstMembers(s: seq<nat>, p: nat)
    requires NoDup(s)
    ensures NoDup(RemoveFirst(s, p))
    ensures forall x :: x in RemoveFirst(s, p) <==> x in s && x != p
  {
    var t := RemoveFirst(s, p);
    RemoveFirstCount(s, p);
    forall x
      ensures x in t <==> x in s && x != p
    {
      assert x in t <==> x in multiset(t);
      assert x in s <==> x in multiset(s);
    }
  }

  /** A request keeps the admission rule. */
  lemma RequestedOk(ps: PoolState, cap: nat, p: nat)
    requires PoolOk(ps, cap)
    ensures PoolOk(Requested(ps, cap, p).0, cap)
  {
  }

  /**
   * Under the admission rule, a holder leaving while requests wait frees a
   * slot, so the earliest waiting request is admitted.
   */
  lemma ReleasedAdmits(ps: PoolState, cap: nat, p: nat)
    requires PoolOk(ps, cap) && p in ps.users && ps.queue != []
    ensures Released(ps, cap, p).1 == Some(ps.queue[0])
    ensures Released(ps, cap, p).0 == PoolState(RemoveFirst(ps.users, p) + [ps.queue[0]], ps.queue[1..])
  {
  }

  /** A release keeps the admission rule. */
  lemma ReleasedOk(ps: PoolState, cap: nat, p: nat)
    requires PoolOk(ps, cap)
    ensures PoolOk(Released(ps, cap, p).0, cap)
  {
  }

  /**
   * Who holds and who waits after a request by `p`, which held nothing and
   * was not waiting: `p` holds iff it was admitted and waits iff it was not;
   * everyone else is where they were.
   */
  lemma RequestedMembers(ps: PoolState, cap: nat, p: nat)
    requires NoDup(ps.users) && NoDup(ps.queue)
    requires p !in ps.users && p !in ps.queue
    ensures var (ps', admitted) := Requested(ps, cap, p);
      && NoDup(ps'.users) && NoDup(ps'.queue)
      && (p in ps'.users <==> admitted) && (p in ps'.queue <==> !admitted)
      && (forall x :: x != p ==> (x in ps'.users <==> x in ps.users) && (x in ps'.queue <==> x in ps.queue))
  {
  }

  /**
   * Who holds and who waits after holder `p` releases: `p` neither holds nor
   * waits; the admitted waiter, if any, now holds and no longer waits;
   * everyone else is where they were.
   */
  lemma ReleasedMembers(ps: PoolState, cap: nat, p: nat)
    requires NoDup(ps.users) && NoDup(ps.queue)
    requires p !in ps.queue
    requires forall x :: x in ps.users ==> x !in ps.queue
    ensures var (ps', next) := Released(ps, cap, p);
      && NoDup(ps'.users) && NoDup(ps'.queue)
      && p !in ps'.users && p !in ps'.queue
      && (next.Some? ==> next.value != p && next.value in ps'.users && next.value !in ps'.queue && next.value !in ps.users)
      && (forall x :: x != p && (next.None? || x != next.value) ==>
            (x in ps'.users <==> x in ps.users) && (x in ps'.queue <==> x in ps.queue))
  {
    var users := RemoveFirst(ps.users, p);
    RemoveFirstMembers(ps.users, p);
    if |users| < cap && ps.queue != [] {
      var w := ps.queue[0];
      var rest := ps.queue[1..];
      assert ps.queue == [w] + rest;
      assert multiset(ps.queue) == multiset{w} + multiset(rest);
      assert multiset(ps.queue)[w] == 1 + multiset(rest)[w];
      assert w !in multiset(rest);
      assert w in ps.queue;
      assert w !in users;
      assert multiset(users)[w] == 0;
      assert multiset(users + [w]) == multiset(users) + multiset{w};
      assert NoDup(users + [w]) by {
        forall x ensures multiset(users + [w])[x] <= 1 {
          if x == w { } else { assert multiset(users + [w])[x] == multiset(users)[x]; }
        }
      }
      assert NoDup(rest) by {
        forall x ensures multiset(rest)[x] <= 1 {
          assert multiset(rest)[x] <= multiset(ps.queue)[x];
        }
      }
      assert Released(ps, cap, p) == (PoolState(users + [w], rest), Some(w));
      forall x | x != p && x != w
        ensures (x in users + [w] <==> x in ps.users) && (x in rest <==> x in ps.queue)
      {
      }
    } else {
      assert Released(ps, cap, p) == (PoolState(users, ps.queue), None);
    }
  }

  /** simpy's Resource for one shovel. */
  class ShovelPool {
    const capacity: nat
    var users: seq<nat>
    var queue: seq<nat>
    /** Every request made so far, in order. */
    ghost var requests: seq<nat>
    /** Every admission granted so far, in order. */
    ghost var admissions: seq<nat>

    function State(): PoolState
      reads this
    {
      PoolState(users, queue)
    }

    /**
     * The admission rule, and FIFO fairness: the requests admitted so far,
     * followed by those still waiting, are exactly the requests made, in the
     * order they were made.
     */
    ghost predicate Valid()
      reads this
    {
      capacity >= 1 && PoolOk(State(), capacity) && requests == admissions + queue
    }

    constructor (capacity: nat)
      requires capacity >= 1
      ensures Valid() && this.capacity == capacity
      ensures users == [] && queue == [] && requests == [] && admissions == []
    {
      this.capacity := capacity;
      users, queue := [], [];
      requests, admissions := [], [];
    }

    method Request(p: nat) returns (admitted: bool)
      requires Valid()
      modifies this
      ensures Valid()
      ensures (State(), admitted) == Requested(old(State()), capacity, p)
      ensures requests == old(requests) + [p]
      ensures admissions == if admitted then old(admissions) + [p] else old(admissions)
    {
      requests := requests + [p];
      if |users| < capacity {
        users := users + [p];
        admissions := admissions + [p];
        admitted := true;
      } else {
        queue := queue + [p];
        admitted := false;
      }
    }

    method Release(p: nat) returns (next: Option<nat>)
      requires Valid()
      modifies this
      ensures Valid()
      ensures (State(), next) == Released(old(State()), capacity, p)
      ensures requests == old(requests)
      ensures admissions == if next.Some? then old(admissions) + [next.value] else old(admissions)
    {
      ReleasedOk(State(), capacity, p);
      users := RemoveFirst(users, p);
      if |users| < capacity && queue != [] {
        next := Some(queue[0]);
        users := users + [queue[0]];
        admissions := admissions + [queue[0]];
        queue := queue[1..];
      } else {
        next := None;
      }
    }
  }
}
