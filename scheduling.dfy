/**
 * The discrete-event environment the haul-cycle simulation runs in: a
 * simulated clock and a time-ordered queue of pending process resumptions.
 * `timeout(d)` of the Python program becomes `Schedule(d, p)`: process `p`
 * resumes at `now + d`. Resumptions due at the same time run in the order in
 * which they were scheduled.
 */
module Scheduling {

  /** Process `proc` is to be resumed at simulated time `at`. */
  datatype Resumption = Resumption(at: real, proc: nat)

  /** The queue is ordered by due time. */
  ghost predicate Sorted(q: seq<Resumption>)
  {
    forall j, k :: 0 <= j < k < |q| ==> q[j].at <= q[k].at
  }

  /**
   * The queue after scheduling `r`: `r` goes after every entry due no later
   * than `r` and before every entry due strictly later.
   */
  function Insert(q: seq<Resumption>, r: Resumption): (q': seq<Resumption>)
    ensures |q'| == |q| + 1
  {
    if q == [] then [r]
    else if r.at < q[0].at then [r] + q
    else
      [q[0]] + Insert(q[1..], r)
  }

  /** The processes that have a pending resumption, with multiplicity. */
  ghost function Procs(q: seq<Resumption>): multiset<nat>
  {
    if q == [] then multiset{} else multiset{q[0].proc} + Procs(q[1..])
  }

  /** Scheduling adds exactly `r` to the queue's entries. */
  lemma {:induction false} InsertMembers(q: seq<Resumption>, r: Resumption)
    ensures multiset(Insert(q, r)) == multiset(q) + multiset{r}
    ensures forall x :: x in Insert(q, r) <==> x in q || x == r
  {
    if q != [] && r.at >= q[0].at {
      InsertMembers(q[1..], r);
      assert q == [q[0]] + q[1..];
    }
  }

  /** The head of the queue after scheduling `r`. */
  lemma InsertHead(q: seq<Resumption>, r: Resumption)
    ensures Insert(q, r)[0] == if q == [] || r.at < q[0].at then r else q[0]
  {
  }

  lemma SortedTail(q: seq<Resumption>)
    requires Sorted(q) && q != []
    ensures Sorted(q[1..])
  {
    forall j, k | 0 <= j < k < |q[1..]|
      ensures q[1..][j].at <= q[1..][k].at
    {
      assert q[1..][j] == q[j + 1] && q[1..][k] == q[k + 1];
    }
  }

  lemma SortedCons(x: Resumption, t: seq<Resumption>)
    requires Sorted(t) && (t != [] ==> x.at <= t[0].at)
    ensures Sorted([x] + t)
  {
    var u := [x] + t;
    forall j, k | 0 <= j < k < |u|
      ensures u[j].at <= u[k].at
    {
      assert u[k] == t[k - 1];
      if j > 0 {
        assert u[j] == t[j - 1];
      } else {
        assert t[0].at <= t[k - 1].at;
      }
    }
  }

  /** Inserting keeps the queue ordered by due time. */
  lemma {:induction false} InsertSorted(q: seq<Resumption>, r: Resumption)
    requires Sorted(q)
    ensures Sorted(Insert(q, r))
  {
    if q == [] {
    } else if r.at < q[0].at {
      SortedCons(r, q);
    } else {
      SortedTail(q);
      InsertSorted(q[1..], r);
      var t := Insert(q[1..], r);
      InsertHead(q[1..], r);
      assert q[1..] != [] ==> q[0].at <= q[1..][0].at by {
        if q[1..] != [] {
          assert q[1..][0] == q[1];
        }
      }
      SortedCons(q[0], t);
    }
  }

  /** Every entry of the queue after scheduling is due no earlier than `t` if that held before and `r` is due no earlier. */
  lemma {:induction false} InsertLowerBound(q: seq<Resumption>, r: Resumption, t: real)
    requires t <= r.at
    requires forall k :: 0 <= k < |q| ==> t <= q[k].at
    ensures forall k :: 0 <= k < |Insert(q, r)| ==> t <= Insert(q, r)[k].at
  {
    if q != [] && r.at >= q[0].at {
      InsertLowerBound(q[1..], r, t);
    }
  }

  /**
   * FIFO tie-break: if every entry before position `k` is due no later than
   * `r` and the entry at `k` (if any) is due strictly later, `r` lands at `k`.
   */
  lemma {:induction false} InsertAt(q: seq<Resumption>, r: Resumption, k: nat)
    requires k <= |q|
    requires forall j :: 0 <= j < k ==> q[j].at <= r.at
    requires k < |q| ==> r.at < q[k].at
    ensures Insert(q, r) == q[..k] + [r] + q[k..]
  {
    if k == 0 {
      assert q[..0] == [] && q[0..] == q;
    } else {
      var t := q[1..];
      assert forall j :: 0 <= j < k - 1 ==> t[j] == q[j + 1];
      assert k - 1 < |t| ==> t[k - 1] == q[k];
      InsertAt(t, r, k - 1);
      var u := t[..k - 1] + [r] + t[k - 1..];
      assert Insert(q, r) == [q[0]] + u;
      var w := q[..k] + [r] + q[k..];
      assert |w| == |[q[0]] + u|;
      forall n | 0 <= n < |w|
        ensures w[n] == ([q[0]] + u)[n]
      {
        if n == 0 {
        } else if n < k {
          assert w[n] == q[n] && u[n - 1] == t[n - 1];
        } else if n == k {
          assert u[n - 1] == r;
        } else {
          assert w[n] == q[n - 1] && u[n - 1] == t[n - 2];
        }
      }
    }
  }

  /** Scheduling adds exactly the new process to the pending processes. */
  lemma {:induction false} InsertProcs(q: seq<Resumption>, r: Resumption)
    ensures Procs(Insert(q, r)) == Procs(q) + multiset{r.proc}
  {
    if q != [] && r.at >= q[0].at {
      InsertProcs(q[1..], r);
      assert Insert(q, r)[1..] == Insert(q[1..], r);
    } else if q != [] {
      assert Insert(q, r)[1..] == q;
    }
  }

  /** An entry of the queue counts among the pending processes. */
  lemma {:induction false} ProcsMember(q: seq<Resumption>, e: Resumption)
    requires e in q
    ensures Procs(q)[e.proc] >= 1
  {
    if q[0] != e {
      ProcsMember(q[1..], e);
    }
  }

  /** A process counted among the pending ones has an entry in the queue. */
  lemma {:induction false} ProcsWitness(q: seq<Resumption>, p: nat) returns (e: Resumption)
    requires Procs(q)[p] >= 1
    ensures e in q && e.proc == p
  {
    if q[0].proc == p {
      e := q[0];
    } else {
      e := ProcsWitness(q[1..], p);
    }
  }

  /** simpy's Environment: the clock and the queue of pending resumptions. */
  class Scheduler {
    var now: real
    var queue: seq<Resumption>

    ghost predicate Valid()
      reads this
    {
      Sorted(queue) && forall k :: 0 <= k < |queue| ==> now <= queue[k].at
    }

    /** A fresh environment starts at time 0 with nothing scheduled. */
    constructor ()
      ensures Valid() && now == 0.0 && queue == []
    {
      now := 0.0;
      queue := [];
    }

    /** `timeout(delay)` for process `proc`: it resumes at `now + delay`. */
    method Schedule(delay: real, proc: nat)
      requires Valid() && delay >= 0.0
      modifies this
      ensures Valid() && now == old(now)
      ensures queue == Insert(old(queue), Resumption(old(now) + delay, proc))
    {
      var r := Resumption(now + delay, proc);
      var k := 0;
      while k < |queue| && queue[k].at <= r.at
        invariant 0 <= k <= |queue|
        invariant forall j :: 0 <= j < k ==> queue[j].at <= r.at
      {
        k := k + 1;
      }
      InsertAt(queue, r, k);
      InsertSorted(queue, r);
      InsertLowerBound(queue, r, now);
      queue := queue[..k] + [r] + queue[k..];
    }

    /** Takes the earliest pending resumption and advances the clock to it. */
    method Pop() returns (r: Resumption)
      requires Valid() && queue != []
      modifies this
      ensures Valid()
      ensures r == old(queue)[0] && queue == old(queue)[1..]
      ensures now == r.at && old(now) <= now
    {
      r := queue[0];
      queue := queue[1..];
      now := r.at;
    }

    /** The end of `run(until)`: the clock jumps to the horizon. */
    method AdvanceTo(t: real)
      requires Valid() && now <= t
      requires forall k :: 0 <= k < |queue| ==> t <= queue[k].at
      modifies this
      ensures Valid() && now == t && queue == old(queue)
    {
      now := t;
    }
  }
}
