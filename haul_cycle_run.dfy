/**
 * Properties of a whole run: the invariant holds for the fresh state and
 * survives starting the truck processes; the log only ever holds a bounded
 * number of records below the horizon (so the run stops); when the run stops
 * every truck has started its first cycle; no shovel ever has more holders
 * than its capacity; and each truck's event counts follow the cycle.
 */
module HaulCycleRun {
  import opened Wrappers
  import opened Scheduling
  import opened Resources
  import opened HaulCycle
  import opened HaulCycleInvariant

  /** The fresh state satisfies the invariant. */
  lemma InitialInv(cfg: Config, s: SimState)
    requires ConfigOk(cfg) && Initial(cfg, s)
    ensures Inv(cfg, s)
  {
    forall id | id in s.pools
      ensures PoolMembersOk(cfg, s, id)
    {
      assert s.pools[id] == PoolState([], []);
    }
  }

  /** No pending resumption belongs to a process that has not been started. */
  lemma NotYetPending(cfg: Config, s: SimState)
    requires ConfigOk(cfg) && |s.phase| <= |cfg.trucks| && PendingOk(cfg, s)
    ensures Procs(s.pending)[|s.phase|] == 0
  {
    if Procs(s.pending)[|s.phase|] >= 1 {
      var e := ProcsWitness(s.pending, |s.phase|);
      assert false;
    }
  }

  /**
   * `env.process(truck_process(id))` before the run: starting the next truck
   * at time 0, with nothing logged yet, keeps the invariant. The new process
   * is at the top of its loop and due at once; it holds and waits for nothing.
   */
  lemma StartInv(cfg: Config, s: SimState)
    requires Inv(cfg, s) && |s.phase| < |cfg.trucks| && s.now == 0.0 && s.log == []
    ensures Inv(cfg, Start(s))
    ensures Start(s).log == [] && Start(s).now == 0.0 && |Start(s).phase| == |s.phase| + 1
  {
    InsertFacts(s.pending, Resumption(s.now, |s.phase|), s.now);
    StartPending(cfg, s);
    StartPools(cfg, s);
    StartProcesses(cfg, s);
  }

  /** Every pending resumption, the new one included, is still on time. */
  lemma StartPending(cfg: Config, s: SimState)
    requires Inv(cfg, s) && |s.phase| < |cfg.trucks| && s.now == 0.0 && s.log == []
    ensures PendingOk(cfg, Start(s))
  {
    var s' := Start(s);
    InsertFacts(s.pending, Resumption(s.now, |s.phase|), s.now);
    assert forall k :: 0 <= k < |cfg.trucks| ==> TruckLog(cfg, s.log, k) == [];
    forall x | x in s'.pending
      ensures x.proc < |s'.phase| && DueOk(cfg, x.proc, TruckLog(cfg, s'.log, x.proc), s'.phase[x.proc], x.at)
    {
      if x in s.pending {
        assert s'.phase[x.proc] == s.phase[x.proc];
      }
    }
  }

  /** Starting a process changes no pool. */
  lemma StartPools(cfg: Config, s: SimState)
    requires Inv(cfg, s) && |s.phase| < |cfg.trucks|
    ensures PoolsOk(cfg, Start(s))
  {
    var s' := Start(s);
    forall id | id in s'.pools
      ensures PoolMembersOk(cfg, s', id)
    {
      assert PoolMembersOk(cfg, s, id);
    }
  }

  /** The started processes stay well behaved, and the new one is at the top of its loop, pending once, holding nothing. */
  lemma StartProcesses(cfg: Config, s: SimState)
    requires Inv(cfg, s) && |s.phase| < |cfg.trucks| && s.log == []
    ensures forall k :: 0 <= k < |Start(s).phase| ==> ProcessOkIn(cfg, Start(s), k)
  {
    var j := |s.phase|;
    var s' := Start(s);
    InsertFacts(s.pending, Resumption(s.now, j), s.now);
    NotYetPending(cfg, s);
    forall k | 0 <= k < |s'.phase|
      ensures ProcessOkIn(cfg, s', k)
    {
      var a := cfg.trucks[k].assignedShovel;
      if k < j {
        assert ProcessOkIn(cfg, s, k);
        assert s'.phase[k] == s.phase[k];
      } else {
        assert PoolMembersOk(cfg, s, a);
        assert k !in s.pools[a].users;
        assert k !in s.pools[a].queue;
      }
    }
  }

  /** Reaching the horizon: the clock jumps forward to `t`, which no pending resumption precedes. */
  lemma AdvanceInv(cfg: Config, s: SimState, t: real)
    requires Inv(cfg, s) && s.now <= t
    requires forall k :: 0 <= k < |s.pending| ==> t <= s.pending[k].at
    ensures Inv(cfg, s.(now := t))
  {
    var s' := s.(now := t);
    forall id | id in s'.pools
      ensures PoolMembersOk(cfg, s', id)
    {
      assert PoolMembersOk(cfg, s, id);
    }
    forall k | 0 <= k < |s'.phase|
      ensures ProcessOkIn(cfg, s', k)
    {
      assert ProcessOkIn(cfg, s, k);
    }
  }

  /** Once every process has started, each truck's records follow the cycle and are well timed. */
  lemma ProcessLogs(cfg: Config, s: SimState)
    requires Inv(cfg, s) && |s.phase| == |cfg.trucks|
    ensures forall i :: 0 <= i < |cfg.trucks| ==>
      FollowsCycle(TruckLog(cfg, s.log, i)) && WellTimed(cfg, i, TruckLog(cfg, s.log, i))
  {
    forall i | 0 <= i < |cfg.trucks|
      ensures FollowsCycle(TruckLog(cfg, s.log, i)) && WellTimed(cfg, i, TruckLog(cfg, s.log, i))
    {
      assert ProcessOkIn(cfg, s, i);
    }
  }

  /** Some truck among the first `n` rows has id `id`. */
  ghost predicate IdAmong(cfg: Config, n: nat, id: int)
    requires n <= |cfg.trucks|
  {
    exists i :: 0 <= i < n && cfg.trucks[i].truckId == id
  }

  /** Every record was logged by a truck of the table. */
  ghost predicate LogOfTrucks(cfg: Config, log: seq<Record>)
  {
    forall k :: 0 <= k < |log| ==> IdAmong(cfg, |cfg.trucks|, log[k].truckId)
  }

  /** The total number of records of the first `n` trucks. */
  function Total(cfg: Config, log: seq<Record>, n: nat): nat
    requires n <= |cfg.trucks|
  {
    if n == 0 then 0 else Total(cfg, log, n - 1) + |TruckLog(cfg, log, n - 1)|
  }

  /** Appending a record adds one to the total exactly when one of the first `n` (distinct) trucks logged it. */
  lemma {:induction false} TotalAppend(cfg: Config, log: seq<Record>, r: Record, n: nat)
    requires ConfigOk(cfg) && n <= |cfg.trucks|
    ensures Total(cfg, log + [r], n) == Total(cfg, log, n) + (if IdAmong(cfg, n, r.truckId) then 1 else 0)
  {
    if n > 0 {
      TotalAppend(cfg, log, r, n - 1);
      ProjectAppend(log, r, cfg.trucks[n - 1].truckId);
      if cfg.trucks[n - 1].truckId == r.truckId {
        assert !IdAmong(cfg, n - 1, r.truckId);
        assert IdAmong(cfg, n, r.truckId);
      } else {
        assert IdAmong(cfg, n, r.truckId) == IdAmong(cfg, n - 1, r.truckId) by {
          if IdAmong(cfg, n, r.truckId) {
            var i :| 0 <= i < n && cfg.trucks[i].truckId == r.truckId;
            assert i < n - 1;
          }
        }
      }
    }
  }

  /** When every record belongs to a truck of the table, the per-truck record counts add up to the length of the log. */
  lemma {:induction false} TotalIsLength(cfg: Config, log: seq<Record>)
    requires ConfigOk(cfg) && LogOfTrucks(cfg, log)
    ensures Total(cfg, log, |cfg.trucks|) == |log|
  {
    if log == [] {
      TotalEmpty(cfg, |cfg.trucks|);
    } else {
      var init := log[..|log| - 1];
      var r := log[|log| - 1];
      assert log == init + [r];
      assert LogOfTrucks(cfg, init) by {
        forall k | 0 <= k < |init|
          ensures IdAmong(cfg, |cfg.trucks|, init[k].truckId)
        {
          assert init[k] == log[k];
        }
      }
      TotalIsLength(cfg, init);
      TotalAppend(cfg, init, r, |cfg.trucks|);
    }
  }

  lemma {:induction false} TotalEmpty(cfg: Config, n: nat)
    requires n <= |cfg.trucks|
    ensures Total(cfg, [], n) == 0
  {
    if n > 0 {
      TotalEmpty(cfg, n - 1);
    }
  }

  lemma {:induction false} TotalBound(cfg: Config, log: seq<Record>, n: nat, b: nat)
    requires n <= |cfg.trucks|
    requires forall i :: 0 <= i < n ==> |TruckLog(cfg, log, i)| <= b
    ensures Total(cfg, log, n) <= n * b
  {
    if n > 0 {
      TotalBound(cfg, log, n - 1, b);
      assert (n - 1) * b + b == n * b;
    }
  }

  /** How many records a truck can log before `t`: its cycles each take at least the 0.1 h dump. */
  function Bound(t: real): (b: nat)
    ensures t <= 0.0 ==> b == 0
    ensures 0.0 < t ==> 10.0 * t < (b / 5) as real
  {
    if t <= 0.0 then 0 else 5 * ((10.0 * t).Floor + 1)
  }

  /** A well-timed truck log with every record before `t` has at most `Bound(t)` records. */
  lemma TruckLogBound(cfg: Config, i: nat, tl: seq<Record>, t: real)
    requires ConfigOk(cfg) && i < |cfg.trucks| && WellTimed(cfg, i, tl)
    requires forall k :: 0 <= k < |tl| ==> tl[k].timestamp < t
    ensures |tl| <= Bound(t)
  {
    if tl != [] {
      var n := |tl|;
      var q := (n - 1) / 5;
      assert q as real * 0.1 <= tl[n - 1].timestamp;
      assert 0.0 < t;
      var m := Bound(t) / 5;
      assert Bound(t) == 5 * m;
      assert (q as real) < 10.0 * t;
      assert q < m;
    }
  }

  /**
   * Below the horizon `t` the log has at most `|trucks| * Bound(t)` records,
   * so a run that only processes resumptions due before `t` takes finitely many steps.
   */
  lemma LogBound(cfg: Config, s: SimState, t: real)
    requires Inv(cfg, s) && |s.phase| == |cfg.trucks| && LogOfTrucks(cfg, s.log)
    requires forall k :: 0 <= k < |s.log| ==> s.log[k].timestamp < t
    ensures |s.log| <= |cfg.trucks| * Bound(t)
  {
    forall i | 0 <= i < |cfg.trucks|
      ensures |TruckLog(cfg, s.log, i)| <= Bound(t)
    {
      assert ProcessOkIn(cfg, s, i);
      var tl := TruckLog(cfg, s.log, i);
      forall k | 0 <= k < |tl|
        ensures tl[k].timestamp < t
      {
        var n :| 0 <= n < |s.log| && s.log[n] == tl[k];
      }
      TruckLogBound(cfg, i, tl, t);
    }
    TotalBound(cfg, s.log, |cfg.trucks|, Bound(t));
    TotalIsLength(cfg, s.log);
  }

  /** A started truck with no records yet is due at time 0. */
  lemma UnloggedDueAtZero(cfg: Config, s: SimState, i: nat) returns (e: Resumption)
    requires Inv(cfg, s) && i < |s.phase| && TruckLog(cfg, s.log, i) == []
    ensures e in s.pending && e.at == 0.0
  {
    assert ProcessOkIn(cfg, s, i);
    assert s.phase[i].CycleStart?;
    e := ProcsWitness(s.pending, i);
  }

  /**
   * When the run stops at horizon `t > 0` (everything still pending is due at
   * `t` or later), every truck has logged, and its first record is
   * `traveling_to_shovel` at time 0.
   */
  lemma FinalLogs(cfg: Config, s: SimState, t: real)
    requires Inv(cfg, s) && |s.phase| == |cfg.trucks| && 0.0 < t
    requires s.pending == [] || t <= s.pending[0].at
    ensures forall i :: 0 <= i < |cfg.trucks| ==>
      TruckLog(cfg, s.log, i) != [] && TruckLog(cfg, s.log, i)[0] == Record(cfg.trucks[i].truckId, TravelingToShovel, 0.0)
  {
    forall i | 0 <= i < |cfg.trucks|
      ensures TruckLog(cfg, s.log, i) != [] && TruckLog(cfg, s.log, i)[0] == Record(cfg.trucks[i].truckId, TravelingToShovel, 0.0)
    {
      FirstRecord(cfg, s, t, i);
    }
  }

  lemma FirstRecord(cfg: Config, s: SimState, t: real, i: nat)
    requires Inv(cfg, s) && i < |s.phase| && 0.0 < t
    requires s.pending == [] || t <= s.pending[0].at
    ensures TruckLog(cfg, s.log, i) != [] && TruckLog(cfg, s.log, i)[0] == Record(cfg.trucks[i].truckId, TravelingToShovel, 0.0)
  {
    var tl := TruckLog(cfg, s.log, i);
    if tl == [] {
      var e := UnloggedDueAtZero(cfg, s, i);
      HeadIsEarliest(s.pending, e);
      assert false;
    }
    assert ProcessOkIn(cfg, s, i);
    FirstOfCycle(cfg, i, tl);
  }

  /** The head of an ordered queue is due no later than any of its entries. */
  lemma HeadIsEarliest(q: seq<Resumption>, e: Resumption)
    requires Sorted(q) && e in q
    ensures q[0].at <= e.at
  {
    var k :| 0 <= k < |q| && q[k] == e;
  }

  /** A truck's first record, if it has one, is `traveling_to_shovel` at time 0. */
  lemma FirstOfCycle(cfg: Config, i: nat, tl: seq<Record>)
    requires ConfigOk(cfg) && i < |cfg.trucks|
    requires FollowsCycle(tl) && WellTimed(cfg, i, tl) && tl != [] && tl[0].truckId == cfg.trucks[i].truckId
    ensures tl[0] == Record(cfg.trucks[i].truckId, TravelingToShovel, 0.0)
  {
    assert tl[0].event == CycleEvent(0);
  }

  /** The processes holding shovel `a`: admitted and not yet out of the `with` block. */
  ghost function Holders(cfg: Config, s: SimState, a: int): set<nat>
    requires |s.phase| <= |cfg.trucks|
  {
    set i | 0 <= i < |s.phase| && cfg.trucks[i].assignedShovel == a && Holding(s.phase[i])
  }

  /** The processes occurring in a pool list. */
  ghost function Elements(q: seq<nat>): set<nat>
  {
    set x | x in q
  }

  lemma {:induction false} SeqSetCard(q: seq<nat>)
    ensures |Elements(q)| <= |q|
  {
    if q != [] {
      SeqSetCard(q[1..]);
      assert Elements(q) == Elements(q[1..]) + {q[0]} by {
        assert q == [q[0]] + q[1..];
      }
    }
  }

  lemma {:induction false} SubsetCard(a: set<nat>, b: set<nat>)
    requires a <= b
    ensures |a| <= |b|
  {
    if a != {} {
      var x :| x in a;
      SubsetCard(a - {x}, b - {x});
    }
  }

  /** At every reachable state no shovel has more holders than `max_trucks_per_shovel`. */
  lemma HoldersWithinCapacity(cfg: Config, s: SimState, a: int)
    requires Inv(cfg, s) && a in s.pools
    ensures |Holders(cfg, s, a)| <= cfg.maxTrucksPerShovel
  {
    var ps := s.pools[a];
    assert PoolMembersOk(cfg, s, a);
    forall i | i in Holders(cfg, s, a)
      ensures i in ps.users
    {
      assert ProcessOkIn(cfg, s, i);
    }
    SubsetCard(Holders(cfg, s, a), Elements(ps.users));
    SeqSetCard(ps.users);
  }

  /** Where an event comes in the cycle. */
  function Position(ev: EventKind): (k: nat)
    ensures k < 5 && CycleEvent(k) == ev
  {
    match ev
    case TravelingToShovel => 0
    case QueuingAtShovel => 1
    case Loading => 2
    case TravelingToDump => 3
    case Dumping => 4
  }

  /** How many records of `tl` carry event `ev`. */
  function Count(tl: seq<Record>, ev: EventKind): nat
  {
    if tl == [] then 0
    else Count(tl[..|tl| - 1], ev) + (if tl[|tl| - 1].event == ev then 1 else 0)
  }

  lemma CycleEventPosition(n: nat, ev: EventKind)
    ensures CycleEvent(n) == ev <==> n % 5 == Position(ev)
  {
  }

  /**
   * In a log that follows the cycle, the number of records of each event is
   * fixed by the log's length and the event's place in the cycle.
   */
  lemma {:induction false} CountInCycle(tl: seq<Record>, ev: EventKind)
    requires FollowsCycle(tl)
    ensures Count(tl, ev) == (|tl| + 4 - Position(ev)) / 5
  {
    if tl != [] {
      var n := |tl| - 1;
      var init := tl[..n];
      assert FollowsCycle(init) by {
        forall k | 0 <= k < |init| ensures init[k].event == CycleEvent(k) {
          assert init[k] == tl[k];
        }
      }
      CountInCycle(init, ev);
      CycleEventPosition(n, ev);
    }
  }

  /**
   * A truck's k-th `loading` follows its k-th `queuing_at_shovel`, which
   * follows its k-th `traveling_to_shovel`, and so on around the cycle: the
   * counts never increase along the cycle, and at most one cycle is unfinished.
   */
  lemma CycleCounts(tl: seq<Record>)
    requires FollowsCycle(tl)
    ensures Count(tl, Dumping) <= Count(tl, TravelingToDump) <= Count(tl, Loading)
              <= Count(tl, QueuingAtShovel) <= Count(tl, TravelingToShovel) <= Count(tl, Dumping) + 1
  {
    CountInCycle(tl, TravelingToShovel);
    CountInCycle(tl, QueuingAtShovel);
    CountInCycle(tl, Loading);
    CountInCycle(tl, TravelingToDump);
    CountInCycle(tl, Dumping);
  }
}
