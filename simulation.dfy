/**
 * `MineSimulation`: the truck and shovel tables, one admission pool per
 * shovel id, the scheduler, the append-only event log, and where each truck
 * process is suspended. Each method is proved against the state machine of
 * `HaulCycle`: `Step` performs exactly one `Next`, and `Run` starts one
 * process per truck and steps until the horizon.
 */
module Simulation {
  import opened Wrappers
  import opened Scheduling
  import opened Resources
  import opened HaulCycle
  import opened HaulCycleInvariant
  import opened HaulCycleRun
  import opened HaulCycleHorizon

  class MineSimulation {
    const trucks: seq<Truck>
    const shovels: seq<Shovel>
    const maxTrucksPerShovel: nat
    const distance: (Location, Location) -> real
    const env: Scheduler
    /** `self.shovels`: the pool of each shovel id. */
    const pools: map<int, ShovelPool>
    /** `self.logs` */
    var logs: seq<Record>
    /** Where each started truck process is suspended, by truck index. */
    var phase: seq<Phase>

    function Cfg(): Config
    {
      Config(trucks, shovels, maxTrucksPerShovel, distance)
    }

    ghost function PoolObjects(): set<ShovelPool>
    {
      set id | id in pools :: pools[id]
    }

    ghost function Pools(): map<int, PoolState>
      reads PoolObjects()
    {
      map id | id in pools :: pools[id].State()
    }

    /** The state of the run as a value of the state machine. */
    ghost function Snapshot(): SimState
      reads this, env, PoolObjects()
    {
      SimState(env.now, env.queue, Pools(), phase, logs)
    }

    /** The environment and every pool keep their own invariants, and every pool is a separate object with the configured capacity. */
    ghost predicate ObjectsOk()
      reads env, PoolObjects()
    {
      && env.Valid()
      && (forall id :: id in pools ==> pools[id].Valid() && pools[id].capacity == maxTrucksPerShovel)
      && (forall a, b :: a in pools && b in pools && a != b ==> pools[a] != pools[b])
    }

    /** The objects are consistent and the run's state satisfies the invariant. */
    ghost predicate Valid()
      reads this, env, PoolObjects()
    {
      ObjectsOk() && Inv(Cfg(), Snapshot())
    }

    /**
     * `__init__`: one empty pool of capacity `max_trucks_per_shovel` per shovel
     * id (a repeated id keeps the last pool made for it), an empty log and a
     * fresh environment at time 0.
     */
    constructor (trucks: seq<Truck>, shovels: seq<Shovel>, maxTrucksPerShovel: nat, distance: (Location, Location) -> real)
      requires ConfigOk(Config(trucks, shovels, maxTrucksPerShovel, distance))
      ensures Valid() && Initial(Cfg(), Snapshot()) && Snapshot() == InitialState(Cfg())
      ensures this.trucks == trucks && this.shovels == shovels
      ensures this.maxTrucksPerShovel == maxTrucksPerShovel && this.distance == distance
      ensures pools.Keys == ShovelIds(shovels)
      ensures fresh(env) && fresh(PoolObjects())
    {
      var m := MakePools(shovels, maxTrucksPerShovel);
      this.trucks := trucks;
      this.shovels := shovels;
      this.maxTrucksPerShovel := maxTrucksPerShovel;
      this.distance := distance;
      pools := m;
      env := new Scheduler();
      logs := [];
      phase := [];
      new;
      assert Pools() == InitialState(Cfg()).pools by {
        assert Pools().Keys == ShovelIds(shovels);
      }
      FreshInv(Cfg());
    }

    /** The loop of `__init__` that makes one fresh, empty pool of capacity `cap` per shovel id. */
    static method MakePools(shovels: seq<Shovel>, cap: nat) returns (m: map<int, ShovelPool>)
      requires cap >= 1
      ensures m.Keys == ShovelIds(shovels)
      ensures forall id :: id in m ==> fresh(m[id]) && m[id].Valid() && m[id].capacity == cap
      ensures forall id :: id in m ==> m[id].State() == PoolState([], [])
      ensures forall a, b :: a in m && b in m && a != b ==> m[a] != m[b]
    {
      m := map[];
      for k := 0 to |shovels|
        invariant m.Keys == set j | 0 <= j < k :: shovels[j].shovelId
        invariant forall id :: id in m ==> fresh(m[id]) && m[id].Valid() && m[id].capacity == cap
        invariant forall id :: id in m ==> m[id].State() == PoolState([], [])
        invariant forall a, b :: a in m && b in m && a != b ==> m[a] != m[b]
      {
        var p := new ShovelPool(cap);
        m := m[shovels[k].shovelId := p];
      }
      assert m.Keys == ShovelIds(shovels);
    }

    /** `log_event`: appends one record; nothing logged before changes. */
    method LogEvent(truckId: int, event: EventKind, timestamp: real)
      requires ObjectsOk()
      modifies this
      ensures ObjectsOk()
      ensures logs == old(logs) + [Record(truckId, event, timestamp)]
      ensures phase == old(phase)
      ensures Snapshot() == old(Snapshot()).(log := old(logs) + [Record(truckId, event, timestamp)])
    {
      logs := logs + [Record(truckId, event, timestamp)];
    }

    /** The environment resumes its earliest pending process: the clock advances to it. */
    method PopNext() returns (e: Resumption)
      requires ObjectsOk() && env.queue != []
      modifies env
      ensures ObjectsOk()
      ensures e == old(env.queue[0])
      ensures Snapshot() == old(Snapshot()).(now := e.at, pending := old(env.queue[1..]))
    {
      e := env.Pop();
    }

    /** Process `p` yields `timeout(delay)`; it will be in phase `next` when resumed. */
    method SuspendProcess(p: nat, delay: real, next: Phase)
      requires ObjectsOk() && p < |phase| && delay >= 0.0
      modifies this, env
      ensures ObjectsOk()
      ensures Snapshot() == Suspend(old(Snapshot()), p, delay, next)
    {
      env.Schedule(delay, p);
      phase := phase[p := next];
    }

    /** Process `p` waits at its shovel's queue; only the pool's release can resume it. */
    method AwaitAdmission(p: nat)
      requires ObjectsOk() && p < |phase|
      modifies this
      ensures ObjectsOk()
      ensures Snapshot() == old(Snapshot()).(phase := old(phase)[p := QueuedAtShovel])
    {
      phase := phase[p := QueuedAtShovel];
    }

    /** `request()` on the pool of shovel `a`, on behalf of process `p`; no other pool changes. */
    method RequestShovel(a: int, p: nat) returns (admitted: bool)
      requires ObjectsOk() && a in pools
      modifies pools[a]
      ensures ObjectsOk()
      ensures var r := Requested(old(Pools())[a], maxTrucksPerShovel, p);
        admitted == r.1 && Snapshot() == old(Snapshot()).(pools := old(Pools())[a := r.0])
    {
      admitted := pools[a].Request(p);
      forall id | id in pools && id != a
        ensures pools[id].State() == old(pools[id].State())
      {
        assert pools[id] != pools[a];
      }
      assert Pools() == old(Pools())[a := pools[a].State()];
    }

    /** `release()` on the pool of shovel `a` by process `p`; no other pool changes. */
    method ReleaseShovel(a: int, p: nat) returns (next: Option<nat>)
      requires ObjectsOk() && a in pools
      modifies pools[a]
      ensures ObjectsOk()
      ensures var r := Released(old(Pools())[a], maxTrucksPerShovel, p);
        next == r.1 && Snapshot() == old(Snapshot()).(pools := old(Pools())[a := r.0])
    {
      next := pools[a].Release(p);
      forall id | id in pools && id != a
        ensures pools[id].State() == old(pools[id].State())
      {
        assert pools[id] != pools[a];
      }
      assert Pools() == old(Pools())[a := pools[a].State()];
    }

    /**
     * One scheduler step: the earliest pending truck process is resumed and
     * runs until it yields again. It logs exactly one record, the next event
     * of its own cycle, stamped with the time it was resumed at.
     */
    method Step()
      requires Valid() && env.queue != []
      modifies this, env, PoolObjects()
      ensures Valid()
      ensures Snapshot() == Next(Cfg(), old(Snapshot()))
      ensures old(env.queue[0].proc) < |trucks| && |phase| == |old(phase)|
      ensures env.now == old(env.queue[0].at)
      ensures logs == old(logs) + [Record(trucks[old(env.queue[0].proc)].truckId,
                                          CycleEvent(|TruckLog(Cfg(), old(logs), old(env.queue[0].proc))|),
                                          old(env.queue[0].at))]
    {
      ghost var s := Snapshot();
      ghost var n := Next(Cfg(), s);
      PopFacts(Cfg(), s);
      NextInv(Cfg(), s);
      var e := PopNext();
      ghost var s1 := Snapshot();
      var i := e.proc;
      var a := trucks[i].assignedShovel;
      match phase[i]
      case CycleStart =>
        LogEvent(trucks[i].truckId, TravelingToShovel, env.now);
        SuspendProcess(i, ShovelLegTime(Cfg(), i), EnRouteToShovel);
        assert Snapshot() == n;
      case EnRouteToShovel =>
        LogEvent(trucks[i].truckId, QueuingAtShovel, env.now);
        ghost var s2 := Snapshot();
        assert s2 == Emit(Cfg(), s1, i, QueuingAtShovel);
        var admitted := RequestShovel(a, i);
        ghost var s3 := Snapshot();
        if admitted {
          SuspendProcess(i, 0.0, Admitted);
          assert Snapshot() == Suspend(s3, i, 0.0, Admitted);
        } else {
          AwaitAdmission(i);
        }
        assert Snapshot() == n;
      case QueuedAtShovel =>
        assert false;
      case Admitted =>
        LogEvent(trucks[i].truckId, Loading, env.now);
        SuspendProcess(i, LoadingTime(Cfg(), i), BeingLoaded);
        assert Snapshot() == n;
      case BeingLoaded =>
        var next := ReleaseShovel(a, i);
        ghost var s2 := Snapshot();
        if next.Some? {
          assert next.value in s.pools[a].queue;
          assert PoolMembersOk(Cfg(), s, a);
          SuspendProcess(next.value, 0.0, Admitted);
        }
        ghost var s3 := Snapshot();
        assert s3 == if next.Some? then Suspend(s2, next.value, 0.0, Admitted) else s2;
        LogEvent(trucks[i].truckId, TravelingToDump, env.now);
        SuspendProcess(i, DumpLegTime(Cfg(), i), EnRouteToDump);
        assert Snapshot() == Suspend(Emit(Cfg(), s3, i, TravelingToDump), i, DumpLegTime(Cfg(), i), EnRouteToDump);
        assert Snapshot() == n;
      case EnRouteToDump =>
        LogEvent(trucks[i].truckId, Dumping, env.now);
        SuspendProcess(i, DumpingTime, CycleStart);
        assert Snapshot() == n;
    }

    /** `env.process(truck_process(truck_id))` for the next truck row: it is due at once, at the top of its loop. */
    method StartProcess()
      requires ObjectsOk()
      modifies this, env
      ensures ObjectsOk()
      ensures Snapshot() == Start(old(Snapshot()))
    {
      env.Schedule(0.0, |phase|);
      phase := phase + [CycleStart];
    }

    /** The clock jumps to `t`. */
    method AdvanceClock(t: real)
      requires ObjectsOk() && env.now <= t
      requires forall k :: 0 <= k < |env.queue| ==> t <= env.queue[k].at
      modifies env
      ensures ObjectsOk()
      ensures Snapshot() == old(Snapshot()).(now := t)
    {
      env.AdvanceTo(t);
    }

    /** The loop of `run`: one process per truck row, in table order, each due at time 0. */
    method StartAll()
      requires Valid() && Initial(Cfg(), Snapshot())
      modifies this, env
      ensures Valid() && |phase| == |trucks| && logs == [] && env.now == 0.0
      ensures Snapshot() == Starts(old(Snapshot()), |trucks|)
    {
      for k := 0 to |trucks|
        invariant Valid() && |phase| == k && logs == [] && env.now == 0.0
        invariant Snapshot() == Starts(old(Snapshot()), k)
      {
        StartInv(Cfg(), Snapshot());
        StartProcess();
      }
    }

    /** One step of `env.run(until=t)` when a process is due before `t`: exactly one `Next`, which logs one more record below `t`. */
    method StepBefore(t: real)
      requires Valid() && Running(Cfg(), Snapshot(), t)
      requires env.queue != [] && env.queue[0].at < t
      modifies this, env, PoolObjects()
      ensures Valid() && Running(Cfg(), Snapshot(), t)
      ensures Snapshot() == Next(Cfg(), old(Snapshot()))
      ensures |logs| == |old(logs)| + 1
    {
      NextRunning(Cfg(), Snapshot(), t);
      Step();
    }

    /**
     * The body of `env.run(until=t)`: resume processes while one is due
     * before `t`. The state it ends in is `RunTo` of the state it started
     * from. Every step logs one record, below `t`, of a truck of the table,
     * and there are only so many of those, so the loop ends.
     */
    method Simulate(t: real)
      requires Valid() && Running(Cfg(), Snapshot(), t)
      modifies this, env, PoolObjects()
      ensures Valid() && Running(Cfg(), Snapshot(), t)
      ensures Snapshot() == RunTo(Cfg(), old(Snapshot()), t)
      ensures env.queue == [] || t <= env.queue[0].at
    {
      LogBound(Cfg(), Snapshot(), t);
      while env.queue != [] && env.queue[0].at < t
        invariant Valid() && Running(Cfg(), Snapshot(), t)
        invariant RunTo(Cfg(), Snapshot(), t) == RunTo(Cfg(), old(Snapshot()), t)
        invariant |logs| <= |trucks| * Bound(t)
        decreases |trucks| * Bound(t) - |logs|
      {
        StepBefore(t);
        LogBound(Cfg(), Snapshot(), t);
      }
    }

    /** The end of `env.run(until=t)`: nothing is due before `t`, so the clock moves to `t`. */
    method Finish(t: real)
      requires Valid() && env.now <= t
      requires env.queue == [] || t <= env.queue[0].at
      modifies env
      ensures Valid()
      ensures Snapshot() == old(Snapshot()).(now := t)
    {
      assert forall k :: 0 <= k < |env.queue| ==> t <= env.queue[k].at by {
        if env.queue != [] {
          assert forall k :: 0 <= k < |env.queue| ==> env.queue[0].at <= env.queue[k].at;
        }
      }
      AdvanceInv(Cfg(), Snapshot(), t);
      AdvanceClock(t);
    }

    /**
     * `run(simulation_time)`: starts one process per truck row, then
     * `env.run(until=simulation_time)`, which refuses a horizon that is not
     * after the current time (`None`). Otherwise the run resumes processes
     * while one is due before the horizon and stops with the clock at the
     * horizon. The log it returns is in time order and below the horizon;
     * every truck's own records follow its cycle, well timed, starting with
     * `traveling_to_shovel` at time 0; nothing due before the horizon is
     * left pending; and no shovel has more holders than its capacity. The
     * state it ends in, and so the log, is `RunFrom` of the state it started
     * from, moved to the horizon.
     */
    method Run(simulationTime: real) returns (result: Option<seq<Record>>)
      requires Valid() && Initial(Cfg(), Snapshot())
      modifies this, env, PoolObjects()
      ensures Valid() && |phase| == |trucks|
      ensures simulationTime <= 0.0 ==> result == None
      ensures 0.0 < simulationTime ==> result == Some(logs) && env.now == simulationTime
      ensures 0.0 < simulationTime ==>
        Snapshot() == RunFrom(Cfg(), old(Snapshot()), simulationTime).(now := simulationTime)
      ensures 0.0 < simulationTime ==> env.queue == [] || simulationTime <= env.queue[0].at
      ensures forall k :: 0 <= k < |logs| ==> 0.0 <= logs[k].timestamp < simulationTime
      ensures forall j, k :: 0 <= j < k < |logs| ==> logs[j].timestamp <= logs[k].timestamp
      ensures LogOfTrucks(Cfg(), logs)
      ensures forall i :: 0 <= i < |trucks| ==>
        FollowsCycle(TruckLog(Cfg(), logs, i)) && WellTimed(Cfg(), i, TruckLog(Cfg(), logs, i))
      ensures 0.0 < simulationTime ==> forall i :: 0 <= i < |trucks| ==>
        TruckLog(Cfg(), logs, i) != [] && TruckLog(Cfg(), logs, i)[0] == Record(trucks[i].truckId, TravelingToShovel, 0.0)
      ensures forall a :: a in pools ==> |Holders(Cfg(), Snapshot(), a)| <= maxTrucksPerShovel
    {
      StartAll();
      if simulationTime <= env.now {
        result := None;
      } else {
        Simulate(simulationTime);
        Finish(simulationTime);
        FinalLogs(Cfg(), Snapshot(), simulationTime);
        result := Some(logs);
      }
      ProcessLogs(Cfg(), Snapshot());
      HoldersBound();
    }

    /** No shovel has more holders than its capacity. */
    lemma HoldersBound()
      requires Valid()
      ensures forall a :: a in pools ==> |Holders(Cfg(), Snapshot(), a)| <= maxTrucksPerShovel
    {
      forall a | a in pools
        ensures |Holders(Cfg(), Snapshot(), a)| <= maxTrucksPerShovel
      {
        HoldersWithinCapacity(Cfg(), Snapshot(), a);
      }
    }
  }
}
