/**
 * `MineOptimizer.evaluate_solution` and the two cost reductions of
 * `optimization.py`. An individual assigns a shovel id to each truck row. It
 * is checked left to right against the per-shovel cap; a feasible one is
 * written into the truck table, the haul cycle is simulated for 8 hours, and
 * the fuel and idle costs of the resulting event log are added up.
 */
module Optimization {
  import opened Wrappers
  import opened HaulCycle
  import opened HaulCycleRun
  import opened HaulCycleHorizon
  import opened Simulation

  /** `fuel_price`, ZAR per litre. */
  const FuelPrice: real := 25.0
  /** `idle_cost_per_min`, ZAR per minute. */
  const IdleCostPerMin: real := 35.0
  /** The assumed average queue time of one `queuing_at_shovel` event, in minutes. */
  const QueueMinutes: real := 10.0
  /** The horizon of the evaluation run, in hours. */
  const EvaluationHours: real := 8.0

  // ---------------------------------------------------------------------------
  // The capacity check

  /** How often `id` occurs in `s`. */
  function Occurrences(s: seq<int>, id: int): nat
  {
    if s == [] then 0 else Occurrences(s[..|s| - 1], id) + (if s[|s| - 1] == id then 1 else 0)
  }

  /** What the counting loop decides: the individual passes, some count exceeds the cap, or an id has no counter (a `KeyError`). */
  datatype Verdict = Accepted | OverCapacity | UnknownId(id: int)

  /**
   * The counting loop, one element at a time from the left: the first element
   * that is not a shovel id 1..`numShovels`, or that takes its shovel's count
   * past `cap`, decides.
   */
  function Check(ind: seq<int>, numShovels: int, cap: nat): Verdict
  {
    if ind == [] then Accepted
    else
      var v := Check(ind[..|ind| - 1], numShovels, cap);
      var id := ind[|ind| - 1];
      if v != Accepted then v
      else if !(1 <= id <= numShovels) then UnknownId(id)
      else if Occurrences(ind, id) > cap then OverCapacity
      else Accepted
  }

  /** Once a prefix is refused, the whole individual is refused the same way. */
  lemma {:induction false} CheckPrefix(ind: seq<int>, k: nat, numShovels: int, cap: nat)
    requires k <= |ind| && Check(ind[..k], numShovels, cap) != Accepted
    ensures Check(ind, numShovels, cap) == Check(ind[..k], numShovels, cap)
    decreases |ind| - k
  {
    if k < |ind| {
      var init := ind[..|ind| - 1];
      assert init[..k] == ind[..k];
      CheckPrefix(init, k, numShovels, cap);
    } else {
      assert ind[..k] == ind;
    }
  }

  /** Removing the last element leaves every other id's count as it was. */
  lemma OccurrencesInit(s: seq<int>, id: int)
    requires s != []
    ensures Occurrences(s, id) == Occurrences(s[..|s| - 1], id) + (if s[|s| - 1] == id then 1 else 0)
  {
  }

  /** Every element is a shovel id 1..`numShovels`. */
  predicate AllShovelIds(ind: seq<int>, numShovels: int)
  {
    forall k :: 0 <= k < |ind| ==> 1 <= ind[k] <= numShovels
  }

  /** No id occurs more than `cap` times. */
  ghost predicate WithinCap(ind: seq<int>, cap: nat)
  {
    forall id :: Occurrences(ind, id) <= cap
  }

  /** An accepted individual names only shovel ids 1..`numShovels`, none more than `cap` times. */
  lemma {:induction false} AcceptedSound(ind: seq<int>, numShovels: int, cap: nat)
    requires Check(ind, numShovels, cap) == Accepted
    ensures AllShovelIds(ind, numShovels) && WithinCap(ind, cap)
  {
    if ind != [] {
      var init := ind[..|ind| - 1];
      AcceptedSound(init, numShovels, cap);
      forall k | 0 <= k < |ind|
        ensures 1 <= ind[k] <= numShovels
      {
        if k < |ind| - 1 {
          assert ind[k] == init[k];
        }
      }
      forall id
        ensures Occurrences(ind, id) <= cap
      {
        OccurrencesInit(ind, id);
      }
    }
  }

  /** An individual naming only shovel ids 1..`numShovels`, none more than `cap` times, is accepted. */
  lemma {:induction false} AcceptedComplete(ind: seq<int>, numShovels: int, cap: nat)
    requires AllShovelIds(ind, numShovels) && WithinCap(ind, cap)
    ensures Check(ind, numShovels, cap) == Accepted
  {
    if ind != [] {
      var init := ind[..|ind| - 1];
      forall k | 0 <= k < |init|
        ensures 1 <= init[k] <= numShovels
      {
        assert init[k] == ind[k];
      }
      forall id
        ensures Occurrences(init, id) <= cap
      {
        OccurrencesInit(ind, id);
      }
      AcceptedComplete(init, numShovels, cap);
      assert Occurrences(ind, ind[|ind| - 1]) <= cap;
    }
  }

  /**
   * Characterises `Check`: an individual is accepted exactly when every
   * element is a shovel id 1..`numShovels` and no id occurs more than `cap`
   * times.
   */
  lemma CheckAccepted(ind: seq<int>, numShovels: int, cap: nat)
    ensures Check(ind, numShovels, cap) == Accepted <==>
      AllShovelIds(ind, numShovels) && WithinCap(ind, cap)
  {
    if Check(ind, numShovels, cap) == Accepted {
      AcceptedSound(ind, numShovels, cap);
    } else if AllShovelIds(ind, numShovels) && WithinCap(ind, cap) {
      AcceptedComplete(ind, numShovels, cap);
    }
  }

  /** With every element a shovel id, only the cap can refuse, and it refuses exactly when some id occurs too often. */
  lemma CheckOverCapacity(ind: seq<int>, numShovels: int, cap: nat)
    requires AllShovelIds(ind, numShovels)
    ensures Check(ind, numShovels, cap) == OverCapacity <==> !WithinCap(ind, cap)
  {
    CheckAccepted(ind, numShovels, cap);
    CheckNeverUnknown(ind, numShovels, cap);
  }

  /** With every element a shovel id, no `KeyError` is raised. */
  lemma {:induction false} CheckNeverUnknown(ind: seq<int>, numShovels: int, cap: nat)
    requires AllShovelIds(ind, numShovels)
    ensures !Check(ind, numShovels, cap).UnknownId?
  {
    if ind != [] {
      var init := ind[..|ind| - 1];
      assert forall k :: 0 <= k < |init| ==> init[k] == ind[k];
      CheckNeverUnknown(init, numShovels, cap);
    }
  }

  /** An id outside 1..`numShovels`, if reported, does occur in the individual. */
  lemma {:induction false} CheckUnknownOccurs(ind: seq<int>, numShovels: int, cap: nat)
    requires Check(ind, numShovels, cap).UnknownId?
    ensures var id := Check(ind, numShovels, cap).id; id in ind && !(1 <= id <= numShovels)
  {
    var init := ind[..|ind| - 1];
    if Check(init, numShovels, cap) != Accepted {
      CheckUnknownOccurs(init, numShovels, cap);
    }
  }

  /** The counters of shovels 1..`n`, summed. */
  function CountsSum(ind: seq<int>, n: int): nat
    decreases if n < 0 then 0 else n
  {
    if n <= 0 then 0 else CountsSum(ind, n - 1) + Occurrences(ind, n)
  }

  lemma {:induction false} CountsSumInit(ind: seq<int>, n: int)
    requires ind != []
    ensures CountsSum(ind, n) == CountsSum(ind[..|ind| - 1], n) + (if 1 <= ind[|ind| - 1] <= n then 1 else 0)
    decreases if n < 0 then 0 else n
  {
    if n > 0 {
      CountsSumInit(ind, n - 1);
    }
  }

  lemma {:induction false} CountsSumEmpty(n: int)
    ensures CountsSum([], n) == 0
    decreases if n < 0 then 0 else n
  {
    if n > 0 {
      CountsSumEmpty(n - 1);
    }
  }

  /** When every element is a shovel id, the counters add up to the length of the individual. */
  lemma {:induction false} CountsSumIsLength(ind: seq<int>, n: int)
    requires AllShovelIds(ind, n)
    ensures CountsSum(ind, n) == |ind|
  {
    if ind == [] {
      CountsSumEmpty(n);
    } else {
      var init := ind[..|ind| - 1];
      assert forall k :: 0 <= k < |init| ==> init[k] == ind[k];
      CountsSumIsLength(init, n);
      CountsSumInit(ind, n);
    }
  }

  lemma {:induction false} CountsSumBound(ind: seq<int>, n: int, cap: nat)
    requires WithinCap(ind, cap)
    ensures CountsSum(ind, n) <= (if n < 0 then 0 else n) * cap
    decreases if n < 0 then 0 else n
  {
    if n > 0 {
      CountsSumBound(ind, n - 1, cap);
    }
  }

  /** Pigeonhole: more trucks than shovels times the cap can never be accepted. */
  lemma Pigeonhole(ind: seq<int>, numShovels: nat, cap: nat)
    requires |ind| > numShovels * cap
    ensures Check(ind, numShovels, cap) != Accepted
  {
    CheckAccepted(ind, numShovels, cap);
    if Check(ind, numShovels, cap) == Accepted {
      CountsSumIsLength(ind, numShovels);
      CountsSumBound(ind, numShovels, cap);
    }
  }

  // ---------------------------------------------------------------------------
  // The assignment write

  /** `trucks_df.at[i, 'assigned_shovel'] = individual[i]` for every position of the individual. */
  function Assign(rows: seq<Truck>, ind: seq<int>): (rows': seq<Truck>)
    requires |ind| <= |rows|
    ensures |rows'| == |rows|
  {
    seq(|rows|, i requires 0 <= i < |rows| => if i < |ind| then rows[i].(assignedShovel := ind[i]) else rows[i])
  }

  /**
   * Row `i` of the individual's range now names shovel `ind[i]`; nothing else
   * in any row changes; writing the same individual twice changes nothing more.
   */
  lemma AssignFacts(rows: seq<Truck>, ind: seq<int>)
    requires |ind| <= |rows|
    ensures forall i :: 0 <= i < |ind| ==> Assign(rows, ind)[i].assignedShovel == ind[i]
    ensures forall i :: 0 <= i < |rows| ==> Assign(rows, ind)[i].(assignedShovel := rows[i].assignedShovel) == rows[i]
    ensures forall i :: |ind| <= i < |rows| ==> Assign(rows, ind)[i] == rows[i]
    ensures Assign(Assign(rows, ind), ind) == Assign(rows, ind)
  {
  }

  /** The rows among the first `n` assigned to shovel `a`. */
  function AssignedTo(rows: seq<Truck>, n: nat, a: int): nat
    requires n <= |rows|
  {
    if n == 0 then 0 else AssignedTo(rows, n - 1, a) + (if rows[n - 1].assignedShovel == a then 1 else 0)
  }

  lemma {:induction false} AssignedToOccurrences(rows: seq<Truck>, ind: seq<int>, n: nat, a: int)
    requires n <= |ind| <= |rows|
    ensures AssignedTo(Assign(rows, ind), n, a) == Occurrences(ind[..n], a)
  {
    if n > 0 {
      AssignedToOccurrences(rows, ind, n - 1, a);
      assert ind[..n][..n - 1] == ind[..n - 1];
    }
  }

  /** An accepted individual, once written, puts at most `cap` of its trucks on any one shovel. */
  lemma AcceptedWithinCap(rows: seq<Truck>, ind: seq<int>, numShovels: int, cap: nat, a: int)
    requires |ind| <= |rows| && Check(ind, numShovels, cap) == Accepted
    ensures AssignedTo(Assign(rows, ind), |ind|, a) <= cap
  {
    CheckAccepted(ind, numShovels, cap);
    AssignedToOccurrences(rows, ind, |ind|, a);
    assert ind[..|ind|] == ind;
  }

  // ---------------------------------------------------------------------------
  // The costs

  /** `sum`, over reals. */
  function Sum(xs: seq<real>): real
  {
    if xs == [] then 0.0 else Sum(xs[..|xs| - 1]) + xs[|xs| - 1]
  }

  lemma {:induction false} SumNonNegative(xs: seq<real>)
    requires forall k :: 0 <= k < |xs| ==> xs[k] >= 0.0
    ensures Sum(xs) >= 0.0
  {
    if xs != [] {
      SumNonNegative(xs[..|xs| - 1]);
    }
  }

  /** `Series.mean()` of a non-empty column. */
  function Mean(xs: seq<real>): real
    requires xs != []
  {
    Sum(xs) / |xs| as real
  }

  lemma MeanNonNegative(xs: seq<real>)
    requires xs != [] && forall k :: 0 <= k < |xs| ==> xs[k] >= 0.0
    ensures Mean(xs) >= 0.0
  {
    SumNonNegative(xs);
  }

  /** The `speed` column of the truck table. */
  function Speeds(rows: seq<Truck>): (r: seq<real>)
    ensures |r| == |rows| && forall k :: 0 <= k < |rows| ==> r[k] == rows[k].speed
  {
    seq(|rows|, k requires 0 <= k < |rows| => rows[k].speed)
  }

  /** The `fuel_consumption_rate` column of the truck table. */
  function FuelRates(rows: seq<Truck>): (r: seq<real>)
    ensures |r| == |rows| && forall k :: 0 <= k < |rows| ==> r[k] == rows[k].fuelConsumptionRate
  {
    seq(|rows|, k requires 0 <= k < |rows| => rows[k].fuelConsumptionRate)
  }

  predicate IsTravel(e: EventKind)
  {
    e == TravelingToShovel || e == TravelingToDump
  }

  /** The timestamps of the `traveling_to_shovel` and `traveling_to_dump` records, in log order. */
  function TravelTimes(log: seq<Record>): (ts: seq<real>)
    ensures forall x :: x in ts ==> exists k :: 0 <= k < |log| && IsTravel(log[k].event) && log[k].timestamp == x
  {
    if log == [] then []
    else
      var ts := TravelTimes(log[..|log| - 1]);
      assert forall x :: x in ts ==> exists k :: 0 <= k < |log| && IsTravel(log[k].event) && log[k].timestamp == x by {
        forall x | x in ts
          ensures exists k :: 0 <= k < |log| && IsTravel(log[k].event) && log[k].timestamp == x
        {
          var k :| 0 <= k < |log| - 1 && IsTravel(log[..|log| - 1][k].event) && log[..|log| - 1][k].timestamp == x;
          assert log[k] == log[..|log| - 1][k];
        }
      }
      ts + (if IsTravel(log[|log| - 1].event) then [log[|log| - 1].timestamp] else [])
  }

  /** Every travel record's timestamp is among the travel times. */
  lemma {:induction false} TravelTimesMember(log: seq<Record>, k: nat)
    requires k < |log| && IsTravel(log[k].event)
    ensures log[k].timestamp in TravelTimes(log)
  {
    if k < |log| - 1 {
      TravelTimesMember(log[..|log| - 1], k);
    }
  }

  function MaxOf(xs: seq<real>): (m: real)
    requires xs != []
    ensures m in xs && forall x :: x in xs ==> x <= m
  {
    if |xs| == 1 then xs[0]
    else
      var m := MaxOf(xs[..|xs| - 1]);
      assert forall x :: x in xs ==> x in xs[..|xs| - 1] || x == xs[|xs| - 1];
      if xs[|xs| - 1] > m then xs[|xs| - 1] else m
  }

  function MinOf(xs: seq<real>): (m: real)
    requires xs != []
    ensures m in xs && forall x :: x in xs ==> m <= x
  {
    if |xs| == 1 then xs[0]
    else
      var m := MinOf(xs[..|xs| - 1]);
      assert forall x :: x in xs ==> x in xs[..|xs| - 1] || x == xs[|xs| - 1];
      if xs[|xs| - 1] < m then xs[|xs| - 1] else m
  }

  /**
   * `calculate_fuel_cost`: the span of travel timestamps times the mean speed
   * times the mean fuel rate times the fuel price. Pandas yields NaN when there
   * is no travel record or no truck row; that is `None` here.
   */
  function FuelCost(log: seq<Record>, rows: seq<Truck>): (c: Option<real>)
    ensures c.Some? <==> TravelTimes(log) != [] && rows != []
  {
    var ts := TravelTimes(log);
    if ts == [] || rows == [] then None
    else Some(FuelCostOf(MaxOf(ts) - MinOf(ts), Mean(Speeds(rows)), Mean(FuelRates(rows))))
  }

  /** Distance driven (hours times mean speed) times mean fuel rate times the fuel price. */
  function FuelCostOf(hours: real, meanSpeed: real, meanRate: real): real
  {
    hours * meanSpeed * meanRate * FuelPrice
  }

  lemma MulMono(x: real, y: real, c: real)
    requires x <= y && c >= 0.0
    ensures x * c <= y * c
  {
  }

  /** The cost of a span in [0, t] hours, at a non-negative mean speed and fuel rate, lies between 0 and the cost of t hours. */
  lemma ProductBounds(span: real, t: real, a: real, b: real)
    requires 0.0 <= span <= t && a >= 0.0 && b >= 0.0
    ensures 0.0 <= FuelCostOf(span, a, b) <= FuelCostOf(t, a, b)
  {
    var c := FuelPrice;
    MulMono(0.0, span, a);
    MulMono(span, t, a);
    MulMono(0.0, span * a, b);
    MulMono(span * a, t * a, b);
    MulMono(0.0, span * a * b, c);
    MulMono(span * a * b, t * a * b, c);
  }

  /** The travel times of a log whose timestamps lie in [0, t] span at most t. */
  lemma TravelSpan(log: seq<Record>, t: real)
    requires TravelTimes(log) != []
    requires forall k :: 0 <= k < |log| ==> 0.0 <= log[k].timestamp <= t
    ensures 0.0 <= MaxOf(TravelTimes(log)) - MinOf(TravelTimes(log)) <= t
  {
    var ts := TravelTimes(log);
    var hi, lo := MaxOf(ts), MinOf(ts);
    assert hi in ts && lo in ts;
    var k1 :| 0 <= k1 < |log| && IsTravel(log[k1].event) && log[k1].timestamp == hi;
    var k2 :| 0 <= k2 < |log| && IsTravel(log[k2].event) && log[k2].timestamp == lo;
    assert lo <= hi;
  }

  /**
   * For a log whose timestamps lie in [0, t], with non-negative speeds and
   * fuel rates, the fuel cost is non-negative and at most what driving the
   * whole horizon at the mean speed and mean fuel rate would cost.
   */
  lemma FuelCostBounds(log: seq<Record>, rows: seq<Truck>, t: real)
    requires FuelCost(log, rows).Some?
    requires forall k :: 0 <= k < |log| ==> 0.0 <= log[k].timestamp <= t
    requires forall k :: 0 <= k < |rows| ==> rows[k].speed >= 0.0 && rows[k].fuelConsumptionRate >= 0.0
    ensures 0.0 <= FuelCost(log, rows).value <= FuelCostOf(t, Mean(Speeds(rows)), Mean(FuelRates(rows)))
  {
    var ts := TravelTimes(log);
    TravelSpan(log, t);
    MeanNonNegative(Speeds(rows));
    MeanNonNegative(FuelRates(rows));
    ProductBounds(MaxOf(ts) - MinOf(ts), t, Mean(Speeds(rows)), Mean(FuelRates(rows)));
  }

  /** The number of `queuing_at_shovel` records. */
  function QueuingCount(log: seq<Record>): nat
  {
    if log == [] then 0 else QueuingCount(log[..|log| - 1]) + (if log[|log| - 1].event == QueuingAtShovel then 1 else 0)
  }

  /** `calculate_idle_cost`: ten minutes per `queuing_at_shovel` record at the idle rate. */
  function IdleCost(log: seq<Record>): (c: real)
    ensures c >= 0.0
  {
    QueuingCount(log) as real * QueueMinutes * IdleCostPerMin
  }

  lemma {:induction false} QueuingCountAppend(a: seq<Record>, b: seq<Record>)
    ensures QueuingCount(a + b) == QueuingCount(a) + QueuingCount(b)
  {
    if b != [] {
      assert (a + b)[..|a + b| - 1] == a + b[..|b| - 1];
      QueuingCountAppend(a, b[..|b| - 1]);
    } else {
      assert a + b == a;
    }
  }

  lemma {:induction false} QueuingCountZero(log: seq<Record>)
    ensures QueuingCount(log) == 0 <==> forall k :: 0 <= k < |log| ==> log[k].event != QueuingAtShovel
  {
    if log != [] {
      var init := log[..|log| - 1];
      QueuingCountZero(init);
      assert forall k :: 0 <= k < |init| ==> init[k] == log[k];
    }
  }

  /** The idle cost is 0 exactly when nobody queued, it is additive over log segments, and it only grows as the log grows. */
  lemma IdleCostFacts(log: seq<Record>, more: seq<Record>)
    ensures IdleCost(log) == 0.0 <==> forall k :: 0 <= k < |log| ==> log[k].event != QueuingAtShovel
    ensures IdleCost(log + more) == IdleCost(log) + IdleCost(more)
    ensures IdleCost(log) <= IdleCost(log + more)
  {
    QueuingCountZero(log);
    QueuingCountAppend(log, more);
  }

  // ---------------------------------------------------------------------------
  // The evaluation

  /**
   * What `evaluate_solution` returns: `(inf,)` for an individual the cap
   * refuses, a `KeyError` for an id with no counter, a `KeyError` for an empty
   * log (the frame has no `event` column), NaN when the fuel cost is
   * undefined, or the cost.
   */
  datatype Evaluation = Infeasible | UnknownShovel(id: int) | NoEvents | NotANumber | Cost(total: real)

  /** What a completed run to horizon `t` guarantees of its log. */
  ghost predicate RunLog(cfg: Config, log: seq<Record>, t: real)
  {
    && ConfigOk(cfg)
    && LogOfTrucks(cfg, log)
    && (forall k :: 0 <= k < |log| ==> 0.0 <= log[k].timestamp < t)
    && (forall j, k :: 0 <= j < k < |log| ==> log[j].timestamp <= log[k].timestamp)
    && (forall i :: 0 <= i < |cfg.trucks| ==> FollowsCycle(TruckLog(cfg, log, i)) && WellTimed(cfg, i, TruckLog(cfg, log, i)))
    && FirstRecords(cfg, log, t)
  }

  /** The log of `run(t)` on a fresh simulation of the tables of `cfg`: a function of `cfg` and `t` alone. */
  ghost function RunLogOf(cfg: Config, t: real): seq<Record>
    requires ConfigOk(cfg) && 0.0 < t
  {
    InitialStateOk(cfg);
    RunFrom(cfg, InitialState(cfg), t).log
  }

  /** The log of a fresh run has every property `RunLog` lists. */
  lemma RunLogOfRun(cfg: Config, t: real)
    requires ConfigOk(cfg) && 0.0 < t
    ensures RunLog(cfg, RunLogOf(cfg, t), t)
  {
    InitialStateOk(cfg);
    var r := RunFrom(cfg, InitialState(cfg), t);
    ProcessLogs(cfg, r);
    FinalLogs(cfg, r, t);
  }

  /** With a positive horizon, every truck's first record is its departure towards its shovel at time 0. */
  ghost predicate FirstRecords(cfg: Config, log: seq<Record>, t: real)
  {
    0.0 < t ==> forall i :: 0 <= i < |cfg.trucks| ==>
      TruckLog(cfg, log, i) != [] && TruckLog(cfg, log, i)[0] == Record(cfg.trucks[i].truckId, TravelingToShovel, 0.0)
  }

  /** A run with a positive horizon logs something exactly when there are trucks, and then it logs a travel record. */
  lemma RunLogTravel(cfg: Config, log: seq<Record>, t: real)
    requires LogOfTrucks(cfg, log) && FirstRecords(cfg, log, t) && 0.0 < t
    ensures log == [] <==> cfg.trucks == []
    ensures cfg.trucks != [] ==> TravelTimes(log) != []
  {
    if log != [] {
      assert IdAmong(cfg, |cfg.trucks|, log[0].truckId);
    }
    if cfg.trucks != [] {
      var tl := TruckLog(cfg, log, 0);
      assert tl[0] in log;
      var k :| 0 <= k < |log| && log[k] == tl[0];
      TravelTimesMember(log, k);
    }
  }

  /**
   * The fuel cost of a completed run with trucks is defined, and with
   * non-negative fuel rates it lies between 0 and the cost of driving the
   * whole horizon.
   */
  lemma RunLogCosts(cfg: Config, log: seq<Record>, t: real)
    requires RunLog(cfg, log, t) && 0.0 < t && cfg.trucks != []
    ensures FuelCost(log, cfg.trucks).Some?
    ensures (forall k :: 0 <= k < |cfg.trucks| ==> cfg.trucks[k].fuelConsumptionRate >= 0.0) ==>
      0.0 <= FuelCost(log, cfg.trucks).value <= FuelCostOf(t, Mean(Speeds(cfg.trucks)), Mean(FuelRates(cfg.trucks)))
  {
    RunLogTravel(cfg, log, t);
    if forall k :: 0 <= k < |cfg.trucks| ==> cfg.trucks[k].fuelConsumptionRate >= 0.0 {
      assert forall k :: 0 <= k < |log| ==> 0.0 <= log[k].timestamp <= t;
      FuelCostBounds(log, cfg.trucks, t);
    }
  }

  /** The counting loop of `evaluate_solution` over a dictionary with one counter per shovel id. */
  method CountAssignments(individual: seq<int>, numShovels: nat, cap: nat) returns (v: Verdict)
    ensures v == Check(individual, numShovels, cap)
  {
    var counts: map<int, nat> := map[];
    for id := 1 to numShovels + 1
      invariant forall j :: j in counts <==> 1 <= j < id
      invariant forall j :: j in counts ==> counts[j] == 0
    {
      counts := counts[id := 0];
    }
    for k := 0 to |individual|
      invariant Check(individual[..k], numShovels, cap) == Accepted
      invariant forall id :: id in counts <==> 1 <= id <= numShovels
      invariant forall id :: id in counts ==> counts[id] == Occurrences(individual[..k], id)
    {
      var id := individual[k];
      assert individual[..k + 1][..k] == individual[..k];
      if id !in counts {
        CheckPrefix(individual, k + 1, numShovels, cap);
        return UnknownId(id);
      }
      counts := counts[id := counts[id] + 1];
      forall j | j in counts
        ensures counts[j] == Occurrences(individual[..k + 1], j)
      {
        OccurrencesInit(individual[..k + 1], j);
      }
      if counts[id] > cap {
        CheckPrefix(individual, k + 1, numShovels, cap);
        return OverCapacity;
      }
    }
    assert individual[..|individual|] == individual;
    v := Accepted;
  }

  /** Writes `individual[i]` into the `assigned_shovel` column of row `i`, in place. */
  method WriteAssignment(trucks: array<Truck>, individual: seq<int>)
    requires |individual| <= trucks.Length
    modifies trucks
    ensures trucks[..] == Assign(old(trucks[..]), individual)
  {
    for i := 0 to |individual|
      invariant forall j :: 0 <= j < i ==> trucks[j] == old(trucks[j]).(assignedShovel := individual[j])
      invariant forall j :: i <= j < trucks.Length ==> trucks[j] == old(trucks[j])
    {
      trucks[i] := trucks[i].(assignedShovel := individual[i]);
    }
  }

  /**
   * `r` is what a run logging `log` on the truck table `rows` costs: with no
   * trucks the cost cannot be selected; otherwise the fuel cost is defined and
   * `r` is the fuel cost plus the idle cost.
   */
  ghost predicate Evaluated(rows: seq<Truck>, log: seq<Record>, r: Evaluation)
  {
    && (rows == [] <==> r == NoEvents)
    && (rows != [] ==> FuelCost(log, rows).Some? && r == Cost(FuelCost(log, rows).value + IdleCost(log)))
  }

  /** `self.simulation.run(simulation_time=8)` on a fresh simulation of the given tables. */
  method RunFresh(cfg: Config) returns (log: seq<Record>)
    requires ConfigOk(cfg)
    ensures log == RunLogOf(cfg, EvaluationHours)
    ensures RunLog(cfg, log, EvaluationHours)
    ensures log == [] <==> cfg.trucks == []
    ensures cfg.trucks != [] ==> TravelTimes(log) != []
  {
    var sim := new MineSimulation(cfg.trucks, cfg.shovels, cfg.maxTrucksPerShovel, cfg.distance);
    var result := sim.Run(EvaluationHours);
    log := result.value;
    RunLogTravel(cfg, log, EvaluationHours);
  }

  /**
   * One 8-hour run, then fuel cost plus idle cost of its log. An empty log has
   * no `event` column to select on.
   */
  method SimulateCost(cfg: Config) returns (r: Evaluation)
    requires ConfigOk(cfg)
    ensures Evaluated(cfg.trucks, RunLogOf(cfg, EvaluationHours), r)
  {
    var log := RunFresh(cfg);
    r := LogCost(log, cfg.trucks);
    LogCostOfRun(cfg.trucks, log);
  }

  /** `calculate_fuel_cost(logs_df) + calculate_idle_cost(logs_df)`, with the two ways pandas fails. */
  function LogCost(log: seq<Record>, rows: seq<Truck>): Evaluation
  {
    if log == [] then NoEvents
    else match FuelCost(log, rows)
      case None => NotANumber
      case Some(fuel) => Cost(fuel + IdleCost(log))
  }

  /** On the log of a completed run, the cost is an error exactly when there are no trucks, and never NaN. */
  lemma LogCostOfRun(rows: seq<Truck>, log: seq<Record>)
    requires log == [] <==> rows == []
    requires rows != [] ==> TravelTimes(log) != []
    ensures Evaluated(rows, log, LogCost(log, rows))
  {
  }

  /** `MineOptimizer`: the cap, the shovel count and the tables an evaluation writes into and runs on. */
  class MineOptimizer {
    const numShovels: nat
    const maxTrucksPerShovel: nat
    /** `simulation.trucks_df`, written by every feasible evaluation. */
    const trucks: array<Truck>
    /** `simulation.shovels_df` */
    const shovels: seq<Shovel>
    const distance: (Location, Location) -> real

    constructor (numShovels: nat, maxTrucksPerShovel: nat, trucks: array<Truck>, shovels: seq<Shovel>, distance: (Location, Location) -> real)
      ensures this.numShovels == numShovels && this.maxTrucksPerShovel == maxTrucksPerShovel
      ensures this.trucks == trucks && this.shovels == shovels && this.distance == distance
    {
      this.numShovels := numShovels;
      this.maxTrucksPerShovel := maxTrucksPerShovel;
      this.trucks := trucks;
      this.shovels := shovels;
      this.distance := distance;
    }

    /**
     * `evaluate_solution`: count the trucks per shovel, refusing at the first
     * id with no counter or the first count past the cap, before anything is
     * written; otherwise write the individual into the truck table, simulate
     * one 8-hour run and return fuel cost plus idle cost of its log.
     */
    method EvaluateSolution(individual: seq<int>) returns (r: Evaluation)
      requires |individual| <= trucks.Length
      requires Check(individual, numShovels, maxTrucksPerShovel) == Accepted ==>
        ConfigOk(Config(Assign(trucks[..], individual), shovels, maxTrucksPerShovel, distance))
      modifies trucks
      ensures r == Infeasible <==> Check(individual, numShovels, maxTrucksPerShovel) == OverCapacity
      ensures r.UnknownShovel? <==> Check(individual, numShovels, maxTrucksPerShovel).UnknownId?
      ensures r.UnknownShovel? ==> Check(individual, numShovels, maxTrucksPerShovel) == UnknownId(r.id)
      ensures Check(individual, numShovels, maxTrucksPerShovel) != Accepted ==> trucks[..] == old(trucks[..])
      ensures Check(individual, numShovels, maxTrucksPerShovel) == Accepted ==>
        && trucks[..] == Assign(old(trucks[..]), individual)
        && Evaluated(trucks[..], RunLogOf(Config(trucks[..], shovels, maxTrucksPerShovel, distance), EvaluationHours), r)
    {
      var v := CountAssignments(individual, numShovels, maxTrucksPerShovel);
      if v == OverCapacity {
        return Infeasible;
      } else if v.UnknownId? {
        return UnknownShovel(v.id);
      }
      WriteAssignment(trucks, individual);
      r := SimulateCost(Config(trucks[..], shovels, maxTrucksPerShovel, distance));
    }
  }
}
