/**
 * A whole run as a value: `RunTo` applies `Next` while a process is due
 * before the horizon, and `RunFrom` first starts one process per truck row.
 * Both are functions of their inputs, so a run of the same tables to the
 * same horizon always reaches the same state and the same log.
 */
module HaulCycleHorizon {
  import opened Scheduling
  import opened Resources
  import opened HaulCycle
  import opened HaulCycleInvariant
  import opened HaulCycleRun

  /**
   * A state on the way to horizon `t`: the invariant holds with every
   * process started, the clock is below `t`, and every record so far is of
   * a truck of the table and below `t`.
   */
  ghost predicate Running(cfg: Config, s: SimState, t: real)
  {
    && Inv(cfg, s) && |s.phase| == |cfg.trucks| && s.now < t
    && LogOfTrucks(cfg, s.log)
    && (forall k :: 0 <= k < |s.log| ==> s.log[k].timestamp < t)
  }

  /** A step taken because a process is due before `t` keeps the run below `t` and logs one more record. */
  lemma NextRunning(cfg: Config, s: SimState, t: real)
    requires Running(cfg, s, t) && s.pending != [] && s.pending[0].at < t
    ensures Running(cfg, Next(cfg, s), t)
    ensures Next(cfg, s).log == s.log + [Next(cfg, s).log[|s.log|]]
  {
    NextInv(cfg, s);
    var e := s.pending[0];
    var n := Next(cfg, s);
    assert IdAmong(cfg, |cfg.trucks|, n.log[|s.log|].truckId) by {
      assert n.log[|s.log|].truckId == cfg.trucks[e.proc].truckId;
    }
  }

  /**
   * `env.run(until=t)` from state `s`: while the earliest pending process is
   * due before `t`, resume it. The run ends with nothing due before `t`,
   * having only appended to the log.
   */
  ghost function RunTo(cfg: Config, s: SimState, t: real): (r: SimState)
    requires Running(cfg, s, t)
    ensures Running(cfg, r, t)
    ensures r.pending == [] || t <= r.pending[0].at
    ensures s.log <= r.log
    decreases |cfg.trucks| * Bound(t) - |s.log|
  {
    if s.pending != [] && s.pending[0].at < t then
      NextRunning(cfg, s, t);
      LogBound(cfg, Next(cfg, s), t);
      RunTo(cfg, Next(cfg, s), t)
    else
      s
  }

  /** `n` more processes started, in row order. */
  function Starts(s: SimState, n: nat): (r: SimState)
    ensures |r.phase| == |s.phase| + n && r.log == s.log && r.now == s.now
  {
    if n == 0 then s else Start(Starts(s, n - 1))
  }

  /** Starting processes at time 0 with nothing logged keeps the invariant. */
  lemma {:induction false} StartsInv(cfg: Config, s: SimState, n: nat)
    requires Inv(cfg, s) && |s.phase| + n <= |cfg.trucks| && s.now == 0.0 && s.log == []
    ensures Inv(cfg, Starts(s, n))
  {
    if n > 0 {
      StartsInv(cfg, s, n - 1);
      StartInv(cfg, Starts(s, n - 1));
    }
  }

  /** The ids of the shovel table. */
  function ShovelIds(shovels: seq<Shovel>): set<int>
  {
    set k | 0 <= k < |shovels| :: shovels[k].shovelId
  }

  /** A fresh simulation: time 0, nothing pending or started, an empty pool per shovel id, an empty log. */
  function InitialState(cfg: Config): SimState
  {
    SimState(0.0, [], map id | id in ShovelIds(cfg.shovels) :: PoolState([], []), [], [])
  }

  /** The fresh simulation of valid tables is a state before any process has started. */
  lemma InitialStateOk(cfg: Config)
    requires ConfigOk(cfg)
    ensures Initial(cfg, InitialState(cfg))
  {
    forall i | 0 <= i < |cfg.trucks|
      ensures cfg.trucks[i].assignedShovel in ShovelIds(cfg.shovels)
    {
      assert HasShovel(cfg.shovels, cfg.trucks[i].assignedShovel);
      var k :| 0 <= k < |cfg.shovels| && cfg.shovels[k].shovelId == cfg.trucks[i].assignedShovel;
    }
  }

  /** The fresh simulation of valid tables satisfies the invariant. */
  lemma FreshInv(cfg: Config)
    requires ConfigOk(cfg)
    ensures Initial(cfg, InitialState(cfg)) && Inv(cfg, InitialState(cfg))
  {
    InitialStateOk(cfg);
    InitialInv(cfg, InitialState(cfg));
  }

  /**
   * `run(t)` from a state before any process has started: one process per
   * truck row, then `env.run(until=t)`. At the end every process has
   * started, nothing is due before `t`, and the log is below `t`.
   */
  ghost function RunFrom(cfg: Config, s: SimState, t: real): (r: SimState)
    requires ConfigOk(cfg) && Initial(cfg, s) && 0.0 < t
    ensures Running(cfg, r, t)
    ensures r.pending == [] || t <= r.pending[0].at
  {
    InitialInv(cfg, s);
    StartsInv(cfg, s, |cfg.trucks|);
    RunTo(cfg, Starts(s, |cfg.trucks|), t)
  }
}
