/**
 * The truck haul cycle of `MineSimulation.truck_process` as a state machine
 * on values. Each truck is one process that repeats five phases:
 * travel to its assigned shovel, queue for it, load, travel to the fixed dump
 * site, dump. Every phase appends one `(truck_id, event, timestamp)` record.
 * `SimState` is everything the run changes: the clock, the pending
 * resumptions, the shovel pools, where each process is suspended, and the log.
 * `Next` is one scheduler step: resume the earliest pending process until it
 * suspends again.
 */
module HaulCycle {
  import opened Wrappers
  import opened Scheduling
  import opened Resources

  datatype Location = Location(latitude: real, longitude: real)

  /** The fixed dump site every truck hauls to. */
  const DumpSite: Location := Location(-25.7461, 28.2314)

  /** Dumping takes 0.1 hours (6 minutes). */
  const DumpingTime: real := 0.1

  /** One row of the truck table (the fields the cycle and the cost functions read). */
  datatype Truck = Truck(
    truckId: int,
    capacity: real,            // tons
    speed: real,               // km/h
    fuelConsumptionRate: real, // L/km
    currentLoad: real,
    currentLocation: Location,
    assignedShovel: int)

  /** One row of the shovel table. */
  datatype Shovel = Shovel(shovelId: int, loadingRate: real, location: Location) // loadingRate in tons/minute

  datatype EventKind = TravelingToShovel | QueuingAtShovel | Loading | TravelingToDump | Dumping

  /** The event name written to the log. */
  function EventName(e: EventKind): string
  {
    match e
    case TravelingToShovel => "traveling_to_shovel"
    case QueuingAtShovel => "queuing_at_shovel"
    case Loading => "loading"
    case TravelingToDump => "traveling_to_dump"
    case Dumping => "dumping"
  }

  /** The five names are distinct, so a record's event name tells which phase logged it. */
  lemma EventNameInjective(e1: EventKind, e2: EventKind)
    ensures EventName(e1) == EventName(e2) <==> e1 == e2
  {
  }

  /** A log entry; its `event` stands for the name `EventName(event)` written by `log_event`. */
  datatype Record = Record(truckId: int, event: EventKind, timestamp: real)

  /**
   * Where a truck process is suspended, i.e. what it does when next resumed.
   * CycleStart: top of the `while True` loop (also before its first cycle);
   * EnRouteToShovel: in the travel timeout; QueuedAtShovel: queued in the
   * shovel's pool, with no pending resumption; Admitted: its request was
   * granted and it is about to log `loading`; BeingLoaded: in the loading
   * timeout, inside the `with` block; EnRouteToDump: in the haul timeout.
   * (The dumping timeout ends at the top of the loop, CycleStart.)
   */
  datatype Phase = CycleStart | EnRouteToShovel | QueuedAtShovel | Admitted | BeingLoaded | EnRouteToDump

  /** A process holds its shovel from admission until it leaves the `with` block. */
  predicate Holding(p: Phase)
  {
    p.Admitted? || p.BeingLoaded?
  }

  /** The event a truck logs at position `k` of its own record sequence. */
  function CycleEvent(k: nat): EventKind
  {
    match k % 5
    case 0 => TravelingToShovel
    case 1 => QueuingAtShovel
    case 2 => Loading
    case 3 => TravelingToDump
    case _ => Dumping
  }

  /** How many of the current cycle's records a process in phase `p` has logged. */
  function PhaseIndex(p: Phase): nat
  {
    match p
    case CycleStart => 0
    case EnRouteToShovel => 1
    case QueuedAtShovel => 2
    case Admitted => 2
    case BeingLoaded => 3
    case EnRouteToDump => 4
  }

  /** The simulation's inputs: the truck and shovel tables, the pool capacity and the distance between two points. */
  datatype Config = Config(
    trucks: seq<Truck>,
    shovels: seq<Shovel>,
    maxTrucksPerShovel: nat,
    distance: (Location, Location) -> real)

  ghost predicate HasShovel(shovels: seq<Shovel>, id: int)
  {
    exists k :: 0 <= k < |shovels| && shovels[k].shovelId == id
  }

  /**
   * What the run needs of its inputs: a positive pool capacity (simpy refuses
   * others), distinct truck ids, positive speeds and loading rates (they are
   * divisors), non-negative capacities and distances (simpy refuses a negative
   * delay), and a shovel row for every assigned shovel id.
   */
  ghost predicate ConfigOk(cfg: Config)
  {
    && cfg.maxTrucksPerShovel >= 1
    && (forall i, j :: 0 <= i < j < |cfg.trucks| ==> cfg.trucks[i].truckId != cfg.trucks[j].truckId)
    && (forall i :: 0 <= i < |cfg.trucks| ==> cfg.trucks[i].speed > 0.0 && cfg.trucks[i].capacity >= 0.0)
    && (forall i :: 0 <= i < |cfg.trucks| ==> HasShovel(cfg.shovels, cfg.trucks[i].assignedShovel))
    && (forall k :: 0 <= k < |cfg.shovels| ==> cfg.shovels[k].loadingRate > 0.0)
    && (forall a, b :: cfg.distance(a, b) >= 0.0)
  }

  /** `shovels_df[shovels_df['shovel_id'] == id].iloc[0]`: the first row with that id. */
  function FindShovel(shovels: seq<Shovel>, id: int): (k: nat)
    requires HasShovel(shovels, id)
    ensures k < |shovels| && shovels[k].shovelId == id
    ensures forall j :: 0 <= j < k ==> shovels[j].shovelId != id
  {
    if shovels[0].shovelId == id then 0
    else
      assert HasShovel(shovels[1..], id) by {
        var k :| 0 <= k < |shovels| && shovels[k].shovelId == id;
        assert shovels[1..][k - 1] == shovels[k];
      }
      1 + FindShovel(shovels[1..], id)
  }

  /** Hours to cover `distance` km at `speed` km/h. */
  function CalculateTravelTime(distance: real, speed: real): (hours: real)
    requires distance >= 0.0 && speed > 0.0
    ensures hours >= 0.0 && hours * speed == distance
  {
    distance / speed
  }

  /** The shovel row truck `i` is assigned to. */
  function ShovelOf(cfg: Config, i: nat): Shovel
    requires ConfigOk(cfg) && i < |cfg.trucks|
  {
    cfg.shovels[FindShovel(cfg.shovels, cfg.trucks[i].assignedShovel)]
  }

  /** The leg from the truck's (never updated) current location to its shovel. */
  function ShovelLegTime(cfg: Config, i: nat): (hours: real)
    requires ConfigOk(cfg) && i < |cfg.trucks|
    ensures hours >= 0.0
    ensures hours * cfg.trucks[i].speed == cfg.distance(cfg.trucks[i].currentLocation, ShovelOf(cfg, i).location)
  {
    CalculateTravelTime(cfg.distance(cfg.trucks[i].currentLocation, ShovelOf(cfg, i).location), cfg.trucks[i].speed)
  }

  /** Loading time in hours: capacity in tons over a rate in tons per minute, divided by 60. */
  function LoadingTime(cfg: Config, i: nat): (hours: real)
    requires ConfigOk(cfg) && i < |cfg.trucks|
    ensures hours >= 0.0
    ensures hours * 60.0 * ShovelOf(cfg, i).loadingRate == cfg.trucks[i].capacity
  {
    cfg.trucks[i].capacity / ShovelOf(cfg, i).loadingRate / 60.0
  }

  /** The haul from the shovel to the dump site. */
  function DumpLegTime(cfg: Config, i: nat): (hours: real)
    requires ConfigOk(cfg) && i < |cfg.trucks|
    ensures hours >= 0.0
    ensures hours * cfg.trucks[i].speed == cfg.distance(ShovelOf(cfg, i).location, DumpSite)
  {
    CalculateTravelTime(cfg.distance(ShovelOf(cfg, i).location, DumpSite), cfg.trucks[i].speed)
  }

  /**
   * The time between a truck's record at cycle position `k` and its next
   * record. Position 1 (queuing to loading) is the queue wait, which depends on
   * the other trucks; it is bounded only from below.
   */
  function Gap(cfg: Config, i: nat, k: nat): real
    requires ConfigOk(cfg) && i < |cfg.trucks|
  {
    match k % 5
    case 0 => ShovelLegTime(cfg, i)
    case 1 => 0.0
    case 2 => LoadingTime(cfg, i)
    case 3 => DumpLegTime(cfg, i)
    case _ => DumpingTime
  }

  /** The records of one truck, in log order. */
  function Project(log: seq<Record>, id: int): (r: seq<Record>)
    ensures |r| <= |log|
    ensures forall k :: 0 <= k < |r| ==> r[k].truckId == id && r[k] in log
  {
    if log == [] then []
    else Project(log[..|log| - 1], id) + (if log[|log| - 1].truckId == id then [log[|log| - 1]] else [])
  }

  function TruckLog(cfg: Config, log: seq<Record>, i: nat): seq<Record>
    requires i < |cfg.trucks|
  {
    Project(log, cfg.trucks[i].truckId)
  }

  function LastTime(tl: seq<Record>): real
  {
    if tl == [] then 0.0 else tl[|tl| - 1].timestamp
  }

  /** A truck's records run through the five-event cycle in order. */
  ghost predicate FollowsCycle(tl: seq<Record>)
  {
    forall k :: 0 <= k < |tl| ==> tl[k].event == CycleEvent(k)
  }

  /**
   * A truck's records are spaced by the phase durations: it starts at time 0,
   * every timed phase lasts exactly its duration, the queue wait is not
   * negative, and since every cycle ends with the 0.1 h dump (`DumpingTime`),
   * record `k` is at least `(k / 5) * 0.1` h into the run.
   */
  ghost predicate WellTimed(cfg: Config, i: nat, tl: seq<Record>)
    requires ConfigOk(cfg) && i < |cfg.trucks|
  {
    && (tl != [] ==> tl[0].timestamp == 0.0)
    && (forall k :: 0 <= k < |tl| - 1 ==>
          if k % 5 == 1 then tl[k].timestamp <= tl[k + 1].timestamp
          else tl[k + 1].timestamp == tl[k].timestamp + Gap(cfg, i, k))
    && (forall k :: 0 <= k < |tl| ==> (k / 5) as real * 0.1 <= tl[k].timestamp)
  }

  /** Everything the run changes. */
  datatype SimState = SimState(
    now: real,
    pending: seq<Resumption>,
    pools: map<int, PoolState>,
    phase: seq<Phase>,
    log: seq<Record>)

  /** The clock never runs behind the log, nor ahead of the pending resumptions; the log is in time order. */
  ghost predicate ClockOk(s: SimState)
  {
    && 0.0 <= s.now
    && Sorted(s.pending)
    && (forall k :: 0 <= k < |s.pending| ==> s.now <= s.pending[k].at)
    && (forall k :: 0 <= k < |s.log| ==> 0.0 <= s.log[k].timestamp <= s.now)
    && (forall j, k :: 0 <= j < k < |s.log| ==> s.log[j].timestamp <= s.log[k].timestamp)
  }

  /**
   * A pending resumption of process `i`, whose records so far are `tl` and
   * which is in phase `p`, is due when its current phase ends.
   */
  ghost predicate DueOk(cfg: Config, i: nat, tl: seq<Record>, p: Phase, at: real)
    requires ConfigOk(cfg) && i < |cfg.trucks|
  {
    match p
    case CycleStart => at == (if tl == [] then 0.0 else LastTime(tl) + DumpingTime)
    case EnRouteToShovel => at == LastTime(tl) + ShovelLegTime(cfg, i)
    case QueuedAtShovel => false
    case Admitted => true
    case BeingLoaded => at == LastTime(tl) + LoadingTime(cfg, i)
    case EnRouteToDump => at == LastTime(tl) + DumpLegTime(cfg, i)
  }

  ghost predicate PendingOk(cfg: Config, s: SimState)
    requires ConfigOk(cfg) && |s.phase| <= |cfg.trucks|
  {
    forall e :: e in s.pending ==>
      e.proc < |s.phase| && DueOk(cfg, e.proc, TruckLog(cfg, s.log, e.proc), s.phase[e.proc], e.at)
  }

  /** The pool of shovel `id` obeys the admission rule and holds only processes assigned to that shovel, once each. */
  ghost predicate PoolMembersOk(cfg: Config, s: SimState, id: int)
    requires id in s.pools && |s.phase| <= |cfg.trucks|
  {
    var ps := s.pools[id];
    && PoolOk(ps, cfg.maxTrucksPerShovel) && NoDup(ps.users) && NoDup(ps.queue)
    && (forall k :: 0 <= k < |ps.users| ==> ps.users[k] < |s.phase| && cfg.trucks[ps.users[k]].assignedShovel == id)
    && (forall k :: 0 <= k < |ps.queue| ==> ps.queue[k] < |s.phase| && cfg.trucks[ps.queue[k]].assignedShovel == id)
  }

  ghost predicate PoolsOk(cfg: Config, s: SimState)
    requires |s.phase| <= |cfg.trucks|
  {
    && (forall i :: 0 <= i < |cfg.trucks| ==> cfg.trucks[i].assignedShovel in s.pools)
    && (forall id :: id in s.pools ==> PoolMembersOk(cfg, s, id))
  }

  /**
   * Process `i` on its own: its records follow the cycle and are well timed,
   * their count tells its phase, it has exactly one pending resumption unless
   * it waits in the pool, and it holds (waits for) its shovel exactly when its
   * phase says so.
   */
  ghost predicate ProcessOk(cfg: Config, i: nat, tl: seq<Record>, p: Phase, pending: nat, holds: bool, waits: bool)
    requires ConfigOk(cfg) && i < |cfg.trucks|
  {
    && FollowsCycle(tl) && |tl| % 5 == PhaseIndex(p) && WellTimed(cfg, i, tl)
    && pending == (if p.QueuedAtShovel? then 0 else 1)
    && (holds <==> Holding(p))
    && (waits <==> p.QueuedAtShovel?)
  }

  ghost predicate ProcessOkIn(cfg: Config, s: SimState, i: nat)
    requires ConfigOk(cfg) && i < |s.phase| <= |cfg.trucks| && cfg.trucks[i].assignedShovel in s.pools
  {
    var ps := s.pools[cfg.trucks[i].assignedShovel];
    ProcessOk(cfg, i, TruckLog(cfg, s.log, i), s.phase[i], Procs(s.pending)[i], i in ps.users, i in ps.queue)
  }

  /** The invariant of the run. */
  ghost predicate Inv(cfg: Config, s: SimState)
  {
    && ConfigOk(cfg) && |s.phase| <= |cfg.trucks|
    && ClockOk(s) && PendingOk(cfg, s) && PoolsOk(cfg, s)
    && (forall i :: 0 <= i < |s.phase| ==> ProcessOkIn(cfg, s, i))
  }

  /** Process `i` logs event `ev` at the current time (`log_event`). */
  function Emit(cfg: Config, s: SimState, i: nat, ev: EventKind): SimState
    requires i < |cfg.trucks|
  {
    s.(log := s.log + [Record(cfg.trucks[i].truckId, ev, s.now)])
  }

  /** Process `p` yields `timeout(delay)` and will be in phase `next` when resumed. */
  function Suspend(s: SimState, p: nat, delay: real, next: Phase): SimState
    requires p < |s.phase|
  {
    s.(pending := Insert(s.pending, Resumption(s.now + delay, p)), phase := s.phase[p := next])
  }

  /** The state before any process has started: time 0, nothing pending, every pool empty, an empty log. */
  ghost predicate Initial(cfg: Config, s: SimState)
  {
    && s.now == 0.0 && s.pending == [] && s.phase == [] && s.log == []
    && (forall i :: 0 <= i < |cfg.trucks| ==> cfg.trucks[i].assignedShovel in s.pools)
    && (forall id :: id in s.pools ==> s.pools[id] == PoolState([], []))
  }

  /** `env.process(truck_process(truck_id))` for the next truck: it is started at the current time. */
  function Start(s: SimState): SimState
  {
    s.(pending := Insert(s.pending, Resumption(s.now, |s.phase|)), phase := s.phase + [CycleStart])
  }

  /** One scheduler step: pop the earliest resumption, advance the clock to it and run that process until it yields. */
  function Next(cfg: Config, s: SimState): SimState
    requires Inv(cfg, s) && s.pending != []
  {
    var e := s.pending[0];
    var i := e.proc;
    assert e in s.pending;
    var a := cfg.trucks[i].assignedShovel;
    var s1 := s.(now := e.at, pending := s.pending[1..]);
    match s.phase[i]
    case CycleStart =>
      Suspend(Emit(cfg, s1, i, TravelingToShovel), i, ShovelLegTime(cfg, i), EnRouteToShovel)
    case EnRouteToShovel =>
      var s2 := Emit(cfg, s1, i, QueuingAtShovel);
      var (ps, admitted) := Requested(s2.pools[a], cfg.maxTrucksPerShovel, i);
      var s3 := s2.(pools := s2.pools[a := ps]);
      if admitted then Suspend(s3, i, 0.0, Admitted) else s3.(phase := s3.phase[i := QueuedAtShovel])
    case Admitted =>
      Suspend(Emit(cfg, s1, i, Loading), i, LoadingTime(cfg, i), BeingLoaded)
    case BeingLoaded =>
      var (ps, next) := Released(s1.pools[a], cfg.maxTrucksPerShovel, i);
      var s2 := s1.(pools := s1.pools[a := ps]);
      assert next.Some? ==> next.value in s1.pools[a].queue;
      var s3 := if next.Some? then Suspend(s2, next.value, 0.0, Admitted) else s2;
      Suspend(Emit(cfg, s3, i, TravelingToDump), i, DumpLegTime(cfg, i), EnRouteToDump)
    case EnRouteToDump =>
      Suspend(Emit(cfg, s1, i, Dumping), i, DumpingTime, CycleStart)
  }
}
