/**
 * The invariant `Inv` of the haul-cycle state machine holds initially, is
 * kept by starting a truck process and by every scheduler step, and implies
 * the properties the simulation promises about its event log and its shovels.
 */
module HaulCycleInvariant {
  import opened Wrappers
  import opened Scheduling
  import opened Resources
  import opened HaulCycle

  /** Appending a record extends exactly the projection of its own truck. */
  lemma ProjectAppend(log: seq<Record>, r: Record, id: int)
    ensures Project(log + [r], id) == Project(log, id) + (if r.truckId == id then [r] else [])
  {
    assert (log + [r])[..|log|] == log;
  }

  /** The time at which the next record of process `i`, whose records so far are `tl`, is due. */
  ghost predicate NextOnTime(cfg: Config, i: nat, tl: seq<Record>, t: real)
    requires ConfigOk(cfg) && i < |cfg.trucks|
  {
    if tl == [] then t == 0.0
    else if (|tl| - 1) % 5 == 1 then LastTime(tl) <= t
    else t == LastTime(tl) + Gap(cfg, i, |tl| - 1)
  }

  lemma GapNonNegative(cfg: Config, i: nat, k: nat)
    requires ConfigOk(cfg) && i < |cfg.trucks|
    ensures Gap(cfg, i, k) >= 0.0
  {
  }

  /**
   * The elapsed-time lower bound carries over to the next record: it is no
   * earlier than the last one, and 0.1 h later when the last one was a dump.
   */
  lemma CycleTimeBound(n: nat, last: real, next: real)
    requires n > 0 && ((n - 1) / 5) as real * 0.1 <= last <= next
    requires (n - 1) % 5 == 4 ==> next == last + DumpingTime
    ensures (n / 5) as real * 0.1 <= next
  {
    if (n - 1) % 5 == 4 {
      assert n / 5 == (n - 1) / 5 + 1;
    } else {
      assert n / 5 == (n - 1) / 5;
    }
  }

  /** A record with the next event of the cycle, logged on time, keeps a truck's records in cycle order and well timed. */
  lemma {:induction false} AppendRecord(cfg: Config, i: nat, tl: seq<Record>, r: Record)
    requires ConfigOk(cfg) && i < |cfg.trucks|
    requires FollowsCycle(tl) && WellTimed(cfg, i, tl)
    requires r.event == CycleEvent(|tl|) && NextOnTime(cfg, i, tl, r.timestamp)
    ensures FollowsCycle(tl + [r]) && WellTimed(cfg, i, tl + [r])
  {
    var t := tl + [r];
    var n := |tl|;
    forall k | 0 <= k < |t|
      ensures t[k].event == CycleEvent(k) && (k / 5) as real * 0.1 <= t[k].timestamp
    {
      if k < n {
        assert t[k] == tl[k];
      } else {
        if n > 0 {
          GapNonNegative(cfg, i, n - 1);
          CycleTimeBound(n, tl[n - 1].timestamp, r.timestamp);
        }
      }
    }
    forall k | 0 <= k < |t| - 1
      ensures if k % 5 == 1 then t[k].timestamp <= t[k + 1].timestamp
              else t[k + 1].timestamp == t[k].timestamp + Gap(cfg, i, k)
    {
      assert t[k] == tl[k];
      if k + 1 < n {
        assert t[k + 1] == tl[k + 1];
      }
    }
  }

  /** A resumption that is due, of a process that is not waiting, resumes it on time for its next record. */
  lemma DueOnTime(cfg: Config, i: nat, tl: seq<Record>, p: Phase, at: real)
    requires ConfigOk(cfg) && i < |cfg.trucks|
    requires |tl| % 5 == PhaseIndex(p) && DueOk(cfg, i, tl, p, at) && LastTime(tl) <= at
    ensures NextOnTime(cfg, i, tl, at)
  {
  }

  /** The earliest pending process is pending exactly once, and is not waiting in a pool. */
  lemma PopProcs(cfg: Config, s: SimState)
    requires Inv(cfg, s) && s.pending != []
    ensures var i := s.pending[0].proc;
      && i < |s.phase| && !s.phase[i].QueuedAtShovel?
      && Procs(s.pending) == Procs(s.pending[1..]) + multiset{i}
      && Procs(s.pending[1..])[i] == 0
      && (forall e' :: e' in s.pending[1..] ==> e'.proc != i)
  {
    var e := s.pending[0];
    var i := e.proc;
    assert e in s.pending;
    assert ProcessOkIn(cfg, s, i);
    forall e' | e' in s.pending[1..]
      ensures e'.proc != i
    {
      if e'.proc == i {
        ProcsMember(s.pending[1..], e');
      }
    }
  }

  /** The queue behind the earliest resumption is ordered and due no earlier than it, which is no earlier than the clock. */
  lemma PopOrder(s: SimState)
    requires ClockOk(s) && s.pending != []
    ensures Sorted(s.pending[1..])
    ensures forall k :: 0 <= k < |s.pending[1..]| ==> s.pending[0].at <= s.pending[1..][k].at
    ensures s.now <= s.pending[0].at
  {
    SortedTail(s.pending);
  }

  /** The earliest resumption resumes its process on time for its next record. */
  lemma PopOnTime(cfg: Config, s: SimState)
    requires Inv(cfg, s) && s.pending != []
    ensures s.pending[0].proc < |s.phase|
    ensures NextOnTime(cfg, s.pending[0].proc, TruckLog(cfg, s.log, s.pending[0].proc), s.pending[0].at)
  {
    var e := s.pending[0];
    var i := e.proc;
    assert e in s.pending;
    assert ProcessOkIn(cfg, s, i);
    var tl := TruckLog(cfg, s.log, i);
    if tl != [] {
      assert tl[|tl| - 1] in s.log;
    }
    DueOnTime(cfg, i, tl, s.phase[i], e.at);
  }

  /** What holds of the earliest pending resumption and of the queue behind it. */
  lemma PopFacts(cfg: Config, s: SimState)
    requires Inv(cfg, s) && s.pending != []
    ensures var e := s.pending[0]; var i := e.proc;
      && i < |s.phase| && !s.phase[i].QueuedAtShovel?
      && Procs(s.pending) == Procs(s.pending[1..]) + multiset{i}
      && Procs(s.pending[1..])[i] == 0
      && (forall e' :: e' in s.pending[1..] ==> e'.proc != i)
      && Sorted(s.pending[1..])
      && (forall k :: 0 <= k < |s.pending[1..]| ==> e.at <= s.pending[1..][k].at)
      && s.now <= e.at
      && NextOnTime(cfg, i, TruckLog(cfg, s.log, i), e.at)
  {
    PopProcs(cfg, s);
    PopOrder(s);
    PopOnTime(cfg, s);
  }

  /** The clock part of the invariant after a step that advanced to the earliest resumption and logged one record then. */
  lemma ClockStep(s: SimState, s': SimState, r: Record)
    requires ClockOk(s) && s.pending != []
    requires s'.now == s.pending[0].at && r.timestamp == s'.now
    requires s'.log == s.log + [r]
    requires Sorted(s'.pending) && forall k :: 0 <= k < |s'.pending| ==> s'.now <= s'.pending[k].at
    ensures ClockOk(s')
  {
    assert s.now <= s'.now;
  }

  /** A process whose records, phase, pending count and pool membership are unchanged is still well behaved. */
  lemma ProcessFrame(cfg: Config, s: SimState, s': SimState, j: nat)
    requires Inv(cfg, s) && j < |s.phase| == |s'.phase|
    requires cfg.trucks[j].assignedShovel in s'.pools
    requires TruckLog(cfg, s'.log, j) == TruckLog(cfg, s.log, j)
    requires s'.phase[j] == s.phase[j]
    requires Procs(s'.pending)[j] == Procs(s.pending)[j]
    requires var a := cfg.trucks[j].assignedShovel;
      (j in s'.pools[a].users <==> j in s.pools[a].users) && (j in s'.pools[a].queue <==> j in s.pools[a].queue)
    ensures ProcessOkIn(cfg, s', j)
  {
    assert ProcessOkIn(cfg, s, j);
  }

  /** The stepping process: one more record, the next phase, and pool membership as that phase says keep it well behaved. */
  lemma StepperOk(cfg: Config, i: nat, tl: seq<Record>, p: Phase, r: Record, p': Phase, pending': nat, holds': bool, waits': bool)
    requires ConfigOk(cfg) && i < |cfg.trucks|
    requires FollowsCycle(tl) && WellTimed(cfg, i, tl) && |tl| % 5 == PhaseIndex(p)
    requires r.event == CycleEvent(|tl|) && NextOnTime(cfg, i, tl, r.timestamp)
    requires PhaseIndex(p') == (PhaseIndex(p) + 1) % 5
    requires pending' == (if p'.QueuedAtShovel? then 0 else 1)
    requires (holds' <==> Holding(p')) && (waits' <==> p'.QueuedAtShovel?)
    ensures ProcessOk(cfg, i, tl + [r], p', pending', holds', waits')
  {
    AppendRecord(cfg, i, tl, r);
  }

  /** Appending a record of truck `i` leaves every other truck's records as they were. */
  lemma OtherLogs(cfg: Config, log: seq<Record>, r: Record, i: nat)
    requires ConfigOk(cfg) && i < |cfg.trucks| && r.truckId == cfg.trucks[i].truckId
    ensures TruckLog(cfg, log + [r], i) == TruckLog(cfg, log, i) + [r]
    ensures forall j :: 0 <= j < |cfg.trucks| && j != i ==> TruckLog(cfg, log + [r], j) == TruckLog(cfg, log, j)
  {
    ProjectAppend(log, r, r.truckId);
    forall j | 0 <= j < |cfg.trucks| && j != i
      ensures TruckLog(cfg, log + [r], j) == TruckLog(cfg, log, j)
    {
      ProjectAppend(log, r, cfg.trucks[j].truckId);
    }
  }

  /**
   * The resumptions left behind the popped one stay due, when none of them
   * belongs to a process in `changed` and every other process keeps its phase
   * and its records.
   */
  lemma PendingKept(cfg: Config, s: SimState, s': SimState, changed: set<nat>)
    requires ConfigOk(cfg) && |s.phase| <= |cfg.trucks| && PendingOk(cfg, s) && s.pending != []
    requires |s'.phase| == |s.phase|
    requires forall x :: x in s.pending[1..] ==> x.proc !in changed
    requires forall j :: 0 <= j < |s.phase| && j !in changed ==>
      s'.phase[j] == s.phase[j] && TruckLog(cfg, s'.log, j) == TruckLog(cfg, s.log, j)
    ensures forall x :: x in s.pending[1..] ==>
      x.proc < |s'.phase| && DueOk(cfg, x.proc, TruckLog(cfg, s'.log, x.proc), s'.phase[x.proc], x.at)
  {
    forall x | x in s.pending[1..]
      ensures x.proc < |s'.phase| && DueOk(cfg, x.proc, TruckLog(cfg, s'.log, x.proc), s'.phase[x.proc], x.at)
    {
      assert x in s.pending;
    }
  }

  /** Every process outside `changed` whose phase, records, pending count and pool membership are unchanged stays well behaved. */
  lemma OthersKept(cfg: Config, s: SimState, s': SimState, changed: set<nat>)
    requires Inv(cfg, s) && |s'.phase| == |s.phase|
    requires forall j :: 0 <= j < |cfg.trucks| ==> cfg.trucks[j].assignedShovel in s'.pools
    requires forall j :: 0 <= j < |s.phase| && j !in changed ==>
      && s'.phase[j] == s.phase[j] && TruckLog(cfg, s'.log, j) == TruckLog(cfg, s.log, j)
      && Procs(s'.pending)[j] == Procs(s.pending)[j]
      && (j in s'.pools[cfg.trucks[j].assignedShovel].users <==> j in s.pools[cfg.trucks[j].assignedShovel].users)
      && (j in s'.pools[cfg.trucks[j].assignedShovel].queue <==> j in s.pools[cfg.trucks[j].assignedShovel].queue)
    ensures forall j :: 0 <= j < |s.phase| && j !in changed ==> ProcessOkIn(cfg, s', j)
  {
    forall j | 0 <= j < |s.phase| && j !in changed
      ensures ProcessOkIn(cfg, s', j)
    {
      ProcessFrame(cfg, s, s', j);
    }
  }

  /** What a scheduler step needs of the state to be defined. */
  ghost predicate StepWf(cfg: Config, s: SimState)
  {
    && ConfigOk(cfg) && s.pending != [] && s.pending[0].proc < |s.phase| <= |cfg.trucks|
    && cfg.trucks[s.pending[0].proc].assignedShovel in s.pools
  }

  /**
   * The pending resumptions after a step: the popped one is gone, the woken
   * waiter (if any) resumes now, and the stepping process (unless it now
   * waits in the pool) resumes after `resume`.
   */
  function StepPending(s: SimState, woken: Option<nat>, resume: Option<real>): seq<Resumption>
    requires s.pending != []
  {
    var q1 := WakePending(s, woken);
    if resume.Some? then Insert(q1, Resumption(s.pending[0].at + resume.value, s.pending[0].proc)) else q1
  }

  /**
   * A step that leaves the pool alone and wakes nobody: the process logs `ev`
   * at the popped time and is rescheduled `d` later in phase `p'`.
   */
  lemma GenStepUnwoken(cfg: Config, s: SimState, ev: EventKind, d: real, p': Phase)
    requires StepWf(cfg, s)
    ensures var e := s.pending[0]; var i := e.proc;
      GenStep(cfg, s, ev, s.pools[cfg.trucks[i].assignedShovel], None, Some(d), p')
        == Suspend(Emit(cfg, s.(now := e.at, pending := s.pending[1..]), i, ev), i, d, p')
  {
    var a := cfg.trucks[s.pending[0].proc].assignedShovel;
    assert s.pools[a := s.pools[a]] == s.pools;
  }

  /** The rest of the queue behind the popped resumption, with the woken waiter (if any) resuming now. */
  function WakePending(s: SimState, woken: Option<nat>): seq<Resumption>
    requires s.pending != []
  {
    if woken.Some? then Insert(s.pending[1..], Resumption(s.pending[0].at, woken.value)) else s.pending[1..]
  }

  /**
   * Every case of `Next` in one form: the earliest resumption is popped, its
   * process logs `ev`, the pool of its shovel becomes `pool'`, the woken waiter
   * (if any) is admitted, and the process moves to phase `p'`.
   */
  function GenStep(cfg: Config, s: SimState, ev: EventKind, pool': PoolState, woken: Option<nat>, resume: Option<real>, p': Phase): SimState
    requires StepWf(cfg, s) && (woken.Some? ==> woken.value < |s.phase|)
  {
    var e := s.pending[0];
    var i := e.proc;
    var phase1 := if woken.Some? then s.phase[woken.value := Admitted] else s.phase;
    SimState(e.at, StepPending(s, woken, resume), s.pools[cfg.trucks[i].assignedShovel := pool'], phase1[i := p'],
             s.log + [Record(cfg.trucks[i].truckId, ev, e.at)])
  }

  /**
   * When a step keeps the invariant: the process logs the next event of its
   * cycle and moves to the next phase; it is rescheduled, on time, exactly
   * when it does not wait; the new pool obeys the admission rule, holds the
   * process exactly when its phase says so, admits the woken waiter, and
   * leaves everyone else where they were.
   */
  ghost predicate StepOk(cfg: Config, s: SimState, ev: EventKind, pool': PoolState, woken: Option<nat>, resume: Option<real>, p': Phase)
    requires StepWf(cfg, s)
  {
    var e := s.pending[0];
    var i := e.proc;
    var tl := TruckLog(cfg, s.log, i);
    var ps := s.pools[cfg.trucks[i].assignedShovel];
    && StepTimingOk(cfg, i, tl, s.phase[i], e.at, ev, resume, p')
    && PoolStepOk(ps, pool', cfg.maxTrucksPerShovel, i, woken, Holding(p'), p'.QueuedAtShovel?)
  }

  /**
   * Process `i` in phase `p`, with records `tl` and resumed at `at`, logs the
   * next event of its cycle, moves to the next phase, and is rescheduled, on
   * time, exactly when it does not wait.
   */
  ghost predicate StepTimingOk(cfg: Config, i: nat, tl: seq<Record>, p: Phase, at: real, ev: EventKind, resume: Option<real>, p': Phase)
    requires ConfigOk(cfg) && i < |cfg.trucks|
  {
    && ev == CycleEvent(|tl|)
    && PhaseIndex(p') == (PhaseIndex(p) + 1) % 5
    && (resume.Some? <==> !p'.QueuedAtShovel?)
    && (resume.Some? ==> resume.value >= 0.0 && DueOk(cfg, i, tl + [Record(cfg.trucks[i].truckId, ev, at)], p', at + resume.value))
  }

  /** The timing of each kind of step, for a process whose record count matches its phase. */
  lemma TimingCycleStart(cfg: Config, i: nat, tl: seq<Record>, at: real)
    requires ConfigOk(cfg) && i < |cfg.trucks| && |tl| % 5 == 0
    ensures StepTimingOk(cfg, i, tl, CycleStart, at, TravelingToShovel, Some(ShovelLegTime(cfg, i)), EnRouteToShovel)
  {
  }

  lemma TimingEnRouteToShovel(cfg: Config, i: nat, tl: seq<Record>, at: real, admitted: bool)
    requires ConfigOk(cfg) && i < |cfg.trucks| && |tl| % 5 == 1
    ensures StepTimingOk(cfg, i, tl, EnRouteToShovel, at, QueuingAtShovel, if admitted then Some(0.0) else None,
                         if admitted then Admitted else QueuedAtShovel)
  {
  }

  lemma TimingAdmitted(cfg: Config, i: nat, tl: seq<Record>, at: real)
    requires ConfigOk(cfg) && i < |cfg.trucks| && |tl| % 5 == 2
    ensures StepTimingOk(cfg, i, tl, Admitted, at, Loading, Some(LoadingTime(cfg, i)), BeingLoaded)
  {
  }

  lemma TimingBeingLoaded(cfg: Config, i: nat, tl: seq<Record>, at: real)
    requires ConfigOk(cfg) && i < |cfg.trucks| && |tl| % 5 == 3
    ensures StepTimingOk(cfg, i, tl, BeingLoaded, at, TravelingToDump, Some(DumpLegTime(cfg, i)), EnRouteToDump)
  {
  }

  lemma TimingEnRouteToDump(cfg: Config, i: nat, tl: seq<Record>, at: real)
    requires ConfigOk(cfg) && i < |cfg.trucks| && |tl| % 5 == 4
    ensures StepTimingOk(cfg, i, tl, EnRouteToDump, at, Dumping, Some(DumpingTime), CycleStart)
  {
  }

  /**
   * The pool `ps` of the stepping process `i` becomes `pool'`: it obeys the
   * admission rule, `i` holds (waits) exactly when `holds` (`waits`), the
   * woken waiter now holds, and everyone else is where they were.
   */
  ghost predicate PoolStepOk(ps: PoolState, pool': PoolState, cap: nat, i: nat, woken: Option<nat>, holds: bool, waits: bool)
  {
    && PoolOk(pool', cap) && NoDup(pool'.users) && NoDup(pool'.queue)
    && (i in pool'.users <==> holds) && (i in pool'.queue <==> waits)
    && (woken.Some? ==> woken.value != i && woken.value in ps.queue && woken.value in pool'.users && woken.value !in pool'.queue)
    && (forall x :: x != i && (woken.None? || x != woken.value) ==>
          (x in pool'.users <==> x in ps.users) && (x in pool'.queue <==> x in ps.queue))
  }

  lemma PoolUnchanged(ps: PoolState, cap: nat, i: nat, holds: bool, waits: bool)
    requires PoolOk(ps, cap) && NoDup(ps.users) && NoDup(ps.queue)
    requires (i in ps.users <==> holds) && (i in ps.queue <==> waits)
    ensures PoolStepOk(ps, ps, cap, i, None, holds, waits)
  {
  }

  lemma PoolRequested(ps: PoolState, cap: nat, i: nat)
    requires PoolOk(ps, cap) && NoDup(ps.users) && NoDup(ps.queue) && i !in ps.users && i !in ps.queue
    ensures var (ps', admitted) := Requested(ps, cap, i); PoolStepOk(ps, ps', cap, i, None, admitted, !admitted)
  {
    RequestedOk(ps, cap, i);
    RequestedMembers(ps, cap, i);
  }

  lemma PoolReleased(ps: PoolState, cap: nat, i: nat)
    requires PoolOk(ps, cap) && NoDup(ps.users) && NoDup(ps.queue) && i !in ps.queue
    requires forall x :: x in ps.users ==> x !in ps.queue
    ensures var (ps', next) := Released(ps, cap, i); PoolStepOk(ps, ps', cap, i, next, false, false)
  {
    ReleasedOk(ps, cap, i);
    ReleasedMembers(ps, cap, i);
    var (ps', next) := Released(ps, cap, i);
    if next.Some? {
      assert ps.queue[0] in ps.queue;
    }
  }

  ghost predicate Ready(cfg: Config, s: SimState, ev: EventKind, pool': PoolState, woken: Option<nat>, resume: Option<real>, p': Phase)
  {
    && Inv(cfg, s) && StepWf(cfg, s) && (woken.Some? ==> woken.value < |s.phase|)
    && StepOk(cfg, s, ev, pool', woken, resume, p')
  }

  /** Scheduling `r`, due no earlier than `t`, into an ordered queue due no earlier than `t`. */
  lemma InsertFacts(q: seq<Resumption>, r: Resumption, t: real)
    requires Sorted(q) && (forall k :: 0 <= k < |q| ==> t <= q[k].at) && t <= r.at
    ensures var q' := Insert(q, r);
      && Sorted(q') && (forall k :: 0 <= k < |q'| ==> t <= q'[k].at)
      && (forall x :: x in q' <==> x in q || x == r)
      && (forall p :: Procs(q')[p] == Procs(q)[p] + (if p == r.proc then 1 else 0))
  {
    InsertSorted(q, r);
    InsertLowerBound(q, r, t);
    InsertMembers(q, r);
    InsertProcs(q, r);
  }

  /** The rest of an ordered queue behind its head is ordered and due no earlier than the head. */
  lemma RestFacts(q: seq<Resumption>)
    requires Sorted(q) && q != []
    ensures Sorted(q[1..]) && forall k :: 0 <= k < |q[1..]| ==> q[0].at <= q[1..][k].at
  {
    SortedTail(q);
    forall k | 0 <= k < |q[1..]| ensures q[0].at <= q[1..][k].at {
      assert q[1..][k] == q[k + 1];
    }
  }

  lemma WakePendingFacts(s: SimState, woken: Option<nat>)
    requires Sorted(s.pending) && s.pending != []
    ensures var q := WakePending(s, woken); var e := s.pending[0];
      && Sorted(q) && (forall k :: 0 <= k < |q| ==> e.at <= q[k].at)
      && (forall x :: x in q <==> x in s.pending[1..] || (woken.Some? && x == Resumption(e.at, woken.value)))
      && (forall p :: Procs(q)[p] == Procs(s.pending[1..])[p] + (if woken.Some? && p == woken.value then 1 else 0))
  {
    RestFacts(s.pending);
    if woken.Some? {
      InsertFacts(s.pending[1..], Resumption(s.pending[0].at, woken.value), s.pending[0].at);
    }
  }

  /** The queue after a step is ordered, due no earlier than the new time, and holds exactly the old rest and the new resumptions. */
  lemma StepPendingFacts(s: SimState, woken: Option<nat>, resume: Option<real>)
    requires Sorted(s.pending) && s.pending != [] && (resume.Some? ==> resume.value >= 0.0)
    ensures var q := StepPending(s, woken, resume); var e := s.pending[0];
      && Sorted(q) && (forall k :: 0 <= k < |q| ==> e.at <= q[k].at)
      && (forall x :: x in q <==> x in s.pending[1..] || (woken.Some? && x == Resumption(e.at, woken.value))
                                  || (resume.Some? && x == Resumption(e.at + resume.value, e.proc)))
      && (forall p :: Procs(q)[p] == Procs(s.pending[1..])[p] + (if woken.Some? && p == woken.value then 1 else 0)
                                     + (if resume.Some? && p == e.proc then 1 else 0))
  {
    var e := s.pending[0];
    var q1 := WakePending(s, woken);
    WakePendingFacts(s, woken);
    if resume.Some? {
      var r := Resumption(e.at + resume.value, e.proc);
      assert StepPending(s, woken, resume) == Insert(q1, r);
      InsertFacts(q1, r, e.at);
    } else {
      assert StepPending(s, woken, resume) == q1;
    }
  }

  lemma GenClock(cfg: Config, s: SimState, ev: EventKind, pool': PoolState, woken: Option<nat>, resume: Option<real>, p': Phase)
    requires ClockOk(s) && StepWf(cfg, s) && (woken.Some? ==> woken.value < |s.phase|) && (resume.Some? ==> resume.value >= 0.0)
    ensures ClockOk(GenStep(cfg, s, ev, pool', woken, resume, p'))
  {
    var e := s.pending[0];
    StepPendingFacts(s, woken, resume);
    ClockStep(s, GenStep(cfg, s, ev, pool', woken, resume, p'), Record(cfg.trucks[e.proc].truckId, ev, e.at));
  }

  /** The woken waiter is a process that was waiting in the stepping process's pool. */
  lemma WokenFacts(cfg: Config, s: SimState, ev: EventKind, pool': PoolState, woken: Option<nat>, resume: Option<real>, p': Phase)
    requires Ready(cfg, s, ev, pool', woken, resume, p') && woken.Some?
    ensures var w := woken.value;
      && w < |s.phase| && cfg.trucks[w].assignedShovel == cfg.trucks[s.pending[0].proc].assignedShovel
      && s.phase[w].QueuedAtShovel? && Procs(s.pending)[w] == 0
  {
    var w := woken.value;
    var a := cfg.trucks[s.pending[0].proc].assignedShovel;
    assert PoolMembersOk(cfg, s, a);
    var k :| 0 <= k < |s.pools[a].queue| && s.pools[a].queue[k] == w;
    assert ProcessOkIn(cfg, s, w);
  }

  /** What a step leaves for the stepping process: its pending count, one more record, its new phase and the new pool. */
  lemma StepperAfter(cfg: Config, s: SimState, ev: EventKind, pool': PoolState, woken: Option<nat>, resume: Option<real>, p': Phase)
    requires StepWf(cfg, s) && (woken.Some? ==> woken.value < |s.phase| && woken.value != s.pending[0].proc)
    requires Sorted(s.pending) && (resume.Some? ==> resume.value >= 0.0)
    requires Procs(s.pending[1..])[s.pending[0].proc] == 0
    ensures var s' := GenStep(cfg, s, ev, pool', woken, resume, p'); var e := s.pending[0]; var i := e.proc;
      && Procs(s'.pending)[i] == (if resume.Some? then 1 else 0)
      && TruckLog(cfg, s'.log, i) == TruckLog(cfg, s.log, i) + [Record(cfg.trucks[i].truckId, ev, e.at)]
      && s'.phase[i] == p'
      && s'.pools[cfg.trucks[i].assignedShovel] == pool'
  {
    var e := s.pending[0];
    StepPendingFacts(s, woken, resume);
    OtherLogs(cfg, s.log, Record(cfg.trucks[e.proc].truckId, ev, e.at), e.proc);
  }

  lemma GenStepper(cfg: Config, s: SimState, ev: EventKind, pool': PoolState, woken: Option<nat>, resume: Option<real>, p': Phase)
    requires Ready(cfg, s, ev, pool', woken, resume, p')
    ensures ProcessOkIn(cfg, GenStep(cfg, s, ev, pool', woken, resume, p'), s.pending[0].proc)
  {
    PopFacts(cfg, s);
    var e := s.pending[0];
    var i := e.proc;
    var tl := TruckLog(cfg, s.log, i);
    assert ProcessOkIn(cfg, s, i);
    StepperAfter(cfg, s, ev, pool', woken, resume, p');
    var cnt := if resume.Some? then 1 else 0;
    StepperOk(cfg, i, tl, s.phase[i], Record(cfg.trucks[i].truckId, ev, e.at), p', cnt, i in pool'.users, i in pool'.queue);
  }

  /** What a step leaves for the woken waiter: one pending resumption, its records, phase `Admitted`, and the new pool. */
  lemma WokenAfter(cfg: Config, s: SimState, ev: EventKind, pool': PoolState, woken: Option<nat>, resume: Option<real>, p': Phase)
    requires StepWf(cfg, s) && Sorted(s.pending) && (resume.Some? ==> resume.value >= 0.0)
    requires woken.Some? && woken.value < |s.phase| && woken.value != s.pending[0].proc && Procs(s.pending)[woken.value] == 0
    requires cfg.trucks[woken.value].assignedShovel == cfg.trucks[s.pending[0].proc].assignedShovel
    ensures var s' := GenStep(cfg, s, ev, pool', woken, resume, p'); var w := woken.value;
      && Procs(s'.pending)[w] == 1
      && TruckLog(cfg, s'.log, w) == TruckLog(cfg, s.log, w)
      && s'.phase[w] == Admitted
      && s'.pools[cfg.trucks[w].assignedShovel] == pool'
  {
    var e := s.pending[0];
    assert Procs(s.pending) == multiset{e.proc} + Procs(s.pending[1..]);
    StepPendingFacts(s, woken, resume);
    OtherLogs(cfg, s.log, Record(cfg.trucks[e.proc].truckId, ev, e.at), e.proc);
  }

  lemma GenWoken(cfg: Config, s: SimState, ev: EventKind, pool': PoolState, woken: Option<nat>, resume: Option<real>, p': Phase)
    requires Ready(cfg, s, ev, pool', woken, resume, p') && woken.Some?
    ensures ProcessOkIn(cfg, GenStep(cfg, s, ev, pool', woken, resume, p'), woken.value)
  {
    WokenFacts(cfg, s, ev, pool', woken, resume, p');
    assert ProcessOkIn(cfg, s, woken.value);
    WokenAfter(cfg, s, ev, pool', woken, resume, p');
  }

  /** The processes a step touches: the stepping one and the woken waiter, if any. */
  function Changed(s: SimState, woken: Option<nat>): set<nat>
    requires s.pending != []
  {
    if woken.Some? then {s.pending[0].proc, woken.value} else {s.pending[0].proc}
  }

  /** No process a step touches has a resumption in the rest of the queue, and the untouched ones keep their pending count. */
  /** The queue half of `GenFrameQueue`, on the queue alone. */
  lemma QueueFrame(s: SimState, woken: Option<nat>, resume: Option<real>)
    requires Sorted(s.pending) && s.pending != [] && (resume.Some? ==> resume.value >= 0.0)
    requires forall e' :: e' in s.pending[1..] ==> e'.proc != s.pending[0].proc
    requires woken.Some? ==> woken.value != s.pending[0].proc && Procs(s.pending)[woken.value] == 0
    ensures forall x :: x in s.pending[1..] ==> x.proc !in Changed(s, woken)
    ensures forall j :: j !in Changed(s, woken) ==> Procs(StepPending(s, woken, resume))[j] == Procs(s.pending)[j]
  {
    StepPendingFacts(s, woken, resume);
    if woken.Some? {
      forall x | x in s.pending[1..]
        ensures x.proc != woken.value
      {
        if x.proc == woken.value {
          ProcsMember(s.pending[1..], x);
        }
      }
    }
  }

  /** No process a step touches has a resumption in the rest of the queue, and the untouched ones keep their pending count. */
  lemma GenFrameQueue(cfg: Config, s: SimState, ev: EventKind, pool': PoolState, woken: Option<nat>, resume: Option<real>, p': Phase)
    requires Ready(cfg, s, ev, pool', woken, resume, p')
    ensures forall x :: x in s.pending[1..] ==> x.proc !in Changed(s, woken)
    ensures forall j :: j !in Changed(s, woken) ==>
      Procs(GenStep(cfg, s, ev, pool', woken, resume, p').pending)[j] == Procs(s.pending)[j]
  {
    PopFacts(cfg, s);
    if woken.Some? {
      WokenFacts(cfg, s, ev, pool', woken, resume, p');
    }
    QueueFrame(s, woken, resume);
  }

  /** Every process a step does not touch keeps its phase and its records. */
  lemma GenFrameLog(cfg: Config, s: SimState, ev: EventKind, pool': PoolState, woken: Option<nat>, resume: Option<real>, p': Phase)
    requires StepWf(cfg, s) && (woken.Some? ==> woken.value < |s.phase|)
    ensures var s' := GenStep(cfg, s, ev, pool', woken, resume, p');
      forall j :: 0 <= j < |s.phase| && j !in Changed(s, woken) ==>
        s'.phase[j] == s.phase[j] && TruckLog(cfg, s'.log, j) == TruckLog(cfg, s.log, j)
  {
    var e := s.pending[0];
    OtherLogs(cfg, s.log, Record(cfg.trucks[e.proc].truckId, ev, e.at), e.proc);
  }

  /** Every process a step does not touch keeps its pool membership. */
  lemma GenFrameMembers(cfg: Config, s: SimState, ev: EventKind, pool': PoolState, woken: Option<nat>, resume: Option<real>, p': Phase)
    requires StepWf(cfg, s) && (woken.Some? ==> woken.value < |s.phase|) && StepOk(cfg, s, ev, pool', woken, resume, p')
    requires forall j :: 0 <= j < |cfg.trucks| ==> cfg.trucks[j].assignedShovel in s.pools
    ensures var s' := GenStep(cfg, s, ev, pool', woken, resume, p');
      forall j :: 0 <= j < |cfg.trucks| && j !in Changed(s, woken) ==>
        && (j in s'.pools[cfg.trucks[j].assignedShovel].users <==> j in s.pools[cfg.trucks[j].assignedShovel].users)
        && (j in s'.pools[cfg.trucks[j].assignedShovel].queue <==> j in s.pools[cfg.trucks[j].assignedShovel].queue)
  {
  }

  lemma GenOthers(cfg: Config, s: SimState, ev: EventKind, pool': PoolState, woken: Option<nat>, resume: Option<real>, p': Phase)
    requires Ready(cfg, s, ev, pool', woken, resume, p')
    ensures forall j :: 0 <= j < |s.phase| && j !in Changed(s, woken) ==>
      ProcessOkIn(cfg, GenStep(cfg, s, ev, pool', woken, resume, p'), j)
  {
    GenFrameQueue(cfg, s, ev, pool', woken, resume, p');
    GenFrameLog(cfg, s, ev, pool', woken, resume, p');
    GenFrameMembers(cfg, s, ev, pool', woken, resume, p');
    OthersKept(cfg, s, GenStep(cfg, s, ev, pool', woken, resume, p'), Changed(s, woken));
  }

  /** The queue after a step is on time if the old entries behind the popped one still are and the new ones are by construction. */
  lemma PendingAfter(cfg: Config, s: SimState, ev: EventKind, pool': PoolState, woken: Option<nat>, resume: Option<real>, p': Phase)
    requires StepWf(cfg, s) && (woken.Some? ==> woken.value < |s.phase| && woken.value != s.pending[0].proc)
    requires Sorted(s.pending) && (resume.Some? ==> resume.value >= 0.0)
    requires var e := s.pending[0]; StepTimingOk(cfg, e.proc, TruckLog(cfg, s.log, e.proc), s.phase[e.proc], e.at, ev, resume, p')
    requires var s' := GenStep(cfg, s, ev, pool', woken, resume, p');
      forall x :: x in s.pending[1..] ==>
        x.proc < |s'.phase| && DueOk(cfg, x.proc, TruckLog(cfg, s'.log, x.proc), s'.phase[x.proc], x.at)
    ensures PendingOk(cfg, GenStep(cfg, s, ev, pool', woken, resume, p'))
  {
    var e := s.pending[0];
    var i := e.proc;
    var s' := GenStep(cfg, s, ev, pool', woken, resume, p');
    StepPendingFacts(s, woken, resume);
    OtherLogs(cfg, s.log, Record(cfg.trucks[i].truckId, ev, e.at), i);
    forall x | x in s'.pending
      ensures x.proc < |s'.phase| && DueOk(cfg, x.proc, TruckLog(cfg, s'.log, x.proc), s'.phase[x.proc], x.at)
    {
      if x in s.pending[1..] {
      } else if woken.Some? && x == Resumption(e.at, woken.value) {
        assert s'.phase[x.proc] == Admitted;
      } else {
        assert x == Resumption(e.at + resume.value, i);
        assert s'.phase[i] == p';
      }
    }
  }

  lemma GenPending(cfg: Config, s: SimState, ev: EventKind, pool': PoolState, woken: Option<nat>, resume: Option<real>, p': Phase)
    requires Ready(cfg, s, ev, pool', woken, resume, p')
    ensures PendingOk(cfg, GenStep(cfg, s, ev, pool', woken, resume, p'))
  {
    var s' := GenStep(cfg, s, ev, pool', woken, resume, p');
    GenFrameQueue(cfg, s, ev, pool', woken, resume, p');
    GenFrameLog(cfg, s, ev, pool', woken, resume, p');
    PendingKept(cfg, s, s', Changed(s, woken));
    PendingAfter(cfg, s, ev, pool', woken, resume, p');
  }

  lemma GenPools(cfg: Config, s: SimState, ev: EventKind, pool': PoolState, woken: Option<nat>, resume: Option<real>, p': Phase)
    requires Ready(cfg, s, ev, pool', woken, resume, p')
    ensures PoolsOk(cfg, GenStep(cfg, s, ev, pool', woken, resume, p'))
  {
    var i := s.pending[0].proc;
    var a := cfg.trucks[i].assignedShovel;
    var s' := GenStep(cfg, s, ev, pool', woken, resume, p');
    assert PoolMembersOk(cfg, s, a);
    if woken.Some? {
      WokenFacts(cfg, s, ev, pool', woken, resume, p');
    }
    var ps := s.pools[a];
    forall x | x in pool'.users || x in pool'.queue
      ensures x < |s.phase| && cfg.trucks[x].assignedShovel == a
    {
      if x != i && (woken.None? || x != woken.value) {
        if x in ps.users {
          var k :| 0 <= k < |ps.users| && ps.users[k] == x;
        } else {
          var k :| 0 <= k < |ps.queue| && ps.queue[k] == x;
        }
      }
    }
    assert PoolMembersOk(cfg, s', a) by {
      forall k | 0 <= k < |pool'.users| ensures pool'.users[k] < |s'.phase| && cfg.trucks[pool'.users[k]].assignedShovel == a {
        assert pool'.users[k] in pool'.users;
      }
      forall k | 0 <= k < |pool'.queue| ensures pool'.queue[k] < |s'.phase| && cfg.trucks[pool'.queue[k]].assignedShovel == a {
        assert pool'.queue[k] in pool'.queue;
      }
    }
    forall id | id in s'.pools && id != a
      ensures PoolMembersOk(cfg, s', id)
    {
      assert PoolMembersOk(cfg, s, id);
    }
  }

  lemma GenProcesses(cfg: Config, s: SimState, ev: EventKind, pool': PoolState, woken: Option<nat>, resume: Option<real>, p': Phase)
    requires Ready(cfg, s, ev, pool', woken, resume, p')
    ensures var s' := GenStep(cfg, s, ev, pool', woken, resume, p');
      forall j :: 0 <= j < |s'.phase| ==> ProcessOkIn(cfg, s', j)
  {
    var s' := GenStep(cfg, s, ev, pool', woken, resume, p');
    var i := s.pending[0].proc;
    assert |s'.phase| == |s.phase|;
    forall j | 0 <= j < |s'.phase|
      ensures ProcessOkIn(cfg, s', j)
    {
      if j == i {
        GenStepper(cfg, s, ev, pool', woken, resume, p');
      } else if woken.Some? && j == woken.value {
        GenWoken(cfg, s, ev, pool', woken, resume, p');
      } else {
        GenOthers(cfg, s, ev, pool', woken, resume, p');
        assert j !in Changed(s, woken);
      }
    }
  }

  /** A step of the general form that satisfies `StepOk` keeps the invariant. */
  lemma GenInv(cfg: Config, s: SimState, s': SimState, ev: EventKind, pool': PoolState, woken: Option<nat>, resume: Option<real>, p': Phase)
    requires Ready(cfg, s, ev, pool', woken, resume, p')
    requires s' == GenStep(cfg, s, ev, pool', woken, resume, p')
    ensures Inv(cfg, s')
  {
    GenClock(cfg, s, ev, pool', woken, resume, p');
    GenProcesses(cfg, s, ev, pool', woken, resume, p');
    GenPending(cfg, s, ev, pool', woken, resume, p');
    GenPools(cfg, s, ev, pool', woken, resume, p');
  }

  /** At the top of its loop a process logs `traveling_to_shovel` and drives to its shovel. */
  lemma NextCycleStart(cfg: Config, s: SimState)
    requires Inv(cfg, s) && s.pending != [] && s.phase[s.pending[0].proc].CycleStart?
    ensures StepWf(cfg, s)
    ensures var i := s.pending[0].proc; var ps := s.pools[cfg.trucks[i].assignedShovel];
      Next(cfg, s) == GenStep(cfg, s, TravelingToShovel, ps, None, Some(ShovelLegTime(cfg, i)), EnRouteToShovel)
  {
    PopFacts(cfg, s);
    var e := s.pending[0];
    var i := e.proc;
    var s1 := s.(now := e.at, pending := s.pending[1..]);
    assert Next(cfg, s) == Suspend(Emit(cfg, s1, i, TravelingToShovel), i, ShovelLegTime(cfg, i), EnRouteToShovel);
    GenStepUnwoken(cfg, s, TravelingToShovel, ShovelLegTime(cfg, i), EnRouteToShovel);
  }

  lemma ReadyCycleStart(cfg: Config, s: SimState)
    requires Inv(cfg, s) && s.pending != [] && s.phase[s.pending[0].proc].CycleStart?
    ensures StepWf(cfg, s)
    ensures var i := s.pending[0].proc; var ps := s.pools[cfg.trucks[i].assignedShovel];
      Ready(cfg, s, TravelingToShovel, ps, None, Some(ShovelLegTime(cfg, i)), EnRouteToShovel)
  {
    PopFacts(cfg, s);
    var i := s.pending[0].proc;
    var a := cfg.trucks[i].assignedShovel;
    assert ProcessOkIn(cfg, s, i);
    assert PoolMembersOk(cfg, s, a);
    TimingCycleStart(cfg, i, TruckLog(cfg, s.log, i), s.pending[0].at);
    PoolUnchanged(s.pools[a], cfg.maxTrucksPerShovel, i, false, false);
  }

  /** Loading starts once the shovel admits the truck: it logs `loading`. */
  lemma NextAdmitted(cfg: Config, s: SimState)
    requires Inv(cfg, s) && s.pending != [] && s.phase[s.pending[0].proc].Admitted?
    ensures StepWf(cfg, s)
    ensures var i := s.pending[0].proc; var ps := s.pools[cfg.trucks[i].assignedShovel];
      Next(cfg, s) == GenStep(cfg, s, Loading, ps, None, Some(LoadingTime(cfg, i)), BeingLoaded)
  {
    PopFacts(cfg, s);
    var e := s.pending[0];
    var i := e.proc;
    var s1 := s.(now := e.at, pending := s.pending[1..]);
    assert Next(cfg, s) == Suspend(Emit(cfg, s1, i, Loading), i, LoadingTime(cfg, i), BeingLoaded);
    GenStepUnwoken(cfg, s, Loading, LoadingTime(cfg, i), BeingLoaded);
  }

  lemma ReadyAdmitted(cfg: Config, s: SimState)
    requires Inv(cfg, s) && s.pending != [] && s.phase[s.pending[0].proc].Admitted?
    ensures StepWf(cfg, s)
    ensures var i := s.pending[0].proc; var ps := s.pools[cfg.trucks[i].assignedShovel];
      Ready(cfg, s, Loading, ps, None, Some(LoadingTime(cfg, i)), BeingLoaded)
  {
    PopFacts(cfg, s);
    var i := s.pending[0].proc;
    var a := cfg.trucks[i].assignedShovel;
    assert ProcessOkIn(cfg, s, i);
    assert PoolMembersOk(cfg, s, a);
    TimingAdmitted(cfg, i, TruckLog(cfg, s.log, i), s.pending[0].at);
    PoolUnchanged(s.pools[a], cfg.maxTrucksPerShovel, i, true, false);
  }

  /** At the dump site the truck logs `dumping` and dumps for 0.1 h. */
  lemma NextEnRouteToDump(cfg: Config, s: SimState)
    requires Inv(cfg, s) && s.pending != [] && s.phase[s.pending[0].proc].EnRouteToDump?
    ensures StepWf(cfg, s)
    ensures var i := s.pending[0].proc; var ps := s.pools[cfg.trucks[i].assignedShovel];
      Next(cfg, s) == GenStep(cfg, s, Dumping, ps, None, Some(DumpingTime), CycleStart)
  {
    PopFacts(cfg, s);
    var e := s.pending[0];
    var i := e.proc;
    var s1 := s.(now := e.at, pending := s.pending[1..]);
    assert Next(cfg, s) == Suspend(Emit(cfg, s1, i, Dumping), i, DumpingTime, CycleStart);
    GenStepUnwoken(cfg, s, Dumping, DumpingTime, CycleStart);
  }

  lemma ReadyEnRouteToDump(cfg: Config, s: SimState)
    requires Inv(cfg, s) && s.pending != [] && s.phase[s.pending[0].proc].EnRouteToDump?
    ensures StepWf(cfg, s)
    ensures var i := s.pending[0].proc; var ps := s.pools[cfg.trucks[i].assignedShovel];
      Ready(cfg, s, Dumping, ps, None, Some(DumpingTime), CycleStart)
  {
    PopFacts(cfg, s);
    var i := s.pending[0].proc;
    var a := cfg.trucks[i].assignedShovel;
    assert ProcessOkIn(cfg, s, i);
    assert PoolMembersOk(cfg, s, a);
    TimingEnRouteToDump(cfg, i, TruckLog(cfg, s.log, i), s.pending[0].at);
    PoolUnchanged(s.pools[a], cfg.maxTrucksPerShovel, i, false, false);
  }

  /** At the shovel the truck logs `queuing_at_shovel` and requests it: admitted at once, or queued. */
  lemma NextEnRouteToShovel(cfg: Config, s: SimState)
    requires Inv(cfg, s) && s.pending != [] && s.phase[s.pending[0].proc].EnRouteToShovel?
    ensures StepWf(cfg, s)
    ensures var i := s.pending[0].proc;
      var (ps', admitted) := Requested(s.pools[cfg.trucks[i].assignedShovel], cfg.maxTrucksPerShovel, i);
      Next(cfg, s) == GenStep(cfg, s, QueuingAtShovel, ps', None, if admitted then Some(0.0) else None,
                              if admitted then Admitted else QueuedAtShovel)
  {
    PopFacts(cfg, s);
  }

  lemma ReadyEnRouteToShovel(cfg: Config, s: SimState)
    requires Inv(cfg, s) && s.pending != [] && s.phase[s.pending[0].proc].EnRouteToShovel?
    ensures StepWf(cfg, s)
    ensures var i := s.pending[0].proc;
      var (ps', admitted) := Requested(s.pools[cfg.trucks[i].assignedShovel], cfg.maxTrucksPerShovel, i);
      Ready(cfg, s, QueuingAtShovel, ps', None, if admitted then Some(0.0) else None, if admitted then Admitted else QueuedAtShovel)
  {
    PopFacts(cfg, s);
    var i := s.pending[0].proc;
    var a := cfg.trucks[i].assignedShovel;
    assert ProcessOkIn(cfg, s, i);
    assert PoolMembersOk(cfg, s, a);
    TimingEnRouteToShovel(cfg, i, TruckLog(cfg, s.log, i), s.pending[0].at, Requested(s.pools[a], cfg.maxTrucksPerShovel, i).1);
    PoolRequested(s.pools[a], cfg.maxTrucksPerShovel, i);
  }

  /** No process both holds and waits for a shovel. */
  lemma PoolDisjoint(cfg: Config, s: SimState, a: int)
    requires Inv(cfg, s) && a in s.pools
    ensures forall x :: x in s.pools[a].users ==> x !in s.pools[a].queue
  {
    assert PoolMembersOk(cfg, s, a);
    var ps := s.pools[a];
    forall x | x in ps.users
      ensures x !in ps.queue
    {
      var k :| 0 <= k < |ps.users| && ps.users[k] == x;
      assert ProcessOkIn(cfg, s, x);
    }
  }

  /** Loading done, the truck leaves the `with` block, releasing the shovel to the first waiter, and logs `traveling_to_dump`. */
  lemma NextBeingLoaded(cfg: Config, s: SimState)
    requires Inv(cfg, s) && s.pending != [] && s.phase[s.pending[0].proc].BeingLoaded?
    ensures StepWf(cfg, s)
    ensures var i := s.pending[0].proc;
      var (ps', next) := Released(s.pools[cfg.trucks[i].assignedShovel], cfg.maxTrucksPerShovel, i);
      && (next.Some? ==> next.value < |s.phase|)
      && Next(cfg, s) == GenStep(cfg, s, TravelingToDump, ps', next, Some(DumpLegTime(cfg, i)), EnRouteToDump)
  {
    PopFacts(cfg, s);
    var e := s.pending[0];
    var i := e.proc;
    var a := cfg.trucks[i].assignedShovel;
    assert PoolMembersOk(cfg, s, a);
    var (ps', next) := Released(s.pools[a], cfg.maxTrucksPerShovel, i);
    if next.Some? {
      assert s.pools[a].queue[0] in s.pools[a].queue;
    }
    var g := GenStep(cfg, s, TravelingToDump, ps', next, Some(DumpLegTime(cfg, i)), EnRouteToDump);
    var n := Next(cfg, s);
    assert n.now == g.now;
    assert n.pools == g.pools;
    assert n.log == g.log;
    assert n.phase == g.phase;
    assert n.pending == g.pending;
  }

  lemma ReadyBeingLoaded(cfg: Config, s: SimState)
    requires Inv(cfg, s) && s.pending != [] && s.phase[s.pending[0].proc].BeingLoaded?
    ensures StepWf(cfg, s)
    ensures var i := s.pending[0].proc;
      var (ps', next) := Released(s.pools[cfg.trucks[i].assignedShovel], cfg.maxTrucksPerShovel, i);
      Ready(cfg, s, TravelingToDump, ps', next, Some(DumpLegTime(cfg, i)), EnRouteToDump)
  {
    PopFacts(cfg, s);
    var i := s.pending[0].proc;
    var a := cfg.trucks[i].assignedShovel;
    assert ProcessOkIn(cfg, s, i);
    assert PoolMembersOk(cfg, s, a);
    TimingBeingLoaded(cfg, i, TruckLog(cfg, s.log, i), s.pending[0].at);
    PoolDisjoint(cfg, s, a);
    PoolReleased(s.pools[a], cfg.maxTrucksPerShovel, i);
  }

  /**
   * Every scheduler step keeps the invariant and appends exactly one record:
   * the resumed truck's next event of its cycle, stamped with the time it was
   * resumed at.
   */
  lemma NextInv(cfg: Config, s: SimState)
    requires Inv(cfg, s) && s.pending != []
    ensures Inv(cfg, Next(cfg, s))
    ensures var e := s.pending[0];
      && e.proc < |s.phase| && Next(cfg, s).now == e.at && |Next(cfg, s).phase| == |s.phase|
      && Next(cfg, s).log == s.log + [Record(cfg.trucks[e.proc].truckId, CycleEvent(|TruckLog(cfg, s.log, e.proc)|), e.at)]
  {
    PopFacts(cfg, s);
    var i := s.pending[0].proc;
    var a := cfg.trucks[i].assignedShovel;
    var cap := cfg.maxTrucksPerShovel;
    match s.phase[i]
    case CycleStart =>
      NextCycleStart(cfg, s);
      ReadyCycleStart(cfg, s);
      GenInv(cfg, s, Next(cfg, s), TravelingToShovel, s.pools[a], None, Some(ShovelLegTime(cfg, i)), EnRouteToShovel);
    case EnRouteToShovel =>
      NextEnRouteToShovel(cfg, s);
      ReadyEnRouteToShovel(cfg, s);
      var (ps', admitted) := Requested(s.pools[a], cap, i);
      GenInv(cfg, s, Next(cfg, s), QueuingAtShovel, ps', None, if admitted then Some(0.0) else None,
             if admitted then Admitted else QueuedAtShovel);
    case Admitted =>
      NextAdmitted(cfg, s);
      ReadyAdmitted(cfg, s);
      GenInv(cfg, s, Next(cfg, s), Loading, s.pools[a], None, Some(LoadingTime(cfg, i)), BeingLoaded);
    case BeingLoaded =>
      NextBeingLoaded(cfg, s);
      ReadyBeingLoaded(cfg, s);
      var (ps', next) := Released(s.pools[a], cap, i);
      GenInv(cfg, s, Next(cfg, s), TravelingToDump, ps', next, Some(DumpLegTime(cfg, i)), EnRouteToDump);
    case EnRouteToDump =>
      NextEnRouteToDump(cfg, s);
      ReadyEnRouteToDump(cfg, s);
      GenInv(cfg, s, Next(cfg, s), Dumping, s.pools[a], None, Some(DumpingTime), CycleStart);
  }
}
