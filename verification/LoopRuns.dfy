/** Runs of the controller and the unforced simulator together, from their construction, with commands,
    reports and resets at any time, and rounds, reads, time-out checks and simulator iterations at any
    pace. */
module LoopRuns {
  import opened Options
  import opened ControlDefs
  import opened FaultStatusBits
  import opened PowerLogic
  import PowerRuns
  import opened PowerTrips
  import opened CellLogic
  import opened CellSafety
  import FaultMgr
  import opened SimLogic
  import opened LoopLogic

  /** Both as constructed, with arbitrary snapshots in memory; the simulator's clock starts at 0. */
  ghost predicate Starts(s: Stage, info: SysInfo, held: SysInfo, simInfo: SysInfo) {
    && s.time >= 0.0
    && s.l == Loop(InitialCell(info, NO_OUTPUT, s.time), InitialSim(simInfo), held, 0, s.time)
  }

  ghost predicate IsRun(run: seq<Stage>, events: seq<LoopEvent>) {
    && |run| == |events| + 1
    && (exists info, held, simInfo :: Starts(run[0], info, held, simInfo))
    && forall i | 0 <= i < |events| :: StepsTo(run[i], events[i], run[i + 1])
  }

  // ---- The plant stays within its bounds over every run ----

  /** A snapshot no higher than the plant can go. */
  predicate InfoBounded(info: SysInfo) {
    && 0.0 <= info.motorVoltage <= Cfg(MOTOR).nominalVoltage && info.motorCurrent <= 0.75 * Cfg(MOTOR).maxCurrent
    && 0.0 <= info.commVoltage <= Cfg(COMM).nominalVoltage && info.commCurrent <= 0.75 * Cfg(COMM).maxCurrent
  }

  predicate SimBounded(sim: Sim, time: real) {
    && sim.motor.kind == MOTOR && sim.comm.kind == COMM && sim.prevTs <= time
    && WithinBounds(sim.motor) && WithinBounds(sim.comm)
    && (sim.iterations > 0 ==> InfoBounded(sim.info))
  }

  lemma TickBounds(sim: Sim, time: real, now: real)
    requires SimBounded(sim, time) && time <= now
    ensures SimBounded(Iterated(sim, now), now)
  {
    hide BreakersCalculated, VoltageCalculated;
    SimKeepsKinds(sim.motor, sim.newOutput, sim.input, now, now - sim.prevTs);
    var input1 := BreakersCalculated(sim.motor, sim.newOutput, sim.input, now).1;
    SimKeepsKinds(sim.comm, sim.newOutput, input1, now, now - sim.prevTs);
    SimStaysWithinBounds(sim, now);
  }

  lemma SimKeepsKinds(s: SimSub, output: OutputPort, input: InputPort, now: real, dt: real)
    ensures var s1 := BreakersCalculated(s, output, input, now).0;
            s1.kind == s.kind && forall on :: VoltageCalculated(s1, on, dt).kind == s.kind
  {}

  ghost predicate Inv(s: Stage) { Sound(s.l.cell, s.time) && SimBounded(s.l.sim, s.time) }

  /** What a round of the loop does besides the controller's part. */
  lemma AfterKeeps(s: Stage, e: LoopEvent)
    requires Allowed(s, e)
    ensures StageAfter(s, e).l.cell == CellAfter(s.l, e)
    ensures !e.Tick? ==> StageAfter(s, e).l.sim == s.l.sim.(newOutput := StageAfter(s, e).l.sim.newOutput)
  {
    hide CellLogic.Next, Iterated;
  }

  lemma NextKeepsInv(s: Stage, e: LoopEvent)
    requires Inv(s) && Allowed(s, e)
    ensures Inv(StageAfter(s, e))
  {
    hide Sound, SimBounded, CellLogic.Next, Iterated, CellEvent;
    SoundLater(s.l.cell, s.time, TimeOf(e));
    CellEventTime(s.l, e);
    match CellEvent(s.l, e) {
      case Some(c) => NextKeeps(s.l.cell, c);
      case None =>
    }
    AfterKeeps(s, e);
    if e.Tick? {
      TickBounds(s.l.sim, s.time, e.now);
    } else {
      BoundedLater(s.l.sim, s.time, TimeOf(e));
    }
  }

  lemma CellEventTime(l: Loop, e: LoopEvent)
    ensures CellEvent(l, e).Some? ==> CellEvent(l, e).value.now == TimeOf(e)
  {}

  lemma BoundedLater(sim: Sim, time: real, now: real)
    requires SimBounded(sim, time) && time <= now
    ensures SimBounded(sim, now) && forall port: OutputPort :: SimBounded(sim.(newOutput := port), now)
  {}

  lemma StartHasInv(s: Stage, info: SysInfo, held: SysInfo, simInfo: SysInfo)
    requires Starts(s, info, held, simInfo)
    ensures Inv(s)
  {
    InitialIsSound(Moment(s.l.cell, s.time), info, NO_OUTPUT);
  }

  lemma FollowerHasInv(s: Stage, e: LoopEvent, next: Stage)
    requires Inv(s) && StepsTo(s, e, next)
    ensures Inv(next)
  {
    hide Inv, StageAfter, Allowed;
    NextKeepsInv(s, e);
  }

  lemma {:induction false} RunKeepsInv(run: seq<Stage>, events: seq<LoopEvent>, i: nat)
    requires IsRun(run, events) && i < |run|
    ensures Inv(run[i])
  {
    hide Inv, Starts, StepsTo;
    if i == 0 {
      var info, held, simInfo :| Starts(run[0], info, held, simInfo);
      StartHasInv(run[0], info, held, simInfo);
    } else {
      RunKeepsInv(run, events, i - 1);
      FollowerHasInv(run[i - 1], events[i - 1], run[i]);
    }
  }

  /** Some round before event `i` fetched a snapshot that the simulator had made. */
  predicate Fetched(run: seq<Stage>, events: seq<LoopEvent>, i: nat)
    requires i <= |events| < |run|
  {
    exists j :: 0 <= j < i && events[j].Exchange? && run[j].l.sim.iterations > 0
  }

  lemma {:induction false} HeldIsBounded(run: seq<Stage>, events: seq<LoopEvent>, i: nat)
    requires IsRun(run, events) && i <= |events| < |run| && Fetched(run, events, i)
    ensures InfoBounded(run[i].l.held) && run[i].l.sim.iterations > 0
  {
    hide Inv, StepsTo, InfoBounded, Starts;
    var j :| 0 <= j < i && events[j].Exchange? && run[j].l.sim.iterations > 0;
    RunKeepsInv(run, events, i - 1);
    assert StepsTo(run[i - 1], events[i - 1], run[i]);
    if j < i - 1 {
      assert Fetched(run, events, i - 1);
      HeldIsBounded(run, events, i - 1);
    }
    HeldStep(run[i - 1], events[i - 1], run[i]);
  }

  lemma HeldStep(s: Stage, e: LoopEvent, next: Stage)
    requires Inv(s) && StepsTo(s, e, next)
    ensures next.l.held == if e.Exchange? then s.l.sim.info else s.l.held
    ensures e.Exchange? && s.l.sim.iterations > 0 ==> InfoBounded(next.l.held)
    ensures next.l.sim.iterations >= s.l.sim.iterations
  {
    hide CellAfter, InfoBounded;
  }

  // ---- The faults a snapshot gathers ----

  lemma PassGathers(c: Cell, kind: PowerSystemType, faults: FaultBits, now: real)
    requires Sound(c, now)
    ensures var f := SubsystemPass(c, kind, faults, now).1;
            && Explained(SubOf(c, kind), faults, f)
            && OverLimitBits(Other(kind)) * (f - faults) == {}
  {
    hide Pass, Explained, PowerRuns.SubInv;
    FaultsAreExplained(SubOf(c, kind), c.port, faults, now);
    PassLowers(c, kind, faults, now);
  }

  /** A snapshot within its bounds gathers no over-current fault, and a voltage fault only for a voltage
      under the lower limit. */
  lemma GatheredIsLow(c: Cell, info: SysInfo, now: real, kind: PowerSystemType)
    requires Sound(c, now) && InfoBounded(info)
    ensures var gathered := DaqSubsystems(c, info, now).1;
            && Cfg(kind).excessiveCurrent !in gathered
            && (Cfg(kind).voltageFault in gathered ==>
                  (if kind == MOTOR then info.motorVoltage else info.commVoltage) < Cfg(kind).minVoltageFault)
  {
    hide DaqChecks, SubsystemSnapshot, SubsystemPass, PowerRuns.SubInv, Sound, Lowers, Remembers, IsBlocked;
    var c1 := DaqChecks(c, info, now);
    ChecksLower(c, info, now);
    var m1 := SubsystemSnapshot(c1, MOTOR, info, now);
    SnapshotLowers(c1, MOTOR, info, now);
    PassGathers(m1, MOTOR, HealthFaults(info), now);
    var (m2, f2) := SubsystemPass(m1, MOTOR, HealthFaults(info), now);
    PassLowers(m1, MOTOR, HealthFaults(info), now);
    var k1 := SubsystemSnapshot(m2, COMM, info, now);
    SnapshotLowers(m2, COMM, info, now);
    PassGathers(k1, COMM, f2, now);
    KindsOfSound(m1, now);
    KindsOfSound(k1, now);
    FromOwnPass(HealthFaults(info), f2, SubsystemPass(k1, COMM, f2, now).1, Cfg(kind).excessiveCurrent, kind);
    FromOwnPass(HealthFaults(info), f2, SubsystemPass(k1, COMM, f2, now).1, Cfg(kind).voltageFault, kind);
    HealthIsNoLimit(info, kind);
  }

  lemma HealthIsNoLimit(info: SysInfo, kind: PowerSystemType)
    ensures OverLimitBits(kind) * HealthFaults(info) == {}
  {}

  /** A limit fault that is there after both passes but not before was raised by its own subsystem's. */
  lemma FromOwnPass(f1: FaultBits, f2: FaultBits, f3: FaultBits, bit: FaultPos, kind: PowerSystemType)
    requires bit in OverLimitBits(kind)
    requires OverLimitBits(COMM) * (f2 - f1) == {} && OverLimitBits(MOTOR) * (f3 - f2) == {}
    ensures bit in f3 && bit !in f1 ==> if kind == MOTOR then bit in f2 else bit !in f2
  {
    assert kind == COMM ==> bit !in OverLimitBits(COMM) * (f2 - f1);
    assert kind == MOTOR ==> bit !in OverLimitBits(MOTOR) * (f3 - f2);
  }

  /** No limit is exceeded in the snapshot that the event processes, nor any such fault gathered. */
  predicate WithinLimits(c: Cell, e: CellLogic.Event, kind: PowerSystemType)
    requires e.Daq?
  {
    var gathered := DaqSubsystems(AtDaq(c, e), e.info, e.now).1;
    && !OverLimit(kind, e.info)
    && Cfg(kind).excessiveCurrent !in gathered
    && (Cfg(kind).voltageFault in gathered ==>
          (if kind == MOTOR then e.info.motorVoltage else e.info.commVoltage) < Cfg(kind).minVoltageFault)
  }

  lemma BoundedIsWithin(c: Cell, e: CellLogic.Event, kind: PowerSystemType)
    requires e.Daq? && Sound(c, e.now) && InfoBounded(e.info)
    ensures WithinLimits(c, e, kind)
  {
    hide Sound, DaqSubsystems, TimedOut;
    TimedOutLowers(c, e.now);
    GatheredIsLow(AtDaq(c, e), e.info, e.now, kind);
  }

  /** The event processes a snapshot: a read, or a time-out check that is late. */
  predicate Processes(l: Loop, e: LoopEvent) { CellEvent(l, e).Some? && CellEvent(l, e).value.Daq? }

  /** Whatever is commanded, and whenever rounds, reads, checks and iterations come: once a snapshot made by
      the simulator was fetched, no snapshot that is processed is over a limit, no over-current fault is
      gathered from it, and a voltage fault only when the voltage is under the lower limit. */
  lemma NeverOverLimit(run: seq<Stage>, events: seq<LoopEvent>, i: nat, kind: PowerSystemType)
    requires IsRun(run, events) && |run| == |events| + 1 && i < |events| && Fetched(run, events, i)
    requires Processes(run[i].l, events[i])
    ensures WithinLimits(run[i].l.cell, CellEvent(run[i].l, events[i]).value, kind)
  {
    hide StageAfter, Starts, WithinLimits, Sound, SimBounded, InfoBounded;
    RunKeepsInv(run, events, i);
    HeldIsBounded(run, events, i);
    assert StepsTo(run[i], events[i], run[i + 1]);
    SoundLater(run[i].l.cell, run[i].time, TimeOf(events[i]));
    BoundedIsWithin(run[i].l.cell, CellEvent(run[i].l, events[i]).value, kind);
  }

  /** A time-out check more than 1.5 s after the last read, and a read of a snapshot more than 1.5 s old, leave both
      targets OFF, both power bits low and the time-out fault latched. */
  lemma TimeOutTurnsOff(run: seq<Stage>, events: seq<LoopEvent>, i: nat, kind: PowerSystemType)
    requires IsRun(run, events) && |run| == |events| + 1 && i < |events|
    requires || (events[i].Check? && events[i].now - run[i].l.readTime > 1.5)
             || (events[i].Read? && events[i].now - run[i].l.held.timestamp > 1.5)
    ensures IsOff(run[i + 1].l.cell, kind) && POWER_SYSTEM_TIMEOUT in run[i + 1].l.cell.faults.power.summary
  {
    hide Inv, Starts, Sound, DaqRead, IsOff;
    RunKeepsInv(run, events, i);
    assert StepsTo(run[i], events[i], run[i + 1]);
    LateDaqTurnsOff(run[i], events[i].now, kind);
  }

  lemma LateDaqTurnsOff(s: Stage, now: real, kind: PowerSystemType)
    requires Inv(s) && s.time <= now
    ensures var d := DaqRead(s.l.cell, s.l.held, true, now);
            IsOff(d, kind) && POWER_SYSTEM_TIMEOUT in d.faults.power.summary
  {
    hide Sound, TimedOut, ProcessDaq, SimBounded, FaultMgr.PowerUpdated;
    SoundLater(s.l.cell, s.time, now);
    TimedOutLowers(s.l.cell, now);
    FaultsValid(s.l.cell, now);
    FaultMgr.ReportLatches(s.l.cell.faults, {POWER_SYSTEM_TIMEOUT}, {POWER_SYSTEM_TIMEOUT}, POWER_SYSTEM_TIMEOUT);
    DaqOnlyLowers(TimedOut(s.l.cell, now), s.l.held, now);
  }

  // ---- Every run is a run of the controller ----

  ghost predicate Reached(s: Stage) { exists run, events :: IsRun(run, events) && run[|events|] == s }

  lemma NextIsReached(s: Stage, e: LoopEvent)
    requires Reached(s) && Allowed(s, e)
    ensures Reached(StageAfter(s, e))
  {
    hide StageAfter, Starts;
    var run, events :| IsRun(run, events) && run[|events|] == s;
    var longer, more := run + [StageAfter(s, e)], events + [e];
    forall i | 0 <= i < |more|
      ensures StepsTo(longer[i], more[i], longer[i + 1])
    {
      if i < |events| { assert StepsTo(run[i], events[i], run[i + 1]); }
    }
    var info, held, simInfo :| Starts(run[0], info, held, simInfo);
    assert Starts(longer[0], info, held, simInfo);
    assert IsRun(longer, more) && longer[|more|] == StageAfter(s, e);
  }

  /** What follows a reached stage is reached. */
  lemma {:induction false} RunIsReached(run: seq<Stage>, events: seq<LoopEvent>, i: nat)
    requires |run| == |events| + 1 && i < |run| && Reached(run[0])
    requires forall k | 0 <= k < |events| :: StepsTo(run[k], events[k], run[k + 1])
    ensures Reached(run[i])
  {
    hide Reached, StageAfter;
    if i > 0 {
      RunIsReached(run, events, i - 1);
      assert StepsTo(run[i - 1], events[i - 1], run[i]);
      NextIsReached(run[i - 1], events[i - 1]);
    }
  }

  /** The controller of `s` is reached by a run of the controller alone. */
  ghost predicate CellReached(s: Stage) { exists t :: t <= s.time && Reachable(Moment(s.l.cell, t)) }

  lemma {:induction false} CellsAreReached(run: seq<Stage>, events: seq<LoopEvent>, i: nat)
    requires IsRun(run, events) && i < |run|
    ensures CellReached(run[i])
  {
    hide CellReached, Starts, StepsTo;
    if i == 0 {
      var info, held, simInfo :| Starts(run[0], info, held, simInfo);
      FirstIsReached(run[0], info, held, simInfo);
    } else {
      CellsAreReached(run, events, i - 1);
      NextCellIsReached(run[i - 1], events[i - 1], run[i]);
    }
  }

  lemma FirstIsReached(s: Stage, info: SysInfo, held: SysInfo, simInfo: SysInfo)
    requires Starts(s, info, held, simInfo)
    ensures CellReached(s)
  {
    hide Reachable;
    StartIsReachable(Moment(s.l.cell, s.time), info, NO_OUTPUT);
  }

  lemma NextCellIsReached(s: Stage, e: LoopEvent, next: Stage)
    requires CellReached(s) && StepsTo(s, e, next)
    ensures CellReached(next)
  {
    hide Reachable, CellLogic.Next, CellEvent;
    var t :| t <= s.time && Reachable(Moment(s.l.cell, t));
    CellEventTime(s.l, e);
    AfterKeeps(s, e);
    match CellEvent(s.l, e) {
      case Some(c) => NextIsReachable(Moment(s.l.cell, t), c);
      case None => assert Reachable(Moment(next.l.cell, t));
    }
  }

  lemma CellIsReached(s: Stage)
    requires Reached(s)
    ensures CellReached(s)
  {
    hide CellReached, StepsTo, Starts;
    var run, events :| IsRun(run, events) && run[|events|] == s;
    CellsAreReached(run, events, |events|);
  }
}
