/** What the whole controller keeps, step by step and over every run. */
module CellSafety {
  import opened ControlDefs
  import opened FaultStatusBits
  import opened PowerLogic
  import opened PowerRuns
  import opened SystemStates
  import opened CellLogic
  import FaultRecord
  import FaultMgr

  /** The invariant of the controller at time `t`. */
  ghost predicate Sound(c: Cell, t: real) {
    && c.motor.kind == MOTOR && c.comm.kind == COMM
    && SubInv(c.motor, c.port, t) && SubInv(c.comm, c.port, t)
    && FaultMgr.Valid(c.faults)
  }

  predicate Kinds(c: Cell) { c.motor.kind == MOTOR && c.comm.kind == COMM }

  lemma KindsOfSound(c: Cell, t: real)
    requires Sound(c, t)
    ensures Kinds(c)
  {}

  /** The subsystem is commanded off and its power bit is low. */
  predicate IsOff(c: Cell, kind: PowerSystemType) {
    SubOf(c, kind).targ == OFF && !c.port[Cfg(kind).powerOnPos]
  }

  /** From `c` to `d` no target and no power bit was raised. */
  predicate Lowers(c: Cell, d: Cell) {
    && (d.motor.targ == c.motor.targ || d.motor.targ == OFF)
    && (d.comm.targ == c.comm.targ || d.comm.targ == OFF)
    && (d.port[MOTOR_POWER_ON] ==> c.port[MOTOR_POWER_ON])
    && (d.port[ILC_COMM_POWER_ON] ==> c.port[ILC_COMM_POWER_ON])
    && d.port[CRIO_INTERLOCK_ENABLE] == c.port[CRIO_INTERLOCK_ENABLE]
  }

  /** `d` is a sound lowering of `c` with the same fault records and actual states. */
  ghost predicate Turned(c: Cell, d: Cell, now: real) {
    && Sound(d, now) && Lowers(c, d) && d.faults == c.faults && d.finished == c.finished
    && d.motor.actual == c.motor.actual && d.comm.actual == c.comm.actual
    && d.motor.info == c.motor.info && d.comm.info == c.comm.info
  }

  lemma SoundLater(c: Cell, t: real, now: real)
    requires Sound(c, t) && t <= now
    ensures Sound(c, now)
  {}

  lemma TurnOffTurns(c: Cell, kind: PowerSystemType, now: real)
    requires Sound(c, now)
    ensures Turned(c, TurnOff(c, kind, now), now) && IsOff(TurnOff(c, kind, now), kind)
    ensures TurnOff(c, kind, now).state == c.state
    ensures SubOf(TurnOff(c, kind, now), Other(kind)) == SubOf(c, Other(kind))
  {}

  lemma TurnOffAllTurns(c: Cell, now: real)
    requires Sound(c, now)
    ensures Turned(c, TurnOffAll(c, now), now) && TurnOffAll(c, now).state == c.state
    ensures IsOff(TurnOffAll(c, now), MOTOR) && IsOff(TurnOffAll(c, now), COMM)
  {
    hide TurnOff, SubInv;
    TurnOffTurns(c, MOTOR, now);
    TurnOffTurns(TurnOff(c, MOTOR, now), COMM, now);
  }

  lemma ChangeStateTurns(c: Cell, next: StateEnum, now: real)
    requires Sound(c, now)
    ensures Turned(c, ChangeState(c, next, now), now)
    ensures ChangeState(c, next, now).state == StateAfter(c.state, next, c.finished)
    ensures next != OFFLINESTATE && next != STARTUPSTATE ==>
              ChangeState(c, next, now) == c.(state := StateAfter(c.state, next, c.finished))
  {
    hide TurnOffAll, SubInv;
    TurnOffAllTurns(c.(state := next), now);
  }

  lemma SafeModeTurns(c: Cell, now: real)
    requires Sound(c, now)
    ensures Turned(c, GoToSafeMode(c, now), now)
    ensures IsOff(GoToSafeMode(c, now), MOTOR) && IsOff(GoToSafeMode(c, now), COMM)
  {
    hide TurnOffAll, ChangeState, SubInv;
    TurnOffAllTurns(c, now);
    ChangeStateTurns(TurnOffAll(c, now), SafeTarget(TurnOffAll(c, now).state, STANDBYSTATE), now);
  }

  /** System state and power agree. */
  predicate Agree(c: Cell) {
    match c.state
    case OFFLINESTATE | STARTUPSTATE => BothTargetsOff(c)
    case IDLESTATE | INMOTIONSTATE | PAUSESTATE => AllOn(c)
    case STANDBYSTATE => !AllOn(c)
  }

  /** After every completed power report the system state and the power agree. */
  lemma ReportAgrees(c: Cell, now: real)
    requires Sound(c, now)
    ensures Agree(Report(c, now)) && Turned(c, Report(c, now), now)
    ensures Agree(c) ==> Report(c, now) == c
  {
    hide TurnOffAll, ChangeState, SubInv;
    TurnOffAllTurns(c, now);
    ChangeStateTurns(c, STANDBYSTATE, now);
    ChangeStateTurns(c, IDLESTATE, now);
  }

  /** No fault is forgotten from `c` to `d`. */
  predicate Remembers(c: Cell, d: Cell) {
    && c.faults.power.summary * MASK_FAULTS <= d.faults.power.summary
    && d.faults.commFault == c.faults.commFault
  }

  /** `d` is a sound lowering of `c` that forgets no fault. */
  ghost predicate Lowered(c: Cell, d: Cell, now: real) { Sound(d, now) && Lowers(c, d) && Remembers(c, d) }

  lemma LoweredTrans(c: Cell, d: Cell, e: Cell, now: real)
    requires Lowered(c, d, now) && Lowered(d, e, now)
    ensures Lowered(c, e, now)
    ensures forall kind :: IsOff(c, kind) ==> IsOff(d, kind)
    ensures forall kind :: IsOff(d, kind) ==> IsOff(e, kind)
  {
    hide Sound, SubInv;
  }

  lemma UpdateFaultsLowers(c: Cell, current: FaultBits, now: real)
    requires Sound(c, now)
    ensures Lowered(c, UpdateFaults(c, current, now), now)
    ensures UpdateFaults(c, current, now).faults == FaultMgr.PowerUpdated(c.faults, current).0
  {
    hide GoToSafeMode, SubInv;
    forall bit | bit in c.faults.power.summary * MASK_FAULTS
      ensures bit in FaultMgr.PowerUpdated(c.faults, current).0.power.summary
    {
      FaultMgr.ReportLatches(c.faults, current, {bit}, bit);
    }
    FaultMgr.EventsKeepValid(c.faults, current, 0);
    SafeModeTurns(c.(faults := FaultMgr.PowerUpdated(c.faults, current).0), now);
  }

  lemma SnapshotLowers(c: Cell, kind: PowerSystemType, info: SysInfo, now: real)
    requires Sound(c, now)
    ensures var d := SubsystemSnapshot(c, kind, info, now);
            && Lowered(c, d, now) && d.faults == c.faults && SubOf(d, kind).info == info
            && (IsBlocked(c, kind) ==> IsOff(d, kind))
            && SubOf(d, kind).actual == SubOf(c, kind).actual
  {
    hide Report, SubInv, IsBlocked;
    var o := Snapshot(SubOf(c, kind), c.port, info, IsBlocked(c, kind), now);
    var c1 := WithSub(c, kind, o.sub, o.port);
    assert Sound(c1, now) by { SnapshotSound(c, kind, info, now); }
    ReportAgrees(c1, now);
    var c2 := if Changed(o.sub) then Report(c1, now) else c1;
    assert Sound(WithSub(c2, kind, Noted(SubOf(c2, kind)), c2.port), now) by { NotedSound(c2, kind, now); }
  }

  lemma SnapshotSound(c: Cell, kind: PowerSystemType, info: SysInfo, now: real)
    requires Sound(c, now)
    ensures var o := Snapshot(SubOf(c, kind), c.port, info, IsBlocked(c, kind), now);
            Sound(WithSub(c, kind, o.sub, o.port), now)
  {
    hide IsBlocked;
  }

  lemma NotedSound(c: Cell, kind: PowerSystemType, now: real)
    requires Sound(c, now)
    ensures Sound(WithSub(c, kind, Noted(SubOf(c, kind)), c.port), now)
  {}

  /** What a pass of one subsystem does to the whole controller. */
  lemma PassLowers(c: Cell, kind: PowerSystemType, faults: FaultBits, now: real)
    requires Sound(c, now)
    ensures var (d, f) := SubsystemPass(c, kind, faults, now);
            && Lowered(c, d, now) && d.faults == c.faults && faults <= f
            && (OverLimitBits(kind) * (f - faults) != {} ==> IsOff(d, kind))
            && OverLimitBits(Other(kind)) * (f - faults) == {}
            && (OverLimit(kind, SubOf(c, kind).info) ==> IsOff(d, kind))
  {
    hide Pass, SubInv, FaultMgr.Valid, GoodPass, OverLimit, OverLimitBits;
    PassSummary(SubOf(c, kind), c.port, faults, now);
    PassSound(c, kind, faults, now);
  }

  lemma PassSound(c: Cell, kind: PowerSystemType, faults: FaultBits, now: real)
    requires Sound(c, now)
    ensures Sound(SubsystemPass(c, kind, faults, now).0, now)
  {
    hide Pass, OverLimit, OverLimitBits, FaultMgr.Valid, Edge;
    PassSummary(SubOf(c, kind), c.port, faults, now);
  }

  function Other(kind: PowerSystemType): PowerSystemType { if kind == MOTOR then COMM else MOTOR }

  /** The snapshot shows a voltage or a current above the fault level. */
  predicate OverLimit(kind: PowerSystemType, info: SysInfo) {
    if kind == MOTOR
    then info.motorVoltage > Cfg(MOTOR).maxVoltageFault || info.motorCurrent > Cfg(MOTOR).maxCurrent
    else info.commVoltage > Cfg(COMM).maxVoltageFault || info.commCurrent > Cfg(COMM).maxCurrent
  }

  /** The faults of a voltage or over-current trip. */
  function OverLimitBits(kind: PowerSystemType): FaultBits {
    {Cfg(kind).voltageFault, Cfg(kind).excessiveCurrent}
  }

  lemma PassSummary(s: Sub, port: OutputPort, faults: FaultBits, now: real)
    requires SubInv(s, port, now)
    ensures var o := Pass(s, port, faults, now);
            && GoodPass(s, port, faults, o) && OutInv(o, now) && o.sub.kind == s.kind && faults <= o.faults
            && (o.sub.targ == s.targ || o.sub.targ == OFF)
            && (o.port[Cfg(s.kind).powerOnPos] ==> port[Cfg(s.kind).powerOnPos])
            && o.port[Cfg(Other(s.kind)).powerOnPos] == port[Cfg(Other(s.kind)).powerOnPos]
            && o.port[CRIO_INTERLOCK_ENABLE] == port[CRIO_INTERLOCK_ENABLE]
            && (OverLimit(s.kind, s.info) || OverLimitBits(s.kind) * (o.faults - faults) != {} ==>
                  o.sub.targ == OFF && !o.port[Cfg(s.kind).powerOnPos])
            && OverLimitBits(Other(s.kind)) * (o.faults - faults) == {}
  {
    if s.targ == ON {
      PowerOnPassKeeps(s, port, faults, now);
      PowerOnPassGood(s, port, faults, now);
      PassOnLine(s, port, faults, now);
      TripTurnsOff(s, port, faults, now);
    } else {
      PowerOffPassKeeps(s, port, faults, now);
      PowerOffPassGood(s, port, faults, now);
    }
  }

  lemma TripTurnsOff(s: Sub, port: OutputPort, faults: FaultBits, now: real)
    requires SubInv(s, port, now) && s.targ == ON
    ensures var o := PowerOnPass(s, port, faults, now);
            && (OverLimit(s.kind, s.info) || OverLimitBits(s.kind) * (o.faults - faults) != {} ==>
                  o.sub.targ == OFF && !o.port[Cfg(s.kind).powerOnPos])
            && OverLimitBits(Other(s.kind)) * (o.faults - faults) == {}
  {
    hide BreakerStatus, OutputIsOn, InterlockRelayOn, CrioReady, RelayOn;
  }

  /** A trip is reported: a subsystem that should be on and is over its limits raises its fault. */
  lemma OverLimitIsRaised(s: Sub, port: OutputPort, faults: FaultBits, now: real)
    requires s.targ == ON && OverLimit(s.kind, s.info)
    ensures exists bit :: bit in OverLimitBits(s.kind) && bit in Pass(s, port, faults, now).faults
  {
    var cfg := Cfg(s.kind);
    var bit := if Voltage(s) > cfg.maxVoltageFault then cfg.voltageFault else cfg.excessiveCurrent;
    assert bit in OverLimitBits(s.kind) && bit in Pass(s, port, faults, now).faults;
  }

  lemma ChecksLower(c: Cell, info: SysInfo, now: real)
    requires Sound(c, now)
    ensures Lowered(c, DaqChecks(c, info, now), now)
    ensures MotorWithoutComm(info) ==> IsOff(DaqChecks(c, info, now), MOTOR)
  {
    hide UpdateFaults, TurnOff, SubInv;
    var health := HealthFaults(info);
    UpdateFaultsLowers(c, health, now);
    var c1 := if health == {} then c else UpdateFaults(c, health, now);
    TurnOffTurns(c1, MOTOR, now);
    LoweredTrans(c, c1, TurnOff(c1, MOTOR, now), now);
  }

  /** One snapshot through both subsystems: nothing is raised, and a subsystem over its limits, or
      with a voltage or over-current fault gathered, ends up off. */
  lemma SubsystemsLower(c: Cell, info: SysInfo, now: real)
    requires Sound(c, now)
    ensures var (d, f) := DaqSubsystems(c, info, now);
            && Lowered(c, d, now)
            && (MotorWithoutComm(info) ==> IsOff(d, MOTOR))
            && (forall kind | OverLimit(kind, info) || OverLimitBits(kind) * f != {} :: IsOff(d, kind))
            && HealthFaults(info) <= f
  {
    hide DaqChecks, SubsystemSnapshot, SubsystemPass, SubInv, Sound, Lowers, OverLimit;
    var c1 := DaqChecks(c, info, now);
    ChecksLower(c, info, now);
    var m1 := SubsystemSnapshot(c1, MOTOR, info, now);
    SnapshotLowers(c1, MOTOR, info, now);
    var (m2, f2) := SubsystemPass(m1, MOTOR, HealthFaults(info), now);
    PassLowers(m1, MOTOR, HealthFaults(info), now);
    var k1 := SubsystemSnapshot(m2, COMM, info, now);
    SnapshotLowers(m2, COMM, info, now);
    var (k2, f3) := SubsystemPass(k1, COMM, f2, now);
    PassLowers(k1, COMM, f2, now);
    LoweredTrans(c, c1, m1, now);
    LoweredTrans(c, m1, m2, now);
    LoweredTrans(c, m2, k1, now);
    LoweredTrans(m2, k1, k2, now);
    LoweredTrans(c, k1, k2, now);
    assert OverLimitBits(MOTOR) * HealthFaults(info) == {};
    assert OverLimitBits(COMM) * HealthFaults(info) == {};
  }

  /** DAQ processing never raises a target; a snapshot with motor power on and comm power off ends with
      the motor off; a snapshot over the limits of a subsystem ends with that subsystem off, and the
      fault that was raised for it is latched. */
  lemma DaqOnlyLowers(c: Cell, info: SysInfo, now: real)
    requires Sound(c, now)
    ensures var d := ProcessDaq(c, info, now);
            && Lowered(c, d, now)
            && (MotorWithoutComm(info) ==> IsOff(d, MOTOR))
            && (forall kind | OverLimit(kind, info) :: IsOff(d, kind))
            && (forall kind, bit | bit in OverLimitBits(kind) && bit in DaqSubsystems(c, info, now).1 ::
                  IsOff(d, kind) && Latched(d, kind, bit))
  {
    hide DaqSubsystems, UpdateFaults, SubInv, Sound, Lowers, OverLimit, Remembers, Latched, OverLimitBits,
      MotorWithoutComm;
    var (d, f) := DaqSubsystems(c, info, now);
    SubsystemsLower(c, info, now);
    UpdateFaultsLowers(d, f, now);
    LoweredTrans(c, d, UpdateFaults(d, f, now), now);
    forall kind, bit | bit in OverLimitBits(kind) && bit in f
      ensures IsOff(d, kind) && Latched(UpdateFaults(d, f, now), kind, bit)
    {
      assert bit in OverLimitBits(kind) * f;
      TripIsLatched(d, f, kind, bit, now);
    }
  }

  lemma TripIsLatched(c: Cell, f: FaultBits, kind: PowerSystemType, bit: FaultPos, now: real)
    requires Sound(c, now) && bit in OverLimitBits(kind) && bit in f
    ensures Latched(UpdateFaults(c, f, now), kind, bit)
  {
    hide GoToSafeMode, FaultMgr.PowerUpdated, SubInv;
    FaultsValid(c, now);
    FaultMgr.ReportLatches(c.faults, f, CheckMask(kind), bit);
    SafeModeKeepsFaults(c.(faults := FaultMgr.PowerUpdated(c.faults, f).0), now);
  }

  lemma SafeModeKeepsFaults(c: Cell, now: real)
    ensures GoToSafeMode(c, now).faults == c.faults
  {}

  lemma FaultsValid(c: Cell, now: real)
    requires Sound(c, now)
    ensures FaultMgr.Valid(c.faults)
  {}

  /** A fault of the subsystem's mask that was reported and not reset. */
  predicate Latched(c: Cell, kind: PowerSystemType, bit: FaultPos) {
    bit in CheckMask(kind) && bit in MASK_FAULTS && bit in c.faults.power.summary
  }

  // ---- One event ----

  lemma TryOnSound(c: Cell, kind: PowerSystemType, now: real)
    requires Sound(c, now)
    ensures var (d, ok) := TryOn(c, kind, now);
            && Sound(d, now) && d.faults == c.faults && SubOf(d, Other(kind)) == SubOf(c, Other(kind))
            && d.port[Cfg(Other(kind)).powerOnPos] == c.port[Cfg(Other(kind)).powerOnPos]
            && (IsBlocked(c, kind) ==> !ok && IsOff(d, kind))
            && (!ok ==> IsOff(d, kind))
            && d.state == c.state
  {
    hide IsBlocked, FaultMgr.Valid, CrioReady;
  }

  lemma CommandSound(c: Cell, kind: PowerSystemType, on: bool, now: real)
    requires Sound(c, now)
    ensures var (d, ok) := CmdPower(c, kind, on, now);
            && Sound(d, now) && d.faults == c.faults && d.state == c.state
            && (forall k | IsOff(c, k) && !(on && k == kind) :: IsOff(d, k))
            && (on && IsBlocked(c, kind) ==> !ok)
            && (!ok && IsOff(c, kind) ==> IsOff(d, kind))
  {
    hide TurnOff, TryOn, SubInv, IsBlocked;
    TryOnSound(c, kind, now);
    TurnOffTurns(c, MOTOR, now);
    TurnOffTurns(c, COMM, now);
    TurnOffTurns(TurnOff(c, MOTOR, now), COMM, now);
  }

  lemma TimedOutLowers(c: Cell, now: real)
    requires Sound(c, now)
    ensures Lowered(c, TimedOut(c, now), now)
    ensures IsOff(TimedOut(c, now), MOTOR) && IsOff(TimedOut(c, now), COMM)
    ensures TimedOut(c, now).faults == FaultMgr.PowerUpdated(c.faults, {POWER_SYSTEM_TIMEOUT}).0
  {
    hide TurnOffAll, UpdateFaults, SubInv;
    TurnOffAllTurns(c, now);
    UpdateFaultsLowers(TurnOffAll(c, now), {POWER_SYSTEM_TIMEOUT}, now);
    LoweredTrans(c, TurnOffAll(c, now), TimedOut(c, now), now);
  }

  lemma ConnectionsLower(c: Cell, count: nat, now: real)
    requires Sound(c, now)
    ensures var d := ConnectionsReported(c, count, now);
            && Sound(d, now) && Lowers(c, d) && d.faults == FaultMgr.ConnectionsReported(c.faults, count)
            && (count == 0 ==> IsOff(d, MOTOR) && IsOff(d, COMM))
  {
    hide GoToSafeMode, SubInv;
    FaultMgr.EventsKeepValid(c.faults, {}, count);
    SafeModeTurns(c.(faults := FaultMgr.ConnectionsReported(c.faults, count)), now);
  }

  lemma PortWritesLower(c: Cell, enable: bool, now: real)
    requires Sound(c, now)
    ensures Lowered(c, EmergencyOff(c), now)
    ensures var d := c.(port := c.port[CRIO_INTERLOCK_ENABLE := enable]);
            Sound(d, now) && forall k :: IsOff(c, k) ==> IsOff(d, k)
  {}

  lemma DaqReadLowers(c: Cell, info: SysInfo, timedOut: bool, now: real)
    requires Sound(c, now)
    ensures Lowered(c, DaqRead(c, info, timedOut, now), now)
  {
    hide TimedOut, ProcessDaq, SubInv, Lowers, Sound;
    TimedOutLowers(c, now);
    var c1 := if timedOut then TimedOut(c, now) else c;
    DaqOnlyLowers(c1, info, now);
    if timedOut {
      LoweredTrans(c, c1, ProcessDaq(c1, info, now), now);
    }
  }

  /** A request to turn `kind` on that is carried out. */
  predicate OnCarriedOut(c: Cell, e: CellLogic.Event, kind: PowerSystemType) {
    match e
    case Command(k, on, now) => k == kind && on && CmdPower(c, k, on, now).1
    case SubsystemOn(k, now) => k == kind && TryOn(c, k, now).1
    case _ => false
  }

  /** The event withdraws a latched fault. */
  predicate Withdraws(e: CellLogic.Event, bit: FaultPos) { e.ResetFaults? && bit in e.mask }

  /** Every event keeps the controller sound, only a power-on request that is carried out ends a
      subsystem's being off, none is carried out while the subsystem is blocked, and a latched fault is
      forgotten only by a reset that covers it. */
  lemma NextKeeps(c: Cell, e: CellLogic.Event)
    requires Sound(c, e.now)
    ensures Sound(CellLogic.Next(c, e), e.now)
    ensures forall kind | IsOff(c, kind) && !OnCarriedOut(c, e, kind) :: IsOff(CellLogic.Next(c, e), kind)
    ensures forall kind | IsBlocked(c, kind) :: !OnCarriedOut(c, e, kind)
    ensures forall kind, bit | Latched(c, kind, bit) && !Withdraws(e, bit) :: Latched(CellLogic.Next(c, e), kind, bit)
    ensures e.Connections? || CellLogic.Next(c, e).faults.commFault == c.faults.commFault
  {
    hide SubInv, TurnOff, TryOn, CmdPower, DaqRead, ConnectionsReported, GoToSafeMode, ChangeState, EmergencyOff,
      IsBlocked;
    match e {
      case Command(kind, on, now) => CommandSound(c, kind, on, now);
      case SubsystemOn(kind, now) => TryOnSound(c, kind, now);
      case SubsystemOff(kind, now) => TurnOffTurns(c, kind, now);
      case Daq(info, timedOut, now) => DaqReadLowers(c, info, timedOut, now);
      case Connections(count, now) => ConnectionsLower(c, count, now);
      case ResetFaults(mask, now) => FaultMgr.EventsKeepValid(c.faults, mask, 0);
      case EnableFaults(mask, now) => FaultMgr.EventsKeepValid(c.faults, mask, 0);
      case ChangeSystemState(next, now) => ChangeStateTurns(c, next, now);
      case SafeMode(now) => SafeModeTurns(c, now);
      case FinishSetup(_) =>
      case Interlock(enable, now) => PortWritesLower(c, enable, now);
      case Emergency(now) => PortWritesLower(c, true, now);
    }
  }

  // ---- Runs ----

  /** The controller as constructed: both subsystems turned off, setup not finished. */
  function InitialCell(info: SysInfo, port: OutputPort, t: real): Cell {
    var motor := TurnedOff(InitialSub(MOTOR, info, t), port, {}, t);
    var comm := TurnedOff(InitialSub(COMM, info, t), motor.port, {}, t);
    Cell(motor.sub, comm.sub, comm.port, FaultMgr.INITIAL, STARTUPSTATE, false)
  }

  /** The controller at one moment of a run. */
  datatype Moment = Moment(cell: Cell, time: real)

  predicate Follows(m: Moment, e: CellLogic.Event, n: Moment) {
    m.time <= e.now && n == Moment(CellLogic.Next(m.cell, e), e.now)
  }

  predicate Starts(m: Moment, info: SysInfo, port: OutputPort) { m.cell == InitialCell(info, port, m.time) }

  ghost predicate IsRun(run: seq<Moment>, events: seq<CellLogic.Event>) {
    && |run| == |events| + 1
    && (exists info, port :: Starts(run[0], info, port))
    && (forall i | 0 <= i < |events| :: Follows(run[i], events[i], run[i + 1]))
  }

  /** Some run from the constructor reaches this controller at this time. */
  ghost predicate Reachable(m: Moment) {
    exists run, events :: IsRun(run, events) && run[|events|] == m
  }

  lemma StartIsReachable(m: Moment, info: SysInfo, port: OutputPort)
    requires Starts(m, info, port)
    ensures Reachable(m)
  {
    hide Starts, CellLogic.Next;
    var run: seq<Moment>, events: seq<CellLogic.Event> := [m], [];
    assert Starts(run[0], info, port);
    assert IsRun(run, events) && run[|events|] == m;
  }

  lemma NextIsReachable(m: Moment, e: CellLogic.Event)
    requires Reachable(m) && m.time <= e.now
    ensures Reachable(Moment(CellLogic.Next(m.cell, e), e.now))
  {
    hide CellLogic.Next, Starts;
    var run, events :| IsRun(run, events) && run[|events|] == m;
    var next := Moment(CellLogic.Next(m.cell, e), e.now);
    var longer, more := run + [next], events + [e];
    forall i | 0 <= i < |more|
      ensures Follows(longer[i], more[i], longer[i + 1])
    {
      if i < |events| { assert Follows(run[i], events[i], run[i + 1]); }
    }
    var info, port :| Starts(run[0], info, port);
    assert Starts(longer[0], info, port);
    assert IsRun(longer, more) && longer[|more|] == next;
  }

  lemma InitialIsSound(m: Moment, info: SysInfo, port: OutputPort)
    requires Starts(m, info, port)
    ensures Sound(m.cell, m.time)
  {}

  lemma {:induction false} RunIsSound(run: seq<Moment>, events: seq<CellLogic.Event>, i: nat)
    requires IsRun(run, events) && i < |run|
    ensures Sound(run[i].cell, run[i].time)
  {
    hide Sound, SubInv, Follows, Starts;
    if i == 0 {
      var info, port :| Starts(run[0], info, port);
      InitialIsSound(run[0], info, port);
    } else {
      RunIsSound(run, events, i - 1);
      NextIsSound(run[i - 1], events[i - 1], run[i]);
    }
  }

  lemma NextIsSound(m: Moment, e: CellLogic.Event, n: Moment)
    requires Sound(m.cell, m.time) && Follows(m, e, n)
    ensures Sound(n.cell, n.time)
  {
    hide SubInv, CellLogic.Next, IsBlocked, OnCarriedOut, IsOff, Latched;
    SoundLater(m.cell, m.time, e.now);
    NextKeeps(m.cell, e);
  }

  lemma CommFaultBlocks(c: Cell)
    ensures c.faults.commFault ==> IsBlocked(c, MOTOR) && IsBlocked(c, COMM)
  {}

  /** One step of a run, for one subsystem. */
  ghost predicate StepFacts(c: Cell, e: CellLogic.Event, d: Cell, kind: PowerSystemType) {
    && Sound(c, e.now) && d == CellLogic.Next(c, e)
    && (IsOff(c, kind) && !OnCarriedOut(c, e, kind) ==> IsOff(d, kind))
    && (IsBlocked(c, kind) ==> !OnCarriedOut(c, e, kind))
    && (e.Connections? || d.faults.commFault == c.faults.commFault)
  }

  lemma StepKeeps(run: seq<Moment>, events: seq<CellLogic.Event>, i: nat, kind: PowerSystemType)
    requires IsRun(run, events) && i < |events|
    ensures StepFacts(run[i].cell, events[i], run[i + 1].cell, kind)
    ensures CarriedOutAt(run, events, i, kind) <==> OnCarriedOut(run[i].cell, events[i], kind)
  {
    hide Sound, SubInv, CellLogic.Next, IsBlocked, OnCarriedOut, IsOff, Latched, Withdraws;
    RunIsSound(run, events, i);
    assert Follows(run[i], events[i], run[i + 1]);
    SoundLater(run[i].cell, run[i].time, events[i].now);
    NextKeeps(run[i].cell, events[i]);
  }

  lemma StepKeepsLatched(run: seq<Moment>, events: seq<CellLogic.Event>, i: nat, kind: PowerSystemType, bit: FaultPos)
    requires IsRun(run, events) && i < |events| && Latched(run[i].cell, kind, bit) && !Withdraws(events[i], bit)
    ensures Latched(run[i + 1].cell, kind, bit) && !CarriedOutAt(run, events, i, kind)
  {
    hide Sound, SubInv, CellLogic.Next, IsBlocked, OnCarriedOut, IsOff, Latched, Withdraws;
    RunIsSound(run, events, i);
    assert Follows(run[i], events[i], run[i + 1]);
    SoundLater(run[i].cell, run[i].time, events[i].now);
    LatchedBlocks(run[i].cell, kind, bit, events[i].now);
    NextKeeps(run[i].cell, events[i]);
  }

  lemma LatchedBlocks(c: Cell, kind: PowerSystemType, bit: FaultPos, now: real)
    requires Sound(c, now) && Latched(c, kind, bit)
    ensures IsBlocked(c, kind)
  {
    assert bit in CheckMask(kind) * c.faults.power.enableMask * (c.faults.power.current + c.faults.power.summary);
  }

  /** Step `k` of the run is a power-on request for `kind` that is carried out. */
  predicate CarriedOutAt(run: seq<Moment>, events: seq<CellLogic.Event>, k: int, kind: PowerSystemType) {
    0 <= k < |run| && k < |events| && OnCarriedOut(run[k].cell, events[k], kind)
  }

  /** Off stays off until a power-on request is carried out. */
  lemma {:induction false} OffUntilCarriedOut(run: seq<Moment>, events: seq<CellLogic.Event>,
                                             i: nat, j: nat, kind: PowerSystemType)
    requires IsRun(run, events) && |run| == |events| + 1 && i <= j < |run| && IsOff(run[i].cell, kind)
    requires forall k | i <= k < j :: !CarriedOutAt(run, events, k, kind)
    ensures IsOff(run[j].cell, kind)
  {
    hide IsRun, Sound, Follows, CellLogic.Next, IsBlocked, OnCarriedOut, CarriedOutAt, IsOff;
    if i < j {
      OffUntilCarriedOut(run, events, i, j - 1, kind);
      StepKeeps(run, events, j - 1, kind);
    }
  }

  /** While a fault of its mask is latched a subsystem that is off stays off, every power-on request
      for it is refused, and the fault stays latched, until a reset that covers the fault. */
  lemma {:induction false} LatchedStaysOff(run: seq<Moment>, events: seq<CellLogic.Event>,
                                          i: nat, j: nat, kind: PowerSystemType, bit: FaultPos)
    requires IsRun(run, events) && |run| == |events| + 1 && i <= j < |run|
    requires Latched(run[i].cell, kind, bit) && IsOff(run[i].cell, kind)
    requires forall k | i <= k < j :: !Withdraws(events[k], bit)
    ensures Latched(run[j].cell, kind, bit) && IsOff(run[j].cell, kind)
    ensures forall k | i <= k < j :: !CarriedOutAt(run, events, k, kind)
  {
    hide IsRun, Sound, Follows, CellLogic.Next, IsBlocked, OnCarriedOut, CarriedOutAt, IsOff, Latched, Withdraws;
    if i < j {
      LatchedStaysOff(run, events, i, j - 1, kind, bit);
      StepKeeps(run, events, j - 1, kind);
      StepKeepsLatched(run, events, j - 1, kind, bit);
    }
  }

  /** The controller when the snapshot of `e` is processed: after a time-out if there was one. */
  function AtDaq(c: Cell, e: CellLogic.Event): Cell
    requires e.Daq?
  {
    if e.timedOut then TimedOut(c, e.now) else c
  }

  lemma DaqAt(run: seq<Moment>, events: seq<CellLogic.Event>, i: nat)
    requires IsRun(run, events) && i < |events| && events[i].Daq?
    ensures var e := events[i]; var c := AtDaq(run[i].cell, e);
            Sound(c, e.now) && run[i + 1].cell == ProcessDaq(c, e.info, e.now)
  {
    hide Sound, ProcessDaq, TimedOut, SubInv, Lowers, Remembers;
    RunIsSound(run, events, i);
    assert Follows(run[i], events[i], run[i + 1]);
    SoundLater(run[i].cell, run[i].time, events[i].now);
    TimedOutLowers(run[i].cell, events[i].now);
  }

  /** A voltage or over-current trip in one snapshot keeps the subsystem off, and refuses every
      power-on request for it, until a reset that covers the fault it raised. */
  lemma TripStaysOff(run: seq<Moment>, events: seq<CellLogic.Event>,
                     i: nat, j: nat, kind: PowerSystemType, bit: FaultPos)
    requires IsRun(run, events) && |run| == |events| + 1 && i < j < |run|
    requires events[i].Daq? && bit in OverLimitBits(kind)
    requires bit in DaqSubsystems(AtDaq(run[i].cell, events[i]), events[i].info, events[i].now).1
    requires forall k | i < k < j :: !Withdraws(events[k], bit)
    ensures Latched(run[j].cell, kind, bit) && IsOff(run[j].cell, kind)
    ensures forall k | i < k < j :: !CarriedOutAt(run, events, k, kind)
  {
    hide IsRun, Sound, Follows, IsBlocked, OnCarriedOut, CarriedOutAt, IsOff, Latched, DaqSubsystems, OverLimitBits,
      ProcessDaq, AtDaq;
    DaqAt(run, events, i);
    DaqOnlyLowers(AtDaq(run[i].cell, events[i]), events[i].info, events[i].now);
    LatchedStaysOff(run, events, i + 1, j, kind, bit);
  }

  /** After a snapshot that shows motor power without comm power the motor stays off until a power-on
      request for it is carried out. */
  lemma MotorWithoutCommStaysOff(run: seq<Moment>, events: seq<CellLogic.Event>, i: nat, j: nat)
    requires IsRun(run, events) && |run| == |events| + 1 && i < j < |run|
    requires events[i].Daq? && MotorWithoutComm(events[i].info)
    requires forall k | i < k < j :: !CarriedOutAt(run, events, k, MOTOR)
    ensures IsOff(run[j].cell, MOTOR)
  {
    hide IsRun, Sound, Follows, IsBlocked, OnCarriedOut, CarriedOutAt, IsOff, ProcessDaq, DaqSubsystems, AtDaq;
    DaqAt(run, events, i);
    DaqOnlyLowers(AtDaq(run[i].cell, events[i]), events[i].info, events[i].now);
    OffUntilCarriedOut(run, events, i + 1, j, MOTOR);
  }

  /** After a report of no connections everything stays off, and every power-on request is refused,
      until a report of at least one connection. */
  lemma {:induction false} DisconnectedStaysOff(run: seq<Moment>, events: seq<CellLogic.Event>, i: nat, j: nat,
                                               kind: PowerSystemType)
    requires IsRun(run, events) && |run| == |events| + 1 && i < j < |run|
    requires events[i].Connections? && events[i].count == 0
    requires forall k | i < k < j && events[k].Connections? :: events[k].count == 0
    ensures run[j].cell.faults.commFault && IsOff(run[j].cell, kind)
    ensures forall k | i < k < j :: !CarriedOutAt(run, events, k, kind)
  {
    hide IsRun, Sound, Follows, CellLogic.Next, IsBlocked, OnCarriedOut, CarriedOutAt, IsOff;
    StepKeeps(run, events, j - 1, kind);
    CommFaultBlocks(run[j - 1].cell);
    if events[j - 1].Connections? {
      Disconnects(run[j - 1].cell, events[j - 1]);
    }
    if i < j - 1 {
      DisconnectedStaysOff(run, events, i, j - 1, kind);
    }
  }

  lemma Disconnects(c: Cell, e: CellLogic.Event)
    requires Sound(c, e.now) && e.Connections? && e.count == 0
    ensures var d := CellLogic.Next(c, e); d.faults.commFault && IsOff(d, MOTOR) && IsOff(d, COMM)
  {
    hide CellLogic.ConnectionsReported, Sound;
    ConnectionsLower(c, e.count, e.now);
  }
}
