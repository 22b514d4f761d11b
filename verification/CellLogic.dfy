/** The whole controller: both power subsystems, the output port, the fault records and the system
    state. Each function is one atomic call of the program. */
module CellLogic {
  import opened ControlDefs
  import opened FaultStatusBits
  import opened PowerLogic
  import opened SystemStates
  import FaultMgr

  datatype Cell = Cell(
    motor: Sub, comm: Sub, port: OutputPort, faults: FaultMgr.Faults, state: StateEnum, finished: bool)

  function SubOf(c: Cell, kind: PowerSystemType): Sub { if kind == MOTOR then c.motor else c.comm }

  function WithSub(c: Cell, kind: PowerSystemType, s: Sub, port: OutputPort): Cell {
    if kind == MOTOR then c.(motor := s, port := port) else c.(comm := s, port := port)
  }

  function TurnOff(c: Cell, kind: PowerSystemType, now: real): Cell {
    var o := TurnedOff(SubOf(c, kind), c.port, {}, now);
    WithSub(c, kind, o.sub, o.port)
  }

  function TurnOffAll(c: Cell, now: real): Cell { TurnOff(TurnOff(c, MOTOR, now), COMM, now) }

  /** Entering offline or startup turns all power off; entering the other states does not. */
  function ChangeState(c: Cell, next: StateEnum, now: real): Cell {
    if !Enters(c.state, next, c.finished) then c
    else if next == OFFLINESTATE || next == STARTUPSTATE then TurnOffAll(c.(state := next), now)
    else c.(state := next)
  }

  function GoToSafeMode(c: Cell, now: real): Cell {
    var off := TurnOffAll(c, now);
    ChangeState(off, SafeTarget(off.state, STANDBYSTATE), now)
  }

  predicate BothTargetsOff(c: Cell) { c.motor.targ == OFF && c.comm.targ == OFF }

  predicate AllOn(c: Cell) {
    c.comm.targ == ON && c.comm.actual == ON && c.motor.targ == ON && c.motor.actual == ON
  }

  /** `reportPowerSystemStateChange` */
  function Report(c: Cell, now: real): Cell {
    match c.state
    case STARTUPSTATE | OFFLINESTATE => if BothTargetsOff(c) then c else TurnOffAll(c, now)
    case IDLESTATE | INMOTIONSTATE | PAUSESTATE => if AllOn(c) then c else ChangeState(c, STANDBYSTATE, now)
    case STANDBYSTATE => if AllOn(c) then ChangeState(c, IDLESTATE, now) else c
  }

  /** `updatePowerFaults` */
  function UpdateFaults(c: Cell, current: FaultBits, now: real): Cell {
    var (faults, goSafe) := FaultMgr.PowerUpdated(c.faults, current);
    if goSafe then GoToSafeMode(c.(faults := faults), now) else c.(faults := faults)
  }

  predicate IsBlocked(c: Cell, kind: PowerSystemType) { FaultMgr.Blocked(c.faults, CheckMask(kind)) }

  /** `setPowerOn` of a subsystem, and its answer. */
  function TryOn(c: Cell, kind: PowerSystemType, now: real): (Cell, bool) {
    var s, blocked := SubOf(c, kind), IsBlocked(c, kind);
    var o := PowerOnTried(s, c.port, blocked, now);
    (WithSub(c, kind, o.sub, o.port), OnAccepted(s, blocked))
  }

  function PowerMotor(c: Cell, on: bool, now: real): (Cell, bool) {
    if !on then (TurnOff(c, MOTOR, now), true)
    else if c.comm.actual != ON then (c, false)
    else TryOn(c, MOTOR, now)
  }

  function PowerComm(c: Cell, on: bool, now: real): (Cell, bool) {
    if on then TryOn(c, COMM, now)
    else (TurnOff(if c.motor.actual != OFF then TurnOff(c, MOTOR, now) else c, COMM, now), true)
  }

  /** The power command of a client: only standby and idle carry it out. */
  function CmdPower(c: Cell, kind: PowerSystemType, on: bool, now: real): (Cell, bool) {
    if c.state != STANDBYSTATE && c.state != IDLESTATE then (c, false)
    else if kind == MOTOR then PowerMotor(c, on, now)
    else PowerComm(c, on, now)
  }

  /** `processDaq` of one subsystem up to taking the lock: snapshot, fault check and report. */
  function SubsystemSnapshot(c: Cell, kind: PowerSystemType, info: SysInfo, now: real): Cell {
    var o := Snapshot(SubOf(c, kind), c.port, info, IsBlocked(c, kind), now);
    var c1 := WithSub(c, kind, o.sub, o.port);
    var c2 := if Changed(o.sub) then Report(c1, now) else c1;
    WithSub(c2, kind, Noted(SubOf(c2, kind)), c2.port)
  }

  function SubsystemPass(c: Cell, kind: PowerSystemType, faults: FaultBits, now: real): (Cell, FaultBits) {
    var o := Pass(SubOf(c, kind), c.port, faults, now);
    (WithSub(c, kind, o.sub, o.port), o.faults)
  }

  // The boost current faults are enabled and nothing disables them.
  const BOOST_CURRENT_FAULT_ENABLED := true

  function HealthFaults(info: SysInfo): FaultBits {
    var input := info.inputPort;
    var powerLoadOk := InputBit(input, REDUNDANCY_OK) && InputBit(input, LOAD_DISTRIBUTION_OK);
    var boostOn := !InputBit(input, POWER_SUPPLY_1_CURRENT_OK) || !InputBit(input, POWER_SUPPLY_2_CURRENT_OK);
    var allDcOk := InputBit(input, POWER_SUPPLY_1_DC_OK) && InputBit(input, POWER_SUPPLY_2_DC_OK);
    (if powerLoadOk then {} else {POWER_SUPPLY_LOAD_SHARE_ERR})
    + (if allDcOk && !(BOOST_CURRENT_FAULT_ENABLED && boostOn) then {} else {POWER_HEALTH_FAULT})
  }

  predicate MotorWithoutComm(info: SysInfo) {
    info.outputPort[MOTOR_POWER_ON] && !info.outputPort[ILC_COMM_POWER_ON]
  }

  /** `_processDaq` up to the motor subsystem. */
  function DaqChecks(c: Cell, info: SysInfo, now: real): Cell {
    var health := HealthFaults(info);
    var c1 := if health == {} then c else UpdateFaults(c, health, now);
    if MotorWithoutComm(info) then TurnOff(c1, MOTOR, now) else c1
  }

  /** `_processDaq` up to the report of the faults, and the faults gathered. */
  function DaqSubsystems(c: Cell, info: SysInfo, now: real): (Cell, FaultBits) {
    var c1 := DaqChecks(c, info, now);
    var (c2, f2) := SubsystemPass(SubsystemSnapshot(c1, MOTOR, info, now), MOTOR, HealthFaults(info), now);
    SubsystemPass(SubsystemSnapshot(c2, COMM, info, now), COMM, f2, now)
  }

  function ProcessDaq(c: Cell, info: SysInfo, now: real): Cell {
    var (c1, faults) := DaqSubsystems(c, info, now);
    UpdateFaults(c1, faults, now)
  }

  /** `_checkTimeout` when the snapshots have stopped. */
  function TimedOut(c: Cell, now: real): Cell { UpdateFaults(TurnOffAll(c, now), {POWER_SYSTEM_TIMEOUT}, now) }

  /** `_daqInfoRead` and, when it finds a time-out, `_daqTimeoutCheck`. */
  function DaqRead(c: Cell, info: SysInfo, timedOut: bool, now: real): Cell {
    ProcessDaq(if timedOut then TimedOut(c, now) else c, info, now)
  }

  function ConnectionsReported(c: Cell, count: nat, now: real): Cell {
    var c1 := c.(faults := FaultMgr.ConnectionsReported(c.faults, count));
    if count < 1 then GoToSafeMode(c1, now) else c1
  }

  /** `_emergencyTurnOffAllPower` */
  function EmergencyOff(c: Cell): Cell {
    c.(port := c.port[MOTOR_POWER_ON := false][ILC_COMM_POWER_ON := false])
  }

  datatype Event =
    | Command(kind: PowerSystemType, on: bool, now: real)       // a client's power command
    | SubsystemOn(kind: PowerSystemType, now: real)             // setPowerOn called directly
    | SubsystemOff(kind: PowerSystemType, now: real)
    | Daq(info: SysInfo, timedOut: bool, now: real)
    | Connections(count: nat, now: real)
    | ResetFaults(mask: FaultBits, now: real)
    | EnableFaults(mask: FaultBits, now: real)
    | ChangeSystemState(next: StateEnum, now: real)
    | SafeMode(now: real)
    | FinishSetup(now: real)
    | Interlock(enable: bool, now: real)
    | Emergency(now: real)

  function Next(c: Cell, e: Event): Cell {
    match e
    case Command(kind, on, now) => CmdPower(c, kind, on, now).0
    case SubsystemOn(kind, now) => TryOn(c, kind, now).0
    case SubsystemOff(kind, now) => TurnOff(c, kind, now)
    case Daq(info, timedOut, now) => DaqRead(c, info, timedOut, now)
    case Connections(count, now) => ConnectionsReported(c, count, now)
    case ResetFaults(mask, _) => c.(faults := FaultMgr.AllReset(c.faults, mask))
    case EnableFaults(mask, _) => c.(faults := FaultMgr.AllEnabled(c.faults, mask))
    case ChangeSystemState(next, now) => ChangeState(c, next, now)
    case SafeMode(now) => GoToSafeMode(c, now)
    case FinishSetup(_) => c.(finished := true)
    case Interlock(enable, _) => c.(port := c.port[CRIO_INTERLOCK_ENABLE := enable])
    case Emergency(_) => EmergencyOff(c)
  }
}
