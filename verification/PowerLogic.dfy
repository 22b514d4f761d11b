/** The control law of one power subsystem, as functions from its state, the output port and the
    faults gathered so far to their new values. `now` is the clock reading of the call. */
module PowerLogic {
  import opened ControlDefs
  import opened FaultStatusBits

  /** Configuration of a subsystem: seconds, volts and amps. */
  datatype Config = Config(
    outputOnMaxDelay: real, outputOffMaxDelay: real, resetBreakerPulseWidth: real,
    breakerOnTime: real, breakerOperatingVoltage: real, breakerOperatingVoltageRiseTime: real,
    voltageSettlingTime: real, nominalVoltage: real,
    minVoltageWarn: real, maxVoltageWarn: real, minVoltageFault: real, maxVoltageFault: real,
    voltageOffLevel: real, maxCurrent: real,
    powerOnPos: OutputPos, breakerPos: OutputPos, subsystemFaultMask: FaultBits,
    voltageFault: FaultPos, voltageWarn: FaultPos, excessiveCurrent: FaultPos,
    relayFault: FaultPos, breakerFault: FaultPos, breakerWarn: FaultPos, relayInUse: FaultPos)

  const MOTOR_CONFIG := Config(
    0.050 + 0.5 + 0.050, 0.030 + 0.050, 0.400, 0.5, 19.0, 0.085, 0.020, 24.0,
    24.0 * 0.95, 24.0 * 1.05, 24.0 * 0.90, 24.0 * 1.10, 12.0, 20.0,
    MOTOR_POWER_ON, RESET_MOTOR_BREAKERS, MASK_MOTOR_SUBSYSTEM,
    MOTOR_VOLTAGE_FAULT, MOTOR_VOLTAGE_WARN, MOTOR_OVER_CURRENT,
    POWER_RELAY_OPEN_FAULT, MOTOR_MULTI_BREAKER_FAULT, SINGLE_BREAKER_TRIP, MOTOR_RELAY)

  const COMM_CONFIG := Config(
    0.050 + 0.5, 0.030, 0.400, 0.5, 19.0, 0.030, 0.020, 24.0,
    24.0 * 0.95, 24.0 * 1.05, 24.0 * 0.90, 24.0 * 1.10, 12.0, 10.0,
    ILC_COMM_POWER_ON, RESET_COMM_BREAKERS, MASK_COMM_SUBSYSTEM,
    COMM_VOLTAGE_FAULT, COMM_VOLTAGE_WARN, COMM_OVER_CURRENT,
    POWER_RELAY_OPEN_FAULT, COMM_MULTI_BREAKER_FAULT, SINGLE_BREAKER_TRIP, COMM_RELAY)

  function Cfg(kind: PowerSystemType): Config {
    if kind == MOTOR then MOTOR_CONFIG else COMM_CONFIG
  }

  /** The input bits of one breaker feed. */
  datatype Feed = Feed(bit0: int, bit1: int, bit2: int)

  function Feeds(kind: PowerSystemType): seq<Feed> {
    if kind == MOTOR then [Feed(6, 7, 8), Feed(9, 10, 11), Feed(12, 13, 14)]
    else [Feed(15, 24, ALWAYS_HIGH), Feed(25, 26, ALWAYS_HIGH), Feed(27, 28, ALWAYS_HIGH)]
  }

  function FeedStatus(feed: Feed, input: InputPort): SysStatus {
    var count := (if InputBit(input, feed.bit0) then 1 else 0) + (if InputBit(input, feed.bit1) then 1 else 0)
                 + (if InputBit(input, feed.bit2) then 1 else 0);
    if count == 3 then GOOD else if count == 2 then WARN else FAULT
  }

  /** The worst status of the feeds. */
  function BreakerStatus(kind: PowerSystemType, input: InputPort): SysStatus {
    var feeds := Feeds(kind);
    var s0, s1, s2 := FeedStatus(feeds[0], input), FeedStatus(feeds[1], input), FeedStatus(feeds[2], input);
    if s0 == FAULT || s1 == FAULT || s2 == FAULT then FAULT
    else if s0 == WARN || s1 == WARN || s2 == WARN then WARN
    else GOOD
  }

  /** The state of a subsystem. */
  datatype Sub = Sub(
    kind: PowerSystemType, info: SysInfo,
    onStart: real, offStart: real, phase: int, phaseStart: real, telemCounter: int,
    targ: PowerState, actual: PowerState, targPrev: PowerState, actualPrev: PowerState)

  function Voltage(s: Sub): real { if s.kind == MOTOR then s.info.motorVoltage else s.info.commVoltage }
  function Current(s: Sub): real { if s.kind == MOTOR then s.info.motorCurrent else s.info.commCurrent }

  predicate RelayOn(s: Sub) { s.info.outputPort[Cfg(s.kind).powerOnPos] }
  predicate CrioReady(s: Sub) { s.kind == COMM || s.info.outputPort[CRIO_INTERLOCK_ENABLE] }
  predicate InterlockRelayOn(s: Sub) { s.kind == COMM || !InputBit(s.info.inputPort, INTERLOCK_POWER_RELAY) }
  predicate OutputIsOn(s: Sub) { RelayOn(s) && CrioReady(s) && InterlockRelayOn(s) }

  /** The faults that keep a subsystem from being turned on: its mask without the breaker fault. */
  function CheckMask(kind: PowerSystemType): FaultBits {
    Cfg(kind).subsystemFaultMask - {Cfg(kind).breakerFault}
  }

  /** The result of a step: new state, new output port, new set of faults. */
  datatype Out = Out(sub: Sub, port: OutputPort, faults: FaultBits)

  /** `_setPowerOff` */
  function TurnedOff(s: Sub, port: OutputPort, faults: FaultBits, now: real): Out {
    Out(if s.targ == OFF then s else s.(targ := OFF, phase := 1, offStart := now, phaseStart := now),
        port[Cfg(s.kind).breakerPos := true][Cfg(s.kind).powerOnPos := false], faults)
  }

  /** `_setPowerOn` once nothing forbids it. */
  function TurnedOn(s: Sub, port: OutputPort, now: real): Out {
    Out(s.(targ := ON, phase := 1, onStart := now, phaseStart := now, telemCounter := 0),
        port[Cfg(s.kind).breakerPos := true][Cfg(s.kind).powerOnPos := true], {})
  }

  predicate OnAccepted(s: Sub, blocked: bool) { !blocked && CrioReady(s) }

  /** `_setPowerOn`, where `blocked` is the answer of the fault manager. */
  function PowerOnTried(s: Sub, port: OutputPort, blocked: bool, now: real): Out {
    if OnAccepted(s, blocked) then TurnedOn(s, port, now) else TurnedOff(s, port, {}, now)
  }

  /** `_updateFaults`: the voltage is too low where it should be up. */
  function LowVoltage(s: Sub, port: OutputPort, faults: FaultBits, now: real): Out {
    TurnedOff(s, port, faults + {Cfg(s.kind).voltageFault, HARDWARE_FAULT}, now)
  }

  /** `_checkForPowerOnBreakerFault`: the second result is true when power was turned off. */
  function BreakersChecked(s: Sub, port: OutputPort, faults: FaultBits, now: real): (Out, bool) {
    if Voltage(s) < Cfg(s.kind).breakerOperatingVoltage then (LowVoltage(s, port, faults, now), true)
    else
      match BreakerStatus(s.kind, s.info.inputPort)
      case GOOD => (Out(s, port, faults), false)
      case FAULT => (TurnedOff(s, port, faults + {Cfg(s.kind).breakerFault}, now), true)
      case _ => (Out(s, port, faults + {Cfg(s.kind).breakerWarn}), false)
  }

  /** A pass while the subsystem is on. */
  function OnPass(s: Sub, port: OutputPort, faults: FaultBits, now: real): Out {
    var cfg := Cfg(s.kind);
    if !OutputIsOn(s) then TurnedOff(s, port, faults, now)
    else
      var (checked, broken) := BreakersChecked(s, port, faults, now);
      if broken then checked
      else if s.phase <= 1 then
        if now - s.phaseStart > cfg.voltageSettlingTime - cfg.breakerOperatingVoltageRiseTime
        then checked.(sub := s.(phase := 2, phaseStart := now)) else checked
      else if s.phase == 2 then
        var warned := checked.faults + (if Voltage(s) < cfg.minVoltageWarn then {cfg.voltageWarn} else {});
        if Voltage(s) < cfg.minVoltageFault then TurnedOff(s, port, warned + {cfg.voltageFault}, now)
        else checked.(faults := warned)
      else checked
  }

  /** Phase 3 of turning on: the voltage should be up and the breakers readable. */
  function TurningOnEnd(s: Sub, port: OutputPort, faults: FaultBits, now: real): Out {
    if Voltage(s) < Cfg(s.kind).breakerOperatingVoltage then LowVoltage(s, port, faults, now)
    else if BreakerStatus(s.kind, s.info.inputPort) == GOOD
    then Out(s.(actual := ON, phase := 1, phaseStart := now), port, faults)
    else Out(s.(actual := RESET, phase := 1, phaseStart := now), port[Cfg(s.kind).breakerPos := false], faults)
  }

  /** A pass while the subsystem is turning on. The time in phase is read before the tenth
      telemetry pass restarts it. */
  function TurningOnPass(s: Sub, port: OutputPort, faults: FaultBits, now: real): Out {
    var timeInPhase := now - s.phaseStart;
    var s1 := if s.phase != 1 then s
              else if s.telemCounter + 1 >= 10
              then s.(telemCounter := s.telemCounter + 1, phase := 2, phaseStart := now)
              else s.(telemCounter := s.telemCounter + 1);
    if s1.phase > 1 && !OutputIsOn(s1) then TurnedOff(s1, port, faults, now)
    else if s1.phase == 2 && timeInPhase <= Cfg(s.kind).outputOnMaxDelay then Out(s1, port, faults)
    else if s1.phase == 2 then TurningOnEnd(s1.(phase := 3, phaseStart := now), port, faults, now)
    else if s1.phase >= 3 then TurningOnEnd(s1, port, faults, now)
    else Out(s1, port, faults)
  }

  /** A pass while the breakers are being reset. */
  function ResetPass(s: Sub, port: OutputPort, faults: FaultBits, now: real): Out {
    var cfg := Cfg(s.kind);
    var timeInPhase := now - s.phaseStart;
    if !OutputIsOn(s) then TurnedOff(s, port, faults, now)
    else if Voltage(s) < cfg.breakerOperatingVoltage then LowVoltage(s, port, faults, now)
    else if timeInPhase <= cfg.resetBreakerPulseWidth then Out(s, port, faults)
    else
      var restored := port[cfg.breakerPos := true];
      if timeInPhase <= cfg.resetBreakerPulseWidth * 2.0 then Out(s, restored, faults)
      else
        var (checked, broken) := BreakersChecked(s, restored, faults, now);
        if broken then checked else checked.(sub := s.(actual := ON, phaseStart := now))
  }

  /** `_processPowerOn` */
  function PowerOnPass(s: Sub, port: OutputPort, faults: FaultBits, now: real): Out {
    var cfg := Cfg(s.kind);
    var f := if RelayOn(s) && CrioReady(s) && !InterlockRelayOn(s) then faults + {INTERLOCK_FAULT} else faults;
    if Voltage(s) > cfg.maxVoltageFault then TurnedOff(s, port, f + {cfg.voltageFault}, now)
    else
      var g := if Voltage(s) > cfg.maxVoltageWarn then f + {cfg.voltageWarn} else f;
      if Current(s) > cfg.maxCurrent then TurnedOff(s, port, g + {cfg.excessiveCurrent}, now)
      else
        match s.actual
        case ON => OnPass(s, port, g, now)
        case OFF | TURNING_OFF =>
          TurningOnPass(s.(actual := TURNING_ON, phase := 1, phaseStart := now), port, g, now)
        case TURNING_ON => TurningOnPass(s, port, g, now)
        case RESET => ResetPass(s, port, g, now)
        case UNKNOWN => TurnedOff(s, port, g, now)
  }

  /** The last part of `_processPowerOff`, where the program means to wait for the voltage to fall. */
  function FallingPass(s: Sub, port: OutputPort, faults: FaultBits, now: real): Out {
    if Voltage(s) < Cfg(s.kind).voltageOffLevel then Out(s.(actual := OFF, phaseStart := now), port, faults)
    else if now - s.phaseStart > Cfg(s.kind).outputOffMaxDelay
    then TurnedOff(s, port, faults + {Cfg(s.kind).relayFault, Cfg(s.kind).relayInUse}, now)
    else Out(s, port, faults)
  }

  /** `_processPowerOff` */
  function PowerOffPass(s: Sub, port: OutputPort, faults: FaultBits, now: real): Out {
    if RelayOn(s) then TurnedOff(s, port, faults, now)
    else
      match s.actual
      case OFF => Out(s, port, faults)
      case TURNING_OFF => FallingPass(s, port, faults, now)
      case _ =>
        var off := TurnedOff(s, port, faults, now);
        FallingPass(off.sub.(phaseStart := now), off.port, faults, now)
  }

  /** First part of `processDaq`: keep the snapshot, and turn off if the fault manager has a fault. */
  function Snapshot(s: Sub, port: OutputPort, info: SysInfo, blocked: bool, now: real): Out {
    var s1 := s.(info := info);
    if blocked then TurnedOff(s1, port, {}, now) else Out(s1, port, {})
  }

  /** The change that is reported to the model before the pass. */
  predicate Changed(s: Sub) { s.targPrev != s.targ || s.actualPrev != s.actual }
  function Noted(s: Sub): Sub { s.(targPrev := s.targ, actualPrev := s.actual) }

  /** Last part of `processDaq`, under the lock. */
  function Pass(s: Sub, port: OutputPort, faults: FaultBits, now: real): Out {
    match s.targ
    case ON => PowerOnPass(s, port, faults, now)
    case OFF => PowerOffPass(s, port, faults, now)
    case _ =>
      var off := TurnedOff(s, port, faults, now);
      PowerOffPass(off.sub, off.port, faults, now)
  }

  function InitialSub(kind: PowerSystemType, info: SysInfo, t: real): Sub {
    Sub(kind, info, t, t, 1, t, 0, OFF, UNKNOWN, UNKNOWN, UNKNOWN)
  }
}
