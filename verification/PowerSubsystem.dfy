/** One power subsystem as an object, its methods proved to be the functions of `PowerLogic`. */
module PowerSubsystem {
  import opened ControlDefs
  import opened FaultStatusBits
  import opened PowerLogic
  import FaultMgr

  /** The output port that is written to the hardware, and the latest snapshot read from it. */
  class FpgaIo {
    var outputPort: OutputPort
    var sysInfo: SysInfo

    constructor (port: OutputPort, info: SysInfo)
      ensures outputPort == port && sysInfo == info
    {
      outputPort, sysInfo := port, info;
    }

    /** Sets one bit and no other. */
    method WriteOutputPortBitPos(pos: OutputPos, set_: bool)
      modifies this`outputPort
      ensures outputPort == old(outputPort)[pos := set_]
    {
      outputPort := outputPort[pos := set_];
    }

    /** Lowers both power bits and touches no other. */
    method EmergencyTurnOffAllPower()
      modifies this`outputPort
      ensures outputPort == old(outputPort)[MOTOR_POWER_ON := false][ILC_COMM_POWER_ON := false]
    {
      WriteOutputPortBitPos(MOTOR_POWER_ON, false);
      WriteOutputPortBitPos(ILC_COMM_POWER_ON, false);
    }
  }

  class PowerSubsystem {
    const systemType: PowerSystemType
    const fpgaIo: FpgaIo
    const faultMgr: FaultMgr.FaultMgr
    var sysInfo: SysInfo
    var powerOnStart: real
    var powerOffStart: real
    var phase: int
    var phaseStartTime: real
    var telemCounter: int
    var targPowerState: PowerState
    var actualPowerState: PowerState
    var targPowerStatePrev: PowerState
    var actualPowerStatePrev: PowerState

    function View(): Sub
      reads this
    {
      Sub(systemType, sysInfo, powerOnStart, powerOffStart, phase, phaseStartTime, telemCounter,
          targPowerState, actualPowerState, targPowerStatePrev, actualPowerStatePrev)
    }

    /** The subsystem starts with its power turned off, at time `now`. */
    constructor (kind: PowerSystemType, io: FpgaIo, faults: FaultMgr.FaultMgr, info: SysInfo, now: real)
      modifies io`outputPort
      ensures systemType == kind && fpgaIo == io && faultMgr == faults
      ensures var o := TurnedOff(InitialSub(kind, info, now), old(io.outputPort), {}, now);
              View() == o.sub && io.outputPort == o.port
    {
      systemType, fpgaIo, faultMgr := kind, io, faults;
      sysInfo := info;
      powerOnStart, powerOffStart, phaseStartTime := now, now, now;
      phase, telemCounter := 1, 0;
      targPowerState, actualPowerState := OFF, UNKNOWN;
      targPowerStatePrev, actualPowerStatePrev := UNKNOWN, UNKNOWN;
      new;
      SetPowerOff(now);
    }

    /** `_setPowerOff` */
    method SetPowerOff(now: real)
      modifies this, fpgaIo`outputPort
      ensures var o := TurnedOff(old(View()), old(fpgaIo.outputPort), {}, now);
              View() == o.sub && fpgaIo.outputPort == o.port
    {
      fpgaIo.WriteOutputPortBitPos(Cfg(systemType).breakerPos, true);
      fpgaIo.WriteOutputPortBitPos(Cfg(systemType).powerOnPos, false);
      if targPowerState != OFF {
        targPowerState := OFF;
        phase := 1;
        powerOffStart := now;
        phaseStartTime := powerOffStart;
      }
    }

    /** `_checkForFaults`: the breaker fault does not count. */
    method CheckForFaults() returns (found: bool)
      ensures found == FaultMgr.Blocked(faultMgr.View(), CheckMask(systemType))
    {
      var mask := Cfg(systemType).subsystemFaultMask - {Cfg(systemType).breakerFault};
      found := faultMgr.CheckForPowerSubsystemFaults(mask);
    }

    /** `_setPowerOn` */
    method SetPowerOn(now: real) returns (ok: bool)
      modifies this, fpgaIo`outputPort
      ensures var blocked := FaultMgr.Blocked(faultMgr.View(), CheckMask(systemType));
              var o := PowerOnTried(old(View()), old(fpgaIo.outputPort), blocked, now);
              View() == o.sub && fpgaIo.outputPort == o.port && ok == OnAccepted(old(View()), blocked)
    {
      hide FaultMgr.Blocked;
      var faults := CheckForFaults();
      if faults {
        SetPowerOff(now);
        return false;
      }
      if !CrioReady(View()) {
        SetPowerOff(now);
        return false;
      }
      fpgaIo.WriteOutputPortBitPos(Cfg(systemType).breakerPos, true);
      fpgaIo.WriteOutputPortBitPos(Cfg(systemType).powerOnPos, true);
      targPowerState := ON;
      phase := 1;
      powerOnStart := now;
      phaseStartTime := powerOnStart;
      telemCounter := 0;
      return true;
    }

    /** `_powerShouldBeOn`: an open interlock is a fault where power should be on. */
    method PowerShouldBeOn(faultsSet: FaultBits) returns (on: bool, faults: FaultBits)
      ensures on == OutputIsOn(View())
      ensures faults == if RelayOn(View()) && CrioReady(View()) && !InterlockRelayOn(View())
                        then faultsSet + {INTERLOCK_FAULT} else faultsSet
    {
      if RelayOn(View()) && CrioReady(View()) {
        if InterlockRelayOn(View()) {
          return true, faultsSet;
        }
        return false, faultsSet + {INTERLOCK_FAULT};
      }
      return false, faultsSet;
    }

    /** `_updateFaults` */
    method UpdateFaults(faultsSet: FaultBits, now: real) returns (faults: FaultBits)
      modifies this, fpgaIo`outputPort
      ensures Out(View(), fpgaIo.outputPort, faults) == LowVoltage(old(View()), old(fpgaIo.outputPort), faultsSet, now)
    {
      faults := faultsSet + {Cfg(systemType).voltageFault};
      faults := faults + {HARDWARE_FAULT};
      assert faults == faultsSet + {Cfg(systemType).voltageFault, HARDWARE_FAULT};
      SetPowerOff(now);
    }

    /** `_checkForPowerOnBreakerFault` */
    method CheckForPowerOnBreakerFault(faultsSet: FaultBits, now: real) returns (broken: bool, faults: FaultBits)
      modifies this, fpgaIo`outputPort
      ensures (Out(View(), fpgaIo.outputPort, faults), broken)
           == BreakersChecked(old(View()), old(fpgaIo.outputPort), faultsSet, now)
    {
      hide BreakerStatus;
      faults := faultsSet;
      if Voltage(View()) >= Cfg(systemType).breakerOperatingVoltage {
        var status := BreakerStatus(systemType, sysInfo.inputPort);
        BreakerStatusRange(systemType, sysInfo.inputPort);
        if status == GOOD {
          return false, faults;
        }
        if status.Rank() <= FAULT.Rank() {
          faults := faults + {Cfg(systemType).breakerFault};
          SetPowerOff(now);
          return true, faults;
        }
        faults := faults + {Cfg(systemType).breakerWarn};
        return false, faults;
      }
      faults := UpdateFaults(faults, now);
      return true, faults;
    }

    /** The case of `_processPowerOn` for a subsystem that is ON. */
    method ProcessWhileOn(outputIsOn: bool, faultsSet: FaultBits, now: real) returns (faults: FaultBits)
      requires outputIsOn == OutputIsOn(View())
      modifies this, fpgaIo`outputPort
      ensures Out(View(), fpgaIo.outputPort, faults) ==
              OnPass(old(View()), old(fpgaIo.outputPort), faultsSet, now)
    {
      hide BreakerStatus;
      var cfg, voltage := Cfg(systemType), Voltage(View());
      faults := faultsSet;
      if !outputIsOn {
        SetPowerOff(now);
        return;
      }
      var broken;
      broken, faults := CheckForPowerOnBreakerFault(faults, now);
      if broken {
        SetPowerOff(now);
        return;
      }
      if phase <= 1 {
        if now - phaseStartTime > cfg.voltageSettlingTime - cfg.breakerOperatingVoltageRiseTime {
          phase := 2;
          phaseStartTime := now;
        }
      } else if phase == 2 {
        if voltage < cfg.minVoltageWarn {
          faults := faults + {cfg.voltageWarn};
        }
        if voltage < cfg.minVoltageFault {
          faults := faults + {cfg.voltageFault};
          SetPowerOff(now);
        }
      }
    }

    /** The case for a subsystem that is turning on. */
    method ProcessTurningOn(outputIsOn: bool, faultsSet: FaultBits, now: real) returns (faults: FaultBits)
      requires outputIsOn == OutputIsOn(View())
      modifies this, fpgaIo`outputPort
      ensures Out(View(), fpgaIo.outputPort, faults) ==
              TurningOnPass(old(View()), old(fpgaIo.outputPort), faultsSet, now)
    {
      hide BreakerStatus;
      var cfg, voltage := Cfg(systemType), Voltage(View());
      faults := faultsSet;
      var timeSincePhaseStartInSec := now - phaseStartTime;
      if phase == 1 {
        telemCounter := telemCounter + 1;
        if telemCounter >= 10 {
          phase := 2;
          phaseStartTime := now;
        }
      }
      if phase > 1 && !outputIsOn {
        SetPowerOff(now);
        return;
      }
      if phase == 2 {
        if timeSincePhaseStartInSec > cfg.outputOnMaxDelay {
          phase := 3;
          phaseStartTime := now;
        } else {
          return;
        }
      }
      if phase >= 3 {
        if voltage < cfg.breakerOperatingVoltage {
          faults := UpdateFaults(faults, now);
          return;
        }
        var breakerStatus := BreakerStatus(systemType, sysInfo.inputPort);
        if breakerStatus == GOOD {
          actualPowerState := ON;
          phase := 1;
          phaseStartTime := now;
        } else {
          actualPowerState := RESET;
          phaseStartTime := now;
          phase := 1;
          fpgaIo.WriteOutputPortBitPos(cfg.breakerPos, false);
        }
      }
    }

    /** The case for a subsystem whose breakers are being reset. */
    method ProcessReset(outputIsOn: bool, faultsSet: FaultBits, now: real) returns (faults: FaultBits)
      requires outputIsOn == OutputIsOn(View())
      modifies this, fpgaIo`outputPort
      ensures Out(View(), fpgaIo.outputPort, faults) ==
              ResetPass(old(View()), old(fpgaIo.outputPort), faultsSet, now)
    {
      hide BreakerStatus;
      var cfg := Cfg(systemType);
      faults := faultsSet;
      if !outputIsOn {
        fpgaIo.WriteOutputPortBitPos(cfg.breakerPos, true);
        SetPowerOff(now);
        return;
      }
      if Voltage(View()) < cfg.breakerOperatingVoltage {
        faults := UpdateFaults(faults, now);
        return;
      }
      var timeSincePhaseStartInSec := now - phaseStartTime;
      if timeSincePhaseStartInSec > cfg.resetBreakerPulseWidth {
        fpgaIo.WriteOutputPortBitPos(cfg.breakerPos, true);
        if timeSincePhaseStartInSec > cfg.resetBreakerPulseWidth * 2.0 {
          var broken;
          broken, faults := CheckForPowerOnBreakerFault(faults, now);
          if broken {
            return;
          }
          actualPowerState := ON;
          phaseStartTime := now;
        }
      }
    }

    /** `_processPowerOn` */
    method ProcessPowerOn(faultsSet: FaultBits, now: real) returns (faults: FaultBits)
      modifies this, fpgaIo`outputPort
      ensures Out(View(), fpgaIo.outputPort, faults) ==
              PowerOnPass(old(View()), old(fpgaIo.outputPort), faultsSet, now)
    {
      hide OnPass, TurningOnPass, ResetPass;
      var cfg, voltage := Cfg(systemType), Voltage(View());
      var outputIsOn;
      outputIsOn, faults := PowerShouldBeOn(faultsSet);
      if voltage > cfg.maxVoltageFault {
        faults := faults + {cfg.voltageFault};
        SetPowerOff(now);
        return;
      }
      if voltage > cfg.maxVoltageWarn {
        faults := faults + {cfg.voltageWarn};
      }
      if Current(View()) > cfg.maxCurrent {
        faults := faults + {cfg.excessiveCurrent};
        SetPowerOff(now);
        return;
      }
      match actualPowerState {
        case ON =>
          faults := ProcessWhileOn(outputIsOn, faults, now);
        case OFF | TURNING_OFF =>
          actualPowerState := TURNING_ON;
          phase := 1;
          phaseStartTime := now;
          faults := ProcessTurningOn(outputIsOn, faults, now);
        case TURNING_ON =>
          faults := ProcessTurningOn(outputIsOn, faults, now);
        case RESET =>
          faults := ProcessReset(outputIsOn, faults, now);
        case UNKNOWN =>
          SetPowerOff(now);
      }
    }

    /** `_processPowerOff` */
    method ProcessPowerOff(faultsSet: FaultBits, now: real) returns (faults: FaultBits)
      modifies this, fpgaIo`outputPort
      ensures Out(View(), fpgaIo.outputPort, faults) ==
              PowerOffPass(old(View()), old(fpgaIo.outputPort), faultsSet, now)
    {
      var cfg := Cfg(systemType);
      faults := faultsSet;
      if RelayOn(View()) {
        SetPowerOff(now);
        return;
      }
      if actualPowerState == OFF {
        return;
      }
      if actualPowerState != TURNING_OFF {
        SetPowerOff(now);
        phaseStartTime := now;
      }
      if Voltage(View()) < cfg.voltageOffLevel {
        actualPowerState := OFF;
        phaseStartTime := now;
      } else {
        if now - phaseStartTime > cfg.outputOffMaxDelay {
          faults := faults + {cfg.relayFault};
          faults := faults + {cfg.relayInUse};
          assert faults == faultsSet + {cfg.relayFault, cfg.relayInUse};
          SetPowerOff(now);
        }
      }
    }

    /** `processDaq` up to the report: `changed` asks for one. */
    method TakeSnapshot(info: SysInfo, now: real) returns (changed: bool)
      modifies this, fpgaIo`outputPort
      ensures var blocked := FaultMgr.Blocked(faultMgr.View(), CheckMask(systemType));
              var o := Snapshot(old(View()), old(fpgaIo.outputPort), info, blocked, now);
              View() == o.sub && fpgaIo.outputPort == o.port && changed == Changed(o.sub)
    {
      hide FaultMgr.Blocked;
      sysInfo := info;
      var systemFaults := CheckForFaults();
      if systemFaults {
        SetPowerOff(now);
      }
      changed := targPowerStatePrev != targPowerState || actualPowerStatePrev != actualPowerState;
    }

    /** `processDaq` after the report. */
    method NoteStates()
      modifies this`targPowerStatePrev, this`actualPowerStatePrev
      ensures View() == Noted(old(View()))
    {
      targPowerStatePrev := targPowerState;
      actualPowerStatePrev := actualPowerState;
    }

    /** The locked part of `processDaq`. The program always answers FAULT. */
    method ProcessPass(faultsSet: FaultBits, now: real) returns (status: SysStatus, faults: FaultBits)
      modifies this, fpgaIo`outputPort
      ensures Out(View(), fpgaIo.outputPort, faults) == Pass(old(View()), old(fpgaIo.outputPort), faultsSet, now)
      ensures status == FAULT
    {
      hide PowerOnPass, PowerOffPass;
      match targPowerState {
        case ON =>
          faults := ProcessPowerOn(faultsSet, now);
        case OFF =>
          faults := ProcessPowerOff(faultsSet, now);
        case _ =>
          SetPowerOff(now);
          faults := ProcessPowerOff(faultsSet, now);
      }
      status := FAULT;
    }
  }

  lemma BreakerStatusRange(kind: PowerSystemType, input: InputPort)
    ensures BreakerStatus(kind, input) in {GOOD, WARN, FAULT}
  {}
}
