/** The model of the whole cell and its power system as objects. Calls that the program makes through
    its global context are calls on these objects; each is proved to be the function of `CellLogic`. */
module Model {
  import opened ControlDefs
  import opened FaultStatusBits
  import opened PowerLogic
  import opened SystemStates
  import opened CellLogic
  import CellSafety
  import FaultMgr
  import PowerSubsystem

  class Model {
    const stateMap: StateMap
    const motor: PowerSubsystem.PowerSubsystem
    const comm: PowerSubsystem.PowerSubsystem
    const fpgaIo: PowerSubsystem.FpgaIo
    const faultMgr: FaultMgr.FaultMgr
    var setupFinished: bool
    var daqReadTime: real        // of the power system: when it last read a snapshot

    ghost function Repr(): set<object> {
      { this, stateMap, motor, comm, fpgaIo } + faultMgr.Repr()
    }

    /** What power processing may change besides the port. */
    ghost function Parts(): set<object> {
      { stateMap, motor, comm } + faultMgr.Repr()
    }

    ghost predicate Valid()
      reads stateMap
    {
      && motor.systemType == MOTOR && comm.systemType == COMM
      && motor.fpgaIo == fpgaIo && comm.fpgaIo == fpgaIo
      && motor.faultMgr == faultMgr && comm.faultMgr == faultMgr
      && faultMgr.Separate() && stateMap.Valid()
    }

    ghost function View(): Cell
      reads Repr()
    {
      Cell(motor.View(), comm.View(), fpgaIo.outputPort, faultMgr.View(), stateMap.currentState, setupFinished)
    }

    /** A cell at time `now`: in startup, all power turned off. */
    constructor (port: OutputPort, info: SysInfo, now: real)
      ensures Valid() && fresh(Repr())
      ensures View() == CellSafety.InitialCell(info, port, now)
      ensures fpgaIo.sysInfo == info && daqReadTime == now
    {
      hide TurnedOff, InitialSub;
      var io := new PowerSubsystem.FpgaIo(port, info);
      var faults := new FaultMgr.FaultMgr();
      var m, c := NewSubsystems(io, faults, info, now);
      fpgaIo, faultMgr, motor, comm := io, faults, m, c;
      stateMap := new StateMap();
      setupFinished, daqReadTime := false, now;
    }

    /** Motor first, comm second, both turned off. */
    static method NewSubsystems(io: PowerSubsystem.FpgaIo, faults: FaultMgr.FaultMgr, info: SysInfo, now: real)
      returns (m: PowerSubsystem.PowerSubsystem, c: PowerSubsystem.PowerSubsystem)
      modifies io`outputPort
      ensures fresh(m) && fresh(c) && m.systemType == MOTOR && c.systemType == COMM
      ensures m.fpgaIo == io && c.fpgaIo == io && m.faultMgr == faults && c.faultMgr == faults
      ensures var motorOff := TurnedOff(InitialSub(MOTOR, info, now), old(io.outputPort), {}, now);
              var commOff := TurnedOff(InitialSub(COMM, info, now), motorOff.port, {}, now);
              m.View() == motorOff.sub && c.View() == commOff.sub && io.outputPort == commOff.port
    {
      hide TurnedOff, InitialSub, PowerSubsystem.PowerSubsystem.View;
      m := new PowerSubsystem.PowerSubsystem(MOTOR, io, faults, info, now);
      c := new PowerSubsystem.PowerSubsystem(COMM, io, faults, info, now);
    }

    /** `_turnOffAll` */
    method TurnPowerOff(now: real)
      requires Valid()
      modifies motor, comm, fpgaIo`outputPort
      ensures View() == TurnOffAll(old(View()), now)
    {
      motor.SetPowerOff(now);
      comm.SetPowerOff(now);
    }

    /** What entering a state does to the power. */
    method EnterState(id: StateEnum, now: real)
      requires Valid()
      modifies motor, comm, fpgaIo`outputPort
      ensures View() == if id == OFFLINESTATE || id == STARTUPSTATE then TurnOffAll(old(View()), now) else old(View())
    {
      if id == OFFLINESTATE || id == STARTUPSTATE {
        TurnPowerOff(now);
      }
    }

    /** `changeState` */
    method ChangeState(next: StateEnum, now: real) returns (accepted: bool)
      requires Valid()
      modifies stateMap`currentState, motor, comm, fpgaIo`outputPort
      ensures Valid() && View() == CellLogic.ChangeState(old(View()), next, now)
      ensures accepted <==> View().state == next
    {
      accepted := stateMap.ChangeToMember(next, setupFinished);
      if accepted {
        EnterState(next, now);
      }
    }

    /** `_goToSafeMode` */
    method GoToSafeMode(now: real) returns (answer: bool)
      requires Valid()
      modifies stateMap`currentState, motor, comm, fpgaIo`outputPort
      ensures Valid() && View() == CellLogic.GoToSafeMode(old(View()), now)
      ensures answer == (old(View()).state != OFFLINESTATE)
    {
      TurnPowerOff(now);
      ghost var off := View();
      var entered;
      answer, entered := stateMap.GoToASafeState(STANDBYSTATE, setupFinished);
      if entered {
        EnterState(stateMap.currentState, now);
      }
    }

    /** `reportPowerSystemStateChange`, without the broadcast message. */
    method ReportPowerSystemStateChange(now: real)
      requires Valid()
      modifies stateMap`currentState, motor, comm, fpgaIo`outputPort
      ensures Valid() && View() == Report(old(View()), now)
    {
      var comTargPower, motorTargPower := comm.targPowerState, motor.targPowerState;
      var comActPower, motorActPower := comm.actualPowerState, motor.actualPowerState;
      match stateMap.currentState {
        case STARTUPSTATE | OFFLINESTATE =>
          if comTargPower != OFF || motorTargPower != OFF {
            TurnPowerOff(now);
          }
        case IDLESTATE | INMOTIONSTATE | PAUSESTATE =>
          if comTargPower != ON || comActPower != ON || motorTargPower != ON || motorActPower != ON {
            var accepted := ChangeState(STANDBYSTATE, now);
          }
        case STANDBYSTATE =>
          if comTargPower == ON && comActPower == ON && motorTargPower == ON && motorActPower == ON {
            var accepted := ChangeState(IDLESTATE, now);
          }
      }
    }

    /** `FaultMgr::updatePowerFaults` with its call back into the model. */
    method UpdatePowerFaults(currentFaults: FaultBits, now: real)
      requires Valid()
      modifies Parts(), fpgaIo`outputPort
      ensures Valid() && View() == UpdateFaults(old(View()), currentFaults, now)
    {
      hide CellLogic.GoToSafeMode, FaultMgr.PowerUpdated;
      var goSafe := faultMgr.UpdatePowerFaults(currentFaults);
      if goSafe {
        var answer := GoToSafeMode(now);
      }
    }

    /** `FaultMgr::reportComConnectionCount` with its call back into the model. */
    method ReportComConnectionCount(count: nat, now: real)
      requires Valid()
      modifies Parts(), fpgaIo`outputPort
      ensures Valid() && View() == ConnectionsReported(old(View()), count, now)
    {
      hide CellLogic.GoToSafeMode, FaultMgr.ConnectionsReported;
      var goSafe := faultMgr.ReportComConnectionCount(count);
      if goSafe {
        var answer := GoToSafeMode(now);
      }
    }

    // ---- The power system ----

    method PowerMotor(on: bool, now: real) returns (ok: bool)
      requires Valid()
      modifies motor, fpgaIo`outputPort
      ensures (View(), ok) == CellLogic.PowerMotor(old(View()), on, now)
    {
      hide FaultMgr.Blocked;
      if on && comm.actualPowerState != ON {
        return false;
      }
      if on {
        ok := motor.SetPowerOn(now);
      } else {
        motor.SetPowerOff(now);
        ok := true;
      }
    }

    method PowerComm(on: bool, now: real) returns (ok: bool)
      requires Valid()
      modifies motor, comm, fpgaIo`outputPort
      ensures (View(), ok) == CellLogic.PowerComm(old(View()), on, now)
    {
      hide FaultMgr.Blocked;
      if !on && motor.actualPowerState != OFF {
        motor.SetPowerOff(now);
      }
      if on {
        ok := comm.SetPowerOn(now);
      } else {
        comm.SetPowerOff(now);
        ok := true;
      }
    }

    /** A client's power command, as the current state answers it. */
    method CmdPower(kind: PowerSystemType, on: bool, now: real) returns (ok: bool)
      requires Valid()
      modifies motor, comm, fpgaIo`outputPort
      ensures (View(), ok) == CellLogic.CmdPower(old(View()), kind, on, now)
    {
      hide CellLogic.PowerMotor, CellLogic.PowerComm;
      if stateMap.currentState != STANDBYSTATE && stateMap.currentState != IDLESTATE {
        return false;
      }
      match kind {
        case MOTOR => ok := PowerMotor(on, now);
        case COMM => ok := PowerComm(on, now);
      }
    }

    /** `processDaq` of a subsystem up to the report. */
    method CheckSnapshot(kind: PowerSystemType, info: SysInfo, now: real) returns (changed: bool)
      requires Valid()
      modifies motor, comm, fpgaIo`outputPort
      ensures var o := Snapshot(SubOf(old(View()), kind), old(View()).port, info, IsBlocked(old(View()), kind), now);
              View() == WithSub(old(View()), kind, o.sub, o.port) && changed == Changed(o.sub)
    {
      hide FaultMgr.Blocked, Snapshot, CheckMask;
      match kind {
        case MOTOR => changed := motor.TakeSnapshot(info, now);
        case COMM => changed := comm.TakeSnapshot(info, now);
      }
    }

    /** `processDaq` of a subsystem up to its lock. */
    method TakeSnapshot(kind: PowerSystemType, info: SysInfo, now: real)
      requires Valid()
      modifies stateMap`currentState, motor, comm, fpgaIo`outputPort
      ensures Valid() && View() == SubsystemSnapshot(old(View()), kind, info, now)
    {
      hide IsBlocked, Snapshot, Report, Changed;
      var changed := CheckSnapshot(kind, info, now);
      if changed {
        ReportPowerSystemStateChange(now);
      }
      match kind {
        case MOTOR => motor.NoteStates();
        case COMM => comm.NoteStates();
      }
    }

    method ProcessPass(kind: PowerSystemType, faultsSet: FaultBits, now: real)
      returns (status: SysStatus, faults: FaultBits)
      requires Valid()
      modifies motor, comm, fpgaIo`outputPort
      ensures (View(), faults) == SubsystemPass(old(View()), kind, faultsSet, now) && status == FAULT
    {
      hide Pass;
      var sub := if kind == MOTOR then motor else comm;
      status, faults := sub.ProcessPass(faultsSet, now);
    }

    /** `_processDaqHealthTelemetry` */
    method ProcessDaqHealthTelemetry(info: SysInfo) returns (currentFaults: FaultBits)
      ensures currentFaults == HealthFaults(info)
    {
      currentFaults := {};
      var redundancyOk := InputBit(info.inputPort, REDUNDANCY_OK);
      var loadDistributionOk := InputBit(info.inputPort, LOAD_DISTRIBUTION_OK);
      var supply1Boost := !InputBit(info.inputPort, POWER_SUPPLY_1_CURRENT_OK);
      var supply2Boost := !InputBit(info.inputPort, POWER_SUPPLY_2_CURRENT_OK);
      if !(redundancyOk && loadDistributionOk) {
        currentFaults := currentFaults + {POWER_SUPPLY_LOAD_SHARE_ERR};
      }
      var anyBoostOnAndEnabled := BOOST_CURRENT_FAULT_ENABLED && (supply1Boost || supply2Boost);
      var allDcOk := InputBit(info.inputPort, POWER_SUPPLY_1_DC_OK) && InputBit(info.inputPort, POWER_SUPPLY_2_DC_OK);
      if !(allDcOk && !anyBoostOnAndEnabled) {
        currentFaults := currentFaults + {POWER_HEALTH_FAULT};
      }
    }

    /** `_processDaq` up to the motor subsystem. */
    method CheckDaq(info: SysInfo, now: real) returns (currentFaults: FaultBits)
      requires Valid()
      modifies Parts(), fpgaIo`outputPort
      ensures Valid() && View() == DaqChecks(old(View()), info, now) && currentFaults == HealthFaults(info)
    {
      hide UpdateFaults, HealthFaults, TurnedOff;
      currentFaults := ProcessDaqHealthTelemetry(info);
      if currentFaults != {} {
        UpdatePowerFaults(currentFaults, now);
      }
      if info.outputPort[MOTOR_POWER_ON] && !info.outputPort[ILC_COMM_POWER_ON] {
        motor.SetPowerOff(now);
      }
    }

    /** Both subsystems in turn: snapshot, report, pass. */
    method ProcessSubsystems(info: SysInfo, faultsSet: FaultBits, now: real) returns (faults: FaultBits)
      requires Valid()
      modifies stateMap`currentState, motor, comm, fpgaIo`outputPort
      ensures Valid()
      ensures var (c, f) := SubsystemPass(SubsystemSnapshot(old(View()), MOTOR, info, now), MOTOR, faultsSet, now);
              (View(), faults) == SubsystemPass(SubsystemSnapshot(c, COMM, info, now), COMM, f, now)
    {
      hide SubsystemSnapshot, SubsystemPass;
      TakeSnapshot(MOTOR, info, now);
      var motorStat, commStat;
      motorStat, faults := ProcessPass(MOTOR, faultsSet, now);
      TakeSnapshot(COMM, info, now);
      commStat, faults := ProcessPass(COMM, faults, now);
    }

    /** `_processDaq` */
    method ProcessDaq(info: SysInfo, now: real)
      requires Valid()
      modifies Parts(), fpgaIo`outputPort
      ensures Valid() && View() == CellLogic.ProcessDaq(old(View()), info, now)
    {
      hide DaqChecks, UpdateFaults, SubsystemSnapshot, SubsystemPass, HealthFaults;
      var currentFaults := CheckDaq(info, now);
      currentFaults := ProcessSubsystems(info, currentFaults, now);
      UpdatePowerFaults(currentFaults, now);
    }

    /** `_checkTimeout` */
    method CheckTimeout(timedOut: bool, now: real)
      requires Valid()
      modifies Parts(), fpgaIo`outputPort
      ensures Valid() && View() == if timedOut then TimedOut(old(View()), now) else old(View())
    {
      hide UpdateFaults, TurnedOff;
      if timedOut {
        motor.SetPowerOff(now);
        comm.SetPowerOff(now);
        UpdatePowerFaults({POWER_SYSTEM_TIMEOUT}, now);
      }
    }

    method MarkRead(now: real)
      requires Valid()
      modifies this`daqReadTime
      ensures daqReadTime == now && View() == old(View())
    {
      daqReadTime := now;
    }

    /** `_daqInfoRead`: the snapshot held by the FPGA loop is too old after `sysInfoTimeoutSecs`. */
    method DaqInfoRead(sysInfoTimeoutSecs: real, now: real)
      requires Valid()
      modifies this`daqReadTime, Parts(), fpgaIo`outputPort
      ensures Valid() && daqReadTime == now
      ensures var info := fpgaIo.sysInfo;
              View() == DaqRead(old(View()), info, now - info.timestamp > sysInfoTimeoutSecs, now)
    {
      hide TimedOut, CellLogic.ProcessDaq, View;
      MarkRead(now);
      var info := fpgaIo.sysInfo;
      CheckTimeout(now - info.timestamp > sysInfoTimeoutSecs, now);
      ProcessDaq(info, now);
    }

    /** `_daqTimeoutCheck`: when the last read is longer ago than `sysInfoTimeoutSecs`, power goes off and the
        snapshot held is processed, old as it may be. */
    method DaqTimeoutCheck(sysInfoTimeoutSecs: real, now: real)
      requires Valid()
      modifies Parts(), fpgaIo`outputPort
      ensures Valid()
      ensures View() == if now - daqReadTime > sysInfoTimeoutSecs then DaqRead(old(View()), fpgaIo.sysInfo, true, now)
                        else old(View())
    {
      hide TimedOut, CellLogic.ProcessDaq;
      var timedOut := now - daqReadTime > sysInfoTimeoutSecs;
      CheckTimeout(timedOut, now);
      if timedOut {
        ProcessDaq(fpgaIo.sysInfo, now);
      }
    }

    // ---- Any call, and any number of them ----

    /** One event of `CellLogic` is one call on the objects. */
    method Handle(e: CellLogic.Event)
      requires Valid()
      modifies Repr()
      ensures Valid() && View() == CellLogic.Next(old(View()), e)
    {
      hide CellLogic.CmdPower, TryOn, TurnOff, CellLogic.ProcessDaq, TimedOut, ConnectionsReported,
        CellLogic.GoToSafeMode, CellLogic.ChangeState;
      match e {
        case Command(kind, on, now) => var ok := CmdPower(kind, on, now);
        case SubsystemOn(kind, now) => var ok := SetSubsystemOn(kind, now);
        case SubsystemOff(kind, now) => SetSubsystemOff(kind, now);
        case Daq(info, timedOut, now) =>
          CheckTimeout(timedOut, now);
          ProcessDaq(info, now);
        case Connections(count, now) => ReportComConnectionCount(count, now);
        case ChangeSystemState(next, now) => var accepted := ChangeState(next, now);
        case SafeMode(now) => var answer := GoToSafeMode(now);
        case Interlock(enable, _) => fpgaIo.WriteOutputPortBitPos(CRIO_INTERLOCK_ENABLE, enable);
        case Emergency(_) => fpgaIo.EmergencyTurnOffAllPower();
        case _ => HandleOutside(e);
      }
    }

    /** The events that touch neither the power nor the state. */
    method HandleOutside(e: CellLogic.Event)
      requires Valid()
      requires e.ResetFaults? || e.EnableFaults? || e.FinishSetup?
      modifies Repr()
      ensures Valid() && View() == CellLogic.Next(old(View()), e)
    {
      hide FaultMgr.AllReset, FaultMgr.AllEnabled;
      match e {
        case ResetFaults(mask, _) => faultMgr.ResetFaults(mask);
        case EnableFaults(mask, _) => var changed := faultMgr.EnableFaultsInMask(mask);
        case FinishSetup(_) => setupFinished := true;
      }
    }

    method SetSubsystemOn(kind: PowerSystemType, now: real) returns (ok: bool)
      requires Valid()
      modifies motor, comm, fpgaIo`outputPort
      ensures (View(), ok) == TryOn(old(View()), kind, now)
    {
      hide FaultMgr.Blocked, CheckMask;
      match kind {
        case MOTOR => ok := motor.SetPowerOn(now);
        case COMM => ok := comm.SetPowerOn(now);
      }
    }

    method SetSubsystemOff(kind: PowerSystemType, now: real)
      requires Valid()
      modifies motor, comm, fpgaIo`outputPort
      ensures View() == TurnOff(old(View()), kind, now)
    {
      match kind {
        case MOTOR => motor.SetPowerOff(now);
        case COMM => comm.SetPowerOff(now);
      }
    }

    /** Whatever calls come, in whatever order: the objects stay sound, and a subsystem that is off with a
        fault of its mask latched is off with it latched at the end, unless a reset covers that fault. */
    method HandleAll(events: seq<CellLogic.Event>, start: real)
      requires Valid() && CellSafety.Sound(View(), start) && TimesAscend(start, events)
      modifies Repr()
      ensures Valid() && CellSafety.Sound(View(), EndTime(start, events))
      ensures forall kind, bit | CellSafety.Latched(old(View()), kind, bit) && CellSafety.IsOff(old(View()), kind)
                                 && NoneWithdraws(events, bit) ::
                CellSafety.Latched(View(), kind, bit) && CellSafety.IsOff(View(), kind)
    {
      hide CellSafety.Sound, CellSafety.Latched, CellSafety.IsOff, CellLogic.Next, CellSafety.Withdraws;
      for i := 0 to |events|
        invariant Valid() && CellSafety.Sound(View(), EndTime(start, events[..i]))
        invariant forall kind, bit | CellSafety.Latched(old(View()), kind, bit) && CellSafety.IsOff(old(View()), kind)
                                     && NoneWithdraws(events[..i], bit) ::
                    CellSafety.Latched(View(), kind, bit) && CellSafety.IsOff(View(), kind)
      {
        ghost var before := View();
        assert events[..i + 1] == events[..i] + [events[i]];
        EventKeepsLatched(before, EndTime(start, events[..i]), events[i]);
        Handle(events[i]);
      }
      assert events[..|events|] == events;
    }
  }

  predicate TimesAscend(start: real, events: seq<CellLogic.Event>) {
    && (events != [] ==> start <= events[0].now)
    && forall i, j | 0 <= i <= j < |events| :: events[i].now <= events[j].now
  }

  function EndTime(start: real, events: seq<CellLogic.Event>): real {
    if events == [] then start else events[|events| - 1].now
  }

  predicate NoneWithdraws(events: seq<CellLogic.Event>, bit: FaultPos) {
    forall e | e in events :: !CellSafety.Withdraws(e, bit)
  }

  /** One event, for a subsystem that is off with a latched fault. */
  lemma EventKeepsLatched(c: Cell, t: real, e: CellLogic.Event)
    requires CellSafety.Sound(c, t) && t <= e.now
    ensures CellSafety.Sound(CellLogic.Next(c, e), e.now)
    ensures forall kind, bit | CellSafety.Latched(c, kind, bit) && CellSafety.IsOff(c, kind)
                               && !CellSafety.Withdraws(e, bit) ::
              CellSafety.Latched(CellLogic.Next(c, e), kind, bit) && CellSafety.IsOff(CellLogic.Next(c, e), kind)
  {
    hide CellSafety.Sound, CellSafety.Latched, CellSafety.IsOff, CellLogic.Next, CellSafety.Withdraws, IsBlocked,
      CellSafety.OnCarriedOut;
    CellSafety.SoundLater(c, t, e.now);
    CellSafety.NextKeeps(c, e);
    forall kind, bit | CellSafety.Latched(c, kind, bit) && CellSafety.IsOff(c, kind) && !CellSafety.Withdraws(e, bit)
      ensures CellSafety.IsOff(CellLogic.Next(c, e), kind)
    {
      CellSafety.LatchedBlocks(c, kind, bit, e.now);
    }
  }
}
