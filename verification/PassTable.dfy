/** What a pass does to each part of a subsystem's state, for every snapshot, and what that means for a
    subsystem that stays on. */
module PassTable {
  import opened ControlDefs
  import opened FaultStatusBits
  import opened PowerLogic
  import opened PowerRuns
  import opened PowerTrips

  // ---- The limits ----

  /** Both subsystems run at 24 V: they warn at 5 % and trip at 10 % off it, their breakers work from 19 V and they
      are off under 12 V. They differ in current and in the time they are given. */
  lemma LimitsAre(kind: PowerSystemType)
    ensures var c := Cfg(kind);
            && c.nominalVoltage == 24.0 && c.minVoltageWarn == 22.8 && c.maxVoltageWarn == 25.2
            && c.minVoltageFault == 21.6 && c.maxVoltageFault == 26.4
            && c.breakerOperatingVoltage == 19.0 && c.voltageOffLevel == 12.0
            && c.resetBreakerPulseWidth == 0.4 && c.breakerOnTime == 0.5
            && (c.maxCurrent, c.outputOnMaxDelay, c.outputOffMaxDelay) ==
               (if kind == MOTOR then (20.0, 0.6, 0.08) else (10.0, 0.55, 0.03))
  {}

  /** The fault bits of each subsystem, and those that keep it from being turned on: its voltage and over-current
      faults and the shared relay fault, but not its breaker fault. */
  lemma FaultsOf(kind: PowerSystemType, bit: FaultPos)
    ensures var c := Cfg(kind);
            && (c.voltageFault, c.voltageWarn, c.excessiveCurrent, c.breakerFault, c.relayInUse) ==
               (if kind == MOTOR then (9, 10, 13, 18, 28) else (11, 12, 14, 17, 29))
            && c.breakerWarn == 19 && c.relayFault == 15
            && (bit in CheckMask(kind) <==> bit == 15 || bit == c.voltageFault || bit == c.excessiveCurrent)
  {}

  // ---- What a snapshot shows ----

  /** The snapshot shows the output on: for the motor its power bit, the cRIO interlock bit and a closed interlock
      relay, which reads low; for comm its power bit alone. */
  predicate ShowsOutput(kind: PowerSystemType, info: SysInfo) {
    if kind == MOTOR then info.outputPort[0] && info.outputPort[2] && !info.inputPort[31] else info.outputPort[1]
  }

  /** The motor has power and cRIO interlock, but its interlock relay is open. */
  predicate ShowsOpenInterlock(kind: PowerSystemType, info: SysInfo) {
    kind == MOTOR && info.outputPort[0] && info.outputPort[2] && info.inputPort[31]
  }

  lemma ReadingsAre(s: Sub)
    ensures OutputIsOn(s) <==> ShowsOutput(s.kind, s.info)
    ensures RelayOn(s) <==> s.info.outputPort[if s.kind == MOTOR then 0 else 1]
    ensures CrioReady(s) <==> s.kind == COMM || s.info.outputPort[2]
    ensures RelayOn(s) && CrioReady(s) && !InterlockRelayOn(s) <==> ShowsOpenInterlock(s.kind, s.info)
    ensures (Voltage(s), Current(s)) == if s.kind == MOTOR then (s.info.motorVoltage, s.info.motorCurrent)
                                        else (s.info.commVoltage, s.info.commCurrent)
  {}

  /** A subsystem that is on, or resets its breakers, and is not shown on is turned off. A pass raises the interlock
      fault exactly when it should be on and the interlock is shown open. */
  lemma LostOutputTrips(s: Sub, port: OutputPort, faults: FaultBits, now: real)
    requires SubInv(s, port, now)
    ensures var o := Pass(s, port, faults, now);
            && (s.targ == ON && (s.actual == ON || s.actual == RESET) && !ShowsOutput(s.kind, s.info) ==>
                  o.sub.targ == OFF && !o.port[Cfg(s.kind).powerOnPos])
            && (INTERLOCK_FAULT in o.faults <==>
                  INTERLOCK_FAULT in faults || (s.targ == ON && ShowsOpenInterlock(s.kind, s.info)))
  {
    hide Pass, OutputIsOn, BreakerStatus, RelayOn, CrioReady, InterlockRelayOn, ShowsOutput, ShowsOpenInterlock,
      RaisesVoltageFault, RaisesVoltageWarn, TestsBreakers, Unoperable;
    ReadingsAre(s);
    PassRaises(s, port, faults, now);
    FaultsOf(s.kind, INTERLOCK_FAULT);
    if s.targ == ON && !StaysOn(s, now) { GoingOff(s, port, faults, now); }
  }

  // ---- The actual state ----

  /** Turning on is at its last phase: ten passes and the delay are over, and the output is on. */
  predicate LastPhase(s: Sub, now: real) {
    && s.actual == TURNING_ON && TestsVoltage(s, now) && Voltage(s) >= Cfg(s.kind).breakerOperatingVoltage
  }

  /** The breakers have had their pulse and the time to settle after it. */
  predicate ResetOver(s: Sub, now: real) {
    s.actual == RESET && now - s.phaseStart > Cfg(s.kind).resetBreakerPulseWidth * 2.0
  }

  /** A pass with the target ON leaves the actual state alone, but for these: from OFF to TURNING_ON within
      the limits; from TURNING_ON, in the last phase, to ON with good breakers and to RESET without; from
      RESET to ON once it is over, unless the pass turns the subsystem off. */
  lemma ActualWhenOn(s: Sub, port: OutputPort, faults: FaultBits, now: real)
    requires SubInv(s, port, now) && s.targ == ON
    ensures var good := BreakerStatus(s.kind, s.info.inputPort) == GOOD;
            Pass(s, port, faults, now).sub.actual ==
            if s.actual == OFF && InLimits(s) then TURNING_ON
            else if LastPhase(s, now) then if good then ON else RESET
            else if ResetOver(s, now) && StaysOn(s, now) then ON
            else s.actual
  {
    hide OnPass, TurningOnPass, ResetPass, BreakerStatus, OutputIsOn;
    var f := if RelayOn(s) && CrioReady(s) && !InterlockRelayOn(s) then faults + {INTERLOCK_FAULT} else faults;
    var g := if Voltage(s) > Cfg(s.kind).maxVoltageWarn then f + {Cfg(s.kind).voltageWarn} else f;
    if InLimits(s) {
      match s.actual {
        case ON => OnPassSub(s, port, g, now);
        case OFF => FirstPassSub(s, port, g, now);
        case TURNING_ON => TurningOnSub(s, port, g, now);
        case RESET => ResetSub(s, port, g, now);
        case UNKNOWN =>
      }
    }
  }

  /** With the target OFF it becomes OFF if and only if the snapshot shows the relay open and the voltage under
      the off level; the power bit ends low and the breaker line high. Until it is OFF the off timer restarts on
      every pass with the relay open. */
  lemma ActualWhenOff(s: Sub, port: OutputPort, faults: FaultBits, now: real)
    requires SubInv(s, port, now) && s.targ == OFF
    ensures var o, cfg := Pass(s, port, faults, now), Cfg(s.kind);
            && o.sub.targ == OFF && o.faults == faults && !o.port[cfg.powerOnPos] && o.port[cfg.breakerPos]
            && o.sub.actual == (if !RelayOn(s) && Voltage(s) < cfg.voltageOffLevel then OFF else s.actual)
            && o.sub.phaseStart == (if !RelayOn(s) && s.actual != OFF then now else s.phaseStart)
            && o.sub.phase == s.phase && o.sub.offStart == s.offStart && o.sub.onStart == s.onStart
  {
    hide OutputIsOn;
  }

  /** What the passes hold for states that no run reaches: a subsystem that turns off and whose voltage does not fall
      in time raises its relay faults, one found in the third phase of turning on ends it as in the second, and a
      target that is neither ON nor OFF becomes OFF. */
  lemma UnreachedCases(s: Sub, port: OutputPort, faults: FaultBits, now: real)
    ensures var o, cfg := Pass(s, port, faults, now), Cfg(s.kind);
            s.targ == OFF && s.actual == TURNING_OFF && !RelayOn(s) && Voltage(s) >= cfg.voltageOffLevel ==>
              && o.sub.targ == OFF && o.sub.actual == TURNING_OFF
              && o.faults == faults + (if now - s.phaseStart > cfg.outputOffMaxDelay
                                       then {POWER_RELAY_OPEN_FAULT, cfg.relayInUse} else {})
    ensures s.phase >= 3 && OutputIsOn(s) && Voltage(s) >= Cfg(s.kind).breakerOperatingVoltage ==>
              TurningOnPass(s, port, faults, now).sub.actual ==
              if BreakerStatus(s.kind, s.info.inputPort) == GOOD then ON else RESET
    ensures s.targ != ON && s.targ != OFF ==>
              && Pass(s, port, faults, now).sub.targ == OFF
              && !Pass(s, port, faults, now).port[Cfg(s.kind).powerOnPos]
  {
    hide BreakerStatus, OutputIsOn, OnPass, ResetPass;
  }

  // ---- Phases and timers, case by case ----

  lemma OnPassSub(s: Sub, port: OutputPort, faults: FaultBits, now: real)
    requires SubInv(s, port, now) && s.targ == ON && s.actual == ON && InLimits(s)
    ensures var t := OnPass(s, port, faults, now).sub;
            && t.actual == ON && t.telemCounter == s.telemCounter && t.onStart == s.onStart
            && (StaysOn(s, now) ==> t.targ == ON && t.phase == 2 && t.offStart == s.offStart
                                    && t.phaseStart == if s.phase == 1 then now else s.phaseStart)
  {
    hide BreakerStatus, OutputIsOn;
    BreakersRange(s.kind, s.info.inputPort);
    AnyPassSettles(s.kind);
  }

  /** Either subsystem settles faster than its breakers' voltage rises, so no pass comes too early. */
  lemma AnyPassSettles(kind: PowerSystemType)
    ensures Cfg(kind).voltageSettlingTime - Cfg(kind).breakerOperatingVoltageRiseTime < 0.0
  {}

  lemma FirstPassSub(s: Sub, port: OutputPort, faults: FaultBits, now: real)
    requires SubInv(s, port, now) && s.targ == ON && s.actual == OFF && InLimits(s)
    ensures var first := s.(actual := TURNING_ON, phase := 1, phaseStart := now);
            TurningOnPass(first, port, faults, now) == Out(first.(telemCounter := 1), port, faults)
  {
    hide BreakerStatus, OutputIsOn;
  }

  lemma TurningOnSub(s: Sub, port: OutputPort, faults: FaultBits, now: real)
    requires SubInv(s, port, now) && s.targ == ON && s.actual == TURNING_ON && InLimits(s)
    ensures var o := TurningOnPass(s, port, faults, now);
            var tenth := s.phase == 1 && s.telemCounter >= 9;
            && o.sub.actual == (if !LastPhase(s, now) then TURNING_ON
                                else if BreakerStatus(s.kind, s.info.inputPort) == GOOD then ON else RESET)
            && o.sub.telemCounter == (if s.phase == 1 then s.telemCounter + 1 else s.telemCounter)
            && o.sub.onStart == s.onStart
            && (StaysOn(s, now) ==>
                  && o.sub.targ == ON && o.sub.offStart == s.offStart
                  && o.sub.phase == (if LastPhase(s, now) then 1 else if tenth then 2 else s.phase)
                  && o.sub.phaseStart == (if LastPhase(s, now) || tenth then now else s.phaseStart)
                  && o.port == if o.sub.actual == RESET then port[Cfg(s.kind).breakerPos := false] else port)
  {
    hide BreakerStatus, OutputIsOn;
    OutputIgnoresPhase(s, s.(telemCounter := s.telemCounter + 1, phase := 2, phaseStart := now));
  }

  lemma ResetSub(s: Sub, port: OutputPort, faults: FaultBits, now: real)
    requires SubInv(s, port, now) && s.targ == ON && s.actual == RESET && InLimits(s)
    ensures var o, pulse := ResetPass(s, port, faults, now), Cfg(s.kind).resetBreakerPulseWidth;
            && o.sub.actual == (if ResetOver(s, now) && StaysOn(s, now) then ON else RESET)
            && o.sub.telemCounter == s.telemCounter && o.sub.onStart == s.onStart
            && (StaysOn(s, now) ==>
                  && o.sub.targ == ON && o.sub.offStart == s.offStart && o.sub.phase == s.phase
                  && o.sub.phaseStart == (if ResetOver(s, now) then now else s.phaseStart)
                  && o.port == if now - s.phaseStart > pulse then port[Cfg(s.kind).breakerPos := true] else port)
  {
    hide BreakerStatus, OutputIsOn;
    BreakersRange(s.kind, s.info.inputPort);
  }

  // ---- Phases, timers and the breaker line of any pass with the target ON ----

  /** The tenth telemetry pass of turning on. */
  predicate Tenth(s: Sub) { s.actual == TURNING_ON && s.phase == 1 && s.telemCounter >= 9 }

  /** The pass that stays on restarts the time in phase: on the first and the tenth pass of turning on, on
      leaving it, at the end of a reset, and when an ON subsystem settles. */
  predicate Restarts(s: Sub, now: real) {
    s.actual == OFF || Tenth(s) || LastPhase(s, now) || ResetOver(s, now) || (s.actual == ON && s.phase == 1)
  }

  /** When the pass leaves the target ON: the phase, the timers, the count of passes and the breaker line, which
      goes low exactly on entering a reset and high exactly once its pulse is over. */
  lemma StayingOn(s: Sub, port: OutputPort, faults: FaultBits, now: real)
    requires SubInv(s, port, now) && s.targ == ON && StaysOn(s, now)
    ensures var o, pos := Pass(s, port, faults, now), Cfg(s.kind).breakerPos;
            && o.sub.targ == ON && o.sub.onStart == s.onStart && o.sub.offStart == s.offStart
            && o.sub.phase == (if s.actual == ON || (Tenth(s) && !LastPhase(s, now)) then 2
                               else if s.actual == OFF || LastPhase(s, now) then 1 else s.phase)
            && o.sub.phaseStart == (if Restarts(s, now) then now else s.phaseStart)
            && o.sub.telemCounter == (if s.actual == OFF || (s.actual == TURNING_ON && s.phase == 1)
                                      then s.telemCounter + 1 else s.telemCounter)
            && o.port[pos] == (if o.sub.actual == RESET && s.actual == TURNING_ON then false
                               else port[pos] || (s.actual == RESET
                                                  && now - s.phaseStart > Cfg(s.kind).resetBreakerPulseWidth))
  {
    hide OnPass, TurningOnPass, ResetPass, BreakerStatus, OutputIsOn, StaysOn;
    var f := if RelayOn(s) && CrioReady(s) && !InterlockRelayOn(s) then faults + {INTERLOCK_FAULT} else faults;
    var g := if Voltage(s) > Cfg(s.kind).maxVoltageWarn then f + {Cfg(s.kind).voltageWarn} else f;
    StayingIsInLimits(s, now);
    match s.actual {
      case ON => OnPassSub(s, port, g, now); OnPassLine(s, port, g, now);
      case OFF => FirstPassSub(s, port, g, now);
      case TURNING_ON => TurningOnSub(s, port, g, now);
      case RESET => ResetSub(s, port, g, now);
    }
  }

  lemma StayingIsInLimits(s: Sub, now: real)
    requires StaysOn(s, now)
    ensures InLimits(s) && s.actual in {ON, OFF, TURNING_ON, RESET}
  {}

  lemma OnPassLine(s: Sub, port: OutputPort, faults: FaultBits, now: real)
    requires SubInv(s, port, now) && s.targ == ON && s.actual == ON && StaysOn(s, now)
    ensures OnPass(s, port, faults, now).port == port
  {
    hide BreakerStatus, OutputIsOn;
    BreakersRange(s.kind, s.info.inputPort);
  }

  /** When the pass turns a subsystem off, it starts the off timers and leaves the bits as power off does. */
  lemma GoingOff(s: Sub, port: OutputPort, faults: FaultBits, now: real)
    requires SubInv(s, port, now) && s.targ == ON && !StaysOn(s, now)
    ensures var o, cfg := Pass(s, port, faults, now), Cfg(s.kind);
            && o.sub.targ == OFF && o.sub.phase == 1 && o.sub.phaseStart == now && o.sub.offStart == now
            && !o.port[cfg.powerOnPos] && o.port[cfg.breakerPos] && o.sub.onStart == s.onStart
  {
    hide BreakerStatus, OutputIsOn;
    BreakersRange(s.kind, s.info.inputPort);
    OutputIgnoresPhase(s, s.(telemCounter := s.telemCounter + 1, phase := 2, phaseStart := now));
  }

  // ---- A subsystem that stays on ----

  predicate IsSettled(s: Sub) { s.targ == ON && s.actual == ON && s.phase == 2 }

  lemma PassSettles(s: Sub, port: OutputPort, faults: FaultBits, now: real)
    requires SubInv(s, port, now) && s.targ == ON && s.actual == ON
    ensures Pass(s, port, faults, now).sub.targ == ON ==> IsSettled(Pass(s, port, faults, now).sub)
  {
    hide Pass, StaysOn, BreakerStatus;
    PassTripsIff(s, port, faults, now);
    ActualWhenOn(s, port, faults, now);
    if StaysOn(s, now) { StayingOn(s, port, faults, now); }
  }

  /** Only an accepted power-on command ends being settled while the target stays ON. */
  lemma StepKeepsSettled(st: State, e: Event)
    requires Inv(st) && Legal(st, e) && IsSettled(st.sub) && !Accepts(st, e)
    ensures Next(st, e).sub.targ == ON ==> IsSettled(Next(st, e).sub)
  {
    hide Pass, BreakerStatus;
    SubInvLater(st, e.now);
    if e.DaqPass? { PassSettles(st.sub, st.port, e.faults, e.now); }
  }

  lemma {:induction false} StaysSettled(states: seq<State>, events: seq<Event>, i: nat, j: nat)
    requires IsRun(states, events) && i < j <= |events| < |states| && events[i].DaqPass?
    requires states[i].sub.actual == ON && forall k | i <= k <= j :: states[k].sub.targ == ON
    requires forall k | i <= k < j :: !Accepts(states[k], events[k])
    ensures IsSettled(states[j].sub)
  {
    hide SubInv, Next, Accepts, IsSettled, Legal;
    RunKeepsInv(states, events, j - 1);
    if i == j - 1 {
      FirstPassSettles(states[i], events[i]);
    } else {
      StaysSettled(states, events, i, j - 1);
      StepKeepsSettled(states[j - 1], events[j - 1]);
    }
  }

  lemma FirstPassSettles(st: State, e: Event)
    requires Inv(st) && Legal(st, e) && e.DaqPass? && st.sub.targ == ON && st.sub.actual == ON
    ensures Next(st, e).sub.targ == ON ==> IsSettled(Next(st, e).sub)
  {
    SubInvLater(st, e.now);
    PassSettles(st.sub, st.port, e.faults, e.now);
  }

  /** In any run, of two passes that find a subsystem ON, with nothing between them that turns it off or
      commands it on again, the second one turns it off when its voltage is under the lower limit; it raises
      the voltage fault unless the output is seen off, the current too high or a feed of breakers lost. */
  lemma LowVoltageTrips(states: seq<State>, events: seq<Event>, i: nat, j: nat)
    requires IsRun(states, events) && i < j < |events| < |states| && events[i].DaqPass? && events[j].DaqPass?
    requires states[i].sub.actual == ON && forall k | i <= k <= j :: states[k].sub.targ == ON
    requires forall k | i <= k < j :: !Accepts(states[k], events[k])
    requires Voltage(states[j].sub) < Cfg(states[j].sub.kind).minVoltageFault
    ensures states[j + 1].sub.targ == OFF && !states[j + 1].port[Cfg(states[j].sub.kind).powerOnPos]
    ensures var s, faults := states[j].sub, StepOut(states[j], events[j]).faults;
            OutputIsOn(s) && InLimits(s) && BreakerStatus(s.kind, s.info.inputPort) != FAULT ==>
              Cfg(s.kind).voltageFault in faults
  {
    hide SubInv, Accepts, Legal, Pass, BreakerStatus, OutputIsOn;
    StaysSettled(states, events, i, j);
    RunKeepsInv(states, events, j);
    assert Legal(states[j], events[j]) && states[j + 1] == Next(states[j], events[j]);
    LowPass(states[j], events[j]);
  }

  lemma LowPass(st: State, e: Event)
    requires Inv(st) && Legal(st, e) && e.DaqPass? && IsSettled(st.sub)
    requires Voltage(st.sub) < Cfg(st.sub.kind).minVoltageFault
    ensures var o, s := StepOut(st, e), st.sub;
            && o.sub.targ == OFF && !o.port[Cfg(s.kind).powerOnPos]
            && (OutputIsOn(s) && InLimits(s) && BreakerStatus(s.kind, s.info.inputPort) != FAULT ==>
                  Cfg(s.kind).voltageFault in o.faults)
  {
    hide SubInv, Pass, BreakerStatus, OutputIsOn;
    SubInvLater(st, e.now);
    GoingOff(st.sub, st.port, e.faults, e.now);
    PassRaises(st.sub, st.port, e.faults, e.now);
  }
}
