/** Exactly when a pass turns a subsystem off, and which faults it raises. */
module PowerTrips {
  import opened ControlDefs
  import opened FaultStatusBits
  import opened PowerLogic
  import opened PowerRuns

  /** A pass at time `now` that finds the target ON leaves it ON. */
  predicate StaysOn(s: Sub, now: real) {
    var cfg := Cfg(s.kind);
    var worst := BreakerStatus(s.kind, s.info.inputPort);
    && Voltage(s) <= cfg.maxVoltageFault && Current(s) <= cfg.maxCurrent
    && match s.actual
       case ON =>
         && OutputIsOn(s) && Voltage(s) >= cfg.breakerOperatingVoltage && worst != FAULT
         && (s.phase == 2 ==> Voltage(s) >= cfg.minVoltageFault)
       case OFF => true
       case TURNING_ON =>
         s.phase == 2 || s.telemCounter >= 9 ==>
           && OutputIsOn(s)
           && (now - s.phaseStart <= cfg.outputOnMaxDelay || Voltage(s) >= cfg.breakerOperatingVoltage)
       case RESET =>
         && OutputIsOn(s) && Voltage(s) >= cfg.breakerOperatingVoltage
         && (now - s.phaseStart <= cfg.resetBreakerPulseWidth * 2.0 || worst != FAULT)
       case _ => false
  }

  lemma OnStays(s: Sub, port: OutputPort, faults: FaultBits, now: real)
    requires SubInv(s, port, now) && s.targ == ON && s.actual == ON
    requires Voltage(s) <= Cfg(s.kind).maxVoltageFault && Current(s) <= Cfg(s.kind).maxCurrent
    ensures OnPass(s, port, faults, now).sub.targ == ON <==> StaysOn(s, now)
  {
    hide BreakerStatus, OutputIsOn;
    BreakersRange(s.kind, s.info.inputPort);
  }

  lemma BreakersRange(kind: PowerSystemType, input: InputPort)
    ensures BreakerStatus(kind, input) in {GOOD, WARN, FAULT}
  {}

  lemma TurningOnStays(s: Sub, port: OutputPort, faults: FaultBits, now: real)
    requires SubInv(s, port, now) && s.targ == ON && s.actual == TURNING_ON
    requires Voltage(s) <= Cfg(s.kind).maxVoltageFault && Current(s) <= Cfg(s.kind).maxCurrent
    ensures TurningOnPass(s, port, faults, now).sub.targ == ON <==> StaysOn(s, now)
  {
    hide BreakerStatus, OutputIsOn;
    assert OutputIsOn(s.(telemCounter := s.telemCounter + 1, phase := 2, phaseStart := now)) == OutputIsOn(s) by {
      OutputIgnoresPhase(s, s.(telemCounter := s.telemCounter + 1, phase := 2, phaseStart := now));
    }
  }

  lemma OutputIgnoresPhase(s: Sub, t: Sub)
    requires s.kind == t.kind && s.info == t.info
    ensures OutputIsOn(s) == OutputIsOn(t)
  {}

  lemma ResetStays(s: Sub, port: OutputPort, faults: FaultBits, now: real)
    requires SubInv(s, port, now) && s.targ == ON && s.actual == RESET
    requires Voltage(s) <= Cfg(s.kind).maxVoltageFault && Current(s) <= Cfg(s.kind).maxCurrent
    ensures ResetPass(s, port, faults, now).sub.targ == ON <==> StaysOn(s, now)
  {
    hide BreakerStatus, OutputIsOn;
    BreakersRange(s.kind, s.info.inputPort);
  }

  lemma FirstPassStays(s: Sub, port: OutputPort, faults: FaultBits, now: real)
    requires SubInv(s, port, now) && s.targ == ON && s.actual == OFF
    ensures TurningOnPass(s.(actual := TURNING_ON, phase := 1, phaseStart := now), port, faults, now).sub.targ == ON
  {
    hide BreakerStatus, OutputIsOn;
  }

  /** A pass with the target ON leaves it ON if and only if `StaysOn`. */
  lemma PassTripsIff(s: Sub, port: OutputPort, faults: FaultBits, now: real)
    requires SubInv(s, port, now) && s.targ == ON
    ensures Pass(s, port, faults, now).sub.targ == ON <==> StaysOn(s, now)
  {
    hide OnPass, TurningOnPass, ResetPass, BreakerStatus, OutputIsOn;
    var f := if RelayOn(s) && CrioReady(s) && !InterlockRelayOn(s) then faults + {INTERLOCK_FAULT} else faults;
    var g := if Voltage(s) > Cfg(s.kind).maxVoltageWarn then f + {Cfg(s.kind).voltageWarn} else f;
    if Voltage(s) <= Cfg(s.kind).maxVoltageFault && Current(s) <= Cfg(s.kind).maxCurrent {
      match s.actual {
        case ON => OnStays(s, port, g, now);
        case OFF => FirstPassStays(s, port, g, now);
        case TURNING_ON => TurningOnStays(s, port, g, now);
        case RESET => ResetStays(s, port, g, now);
        case UNKNOWN =>
      }
    }
  }

  /** A pass never raises the power bit, and leaves a high one high if and only if `StaysOn`. */
  lemma PassBitIff(s: Sub, port: OutputPort, faults: FaultBits, now: real)
    requires SubInv(s, port, now)
    ensures var bit := Cfg(s.kind).powerOnPos;
            Pass(s, port, faults, now).port[bit] <==> port[bit] && StaysOn(s, now)
  {
    hide StaysOn, BreakerStatus, OutputIsOn;
    if s.targ == ON {
      PassTripsIff(s, port, faults, now);
      PowerOnPassKeeps(s, port, faults, now);
      OnPassBit(s, port, faults, now);
    } else {
      PowerOffPassKeeps(s, port, faults, now);
    }
  }

  lemma OnPassBit(s: Sub, port: OutputPort, faults: FaultBits, now: real)
    requires SubInv(s, port, now) && s.targ == ON
    ensures var o, bit := PowerOnPass(s, port, faults, now), Cfg(s.kind).powerOnPos;
            o.sub.targ == ON ==> o.port[bit] == port[bit]
  {
    hide BreakerStatus, OutputIsOn;
  }

  // ---- The faults a pass raises ----

  /** Why a pass raises the voltage or the over-current fault of its subsystem. */
  predicate Explained(s: Sub, before: FaultBits, after: FaultBits) {
    && (Cfg(s.kind).excessiveCurrent in after && Cfg(s.kind).excessiveCurrent !in before ==>
          Current(s) > Cfg(s.kind).maxCurrent)
    && (Cfg(s.kind).voltageFault in after && Cfg(s.kind).voltageFault !in before ==>
          Voltage(s) > Cfg(s.kind).maxVoltageFault || Voltage(s) < Cfg(s.kind).minVoltageFault)
  }

  lemma OnPassExplained(s: Sub, port: OutputPort, faults: FaultBits, now: real)
    ensures Explained(s, faults, OnPass(s, port, faults, now).faults)
    ensures Explained(s, faults, ResetPass(s, port, faults, now).faults)
  {
    hide BreakerStatus, OutputIsOn;
  }

  lemma TurningOnExplained(s: Sub, port: OutputPort, faults: FaultBits, now: real)
    ensures Explained(s, faults, TurningOnPass(s, port, faults, now).faults)
  {
    hide BreakerStatus, OutputIsOn;
  }

  /** The over-current fault is raised only over the current limit, the voltage fault only over the upper
      or under the lower limit. */
  lemma FaultsAreExplained(s: Sub, port: OutputPort, faults: FaultBits, now: real)
    ensures Explained(s, faults, Pass(s, port, faults, now).faults)
  {
    hide BreakerStatus, OnPass, TurningOnPass, ResetPass, OutputIsOn;
    var f := if RelayOn(s) && CrioReady(s) && !InterlockRelayOn(s) then faults + {INTERLOCK_FAULT} else faults;
    var g := if Voltage(s) > Cfg(s.kind).maxVoltageWarn then f + {Cfg(s.kind).voltageWarn} else f;
    OnPassExplained(s, port, g, now);
    TurningOnExplained(s, port, g, now);
    TurningOnExplained(s.(actual := TURNING_ON, phase := 1, phaseStart := now), port, g, now);
  }

  // ---- All the faults a pass raises ----

  /** The pass comes to test the voltage against the breaker operating voltage. */
  predicate TestsVoltage(s: Sub, now: real) {
    && Voltage(s) <= Cfg(s.kind).maxVoltageFault && Current(s) <= Cfg(s.kind).maxCurrent && OutputIsOn(s)
    && (s.actual == ON || s.actual == RESET
        || (s.actual == TURNING_ON && (s.phase == 2 || s.telemCounter >= 9)
            && now - s.phaseStart > Cfg(s.kind).outputOnMaxDelay))
  }

  predicate Unoperable(s: Sub, now: real) {
    TestsVoltage(s, now) && Voltage(s) < Cfg(s.kind).breakerOperatingVoltage
  }

  /** The pass raises what the breakers show. */
  predicate TestsBreakers(s: Sub, now: real) {
    && TestsVoltage(s, now) && !Unoperable(s, now)
    && (s.actual == ON || (s.actual == RESET && now - s.phaseStart > Cfg(s.kind).resetBreakerPulseWidth * 2.0))
  }

  /** The voltage of a subsystem that is ON has settled. */
  predicate Settled(s: Sub, now: real) {
    && TestsBreakers(s, now) && s.actual == ON && s.phase == 2
    && BreakerStatus(s.kind, s.info.inputPort) != FAULT
  }

  predicate RaisesVoltageFault(s: Sub, now: real) {
    || Voltage(s) > Cfg(s.kind).maxVoltageFault || Unoperable(s, now)
    || (Settled(s, now) && Voltage(s) < Cfg(s.kind).minVoltageFault)
  }

  predicate RaisesVoltageWarn(s: Sub, now: real) {
    || Cfg(s.kind).maxVoltageWarn < Voltage(s) <= Cfg(s.kind).maxVoltageFault
    || (Settled(s, now) && Voltage(s) < Cfg(s.kind).minVoltageWarn)
  }

  function When(raised: bool, bit: FaultPos): FaultBits { if raised then {bit} else {} }

  /** Fault by fault, what a pass with the target ON raises. */
  function Raised(s: Sub, now: real): FaultBits {
    var cfg, worst := Cfg(s.kind), BreakerStatus(s.kind, s.info.inputPort);
    When(RelayOn(s) && CrioReady(s) && !InterlockRelayOn(s), INTERLOCK_FAULT)
    + When(RaisesVoltageFault(s, now), cfg.voltageFault)
    + When(RaisesVoltageWarn(s, now), cfg.voltageWarn)
    + When(Voltage(s) <= cfg.maxVoltageFault && Current(s) > cfg.maxCurrent, cfg.excessiveCurrent)
    + When(Unoperable(s, now), HARDWARE_FAULT)
    + When(TestsBreakers(s, now) && worst == FAULT, cfg.breakerFault)
    + When(TestsBreakers(s, now) && worst == WARN, cfg.breakerWarn)
  }

  /** What the pass adds once voltage and current were found within their limits. */
  function RaisedLater(s: Sub, now: real): FaultBits {
    var cfg, worst := Cfg(s.kind), BreakerStatus(s.kind, s.info.inputPort);
    When(Unoperable(s, now), cfg.voltageFault) + When(Unoperable(s, now), HARDWARE_FAULT)
    + When(Settled(s, now) && Voltage(s) < cfg.minVoltageFault, cfg.voltageFault)
    + When(Settled(s, now) && Voltage(s) < cfg.minVoltageWarn, cfg.voltageWarn)
    + When(TestsBreakers(s, now) && worst == FAULT, cfg.breakerFault)
    + When(TestsBreakers(s, now) && worst == WARN, cfg.breakerWarn)
  }

  predicate InLimits(s: Sub) { Voltage(s) <= Cfg(s.kind).maxVoltageFault && Current(s) <= Cfg(s.kind).maxCurrent }

  lemma OnPassRaises(s: Sub, port: OutputPort, faults: FaultBits, now: real)
    requires SubInv(s, port, now) && s.targ == ON && s.actual == ON && InLimits(s)
    ensures OnPass(s, port, faults, now).faults == faults + RaisedLater(s, now)
  {
    hide BreakerStatus, OutputIsOn;
    BreakersRange(s.kind, s.info.inputPort);
  }

  lemma ResetRaises(s: Sub, port: OutputPort, faults: FaultBits, now: real)
    requires SubInv(s, port, now) && s.targ == ON && s.actual == RESET && InLimits(s)
    ensures ResetPass(s, port, faults, now).faults == faults + RaisedLater(s, now)
  {
    hide BreakerStatus, OutputIsOn;
    BreakersRange(s.kind, s.info.inputPort);
  }

  lemma TurningOnRaises(s: Sub, port: OutputPort, faults: FaultBits, now: real)
    requires SubInv(s, port, now) && s.targ == ON && s.actual == TURNING_ON && InLimits(s)
    ensures TurningOnPass(s, port, faults, now).faults == faults + RaisedLater(s, now)
  {
    hide BreakerStatus, OutputIsOn;
    OutputIgnoresPhase(s, s.(telemCounter := s.telemCounter + 1, phase := 2, phaseStart := now));
  }

  lemma FirstPassRaises(s: Sub, port: OutputPort, faults: FaultBits, now: real)
    requires SubInv(s, port, now) && s.targ == ON && s.actual == OFF && InLimits(s)
    ensures RaisedLater(s, now) == {}
    ensures TurningOnPass(s.(actual := TURNING_ON, phase := 1, phaseStart := now), port, faults, now).faults == faults
  {
    hide BreakerStatus, OutputIsOn;
  }

  /** The faults after a pass are those gathered before and those `Raised` lists; none when it is to be off. */
  lemma PassRaises(s: Sub, port: OutputPort, faults: FaultBits, now: real)
    requires SubInv(s, port, now)
    ensures Pass(s, port, faults, now).faults == faults + if s.targ == ON then Raised(s, now) else {}
  {
    if s.targ == ON { OnRaises(s, port, faults, now); }
  }

  lemma OnRaises(s: Sub, port: OutputPort, faults: FaultBits, now: real)
    requires SubInv(s, port, now) && s.targ == ON
    ensures PowerOnPass(s, port, faults, now).faults == faults + Raised(s, now)
  {
    hide OnPass, TurningOnPass, ResetPass, BreakerStatus, OutputIsOn;
    var f := if RelayOn(s) && CrioReady(s) && !InterlockRelayOn(s) then faults + {INTERLOCK_FAULT} else faults;
    var g := if Voltage(s) > Cfg(s.kind).maxVoltageWarn then f + {Cfg(s.kind).voltageWarn} else f;
    if InLimits(s) {
      SplitRaised(s, faults, now);
      match s.actual {
        case ON => OnPassRaises(s, port, g, now);
        case OFF => FirstPassRaises(s, port, g, now);
        case TURNING_ON => TurningOnRaises(s, port, g, now);
        case RESET => ResetRaises(s, port, g, now);
        case UNKNOWN =>
      }
    }
  }

  lemma SplitRaised(s: Sub, faults: FaultBits, now: real)
    requires InLimits(s)
    ensures var f := if RelayOn(s) && CrioReady(s) && !InterlockRelayOn(s) then faults + {INTERLOCK_FAULT} else faults;
            var g := if Voltage(s) > Cfg(s.kind).maxVoltageWarn then f + {Cfg(s.kind).voltageWarn} else f;
            faults + Raised(s, now) == g + RaisedLater(s, now)
  {
    hide BreakerStatus, OutputIsOn, TestsBreakers, Unoperable, Settled;
  }
}
