/** The simulated hardware: two power subsystems behind an output and an input port. */
module SimLogic {
  import opened ControlDefs
  import opened PowerLogic

  /** A simulated subsystem: volts, amps and its breaker. */
  datatype SimSub = SimSub(
    kind: PowerSystemType, voltage: real, current: real,
    closed: bool, closedPrev: bool, closedTarg: bool, closedTargTs: real,
    overVoltage: bool, overCurrent: bool)

  /** Volts gained in `dt` seconds of power, and lost in `dt` seconds without. */
  function Rise(kind: PowerSystemType, dt: real): real {
    if kind == MOTOR then 52.0 * dt else 624.0 / 11.0 * dt
  }

  function Fall(kind: PowerSystemType, dt: real): real {
    if kind == MOTOR then 390.0 * dt else 1040.0 * dt
  }

  /** Amps drawn at a voltage. */
  function Load(kind: PowerSystemType, voltage: real): real {
    if kind == MOTOR then 0.625 * voltage else 0.3125 * voltage
  }

  /** The rates above are the ones `_setup` derives from the configuration. */
  lemma RatesFromConfig(kind: PowerSystemType, x: real)
    ensures var cfg := Cfg(kind);
            && Rise(kind, x) == (cfg.nominalVoltage / cfg.outputOnMaxDelay) * 1.3 * x
            && Fall(kind, x) == (cfg.nominalVoltage / cfg.outputOffMaxDelay) * 1.3 * x
            && Load(kind, x) == 0.75 * (cfg.maxCurrent / cfg.nominalVoltage) * x
  {
    assert MOTOR_CONFIG.nominalVoltage / MOTOR_CONFIG.outputOnMaxDelay == 40.0;
    assert COMM_CONFIG.nominalVoltage / COMM_CONFIG.outputOnMaxDelay == 480.0 / 11.0;
    assert MOTOR_CONFIG.nominalVoltage / MOTOR_CONFIG.outputOffMaxDelay == 300.0;
    assert COMM_CONFIG.nominalVoltage / COMM_CONFIG.outputOffMaxDelay == 800.0;
    assert MOTOR_CONFIG.maxCurrent / MOTOR_CONFIG.nominalVoltage == 5.0 / 6.0;
    assert COMM_CONFIG.maxCurrent / COMM_CONFIG.nominalVoltage == 5.0 / 12.0;
  }

  function BreakerCloseTime(kind: PowerSystemType): real { Cfg(kind).breakerOnTime * 0.5 }

  function BreakerPositions(kind: PowerSystemType): seq<nat> {
    if kind == MOTOR then [6, 7, 8, 9, 10, 11, 12, 13, 14] else [15, 24, 25, 26, 27, 28]
  }

  /** `input` with every bit in `positions` set to `value`. */
  function BitsWritten(input: InputPort, positions: seq<nat>, value: bool): InputPort {
    seq(32, i requires 0 <= i < 32 => if i in positions then value else input[i])
  }

  /** `calcBreakers`: the breaker opens at once when its line is low and closes a while after the line
      goes high; the input bits follow each change. */
  function BreakersCalculated(s: SimSub, output: OutputPort, input: InputPort, ts: real): (SimSub, InputPort) {
    var line := output[Cfg(s.kind).breakerPos];
    var s1 := if line == s.closedTarg then s else s.(closedTarg := line, closedTargTs := ts);
    var closed := s1.closedTarg && (s1.closed || ts - s1.closedTargTs > BreakerCloseTime(s.kind));
    (s1.(closed := closed, closedPrev := closed),
     if closed == s1.closedPrev then input else BitsWritten(input, BreakerPositions(s.kind), closed))
  }

  function Min(a: real, b: real): real { if a < b then a else b }
  function Max(a: real, b: real): real { if a < b then b else a }

  /** `calcVoltageCurrent` */
  function VoltageCalculated(s: SimSub, powerOn: bool, dt: real): SimSub {
    var nominal := if s.overVoltage then Cfg(s.kind).nominalVoltage * 10.0 else Cfg(s.kind).nominalVoltage;
    var voltage :=
      if powerOn then Min(nominal, if s.voltage < nominal then s.voltage + Rise(s.kind, dt) else s.voltage)
      else Max(0.0, if s.voltage > 0.0 then s.voltage - Fall(s.kind, dt) else s.voltage);
    var load := if !s.closed then 0.0
                else if s.overCurrent then Load(s.kind, voltage) * 10.0 else Load(s.kind, voltage);
    s.(voltage := voltage, current := load)
  }

  /** The simulator core between two iterations. */
  datatype Sim = Sim(
    newOutput: OutputPort, output: OutputPort, input: InputPort,
    motor: SimSub, comm: SimSub, info: SysInfo, iterations: nat, prevTs: real)

  function SimOf(sim: Sim, kind: PowerSystemType): SimSub { if kind == MOTOR then sim.motor else sim.comm }

  /** One iteration of `_simRun` at time `ts`. */
  function Iterated(sim: Sim, ts: real): Sim {
    var output := sim.newOutput;
    var dt := ts - sim.prevTs;
    var (motor1, input1) := BreakersCalculated(sim.motor, output, sim.input, ts);
    var motor := VoltageCalculated(motor1, output[MOTOR_POWER_ON], dt);
    var (comm1, input2) := BreakersCalculated(sim.comm, output, input1, ts);
    var comm := VoltageCalculated(comm1, output[ILC_COMM_POWER_ON], dt);
    Sim(sim.newOutput, output, input2, motor, comm,
        SysInfo(output, input2, motor.voltage, motor.current, motor.closed,
                comm.voltage, comm.current, comm.closed, sim.iterations, ts),
        sim.iterations + 1, ts)
  }

  /** Where the breaker bits of a subsystem are in the input port. */
  predicate BreakerBit(kind: PowerSystemType, p: nat) {
    if kind == MOTOR then 6 <= p <= 14 else p == 15 || 24 <= p <= 28
  }

  lemma BreakerPositionsAre(kind: PowerSystemType, p: nat)
    ensures p in BreakerPositions(kind) <==> BreakerBit(kind, p)
  {
    var positions := BreakerPositions(kind);
    assert |positions| == if kind == MOTOR then 9 else 6;
    if BreakerBit(kind, p) {
      assert positions[if kind == MOTOR then p - 6 else if p == 15 then 0 else p - 23] == p;
    }
  }

  /** A low line opens the breaker at once. A high line keeps a closed one closed, and closes an open one when it
      has been high for more than the closing time, counted from the iteration that first saw it high. The
      input bits of the breaker, and no other, follow every change. */
  lemma BreakersMove(s: SimSub, output: OutputPort, input: InputPort, ts: real, p: nat)
    requires p < 32 && s.closedPrev == s.closed
    ensures var line, since := output[Cfg(s.kind).breakerPos], if s.closedTarg then s.closedTargTs else ts;
            var (t, next) := BreakersCalculated(s, output, input, ts);
            && t.closedTarg == line && t.closedPrev == t.closed && t.kind == s.kind
            && t.voltage == s.voltage && t.current == s.current
            && (!line ==> !t.closed)
            && (line ==> (t.closed <==> s.closed || ts - since > Cfg(s.kind).breakerOnTime / 2.0)
                         && t.closedTargTs == since)
            && next[p] == if BreakerBit(s.kind, p) && t.closed != s.closed then t.closed else input[p]
  {
    BreakerPositionsAre(s.kind, p);
  }

  /** An unforced subsystem within its bounds: power takes it up at its rate as far as nominal and no further, no
      power down as far as zero, and it draws current in proportion while its breaker is closed. */
  lemma VoltageMoves(s: SimSub, powerOn: bool, dt: real)
    requires WithinBounds(s) && dt >= 0.0
    ensures var t, cfg := VoltageCalculated(s, powerOn, dt), Cfg(s.kind);
            var up, down := cfg.nominalVoltage / cfg.outputOnMaxDelay * 1.3 * dt,
                            cfg.nominalVoltage / cfg.outputOffMaxDelay * 1.3 * dt;
            && t == s.(voltage := t.voltage, current := t.current)
            && (powerOn ==> s.voltage <= t.voltage <= cfg.nominalVoltage)
            && (powerOn && t.voltage < cfg.nominalVoltage ==> t.voltage == s.voltage + up)
            && (!powerOn ==> 0.0 <= t.voltage <= s.voltage)
            && (!powerOn && t.voltage > 0.0 ==> t.voltage == s.voltage - down)
            && t.current == (if s.closed then 0.75 * (cfg.maxCurrent / cfg.nominalVoltage) * t.voltage else 0.0)
  {
    RatesFromConfig(s.kind, dt);
    RatesFromConfig(s.kind, VoltageCalculated(s, powerOn, dt).voltage);
    RatesArePositive(s.kind, dt);
  }

  /** The force switches: the voltage goes on past nominal as far as ten times it, and ten times the current is
      drawn. */
  lemma ForcedMoves(s: SimSub, dt: real)
    requires s.overVoltage && s.overCurrent && s.closed && dt >= 0.0
    requires 0.0 <= s.voltage <= Cfg(s.kind).nominalVoltage * 10.0
    ensures var t, cfg := VoltageCalculated(s, true, dt), Cfg(s.kind);
            && s.voltage <= t.voltage <= 240.0
            && (t.voltage < 240.0 ==> t.voltage == s.voltage + Rise(s.kind, dt))
            && t.current == 7.5 * (cfg.maxCurrent / cfg.nominalVoltage) * t.voltage
  {
    RatesFromConfig(s.kind, VoltageCalculated(s, true, dt).voltage);
    RatesArePositive(s.kind, dt);
  }

  lemma RatesArePositive(kind: PowerSystemType, dt: real)
    requires dt >= 0.0
    ensures Rise(kind, dt) >= 0.0 && Fall(kind, dt) >= 0.0
  {}

  /** One iteration takes up the new output, moves each subsystem by its own power bit and the time passed, and
      shows all of it in the new snapshot. */
  lemma IterationShows(sim: Sim, ts: real)
    ensures var next := Iterated(sim, ts);
            && next.output == sim.newOutput == next.newOutput && next.prevTs == ts
            && next.iterations == sim.iterations + 1
            && next.motor == VoltageCalculated(BreakersCalculated(sim.motor, sim.newOutput, sim.input, ts).0,
                                               sim.newOutput[0], ts - sim.prevTs)
            && next.info.outputPort == next.output && next.info.inputPort == next.input
            && next.info.motorVoltage == next.motor.voltage && next.info.motorCurrent == next.motor.current
            && next.info.commVoltage == next.comm.voltage && next.info.commCurrent == next.comm.current
            && next.info.motorBreakerClosed == next.motor.closed && next.info.commBreakerClosed == next.comm.closed
            && next.info.timestamp == ts && next.info.iterations == sim.iterations
    ensures var input1 := BreakersCalculated(sim.motor, sim.newOutput, sim.input, ts).1;
            Iterated(sim, ts).comm == VoltageCalculated(BreakersCalculated(sim.comm, sim.newOutput, input1, ts).0,
                                                        sim.newOutput[1], ts - sim.prevTs)
  {
    hide BreakersCalculated, VoltageCalculated;
  }

  /** An unforced simulated subsystem within its bounds. */
  predicate WithinBounds(s: SimSub) {
    && !s.overVoltage && !s.overCurrent
    && 0.0 <= s.voltage <= Cfg(s.kind).nominalVoltage
    && 0.0 <= s.current <= 0.75 * Cfg(s.kind).maxCurrent
  }

  /** Whatever the controller writes, an unforced simulator keeps the voltage between zero and nominal
      and the current at most three quarters of the maximum. */
  lemma SimStaysWithinBounds(sim: Sim, ts: real)
    requires sim.motor.kind == MOTOR && sim.comm.kind == COMM && sim.prevTs <= ts
    requires WithinBounds(sim.motor) && WithinBounds(sim.comm)
    ensures WithinBounds(Iterated(sim, ts).motor) && WithinBounds(Iterated(sim, ts).comm)
  {}

  /** The simulator as constructed: no output, the supplies healthy, the breakers closed but their bits
      not yet written. The snapshot is whatever memory holds. */
  function InitialSim(info: SysInfo): Sim {
    Sim(NO_OUTPUT, NO_OUTPUT, seq(32, i => i < 6), InitialSimSub(MOTOR), InitialSimSub(COMM), info, 0, 0.0)
  }

  const NO_OUTPUT: OutputPort := [false, false, false, false, false, false, false, false]

  function InitialSimSub(kind: PowerSystemType): SimSub {
    SimSub(kind, 0.0, 0.0, true, false, true, 0.0, false, false)
  }

  /** Supplies healthy and interlock relay closed. */
  predicate Healthy(input: InputPort) {
    && !InputBit(input, INTERLOCK_POWER_RELAY)
    && InputBit(input, REDUNDANCY_OK) && InputBit(input, LOAD_DISTRIBUTION_OK)
    && InputBit(input, POWER_SUPPLY_1_DC_OK) && InputBit(input, POWER_SUPPLY_2_DC_OK)
    && InputBit(input, POWER_SUPPLY_1_CURRENT_OK) && InputBit(input, POWER_SUPPLY_2_CURRENT_OK)
  }

  lemma WrittenAt(input: InputPort, kind: PowerSystemType, p: nat)
    requires p < 32
    ensures BitsWritten(input, BreakerPositions(kind), true)[p] ==
            (input[p] || (if kind == MOTOR then 6 <= p < 15 else p == 15 || 24 <= p < 29))
  {
    if kind == MOTOR {
      assert BreakerPositions(MOTOR) == [6, 7, 8, 9, 10, 11, 12, 13, 14];
    } else {
      assert BreakerPositions(COMM) == [15, 24, 25, 26, 27, 28];
    }
  }

  predicate AllHigh(input: InputPort, kind: PowerSystemType) {
    if kind == MOTOR then forall p | 6 <= p < 15 :: input[p]
    else input[15] && forall p | 24 <= p < 29 :: input[p]
  }

  lemma AllHighIsGood(input: InputPort, kind: PowerSystemType)
    requires AllHigh(input, kind)
    ensures BreakerStatus(kind, input) == GOOD
  {}

  /** Writing the breaker bits of one subsystem high makes its breakers good and lowers no bit. */
  lemma BreakersWritten(input: InputPort, kind: PowerSystemType)
    ensures var written := BitsWritten(input, BreakerPositions(kind), true);
            && AllHigh(written, kind)
            && (Healthy(input) ==> Healthy(written))
            && (forall other :: AllHigh(input, other) ==> AllHigh(written, other))
  {
    var written := BitsWritten(input, BreakerPositions(kind), true);
    hide BitsWritten;
    forall p: nat | p < 32
      ensures written[p] == (input[p] || (if kind == MOTOR then 6 <= p < 15 else p == 15 || 24 <= p < 29))
    {
      WrittenAt(input, kind, p);
    }
  }
}
