/** The controller closed over the unforced simulator: power that is commanded on comes up, exactly
    when the timers allow, and stays up. */
module ClosedLoop {
  import opened ControlDefs
  import opened FaultStatusBits
  import opened PowerLogic
  import opened SystemStates
  import opened CellLogic
  import opened SimLogic
  import opened LoopLogic
  import FaultRecord
  import FaultMgr

  // A snapshot as old as four simulator periods.
  const MAX_AGE := 0.1

  // ---- What each subsystem is doing ----

  /** Starting: `n` passes done, the first at `first`, the tenth at `tenth`. */
  datatype Mode = Idle | Commanded | Starting(n: nat, first: real, tenth: real) | Running

  /** When the time in phase of a starting subsystem began. */
  function Since(m: Mode): real
    requires m.Starting?
  {
    if m.n < 10 then m.first else m.tenth
  }

  function Advanced(m: Mode, kind: PowerSystemType, d: real): Mode {
    match m
    case Idle => Idle
    case Commanded => Starting(1, d, d)
    case Starting(n, first, tenth) =>
      if n >= 9 && d - Since(m) > Cfg(kind).outputOnMaxDelay then Running
      else Starting(n + 1, first, if n + 1 == 10 then d else tenth)
    case Running => Running
  }

  predicate SubIn(s: Sub, m: Mode) {
    match m
    case Idle => s.targ == OFF && s.actual == OFF
    case Commanded => s.targ == ON && s.actual == OFF && s.phase == 1 && s.telemCounter == 0
    case Starting(n, first, tenth) =>
      && n >= 1 && s.targ == ON && s.actual == TURNING_ON && s.phaseStart == Since(m)
      && (if n < 10 then s.phase == 1 && s.telemCounter == n else s.phase == 2)
    case Running => s.targ == ON && s.actual == ON && (s.phase == 1 || s.phase == 2)
  }

  predicate IsHigh(m: Mode) { m.Starting? || m.Running? }

  /** The voltage a mode guarantees at time `t`. */
  predicate VoltsFor(kind: PowerSystemType, volts: real, m: Mode, t: real) {
    && 0.0 <= volts <= 24.0
    && (m.Starting? ==> volts >= Min(24.0, Rise(kind, t - m.first)))
    && (m.Running? ==> volts == 24.0)
  }

  /** The mode relies on closed breakers at time `t`. */
  predicate NeedsBreakers(kind: PowerSystemType, m: Mode, t: real) {
    m.Running? || (m.Starting? && t - m.first > BreakerCloseTime(kind))
  }

  /** The snapshot that `s` holds fits its mode. */
  predicate Fits(s: Sub, m: Mode) {
    && VoltsFor(s.kind, Voltage(s), m, s.info.timestamp)
    && Current(s) <= Cfg(s.kind).maxCurrent
    && (NeedsBreakers(s.kind, m, s.info.timestamp) ==> BreakerStatus(s.kind, s.info.inputPort) == GOOD)
    && CrioReady(s) && InterlockRelayOn(s)
    && (RelayOn(s) <==> IsHigh(m))
  }

  /** What a pass at time `d` relies on in its snapshot. */
  predicate InfoFor(s: Sub, m: Mode, d: real) {
    && Fits(s, m)
    && (m.Starting? ==> s.info.timestamp <= d <= s.info.timestamp + MAX_AGE && (m.n >= 10 ==> m.first <= m.tenth))
  }

  /** What is left alone by a pass. */
  predicate SameRest(s: Sub, t: Sub) {
    t.kind == s.kind && t.info == s.info && t.targPrev == s.targPrev && t.actualPrev == s.actualPrev
  }

  /** One pass moves a subsystem to its next mode, writes nothing and raises no fault. */
  lemma PassAdvances(s: Sub, port: OutputPort, m: Mode, d: real)
    requires SubIn(s, m) && InfoFor(s, m, d)
    ensures var o := Pass(s, port, {}, d);
            && o == Out(o.sub, port, {}) && SameRest(s, o.sub) && SubIn(o.sub, Advanced(m, s.kind, d))
            && (Advanced(m, s.kind, d).Running? ==> Voltage(s) == 24.0)
  {
    match m {
      case Idle =>
      case Commanded => FirstPass(s, port, d);
      case Starting(n, first, tenth) => StartingPass(s, port, m, d);
      case Running => RunningPass(s, port, d);
    }
  }

  lemma FirstPass(s: Sub, port: OutputPort, d: real)
    requires SubIn(s, Commanded) && InfoFor(s, Commanded, d)
    ensures var o := Pass(s, port, {}, d);
            o == Out(o.sub, port, {}) && SameRest(s, o.sub) && SubIn(o.sub, Starting(1, d, d))
  {
    hide BreakerStatus;
  }

  lemma StartingPass(s: Sub, port: OutputPort, m: Mode, d: real)
    requires m.Starting? && SubIn(s, m) && InfoFor(s, m, d)
    ensures var o := Pass(s, port, {}, d);
            && o == Out(o.sub, port, {}) && SameRest(s, o.sub) && SubIn(o.sub, Advanced(m, s.kind, d))
            && (Advanced(m, s.kind, d).Running? ==> Voltage(s) == 24.0)
  {
    hide BreakerStatus;
    if m.n >= 9 && d - Since(m) > Cfg(s.kind).outputOnMaxDelay {
      assert s.info.timestamp - m.first >= Cfg(s.kind).outputOnMaxDelay - MAX_AGE;
      assert Voltage(s) == 24.0;
      assert BreakerStatus(s.kind, s.info.inputPort) == GOOD;
    }
  }

  lemma RunningPass(s: Sub, port: OutputPort, d: real)
    requires SubIn(s, Running) && InfoFor(s, Running, d)
    ensures var o := Pass(s, port, {}, d);
            o == Out(o.sub, port, {}) && SubIn(o.sub, Running) && SameRest(s, o.sub)
  {
    hide BreakerStatus;
  }

  // ---- One snapshot through the whole controller ----

  /** Offline and startup are the states whose power reports turn power off. */
  predicate Powered(state: StateEnum) { state != OFFLINESTATE && state != STARTUPSTATE }

  predicate Unblocked(f: FaultMgr.Faults) {
    !FaultMgr.Blocked(f, CheckMask(MOTOR)) && !FaultMgr.Blocked(f, CheckMask(COMM))
  }

  /** The state after a power report in a state that keeps power. */
  function ReportedState(state: StateEnum, allOn: bool): StateEnum
    requires Powered(state)
  {
    if state == STANDBYSTATE then if allOn then IDLESTATE else STANDBYSTATE
    else if allOn then state else STANDBYSTATE
  }

  lemma ReportKeepsPower(c: Cell, d: real)
    requires Powered(c.state)
    ensures Report(c, d) == c.(state := ReportedState(c.state, AllOn(c)))
  {}

  lemma SnapshotStep(c: Cell, kind: PowerSystemType, info: SysInfo, d: real)
    requires Powered(c.state) && !IsBlocked(c, kind)
    ensures var e := SubsystemSnapshot(c, kind, info, d);
            && e.state == (if Changed(SubOf(c, kind)) then ReportedState(c.state, AllOn(c)) else c.state)
            && Powered(e.state)
            && e == WithSub(c, kind, Noted(SubOf(c, kind).(info := info)), c.port).(state := e.state)
  {
    hide Report, IsBlocked;
    ReportKeepsPower(WithSub(c, kind, SubOf(c, kind).(info := info), c.port), d);
  }

  lemma EmptyReport(f: FaultMgr.Faults)
    requires Unblocked(f)
    ensures Unblocked(FaultMgr.PowerUpdated(f, {}).0) && !FaultMgr.PowerUpdated(f, {}).1
  {
    var r := f.power;
    var g := FaultMgr.PowerUpdated(f, {}).0;
    assert g.power.current + g.power.summary <= r.current + r.summary;
    forall kind
      ensures CheckMask(kind) * g.power.enableMask * (g.power.current + g.power.summary) == {}
    {
      assert !FaultMgr.Blocked(f, CheckMask(kind));
    }
  }

  /** Both subsystems in their modes, nothing blocked, a state that keeps power. */
  predicate CellIn(c: Cell, mm: Mode, cm: Mode) {
    && c.motor.kind == MOTOR && c.comm.kind == COMM
    && SubIn(c.motor, mm) && SubIn(c.comm, cm)
    && Powered(c.state) && Unblocked(c.faults)
  }

  /** A subsystem after its part of a snapshot: it has noted the states it had before. */
  predicate NotedFrom(s: Sub, t: Sub, info: SysInfo) {
    t.kind == s.kind && t.info == info && t.targPrev == s.targ && t.actualPrev == s.actual
  }

  /** One subsystem's part of a snapshot. */
  lemma SubsystemAdvances(c: Cell, kind: PowerSystemType, info: SysInfo, m: Mode, d: real)
    requires Powered(c.state) && Unblocked(c.faults) && SubOf(c, kind).kind == kind
    requires SubIn(SubOf(c, kind), m) && InfoFor(SubOf(c, kind).(info := info), m, d)
    ensures var (e, f) := SubsystemPass(SubsystemSnapshot(c, kind, info, d), kind, {}, d);
            && f == {} && e == WithSub(c, kind, SubOf(e, kind), c.port).(state := e.state)
            && e.state == (if Changed(SubOf(c, kind)) then ReportedState(c.state, AllOn(c)) else c.state)
            && Powered(e.state)
            && SubIn(SubOf(e, kind), Advanced(m, kind, d)) && NotedFrom(SubOf(c, kind), SubOf(e, kind), info)
            && (Advanced(m, kind, d).Running? ==> Voltage(SubOf(c, kind).(info := info)) == 24.0)
  {
    hide Pass, SubsystemSnapshot, FaultMgr.Blocked, Advanced, BreakerStatus, VoltsFor, NeedsBreakers;
    var c1 := SubsystemSnapshot(c, kind, info, d);
    assert !IsBlocked(c, kind);
    SnapshotStep(c, kind, info, d);
    assert SubOf(c1, kind) == Noted(SubOf(c, kind).(info := info));
    PassAdvances(SubOf(c1, kind), c1.port, m, d);
  }

  /** The system state after a snapshot: a changed subsystem reports before its own pass. */
  function StateAfterDaq(c: Cell, mm: Mode, cm: Mode, d: real): StateEnum
    requires Powered(c.state)
  {
    var s1 := if Changed(c.motor) then ReportedState(c.state, mm.Running? && cm.Running?) else c.state;
    if Changed(c.comm) then ReportedState(s1, Advanced(mm, MOTOR, d).Running? && cm.Running?) else s1
  }

  lemma AllOnIs(c: Cell, mm: Mode, cm: Mode)
    requires SubIn(c.motor, mm) && SubIn(c.comm, cm)
    ensures AllOn(c) <==> mm.Running? && cm.Running?
  {}

  /** The whole snapshot: both subsystems advance, the port is not written, nothing becomes blocked. */
  lemma DaqAdvances(c: Cell, info: SysInfo, mm: Mode, cm: Mode, d: real)
    requires CellIn(c, mm, cm)
    requires InfoFor(c.motor.(info := info), mm, d) && InfoFor(c.comm.(info := info), cm, d)
    requires HealthFaults(info) == {} && !MotorWithoutComm(info)
    ensures var e := ProcessDaq(c, info, d);
            && CellIn(e, Advanced(mm, MOTOR, d), Advanced(cm, COMM, d)) && e.port == c.port
            && e.state == StateAfterDaq(c, mm, cm, d)
            && NotedFrom(c.motor, e.motor, info) && NotedFrom(c.comm, e.comm, info)
            && (Advanced(mm, MOTOR, d).Running? ==> info.motorVoltage == 24.0)
            && (Advanced(cm, COMM, d).Running? ==> info.commVoltage == 24.0)
  {
    hide SubsystemSnapshot, SubsystemPass, InfoFor, SubIn, Unblocked, FaultMgr.PowerUpdated, Advanced, HealthFaults,
      MotorWithoutComm, AllOn;
    assert DaqChecks(c, info, d) == c;
    SubsystemAdvances(c, MOTOR, info, mm, d);
    AllOnIs(c, mm, cm);
    var (c2, f2) := SubsystemPass(SubsystemSnapshot(c, MOTOR, info, d), MOTOR, {}, d);
    SubsystemAdvances(c2, COMM, info, cm, d);
    AllOnIs(c2, Advanced(mm, MOTOR, d), cm);
    var (c3, f3) := SubsystemPass(SubsystemSnapshot(c2, COMM, info, d), COMM, f2, d);
    EmptyReport(c3.faults);
  }

  // ---- The plant ----

  /** The breaker closes a while after its line went high at `closedTargTs`. */
  predicate BreakerIn(s: SimSub, kind: PowerSystemType, m: Mode, t: real) {
    && s.closedTarg && s.closed == s.closedPrev && s.closedTargTs <= t
    && (s.closed || t - s.closedTargTs <= BreakerCloseTime(kind))
    && (m.Starting? ==> s.closedTargTs <= m.first)
    && (m.Running? ==> s.closed)
  }

  predicate PlantIn(s: SimSub, kind: PowerSystemType, m: Mode, t: real) {
    && s.kind == kind && !s.overVoltage && !s.overCurrent
    && VoltsFor(kind, s.voltage, m, t)
    && s.current <= 0.75 * Cfg(kind).maxCurrent
    && BreakerIn(s, kind, m, t)
  }

  /** Interlock enabled, breaker lines high, and the power bits as given. */
  predicate BitsAre(port: OutputPort, motor: bool, comm: bool) {
    && port[CRIO_INTERLOCK_ENABLE] && port[RESET_MOTOR_BREAKERS] && port[RESET_COMM_BREAKERS]
    && port[MOTOR_POWER_ON] == motor && port[ILC_COMM_POWER_ON] == comm
  }

  /** The snapshot of the simulator shows its state. */
  predicate InfoCurrent(sim: Sim) {
    && sim.info.outputPort == sim.output && sim.info.inputPort == sim.input
    && sim.info.motorVoltage == sim.motor.voltage && sim.info.motorCurrent == sim.motor.current
    && sim.info.commVoltage == sim.comm.voltage && sim.info.commCurrent == sim.comm.current
    && sim.info.timestamp == sim.prevTs
  }

  /** Supplies healthy, and the bits of every closed breaker high. */
  predicate InputIn(sim: Sim) {
    && Healthy(sim.input)
    && (sim.motor.closed ==> AllHigh(sim.input, MOTOR)) && (sim.comm.closed ==> AllHigh(sim.input, COMM))
  }

  predicate SimIn(sim: Sim, mm: Mode, cm: Mode) {
    PlantIn(sim.motor, MOTOR, mm, sim.prevTs) && PlantIn(sim.comm, COMM, cm, sim.prevTs) && InputIn(sim)
  }

  /** One iteration at time `ts` for one subsystem: it keeps its mode, and a full voltage stays full. */
  lemma SubIterates(s: SimSub, kind: PowerSystemType, m: Mode, t: real, output: OutputPort, input: InputPort, ts: real)
    requires PlantIn(s, kind, m, t) && t <= ts
    requires output[Cfg(kind).breakerPos] && (IsHigh(m) ==> output[Cfg(kind).powerOnPos])
    ensures var (s1, input1) := BreakersCalculated(s, output, input, ts);
            var s2 := VoltageCalculated(s1, output[Cfg(kind).powerOnPos], ts - t);
            && PlantIn(s2, kind, m, ts) && s2.closed == s1.closed
            && (IsHigh(m) && s.voltage == 24.0 ==> s2.voltage == 24.0)
            && input1 == (if s1.closed == s.closed then input else BitsWritten(input, BreakerPositions(kind), true))
            && (s.closed ==> s1.closed)
  {
    hide BitsWritten, BreakerPositions;
  }

  lemma InputStep(input: InputPort, kind: PowerSystemType, before: bool, after: bool)
    requires Healthy(input) && (before ==> AllHigh(input, kind)) && (before ==> after)
    ensures var next := if after == before then input else BitsWritten(input, BreakerPositions(kind), true);
            && Healthy(next) && (after ==> AllHigh(next, kind))
            && (forall other :: AllHigh(input, other) ==> AllHigh(next, other))
  {
    BreakersWritten(input, kind);
  }

  /** The power bits sent out suit the modes. */
  predicate OutputIn(port: OutputPort, mm: Mode, cm: Mode) {
    && port[CRIO_INTERLOCK_ENABLE] && port[RESET_MOTOR_BREAKERS] && port[RESET_COMM_BREAKERS]
    && (IsHigh(mm) ==> port[MOTOR_POWER_ON]) && (IsHigh(cm) ==> port[ILC_COMM_POWER_ON])
  }

  lemma IterationKeeps(sim: Sim, mm: Mode, cm: Mode, ts: real)
    requires SimIn(sim, mm, cm) && sim.prevTs <= ts && OutputIn(sim.newOutput, mm, cm)
    ensures var next := Iterated(sim, ts);
            && SimIn(next, mm, cm) && InfoCurrent(next) && next.newOutput == sim.newOutput == next.output
            && next.prevTs == ts
            && (IsHigh(mm) && sim.motor.voltage == 24.0 ==> next.motor.voltage == 24.0)
            && (IsHigh(cm) && sim.comm.voltage == 24.0 ==> next.comm.voltage == 24.0)
  {
    hide BreakersCalculated, VoltageCalculated, PlantIn, Healthy, AllHigh, BitsWritten;
    SubIterates(sim.motor, MOTOR, mm, sim.prevTs, sim.newOutput, sim.input, ts);
    var (motor1, input1) := BreakersCalculated(sim.motor, sim.newOutput, sim.input, ts);
    InputStep(sim.input, MOTOR, sim.motor.closed, motor1.closed);
    SubIterates(sim.comm, COMM, cm, sim.prevTs, sim.newOutput, input1, ts);
    var (comm1, input2) := BreakersCalculated(sim.comm, sim.newOutput, input1, ts);
    InputStep(input1, COMM, sim.comm.closed, comm1.closed);
  }

  // ---- The loop ----

  /** The passes so far were not after `t`. */
  predicate Paced(m: Mode, t: real) {
    m.Starting? ==> m.n >= 1 && m.first <= t && (m.n >= 10 ==> m.first <= m.tenth <= t)
  }

  /** The snapshot held for a queued read fits the modes. It is no newer than the plant, and where it
      shows full voltage the plant has full voltage. */
  predicate HeldIn(l: Loop, mm: Mode, cm: Mode) {
    && Fits(l.cell.motor.(info := l.held), mm) && Fits(l.cell.comm.(info := l.held), cm)
    && Healthy(l.held.inputPort) && !MotorWithoutComm(l.held) && l.held.timestamp <= l.sim.prevTs
    && (IsHigh(mm) && l.held.motorVoltage == 24.0 ==> l.sim.motor.voltage == 24.0)
    && (IsHigh(cm) && l.held.commVoltage == 24.0 ==> l.sim.comm.voltage == 24.0)
  }

  /** The controller and the plant with the motor in mode `mm` and comm in mode `cm`. A command goes out with
      the next exchange; at most one read is queued. */
  predicate LoopIn(l: Loop, mm: Mode, cm: Mode) {
    && CellIn(l.cell, mm, cm) && BitsAre(l.cell.port, mm != Idle, cm != Idle)
    && SimIn(l.sim, mm, cm) && InfoCurrent(l.sim)
    && Paced(mm, l.readTime) && Paced(cm, l.readTime)
    && (mm != Idle ==> cm == Running)
    && (if l.queued == 0 then BitsAre(l.sim.newOutput, IsHigh(mm), IsHigh(cm))
        else l.queued == 1 && l.sim.newOutput == l.cell.port && HeldIn(l, mm, cm))
  }

  /** Nothing in the loop is later than the stage. */
  predicate StageIn(s: Stage, mm: Mode, cm: Mode) {
    LoopIn(s.l, mm, cm) && s.l.sim.prevTs <= s.time && s.l.readTime <= s.time
  }

  lemma FitsNow(s: Sub, kind: PowerSystemType, sim: Sim, m: Mode)
    requires s.kind == kind && InfoCurrent(sim) && InputIn(sim)
    requires PlantIn(SimOf(sim, kind), kind, m, sim.prevTs)
    requires sim.output[CRIO_INTERLOCK_ENABLE] && sim.output[Cfg(kind).powerOnPos] == IsHigh(m)
    ensures Fits(s.(info := sim.info), m)
  {
    hide BreakerStatus, AllHigh;
    if SimOf(sim, kind).closed { AllHighIsGood(sim.input, kind); }
  }

  lemma HealthIsGood(info: SysInfo)
    requires Healthy(info.inputPort)
    ensures HealthFaults(info) == {}
  {}

  lemma KindsOf(c: Cell, mm: Mode, cm: Mode)
    requires CellIn(c, mm, cm)
    ensures c.motor.kind == MOTOR && c.comm.kind == COMM && Powered(c.state)
  {}

  /** A round of the FPGA loop, once the simulator has taken up what was sent out before. */
  lemma ExchangeKeeps(l: Loop, mm: Mode, cm: Mode, now: real)
    requires LoopIn(l, mm, cm) && l.queued == 0 && l.sim.output == l.sim.newOutput
    ensures LoopIn(After(l, Exchange(now)), mm, cm)
  {
    hide PlantIn, Healthy, AllHigh, CellIn, Fits;
    KindsOf(l.cell, mm, cm);
    FitsNow(l.cell.motor, MOTOR, l.sim, mm);
    FitsNow(l.cell.comm, COMM, l.sim, cm);
  }

  lemma TickKeeps(l: Loop, mm: Mode, cm: Mode, now: real)
    requires LoopIn(l, mm, cm) && l.sim.prevTs <= now
    ensures LoopIn(After(l, Tick(now)), mm, cm) && After(l, Tick(now)).sim.prevTs == now
  {
    hide SimIn, InfoCurrent, CellIn, Fits, Iterated, Healthy;
    IterationKeeps(l.sim, mm, cm, now);
  }

  /** The read snapshot shows what the plant still is, so the plant fits the next mode too. */
  lemma PlantAdvances(s: SimSub, kind: PowerSystemType, m: Mode, t: real, d: real)
    requires PlantIn(s, kind, m, t) && t <= d && (m.Starting? ==> d <= t + MAX_AGE)
    requires m.Starting? && m.n >= 10 ==> m.first <= m.tenth
    requires Advanced(m, kind, d).Running? ==> s.voltage == 24.0
    ensures PlantIn(s, kind, Advanced(m, kind, d), t)
  {}

  lemma ModesAdvance(m: Mode, kind: PowerSystemType, t: real, d: real)
    requires Paced(m, t) && t <= d
    ensures var m1 := Advanced(m, kind, d);
            Paced(m1, d) && (m1 == Idle <==> m == Idle) && IsHigh(m1) == (m != Idle) && (m == Running ==> m1 == Running)
    ensures Advanced(m, kind, d).Running? ==> IsHigh(m)
  {}

  /** The snapshot is not old. */
  predicate Fresh(l: Loop, d: real) { d <= l.held.timestamp + MAX_AGE }

  predicate AnyStarting(mm: Mode, cm: Mode) { mm.Starting? || cm.Starting? }

  /** What a read changes in the cell besides the modes. */
  predicate ReadFrom(l: Loop, next: Loop, mm: Mode, cm: Mode, d: real)
    requires Powered(l.cell.state)
  {
    && next.cell.state == StateAfterDaq(l.cell, mm, cm, d)
    && NotedFrom(l.cell.motor, next.cell.motor, l.held) && NotedFrom(l.cell.comm, next.cell.comm, l.held)
    && CrioReady(next.cell.motor)
  }

  /** The queued read moves both subsystems to their next modes. */
  lemma ReadAdvances(l: Loop, mm: Mode, cm: Mode, d: real)
    requires LoopIn(l, mm, cm) && l.queued == 1 && l.sim.prevTs <= d && l.readTime <= d
    requires d - l.held.timestamp <= SYS_INFO_TIMEOUT && (AnyStarting(mm, cm) ==> Fresh(l, d))
    ensures LoopIn(After(l, Read(d)), Advanced(mm, MOTOR, d), Advanced(cm, COMM, d))
    ensures Powered(l.cell.state) && ReadFrom(l, After(l, Read(d)), mm, cm, d)
  {
    hide ProcessDaq, PlantIn, Healthy, Advanced, HealthFaults, CellIn, SubIn, Fits, AllHigh, StateAfterDaq;
    KindsOf(l.cell, mm, cm);
    HealthIsGood(l.held);
    DaqAdvances(l.cell, l.held, mm, cm, d);
    ModesAdvance(mm, MOTOR, l.readTime, d);
    ModesAdvance(cm, COMM, l.readTime, d);
    PlantAdvances(l.sim.motor, MOTOR, mm, l.sim.prevTs, d);
    PlantAdvances(l.sim.comm, COMM, cm, l.sim.prevTs, d);
    assert CrioReady(l.cell.motor.(info := l.held)) by { FitsReady(l.cell.motor.(info := l.held), mm); }
  }

  lemma FitsReady(s: Sub, m: Mode)
    requires Fits(s, m)
    ensures CrioReady(s)
  {}

  // ---- Runs ----

  /** Rounds, reads, checks and iterations at any times, without further calls on the controller. A round
      finds the last read carried out and its output taken up by the simulator; a read finds a snapshot
      that is not over the time-out. */
  predicate Round(s: Stage, e: LoopEvent) {
    match e
    case Control(_) => false
    case Exchange(_) => s.l.queued == 0 && s.l.sim.output == s.l.sim.newOutput
    case Read(now) => now - s.l.held.timestamp <= SYS_INFO_TIMEOUT
    case _ => true
  }

  ghost predicate IsRun(run: seq<Stage>, events: seq<LoopEvent>) {
    && |run| == |events| + 1
    && forall i | 0 <= i < |events| :: StepsTo(run[i], events[i], run[i + 1]) && Round(run[i], events[i])
  }

  /** One event of a run. */
  lemma RoundKeeps(s: Stage, e: LoopEvent, mm: Mode, cm: Mode)
    requires StageIn(s, mm, cm) && Allowed(s, e) && Round(s, e) && (e.Check? ==> !Late(s.l, e.now))
    requires e.Read? && AnyStarting(mm, cm) ==> Fresh(s.l, e.now)
    ensures e.Read? ==> StageIn(StageAfter(s, e), Advanced(mm, MOTOR, e.now), Advanced(cm, COMM, e.now))
    ensures e.Read? ==> Powered(s.l.cell.state) && ReadFrom(s.l, StageAfter(s, e).l, mm, cm, e.now)
    ensures !e.Read? ==> StageIn(StageAfter(s, e), mm, cm) && StageAfter(s, e).l.cell == s.l.cell
  {
    assert s.l.queued <= 1 && s.time <= TimeOf(e);
    hide LoopIn, CellLogic.Next, Iterated, ReadFrom, Advanced;
    match e {
      case Exchange(now) => ExchangeKeeps(s.l, mm, cm, now);
      case Tick(now) => TickKeeps(s.l, mm, cm, now);
      case Read(now) => ReadAdvances(s.l, mm, cm, now);
      case Check(now) =>
    }
  }

  /** The mode, after reads at the times `rs`, of a subsystem commanded on before. */
  function ModeAfter(kind: PowerSystemType, rs: seq<real>): Mode {
    if rs == [] then Commanded else Advanced(ModeAfter(kind, rs[..|rs| - 1]), kind, rs[|rs| - 1])
  }

  /** It is ON after these reads exactly when the tenth came more than `outputOnMaxDelay` after the first, or
      the latest that much after the tenth. */
  predicate UpAfter(kind: PowerSystemType, rs: seq<real>) {
    var n, delay := |rs|, Cfg(kind).outputOnMaxDelay;
    n >= 10 && (rs[9] - rs[0] > delay || (n > 10 && rs[n - 1] - rs[9] > delay))
  }

  predicate Ascending(rs: seq<real>) { forall i, j | 0 <= i <= j < |rs| :: rs[i] <= rs[j] }

  /** From the second read on, until the subsystem is up, snapshots are read fresh. */
  ghost predicate FreshUntilUp(kind: PowerSystemType, run: seq<Stage>, events: seq<LoopEvent>)
    requires |run| == |events| + 1
  {
    forall k | 0 <= k < |events| && events[k].Read? && Reads(events, k) != [] && !UpAfter(kind, Reads(events, k)) ::
      Fresh(run[k].l, events[k].now)
  }

  lemma {:induction false} ModeIs(kind: PowerSystemType, rs: seq<real>)
    requires Ascending(rs)
    ensures ModeAfter(kind, rs) ==
            if rs == [] then Commanded
            else if UpAfter(kind, rs) then Running
            else Starting(|rs|, rs[0], if |rs| >= 10 then rs[9] else rs[0])
  {
    if |rs| > 1 {
      var before := rs[..|rs| - 1];
      ModeIs(kind, before);
      UpStaysUp(kind, before, rs[|rs| - 1]);
      assert rs == before + [rs[|rs| - 1]];
    }
  }

  lemma UpStaysUp(kind: PowerSystemType, rs: seq<real>, d: real)
    requires Ascending(rs + [d])
    ensures UpAfter(kind, rs) ==> UpAfter(kind, rs + [d])
  {
    assert |rs| > 0 ==> (rs + [d])[|rs| - 1] <= (rs + [d])[|rs|];
  }

  function MotorMode(kind: PowerSystemType, rs: seq<real>): Mode {
    if kind == MOTOR then ModeAfter(MOTOR, rs) else Idle
  }

  function CommMode(kind: PowerSystemType, rs: seq<real>): Mode {
    if kind == COMM then ModeAfter(COMM, rs) else Running
  }

  /** In every stage of a run the starting subsystem is in the mode its timers give, and the other one
      keeps its mode. */
  lemma {:induction false} RunModes(kind: PowerSystemType, run: seq<Stage>, events: seq<LoopEvent>, i: nat)
    requires IsRun(run, events) && |run| == |events| + 1 && FreshUntilUp(kind, run, events) && i < |run|
    requires NoLateCheck(run, events, i)
    requires StageIn(run[0], MotorMode(kind, []), CommMode(kind, []))
    ensures var rs := Reads(events, i);
            && StageIn(run[i], MotorMode(kind, rs), CommMode(kind, rs))
            && Ascending(rs) && (rs != [] ==> rs[|rs| - 1] == run[i].l.readTime)
  {
    hide StageIn, Round, MotorMode, CommMode, StepsTo;
    if i > 0 {
      RunModes(kind, run, events, i - 1);
      RunStep(kind, run, events, i - 1);
    }
  }

  /** Event `k` of a run, from the modes before to the modes after. */
  lemma RunStep(kind: PowerSystemType, run: seq<Stage>, events: seq<LoopEvent>, k: nat)
    requires IsRun(run, events) && |run| == |events| + 1 && FreshUntilUp(kind, run, events) && k < |events|
    requires NoLateCheck(run, events, k + 1)
    requires var rs := Reads(events, k);
             && StageIn(run[k], MotorMode(kind, rs), CommMode(kind, rs))
             && Ascending(rs) && (rs != [] ==> rs[|rs| - 1] == run[k].l.readTime)
    ensures var rs, rs1 := Reads(events, k), Reads(events, k + 1);
            && StageIn(run[k + 1], MotorMode(kind, rs1), CommMode(kind, rs1))
            && Ascending(rs1) && (rs1 != [] ==> rs1[|rs1| - 1] == run[k + 1].l.readTime)
            && rs1 == (if events[k].Read? then rs + [events[k].now] else rs)
            && (if events[k].Read? then
                  && Powered(run[k].l.cell.state)
                  && ReadFrom(run[k].l, run[k + 1].l, MotorMode(kind, rs), CommMode(kind, rs), events[k].now)
                else run[k + 1].l.cell == run[k].l.cell)
  {
    hide LoopIn, ReadFrom, Round, CellLogic.Next, Iterated;
    var rs, e := Reads(events, k), events[k];
    var mm, cm := MotorMode(kind, rs), CommMode(kind, rs);
    assert StepsTo(run[k], e, run[k + 1]) && Round(run[k], e);
    ModeIs(kind, rs);
    RoundKeeps(run[k], e, mm, cm);
    if e.Read? { ReadModes(kind, rs, e.now); }
  }

  lemma ReadModes(kind: PowerSystemType, rs: seq<real>, d: real)
    ensures MotorMode(kind, rs + [d]) == Advanced(MotorMode(kind, rs), MOTOR, d)
    ensures CommMode(kind, rs + [d]) == Advanced(CommMode(kind, rs), COMM, d)
  {
    assert (rs + [d])[..|rs|] == rs;
  }

  /** A power-on command, given when no read is queued, is accepted and leaves the subsystem commanded. */
  lemma CommandIsAccepted(l: Loop, kind: PowerSystemType, now: real)
    requires LoopIn(l, Idle, if kind == MOTOR then Running else Idle) && l.queued == 0
    requires l.cell.state == STANDBYSTATE || l.cell.state == IDLESTATE
    requires kind == MOTOR ==> CrioReady(l.cell.motor)
    ensures var (c, ok) := CmdPower(l.cell, kind, true, now);
            && ok && c.state == l.cell.state && c.faults == l.cell.faults
            && (if kind == MOTOR then LoopIn(l.(cell := c), Commanded, Running)
                else LoopIn(l.(cell := c), Idle, Commanded))
            && (kind == MOTOR ==> c.comm == l.cell.comm) && (kind == COMM ==> c.motor == l.cell.motor)
  {
    hide InfoCurrent, InputIn, AllHigh, HeldIn;
  }

  /** Closed loop, with no fault latched, the interlock enabled, the breaker lines high, no time-out check
      that is late (`InTimeIsEnough`), and snapshots that are fresh until the subsystem is up: a power-on
      command is accepted; the subsystem then is turning on from the first read, and ON from the read on that
      `UpAfter` says. Its target stays ON, its power bit high, nothing gets blocked, and the other subsystem
      is not disturbed. */
  lemma PowerComesUpAndStays(s: Stage, kind: PowerSystemType, now: real,
                             run: seq<Stage>, events: seq<LoopEvent>, i: nat)
    requires StageIn(s, Idle, if kind == MOTOR then Running else Idle) && s.l.queued == 0 && s.time <= now
    requires s.l.cell.state == STANDBYSTATE || s.l.cell.state == IDLESTATE
    requires kind == MOTOR ==> CrioReady(s.l.cell.motor)
    requires IsRun(run, events) && |run| == |events| + 1 && FreshUntilUp(kind, run, events) && i < |run|
    requires NoLateCheck(run, events, i)
    requires run[0] == StageAfter(s, Control(Command(kind, true, now)))
    ensures CmdPower(s.l.cell, kind, true, now).1
    ensures var c, rs := run[i].l.cell, Reads(events, i);
            && SubOf(c, kind).targ == ON && c.port[Cfg(kind).powerOnPos]
            && SubOf(c, kind).actual == (if rs == [] then OFF else if UpAfter(kind, rs) then ON else TURNING_ON)
            && (if kind == MOTOR then c.comm.targ == ON && c.comm.actual == ON
                else c.motor.targ == OFF && c.motor.actual == OFF)
            && Unblocked(c.faults)
  {
    hide IsRun, SimIn, InfoCurrent, CmdPower, HeldIn, FreshUntilUp;
    CommandIsAccepted(s.l, kind, now);
    assert MotorMode(kind, []) == (if kind == MOTOR then Commanded else Idle);
    assert CommMode(kind, []) == (if kind == COMM then Commanded else Running);
    RunModes(kind, run, events, i);
    ModeIs(kind, Reads(events, i));
  }
}
