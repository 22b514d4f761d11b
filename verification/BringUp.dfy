/** From construction to motion-ready: comm power, then motor power, for every schedule and by a run that
    starts where the constructors do. */
module BringUp {
  import opened ControlDefs
  import opened FaultStatusBits
  import opened PowerLogic
  import opened SystemStates
  import opened CellLogic
  import opened CellSafety
  import opened SimLogic
  import opened LoopLogic
  import opened ClosedLoop
  import opened LoopRuns
  import FaultMgr
  import MotorOverComm

  // ---- The system state while power comes up ----

  /** The subsystem has noted that it is ON. */
  predicate NotedOn(s: Sub) { s.targPrev == ON && s.actualPrev == ON }

  /** The reads up to the one before the last. */
  function Earlier(rs: seq<real>): seq<real>
    requires rs != []
  {
    rs[..|rs| - 1]
  }

  /** It was up already at the read before the last. */
  predicate UpBefore(kind: PowerSystemType, rs: seq<real>) { rs != [] && UpAfter(kind, Earlier(rs)) }

  lemma ModesAre(kind: PowerSystemType, rs: seq<real>, s: Stage)
    requires Ascending(rs) && StageIn(s, MotorMode(kind, rs), CommMode(kind, rs))
    ensures kind == COMM ==> (UpAfter(COMM, rs) ==> s.l.cell.comm.targ == ON && s.l.cell.comm.actual == ON)
    ensures kind == MOTOR ==>
              && s.l.cell.motor.targ == ON && s.l.cell.comm.targ == ON && s.l.cell.comm.actual == ON
              && (s.l.cell.motor.actual == ON <==> UpAfter(MOTOR, rs))
    ensures UpBefore(kind, rs) ==> UpAfter(kind, rs)
  {
    hide SimIn, HeldIn, InfoCurrent;
    ModeIs(kind, rs);
    if rs != [] {
      assert rs == Earlier(rs) + [rs[|rs| - 1]];
      UpStaysUp(kind, Earlier(rs), rs[|rs| - 1]);
    }
  }

  /** While comm comes up the state stays standby, and comm notes what it was one read before. */
  ghost predicate CommNoted(c: Cell, rs: seq<real>) {
    && c.state == STANDBYSTATE
    && (rs != [] ==> CrioReady(c.motor))
    && (UpBefore(COMM, rs) ==> NotedOn(c.comm))
  }

  lemma {:induction false} CommStates(run: seq<Stage>, events: seq<LoopEvent>, i: nat)
    requires ClosedLoop.IsRun(run, events) && |run| == |events| + 1 && FreshUntilUp(COMM, run, events) && i < |run|
    requires NoLateCheck(run, events, i)
    requires StageIn(run[0], Idle, Commanded) && run[0].l.cell.state == STANDBYSTATE
    ensures CommNoted(run[i].l.cell, Reads(events, i))
  {
    hide StageIn, ClosedLoop.IsRun, FreshUntilUp, CommNoted, UpAfter, ReadFrom, Powered, Ascending;
    if i == 0 {
      StartsNoted(run[0].l.cell);
    } else {
      CommStates(run, events, i - 1);
      RunModes(COMM, run, events, i - 1);
      RunStep(COMM, run, events, i - 1);
      var rs := Reads(events, i - 1);
      if events[i - 1].Read? {
        CommNotes(run[i - 1], run[i].l, rs, events[i - 1].now);
      }
    }
  }

  lemma StartsNoted(c: Cell)
    requires c.state == STANDBYSTATE
    ensures CommNoted(c, [])
  {}

  lemma CommNotes(s: Stage, next: Loop, rs: seq<real>, d: real)
    requires Ascending(rs) && StageIn(s, Idle, ModeAfter(COMM, rs)) && CommNoted(s.l.cell, rs)
    requires Powered(s.l.cell.state) && ReadFrom(s.l, next, Idle, ModeAfter(COMM, rs), d)
    ensures CommNoted(next.cell, rs + [d])
  {
    hide StageIn, UpAfter;
    ModesAre(COMM, rs, s);
    assert Earlier(rs + [d]) == rs;
  }

  /** While the motor comes up the state is standby, and idle from the read after the one with which the
      motor becomes ON. The motor notes what it was one read before. */
  ghost predicate MotorNoted(c: Cell, rs: seq<real>) {
    && NotedOn(c.comm)
    && (rs != [] ==> c.motor.targPrev == ON && (c.motor.actualPrev == ON <==> UpBefore(MOTOR, rs)))
    && c.state == if UpBefore(MOTOR, rs) then IDLESTATE else STANDBYSTATE
  }

  lemma {:induction false} MotorStates(run: seq<Stage>, events: seq<LoopEvent>, i: nat)
    requires ClosedLoop.IsRun(run, events) && |run| == |events| + 1 && FreshUntilUp(MOTOR, run, events) && i < |run|
    requires NoLateCheck(run, events, i)
    requires StageIn(run[0], Commanded, Running)
    requires run[0].l.cell.state == STANDBYSTATE && NotedOn(run[0].l.cell.comm)
    ensures MotorNoted(run[i].l.cell, Reads(events, i))
  {
    hide StageIn, ClosedLoop.IsRun, FreshUntilUp, UpAfter, NotedOn;
    if i > 0 {
      hide MotorNoted, ReadFrom, Powered, Ascending;
      MotorStates(run, events, i - 1);
      RunModes(MOTOR, run, events, i - 1);
      RunStep(MOTOR, run, events, i - 1);
      var rs := Reads(events, i - 1);
      if events[i - 1].Read? {
        MotorNotes(run[i - 1], run[i].l, rs, events[i - 1].now);
      }
    }
  }

  lemma MotorNotes(s: Stage, next: Loop, rs: seq<real>, d: real)
    requires Ascending(rs) && StageIn(s, ModeAfter(MOTOR, rs), Running) && MotorNoted(s.l.cell, rs)
    requires Powered(s.l.cell.state) && ReadFrom(s.l, next, ModeAfter(MOTOR, rs), Running, d)
    ensures MotorNoted(next.cell, rs + [d])
  {
    hide StageIn;
    ModesAre(MOTOR, rs, s);
    ModeIs(MOTOR, rs);
    assert Earlier(rs + [d]) == rs;
  }

  /** For every schedule: comm power commanded on in standby, rounds until one read after it is up, motor
      power commanded on, rounds until one read after it is up. Both commands are accepted, everything is ON,
      and the system is idle. */
  lemma PowerBringsIdle(s: Stage, t1: real, runC: seq<Stage>, eventsC: seq<LoopEvent>,
                        t2: real, runM: seq<Stage>, eventsM: seq<LoopEvent>)
    requires StageIn(s, Idle, Idle) && s.l.queued == 0 && s.l.cell.state == STANDBYSTATE && s.time <= t1
    requires ClosedLoop.IsRun(runC, eventsC) && |runC| == |eventsC| + 1 && FreshUntilUp(COMM, runC, eventsC)
    requires NoLateCheck(runC, eventsC, |eventsC|)
    requires runC[0] == StageAfter(s, Control(Command(COMM, true, t1)))
    requires UpBefore(COMM, Reads(eventsC, |eventsC|))
    requires var up := runC[|eventsC|]; up.l.queued == 0 && up.time <= t2
    requires ClosedLoop.IsRun(runM, eventsM) && |runM| == |eventsM| + 1 && FreshUntilUp(MOTOR, runM, eventsM)
    requires NoLateCheck(runM, eventsM, |eventsM|)
    requires runM[0] == StageAfter(runC[|eventsC|], Control(Command(MOTOR, true, t2)))
    requires UpBefore(MOTOR, Reads(eventsM, |eventsM|))
    ensures CmdPower(s.l.cell, COMM, true, t1).1 && CmdPower(runC[|eventsC|].l.cell, MOTOR, true, t2).1
    ensures AllOn(runM[|eventsM|].l.cell) && runM[|eventsM|].l.cell.state == IDLESTATE
  {
    hide ClosedLoop.IsRun, FreshUntilUp, StageIn, UpBefore, StageAfter, CmdPower, CrioReady, NotedOn;
    CommandStage(s, COMM, t1);
    var up := CommIsUp(runC, eventsC);
    CommandStage(up, MOTOR, t2);
    MotorIsUp(runM, eventsM);
  }

  /** The stage after a command that is accepted. */
  lemma CommandStage(s: Stage, kind: PowerSystemType, now: real)
    requires StageIn(s, Idle, if kind == MOTOR then Running else Idle) && s.l.queued == 0 && s.time <= now
    requires s.l.cell.state == STANDBYSTATE && (kind == MOTOR ==> CrioReady(s.l.cell.motor))
    ensures CmdPower(s.l.cell, kind, true, now).1
    ensures var next := StageAfter(s, Control(Command(kind, true, now)));
            && StageIn(next, MotorMode(kind, []), CommMode(kind, [])) && next.l.cell.state == STANDBYSTATE
            && (kind == MOTOR ==> next.l.cell.comm == s.l.cell.comm)
  {
    hide LoopIn, CmdPower;
    CommandIsAccepted(s.l, kind, now);
  }

  /** The stage one read after comm has come up, with no read queued: ready for the motor command. */
  lemma CommIsUp(run: seq<Stage>, events: seq<LoopEvent>) returns (up: Stage)
    requires ClosedLoop.IsRun(run, events) && |run| == |events| + 1 && FreshUntilUp(COMM, run, events)
    requires NoLateCheck(run, events, |events|)
    requires StageIn(run[0], Idle, Commanded) && run[0].l.cell.state == STANDBYSTATE
    requires UpBefore(COMM, Reads(events, |events|))
    ensures up == run[|events|] && StageIn(up, Idle, Running) && up.l.cell.state == STANDBYSTATE
    ensures CrioReady(up.l.cell.motor) && NotedOn(up.l.cell.comm)
  {
    hide ClosedLoop.IsRun, FreshUntilUp, StageIn, UpAfter, CrioReady, NotedOn;
    up := run[|events|];
    RunModes(COMM, run, events, |events|);
    CommStates(run, events, |events|);
    ModesAre(COMM, Reads(events, |events|), up);
    ModeIs(COMM, Reads(events, |events|));
  }

  lemma MotorIsUp(run: seq<Stage>, events: seq<LoopEvent>)
    requires ClosedLoop.IsRun(run, events) && |run| == |events| + 1 && FreshUntilUp(MOTOR, run, events)
    requires NoLateCheck(run, events, |events|)
    requires StageIn(run[0], Commanded, Running)
    requires run[0].l.cell.state == STANDBYSTATE && NotedOn(run[0].l.cell.comm)
    requires UpBefore(MOTOR, Reads(events, |events|))
    ensures AllOn(run[|events|].l.cell) && run[|events|].l.cell.state == IDLESTATE
  {
    hide ClosedLoop.IsRun, FreshUntilUp, StageIn, UpAfter, NotedOn;
    RunModes(MOTOR, run, events, |events|);
    MotorStates(run, events, |events|);
    ModesAre(MOTOR, Reads(events, |events|), run[|events|]);
  }

  // ---- What a late time-out check does to it ----

  lemma ReachedHasInv(s: Stage)
    requires Reached(s)
    ensures Inv(s)
  {
    hide Inv, StepsTo, LoopRuns.Starts;
    var run, events :| LoopRuns.IsRun(run, events) && run[|events|] == s;
    RunKeepsInv(run, events, |events|);
  }

  /** Without calls on the controller, what is off stays off. */
  lemma RoundKeepsOff(s: Stage, e: LoopEvent, next: Stage, kind: PowerSystemType)
    requires Inv(s) && StepsTo(s, e, next) && Round(s, e)
    requires IsOff(s.l.cell, kind) || (e.Check? && Late(s.l, e.now))
    ensures IsOff(next.l.cell, kind)
  {
    hide Sound, SimBounded, DaqRead, Iterated, IsOff;
    match e {
      case Read(now) => DaqKeepsOff(s, now - s.l.held.timestamp > SYS_INFO_TIMEOUT, now, kind);
      case Check(now) =>
        if Late(s.l, now) { LateDaqTurnsOff(s, now, kind); }
      case _ =>
    }
  }

  lemma DaqKeepsOff(s: Stage, timedOut: bool, now: real, kind: PowerSystemType)
    requires Inv(s) && s.time <= now && IsOff(s.l.cell, kind)
    ensures IsOff(DaqRead(s.l.cell, s.l.held, timedOut, now), kind)
  {
    hide Sound, ProcessDaq, TimedOut, SimBounded;
    SoundLater(s.l.cell, s.time, now);
    TimedOutLowers(s.l.cell, now);
    DaqOnlyLowers(if timedOut then TimedOut(s.l.cell, now) else s.l.cell, s.l.held, now);
  }

  lemma {:induction false} LateCheckKeepsOff(run: seq<Stage>, events: seq<LoopEvent>, k: nat, i: nat,
                                             kind: PowerSystemType)
    requires ClosedLoop.IsRun(run, events) && |run| == |events| + 1 && Reached(run[0]) && k < i < |run|
    requires events[k].Check? && Late(run[k].l, events[k].now)
    ensures IsOff(run[i].l.cell, kind)
  {
    hide Inv, Reached, IsOff, StepsTo, Late, Round;
    assert StepsTo(run[i - 1], events[i - 1], run[i]) && Round(run[i - 1], events[i - 1]);
    RunIsReached(run, events, i - 1);
    ReachedHasInv(run[i - 1]);
    if k < i - 1 { LateCheckKeepsOff(run, events, k, i - 1, kind); }
    RoundKeepsOff(run[i - 1], events[i - 1], run[i], kind);
  }

  /** A subsystem that was commanded on is on, or turning on, if and only if no time-out check so far came
      more than the time-out after the last read. */
  lemma StaysOnIff(s: Stage, kind: PowerSystemType, now: real, run: seq<Stage>, events: seq<LoopEvent>, i: nat)
    requires Reached(s) && StageIn(s, Idle, if kind == MOTOR then Running else Idle) && s.l.queued == 0
    requires s.l.cell.state == STANDBYSTATE || s.l.cell.state == IDLESTATE
    requires (kind == MOTOR ==> CrioReady(s.l.cell.motor)) && s.time <= now
    requires ClosedLoop.IsRun(run, events) && |run| == |events| + 1 && FreshUntilUp(kind, run, events) && i < |run|
    requires run[0] == StageAfter(s, Control(Command(kind, true, now)))
    ensures SubOf(run[i].l.cell, kind).targ == ON <==> NoLateCheck(run, events, i)
    ensures run[i].l.cell.port[Cfg(kind).powerOnPos] <==> NoLateCheck(run, events, i)
  {
    hide ClosedLoop.IsRun, Reached, StageIn, FreshUntilUp, Late, CrioReady, Unblocked, UpAfter, StageAfter;
    if NoLateCheck(run, events, i) {
      PowerComesUpAndStays(s, kind, now, run, events, i);
    } else {
      var k :| 0 <= k < i && events[k].Check? && Late(run[k].l, events[k].now);
      NextIsReached(s, Control(Command(kind, true, now)));
      LateCheckKeepsOff(run, events, k, i, kind);
    }
  }

  // ---- Reaching the quiet loop ----

  /** A constructed controller once connected, set up, in standby and with the interlock enabled. */
  predicate Prepared(c: Cell) {
    && c.motor.kind == MOTOR && c.comm.kind == COMM
    && c.motor.targ == OFF && c.comm.targ == OFF && c.motor.actual == UNKNOWN && c.comm.actual == UNKNOWN
    && c.state == STANDBYSTATE && Unblocked(c.faults) && BitsAre(c.port, false, false)
  }

  /** The four calls that prepare it. */
  function Setup(c: Cell, now: real): Cell {
    var c1 := CellLogic.Next(c, Connections(1, now));
    var c2 := CellLogic.Next(c1, CellLogic.FinishSetup(now));
    var c3 := CellLogic.Next(c2, ChangeSystemState(STANDBYSTATE, now));
    CellLogic.Next(c3, Interlock(true, now))
  }

  lemma SetupPrepares(info: SysInfo, now: real)
    ensures Prepared(Setup(InitialCell(info, NO_OUTPUT, now), now))
  {
    hide InitialCell, FaultMgr.ConnectionsReported, TurnOffAll, GoToSafeMode, Unblocked, CmdPower, TryOn,
      TurnOff, DaqRead;
    ConnectedIsUnblocked();
    FreshCell(info, now);
  }

  lemma FreshCell(info: SysInfo, now: real)
    ensures var c := InitialCell(info, NO_OUTPUT, now);
            && c.motor.kind == MOTOR && c.comm.kind == COMM
            && c.motor.targ == OFF && c.comm.targ == OFF && c.motor.actual == UNKNOWN && c.comm.actual == UNKNOWN
            && c.faults == FaultMgr.INITIAL && c.state == STARTUPSTATE
            && BitsAre(c.port[CRIO_INTERLOCK_ENABLE := true], false, false)
  {}

  lemma ConnectedIsUnblocked()
    ensures Unblocked(FaultMgr.ConnectionsReported(FaultMgr.INITIAL, 1))
  {}

  lemma SetupIsReached(s: Stage, info: SysInfo, held: SysInfo, simInfo: SysInfo) returns (t: Stage)
    requires LoopRuns.Starts(s, info, held, simInfo)
    ensures Reached(t) && Prepared(t.l.cell) && t == Stage(s.l.(cell := t.l.cell), s.time)
  {
    hide CellLogic.Next, InitialCell, Prepared;
    assert LoopRuns.IsRun([s], []);
    assert Reached(s);
    SetupPrepares(info, s.time);
    t := s;
    var es := [Connections(1, s.time), CellLogic.FinishSetup(s.time), ChangeSystemState(STANDBYSTATE, s.time),
               Interlock(true, s.time)];
    NextIsReached(t, Control(es[0]));
    t := StageAfter(t, Control(es[0]));
    NextIsReached(t, Control(es[1]));
    t := StageAfter(t, Control(es[1]));
    NextIsReached(t, Control(es[2]));
    t := StageAfter(t, Control(es[2]));
    NextIsReached(t, Control(es[3]));
    t := StageAfter(t, Control(es[3]));
  }

  /** The simulator after its first iteration, before any output: breakers open, nothing powered. */
  predicate FirstIterated(sim: Sim, t: real) {
    && sim.newOutput == NO_OUTPUT && sim.output == NO_OUTPUT && sim.prevTs == t && Healthy(sim.input)
    && ColdSub(sim.motor, MOTOR, t) && ColdSub(sim.comm, COMM, t) && InfoCurrent(sim)
  }

  predicate ColdSub(s: SimSub, kind: PowerSystemType, t: real) {
    && s.kind == kind && s.voltage == 0.0 && s.current == 0.0 && !s.overVoltage && !s.overCurrent
    && !s.closed && !s.closedPrev && !s.closedTarg && s.closedTargTs <= t
  }

  lemma FirstTick(info: SysInfo, t: real)
    requires 0.0 <= t
    ensures FirstIterated(Iterated(InitialSim(info), t), t)
  {
    ColdStep(MOTOR, InitialSim(info).input, t);
    ColdStep(COMM, InitialSim(info).input, t);
    hide BreakersCalculated, VoltageCalculated;
  }

  lemma ColdStep(kind: PowerSystemType, input: InputPort, t: real)
    requires 0.0 <= t
    ensures var (s, next) := BreakersCalculated(InitialSimSub(kind), NO_OUTPUT, input, t);
            next == input && ColdSub(VoltageCalculated(s, false, t), kind, t)
  {}

  /** The first snapshot of a prepared controller: both subsystems are found OFF. */
  lemma FirstPassIsOff(s: Sub, port: OutputPort, d: real)
    requires s.targ == OFF && s.actual == UNKNOWN && !RelayOn(s) && Voltage(s) == 0.0
    ensures var o := Pass(s, port, {}, d);
            && o.sub.targ == OFF && o.sub.actual == OFF && o.sub.kind == s.kind && o.faults == {}
            && o.port == port[Cfg(s.kind).breakerPos := true][Cfg(s.kind).powerOnPos := false]
  {}

  lemma FirstSnapshot(c: Cell, kind: PowerSystemType, info: SysInfo, d: real)
    requires Powered(c.state) && Unblocked(c.faults) && SubOf(c, kind).kind == kind && c.state == STANDBYSTATE
    requires SubOf(c, kind).targ == OFF && SubOf(c, kind).actual == UNKNOWN
    requires info.outputPort == NO_OUTPUT && info.motorVoltage == 0.0 && info.commVoltage == 0.0
    ensures var (e, f) := SubsystemPass(SubsystemSnapshot(c, kind, info, d), kind, {}, d);
            && f == {} && e.state == STANDBYSTATE && e.faults == c.faults
            && SubOf(e, kind).targ == OFF && SubOf(e, kind).actual == OFF && SubOf(e, kind).kind == kind
            && SubOf(e, Other(kind)) == SubOf(c, Other(kind))
            && e.port == c.port[Cfg(kind).breakerPos := true][Cfg(kind).powerOnPos := false]
  {
    hide Pass, SubsystemSnapshot, FaultMgr.Blocked;
    assert !IsBlocked(c, kind);
    SnapshotStep(c, kind, info, d);
    var c1 := SubsystemSnapshot(c, kind, info, d);
    FirstPassIsOff(SubOf(c1, kind), c1.port, d);
  }

  /** The first read: a prepared controller processes the cold snapshot. */
  lemma FirstRead(c: Cell, info: SysInfo, t: real)
    requires Prepared(c) && Healthy(info.inputPort) && info.outputPort == NO_OUTPUT
    requires info.motorVoltage == 0.0 && info.commVoltage == 0.0
    ensures var d := ProcessDaq(c, info, t);
            CellIn(d, Idle, Idle) && d.state == STANDBYSTATE && BitsAre(d.port, false, false) && d.port == c.port
  {
    hide SubsystemSnapshot, SubsystemPass, FaultMgr.PowerUpdated, HealthFaults, Unblocked, Healthy;
    HealthIsGood(info);
    assert !MotorWithoutComm(info);
    assert DaqChecks(c, info, t) == c;
    FirstSnapshot(c, MOTOR, info, t);
    var (c2, f2) := SubsystemPass(SubsystemSnapshot(c, MOTOR, info, t), MOTOR, {}, t);
    FirstSnapshot(c2, COMM, info, t);
    var (c3, f3) := SubsystemPass(SubsystemSnapshot(c2, COMM, info, t), COMM, f2, t);
    EmptyReport(c3.faults);
  }

  /** The first round, and the read that it queues. */
  lemma FirstRound(l: Loop, t: real)
    requires Prepared(l.cell) && FirstIterated(l.sim, t) && l.queued == 0
    ensures var next := After(After(l, Exchange(t)), Read(t));
            && CellIn(next.cell, Idle, Idle) && next.cell.state == STANDBYSTATE
            && BitsAre(next.cell.port, false, false) && next.sim == l.sim.(newOutput := next.cell.port)
            && next.queued == 0 && next.readTime == t
  {
    hide ProcessDaq, CellIn, Healthy, ColdSub, Prepared;
    assert l.sim.motor.voltage == 0.0 && l.sim.comm.voltage == 0.0 by { ColdIsZero(l.sim, t); }
    FirstRead(l.cell, l.sim.info, t);
  }

  lemma ColdIsZero(sim: Sim, t: real)
    requires FirstIterated(sim, t)
    ensures sim.motor.voltage == 0.0 && sim.comm.voltage == 0.0
  {}

  /** The second iteration sees the breaker lines high. */
  lemma SecondTick(l: Loop, sim: Sim, t: real, u: real)
    requires FirstIterated(sim, t) && t <= u && l.sim == sim.(newOutput := l.cell.port) && l.queued == 0
    requires CellIn(l.cell, Idle, Idle) && BitsAre(l.cell.port, false, false)
    ensures var next := After(l, Tick(u)); LoopIn(next, Idle, Idle) && Settled(next, u)
  {
    hide BreakersCalculated, VoltageCalculated, CellIn, Healthy, AllHigh, PlantIn;
    WarmStep(sim.motor, MOTOR, l.cell.port, sim.input, t, u);
    var input1 := BreakersCalculated(sim.motor, l.cell.port, sim.input, u).1;
    WarmStep(sim.comm, COMM, l.cell.port, input1, t, u);
  }

  /** No read is queued, and the simulator has just iterated with what was sent out last. */
  predicate Settled(l: Loop, t: real) {
    l.queued == 0 && l.sim.output == l.sim.newOutput && l.sim.prevTs == t && l.sim.info.timestamp == t
  }

  predicate Ready(s: Stage) { Settled(s.l, s.time) && s.l.readTime <= s.time }

  lemma WarmStep(s: SimSub, kind: PowerSystemType, output: OutputPort, input: InputPort, t: real, u: real)
    requires ColdSub(s, kind, t) && t <= u && s.kind == kind
    requires output[Cfg(kind).breakerPos] && !output[Cfg(kind).powerOnPos]
    ensures var (s1, next) := BreakersCalculated(s, output, input, u);
            next == input && !s1.closed && PlantIn(VoltageCalculated(s1, false, u - t), kind, Idle, u)
            && !VoltageCalculated(s1, false, u - t).closed
  {}

  /** From the constructors, by set-up, an iteration, a round with its read and an iteration, to the quiet
      loop. */
  lemma QuietIsReached(s: Stage, info: SysInfo, held: SysInfo, simInfo: SysInfo) returns (t: Stage)
    requires LoopRuns.Starts(s, info, held, simInfo)
    ensures Reached(t) && StageIn(t, Idle, Idle) && t.l.cell.state == STANDBYSTATE && Ready(t)
  {
    hide Reached, LoopIn, LoopRuns.Starts, FirstIterated, CellIn, BitsAre, Prepared, Iterated, CellLogic.Next,
      InitialCell, InitialSim;
    var prepared := SetupIsReached(s, info, held, simInfo);
    TimeIsPositive(s, info, held, simInfo);
    var u := s.time + 0.025;
    NextIsReached(prepared, Tick(s.time));
    var ticked := StageAfter(prepared, Tick(s.time));
    FirstTick(simInfo, s.time);
    NextIsReached(ticked, Exchange(s.time));
    var sent := StageAfter(ticked, Exchange(s.time));
    NextIsReached(sent, Read(s.time));
    var read := StageAfter(sent, Read(s.time));
    FirstRound(ticked.l, s.time);
    NextIsReached(read, Tick(u));
    t := StageAfter(read, Tick(u));
    SecondTick(read.l, ticked.l.sim, s.time, u);
  }

  lemma TimeIsPositive(s: Stage, info: SysInfo, held: SysInfo, simInfo: SysInfo)
    requires LoopRuns.Starts(s, info, held, simInfo)
    ensures s.time >= 0.0 && s.l.sim == InitialSim(simInfo) && s.l.queued == 0
  {}

  // ---- A schedule that brings power up ----

  /** A run of rounds, reads and iterations in which every read is fresh. */
  ghost predicate Smooth(run: seq<Stage>, events: seq<LoopEvent>) {
    && |run| == |events| + 1
    && forall i | 0 <= i < |events| :: SmoothStep(run[i], events[i], run[i + 1])
  }

  predicate SmoothStep(s: Stage, e: LoopEvent, next: Stage) {
    && StepsTo(s, e, next) && Round(s, e)
    && (e.Read? ==> Fresh(s.l, e.now)) && !e.Check?
  }

  lemma SmoothMore(run: seq<Stage>, events: seq<LoopEvent>, e: LoopEvent, next: Stage)
    requires Smooth(run, events) && SmoothStep(run[|events|], e, next)
    ensures Smooth(run + [next], events + [e])
    ensures var before := Reads(events, |events|);
            Reads(events + [e], |events| + 1) == if e.Read? then before + [e.now] else before
  {
    hide SmoothStep;
    ReadsOfPrefix(events, e, |events|);
  }

  lemma {:induction false} ReadsOfPrefix(events: seq<LoopEvent>, e: LoopEvent, i: nat)
    requires i <= |events|
    ensures Reads(events + [e], i) == Reads(events, i)
  {
    if i > 0 { ReadsOfPrefix(events, e, i - 1); }
  }

  lemma SmoothIsRun(kind: PowerSystemType, run: seq<Stage>, events: seq<LoopEvent>)
    requires Smooth(run, events)
    ensures ClosedLoop.IsRun(run, events) && FreshUntilUp(kind, run, events)
    ensures NoLateCheck(run, events, |events|)
  {
    hide StepsTo, Round, Fresh;
    forall i | 0 <= i < |events|
      ensures StepsTo(run[i], events[i], run[i + 1]) && Round(run[i], events[i])
      ensures (events[i].Read? ==> Fresh(run[i].l, events[i].now)) && !events[i].Check?
    {
      assert SmoothStep(run[i], events[i], run[i + 1]);
    }
  }

  /** From a ready stage: a round, its read, and an iteration 50 ms later. */
  lemma OneRound(s: Stage) returns (sent: Stage, read: Stage, next: Stage)
    requires Ready(s)
    ensures SmoothStep(s, Exchange(s.time), sent) && SmoothStep(sent, Read(s.time), read)
    ensures SmoothStep(read, Tick(s.time + 0.05), next)
    ensures Ready(next) && next.time == s.time + 0.05
  {
    hide CellLogic.Next;
    sent := StageAfter(s, Exchange(s.time));
    read := StageAfter(sent, Read(s.time));
    next := StageAfter(read, Tick(s.time + 0.05));
  }

  /** `n` such rounds. */
  lemma {:induction false} Steady(s: Stage, n: nat) returns (run: seq<Stage>, events: seq<LoopEvent>)
    requires Ready(s)
    ensures Smooth(run, events) && run[0] == s && Ready(run[|events|])
    ensures run[|events|].time == s.time + 0.05 * n as real
    ensures var rs := Reads(events, |events|);
            |rs| == n && forall k | 0 <= k < n :: rs[k] == s.time + 0.05 * k as real
  {
    hide SmoothStep, Ready;
    if n == 0 {
      run, events := [s], [];
    } else {
      run, events := Steady(s, n - 1);
      var last := run[|events|];
      var sent, read, next := OneRound(last);
      SmoothMore(run, events, Exchange(last.time), sent);
      run, events := run + [sent], events + [Exchange(last.time)];
      SmoothMore(run, events, Read(last.time), read);
      run, events := run + [read], events + [Read(last.time)];
      SmoothMore(run, events, Tick(last.time + 0.05), next);
      run, events := run + [next], events + [Tick(last.time + 0.05)];
    }
  }

  /** Thirty steady rounds are enough for either subsystem. */
  lemma ThirtyAreEnough(kind: PowerSystemType, rs: seq<real>, t: real)
    requires |rs| == 30 && forall k | 0 <= k < 30 :: rs[k] == t + 0.05 * k as real
    ensures UpBefore(kind, rs)
  {
    assert Earlier(rs)[28] == t + 1.4 && Earlier(rs)[9] == t + 0.45;
  }

  /** A power-on command in a stage that has been reached, then thirty steady rounds. */
  lemma CommandAndThirty(s: Stage, kind: PowerSystemType) returns (run: seq<Stage>, events: seq<LoopEvent>)
    requires Reached(s) && Ready(s)
    ensures ClosedLoop.IsRun(run, events) && |run| == |events| + 1 && FreshUntilUp(kind, run, events)
    ensures NoLateCheck(run, events, |events|)
    ensures run[0] == StageAfter(s, Control(Command(kind, true, s.time)))
    ensures UpBefore(kind, Reads(events, |events|))
    ensures Reached(run[|events|]) && Ready(run[|events|])
  {
    hide Reached, CmdPower, UpBefore, ClosedLoop.IsRun, FreshUntilUp, SmoothStep;
    NextIsReached(s, Control(Command(kind, true, s.time)));
    var commanded := StageAfter(s, Control(Command(kind, true, s.time)));
    run, events := Steady(commanded, 30);
    ThirtyAreEnough(kind, Reads(events, |events|), s.time);
    SmoothIsRun(kind, run, events);
    forall k | 0 <= k < |events|
      ensures StepsTo(run[k], events[k], run[k + 1])
    {
      SmoothSteps(run[k], events[k], run[k + 1]);
    }
    RunIsReached(run, events, |events|);
  }

  lemma SmoothSteps(s: Stage, e: LoopEvent, next: Stage)
    requires SmoothStep(s, e, next)
    ensures StepsTo(s, e, next)
  {}

  /** Comm power is up, in standby, by a run from the constructors. */
  lemma CommUpIsReached(s: Stage, info: SysInfo, held: SysInfo, simInfo: SysInfo) returns (t: Stage)
    requires LoopRuns.Starts(s, info, held, simInfo)
    ensures Reached(t) && StageIn(t, Idle, Running) && t.l.cell.state == STANDBYSTATE && Ready(t)
    ensures CrioReady(t.l.cell.motor) && NotedOn(t.l.cell.comm)
  {
    hide Reached, StageAfter, StageIn, ClosedLoop.IsRun, LoopRuns.Starts, UpBefore, FreshUntilUp;
    var quiet := QuietIsReached(s, info, held, simInfo);
    CommandStage(quiet, COMM, quiet.time);
    var run, events := CommandAndThirty(quiet, COMM);
    t := CommIsUp(run, events);
  }

  /** Comm, then motor: every constructed controller and simulator has a run to idle with everything ON. */
  lemma IdleIsReached(s: Stage, info: SysInfo, held: SysInfo, simInfo: SysInfo)
    requires LoopRuns.Starts(s, info, held, simInfo)
    ensures exists t :: Reached(t) && AllOn(t.l.cell) && t.l.cell.state == IDLESTATE
  {
    hide Reached, StageAfter, StageIn, ClosedLoop.IsRun, LoopRuns.Starts, UpBefore, FreshUntilUp, AllOn, CmdPower;
    var quiet := QuietIsReached(s, info, held, simInfo);
    var runC, eventsC := CommandAndThirty(quiet, COMM);
    var up := runC[|eventsC|];
    var runM, eventsM := CommandAndThirty(up, MOTOR);
    PowerBringsIdle(quiet, quiet.time, runC, eventsC, up.time, runM, eventsM);
    assert Reached(runM[|eventsM|]);
  }

  // ---- Motor power over comm power that is off does happen ----

  /** A run of the controller from its constructor in which `e` puts the motor on over comm that is off. */
  ghost predicate Loses(m: Moment, e: CellLogic.Event) {
    && Reachable(m) && m.time <= e.now
    && !MotorOverComm.Over(m.cell) && MotorOverComm.Over(CellLogic.Next(m.cell, e))
  }

  /** Comm is up, in a controller reached by its own run. */
  lemma CommUpIsReachable(s: Stage, info: SysInfo, held: SysInfo, simInfo: SysInfo) returns (l: Loop, m: Moment)
    requires LoopRuns.Starts(s, info, held, simInfo)
    ensures Reachable(m) && m.cell == l.cell && LoopIn(l, Idle, Running) && l.cell.state == STANDBYSTATE
    ensures CrioReady(l.cell.motor)
  {
    hide LoopIn, Reachable, LoopRuns.Starts, LoopRuns.IsRun, CrioReady;
    var t := CommUpIsReached(s, info, held, simInfo);
    CellIsReached(t);
    var time :| time <= t.time && Reachable(Moment(t.l.cell, time));
    l, m := t.l, Moment(t.l.cell, time);
  }

  /** With comm up: turning comm off and the motor on while comm's voltage decays, or the motor on and comm
      off before the motor's first pass. */
  lemma TwoWays(l: Loop, now: real)
    requires LoopIn(l, Idle, Running) && l.cell.state == STANDBYSTATE && CrioReady(l.cell.motor)
    ensures var off := CellLogic.Next(l.cell, Command(COMM, false, now));
            && !MotorOverComm.Over(off) && off.comm.targ == OFF
            && MotorOverComm.Over(CellLogic.Next(off, Command(MOTOR, true, now)))
    ensures var on := CellLogic.Next(l.cell, Command(MOTOR, true, now));
            && !MotorOverComm.Over(on) && on.comm.targ == ON
            && MotorOverComm.Over(CellLogic.Next(on, Command(COMM, false, now)))
  {
    hide SimIn, InfoCurrent, FaultMgr.Blocked, Paced, HeldIn;
  }

  /** Both ways happen: clients' power commands alone bring it about, in runs from the constructor. */
  lemma MotorOverCommHappens()
    ensures exists m, e :: Loses(m, e) && e.Command? && e.kind == MOTOR && m.cell.comm.targ == OFF
    ensures exists m, e :: Loses(m, e) && e.Command? && e.kind == COMM && m.cell.comm.targ == ON
  {
    hide LoopIn, Reachable, CellLogic.Next, MotorOverComm.Over, CrioReady, LoopRuns.Starts, InitialCell, InitialSim;
    var info := SysInfo(NO_OUTPUT, seq(32, _ => false), 0.0, 0.0, true, 0.0, 0.0, true, 0, 0.0);
    var s := Stage(Loop(InitialCell(info, NO_OUTPUT, 0.0), InitialSim(info), info, 0, 0.0), 0.0);
    assert LoopRuns.Starts(s, info, info, info) by { StartsHere(s, info); }
    var l, m := CommUpIsReachable(s, info, info, info);
    TwoWays(l, m.time);
    var off := Moment(CellLogic.Next(m.cell, Command(COMM, false, m.time)), m.time);
    var on := Moment(CellLogic.Next(m.cell, Command(MOTOR, true, m.time)), m.time);
    NextIsReachable(m, Command(COMM, false, m.time));
    NextIsReachable(m, Command(MOTOR, true, m.time));
    assert Loses(off, Command(MOTOR, true, m.time));
    assert Loses(on, Command(COMM, false, m.time));
  }

  lemma StartsHere(s: Stage, info: SysInfo)
    requires s == Stage(Loop(InitialCell(info, NO_OUTPUT, 0.0), InitialSim(info), info, 0, 0.0), 0.0)
    ensures LoopRuns.Starts(s, info, info, info)
  {}
}
