/** What a request does to power and system state, whoever makes it: power commands, safe mode, the loss of
    the connections, changes of the system state. */
module Requests {
  import opened ControlDefs
  import opened FaultStatusBits
  import opened PowerLogic
  import opened PowerRuns
  import opened SystemStates
  import opened CellLogic
  import opened CellSafety
  import FaultMgr

  /** Nothing but the subsystem `kind` and its two bits of the port differs. */
  predicate OnlySub(c: Cell, d: Cell, kind: PowerSystemType) {
    && SubOf(d, Other(kind)) == SubOf(c, Other(kind)) && SubOf(d, kind).kind == SubOf(c, kind).kind
    && OwnBitsOnly(kind, c.port, d.port)
    && d.faults == c.faults && d.state == c.state && d.finished == c.finished
  }

  // ---- Turning one subsystem off and on ----

  /** Off at once in target and bits; the timers restart only when it was not off already. */
  lemma TurnOffIs(c: Cell, kind: PowerSystemType, now: real)
    requires Kinds(c)
    ensures var d := TurnOff(c, kind, now);
            var s, t := SubOf(c, kind), SubOf(d, kind);
            && OnlySub(c, d, kind) && IsOff(d, kind) && d.port[Cfg(kind).breakerPos]
            && t.actual == s.actual && t.targPrev == s.targPrev && t.actualPrev == s.actualPrev && t.info == s.info
            && t.onStart == s.onStart && t.telemCounter == s.telemCounter
            && (if s.targ == OFF then t.phase == s.phase && t.phaseStart == s.phaseStart && t.offStart == s.offStart
                else t.phase == 1 && t.phaseStart == now == t.offStart)
  {}

  /** A request to turn on is carried out if and only if no fault blocks it and the cRIO interlock is enabled;
      the subsystem then starts its sequence anew, and otherwise it is turned off. */
  lemma TryOnIs(c: Cell, kind: PowerSystemType, now: real)
    requires Kinds(c)
    ensures var (d, ok) := TryOn(c, kind, now);
            var s, t := SubOf(c, kind), SubOf(d, kind);
            && (ok <==> !IsBlocked(c, kind) && CrioReady(s))
            && OnlySub(c, d, kind) && d.port[Cfg(kind).breakerPos] && t.actual == s.actual
            && (ok ==> t.targ == ON && d.port[Cfg(kind).powerOnPos] && t.phase == 1 && t.telemCounter == 0
                       && t.onStart == now == t.phaseStart && t.offStart == s.offStart)
            && (!ok ==> d == TurnOff(c, kind, now))
  {
    hide IsBlocked, CrioReady;
  }

  // ---- Faults, set-up and direct writes ----

  /** The remaining requests: setting up, the interlock bit and the emergency write change just that; resets, enables
      and the report of a connection change just the fault records. */
  lemma OthersAre(c: Cell, e: CellLogic.Event)
    ensures var d := CellLogic.Next(c, e);
            && (e.FinishSetup? ==> d == c.(finished := true))
            && (e.Interlock? ==> d == c.(port := d.port) && forall p: OutputPos :: d.port[p] ==
                                                              if p == 2 then e.enable else c.port[p])
            && (e.Emergency? ==> d == c.(port := d.port) && forall p: OutputPos :: d.port[p] ==
                                                              (p != 0 && p != 1 && c.port[p]))
            && (e.Connections? && e.count > 0 ==> d == c.(faults := d.faults))
            && (e.ResetFaults? ==> d == c.(faults := d.faults)
                                   && forall p :: p in d.faults.power.summary <==>
                                                  p in c.faults.power.summary && p !in e.mask)
            && (e.EnableFaults? ==> d == c.(faults := d.faults)
                                    && forall p :: p in d.faults.power.enableMask <==>
                                                   p in c.faults.power.enableMask || p in e.mask)
  {}

  /** A reset that covers a subsystem's voltage, over-current and relay faults unblocks it while there is a
      connection: a request to turn it on is then refused for the interlock alone. */
  lemma ResetUnblocks(c: Cell, mask: FaultBits, kind: PowerSystemType, now: real)
    requires Kinds(c) && !c.faults.commFault
    requires {Cfg(kind).voltageFault, Cfg(kind).excessiveCurrent, POWER_RELAY_OPEN_FAULT} <= mask
    ensures var d := CellLogic.Next(c, ResetFaults(mask, now));
            !IsBlocked(d, kind) && (TryOn(d, kind, now).1 <==> CrioReady(SubOf(c, kind)))
  {
    hide CrioReady;
    FaultMgr.BlockedIff(FaultMgr.AllReset(c.faults, mask), CheckMask(kind));
  }

  // ---- Power commands ----

  predicate TakesCommands(c: Cell) { c.state == STANDBYSTATE || c.state == IDLESTATE }

  /** Only in standby and idle does a power command do anything. Off is always carried out, for comm with the
      motor when that is not actually off. On is carried out exactly when `TryOn` is, and for the motor only
      over a comm that is actually on. */
  lemma CommandIs(c: Cell, kind: PowerSystemType, on: bool, now: real)
    requires Kinds(c)
    ensures var (d, ok) := CmdPower(c, kind, on, now);
            && d.faults == c.faults && d.state == c.state && d.finished == c.finished
            && (!TakesCommands(c) ==> !ok && d == c)
            && (TakesCommands(c) && !on ==>
                  && ok && IsOff(d, kind)
                  && (if kind == COMM && c.motor.actual != OFF then IsOff(d, MOTOR)
                      else SubOf(d, Other(kind)) == SubOf(c, Other(kind))
                           && d.port[Cfg(Other(kind)).powerOnPos] == c.port[Cfg(Other(kind)).powerOnPos]))
            && (TakesCommands(c) && on ==>
                  && (ok <==> !IsBlocked(c, kind) && CrioReady(SubOf(c, kind))
                              && (kind == MOTOR ==> c.comm.actual == ON))
                  && (ok ==> SubOf(d, kind).targ == ON && d.port[Cfg(kind).powerOnPos])
                  && (!ok ==> IsOff(d, kind) || (kind == MOTOR && c.comm.actual != ON && d == c))
                  && SubOf(d, Other(kind)) == SubOf(c, Other(kind)))
  {
    hide TurnOff, TryOn, IsBlocked, CrioReady;
    TryOnIs(c, kind, now);
    TurnOffIs(c, MOTOR, now);
    TurnOffIs(c, COMM, now);
    TurnOffIs(TurnOff(c, MOTOR, now), COMM, now);
  }

  /** Over any run: after an off command in standby or idle the subsystem is off until a request for it is
      carried out. */
  lemma OffAfterCommand(run: seq<Moment>, events: seq<CellLogic.Event>, i: nat, j: nat, kind: PowerSystemType)
    requires CellSafety.IsRun(run, events) && |run| == |events| + 1 && i < j < |run|
    requires events[i].Command? && events[i].kind == kind && !events[i].on && TakesCommands(run[i].cell)
    requires forall k | i < k < j :: !CarriedOutAt(run, events, k, kind)
    ensures IsOff(run[j].cell, kind)
  {
    hide CellSafety.IsRun, CellLogic.Next, IsOff, CarriedOutAt;
    StepOfRun(run, events, i);
    RunIsSound(run, events, i);
    OffCommandTurnsOff(run[i], events[i], run[i + 1]);
    OffUntilCarriedOut(run, events, i + 1, j, kind);
  }

  lemma OffCommandTurnsOff(m: Moment, e: CellLogic.Event, n: Moment)
    requires Sound(m.cell, m.time) && Follows(m, e, n) && e.Command? && !e.on && TakesCommands(m.cell)
    ensures IsOff(n.cell, e.kind)
  {
    hide Sound, CmdPower, IsOff;
    KindsOfSound(m.cell, m.time);
    CommandIs(m.cell, e.kind, false, e.now);
  }

  lemma StepOfRun(run: seq<Moment>, events: seq<CellLogic.Event>, i: nat)
    requires CellSafety.IsRun(run, events) && i < |events|
    ensures Follows(run[i], events[i], run[i + 1])
  {
    hide Follows;
  }

  // ---- Safe mode ----

  /** The state that safe mode leads to. */
  function SafeState(c: Cell): StateEnum {
    if c.state == OFFLINESTATE || (c.state == STARTUPSTATE && !c.finished) then c.state else STANDBYSTATE
  }

  lemma SafeModeIs(c: Cell, now: real)
    requires Sound(c, now)
    ensures var d := GoToSafeMode(c, now);
            && d.state == SafeState(c) && IsOff(d, MOTOR) && IsOff(d, COMM)
            && d.faults == c.faults && d.finished == c.finished
  {
    hide TurnOffAll, ChangeState, SubInv, FaultMgr.Valid;
    var off := TurnOffAll(c, now);
    TurnOffAllTurns(c, now);
    ChangeStateTurns(off, SafeTarget(off.state, STANDBYSTATE), now);
  }

  /** Safe mode, the loss of the last connection, and a power report of a new supply fault: each leaves
      everything off and the system in its safe state. */
  lemma GoesSafe(c: Cell, e: CellLogic.Event)
    requires Sound(c, e.now) && (e.SafeMode? || (e.Connections? && e.count == 0))
    ensures var d := CellLogic.Next(c, e); d.state == SafeState(c) && IsOff(d, MOTOR) && IsOff(d, COMM)
  {
    hide GoToSafeMode, SubInv;
    SafeModeIs(c, e.now);
    if e.Connections? {
      FaultMgr.EventsKeepValid(c.faults, {}, 0);
      SafeModeIs(c.(faults := FaultMgr.ConnectionsReported(c.faults, 0)), e.now);
    }
  }

  /** A report of power faults goes safe if and only if it differs from the last one kept in an enabled bit and
      holds a supply fault; otherwise only the fault records change. */
  lemma ReportedFaults(c: Cell, current: FaultBits, now: real)
    requires Sound(c, now)
    ensures var d := UpdateFaults(c, current, now);
            && d.faults == FaultMgr.PowerUpdated(c.faults, current).0 && d.finished == c.finished
            && (if Xor(c.faults.power.prev, current) * c.faults.power.enableMask != {} && current * MASK_HEALTH != {}
                then d.state == SafeState(c) && IsOff(d, MOTOR) && IsOff(d, COMM)
                else d == c.(faults := d.faults))
  {
    hide GoToSafeMode, SubInv;
    FaultMgr.EventsKeepValid(c.faults, current, 0);
    SafeModeIs(c.(faults := FaultMgr.PowerUpdated(c.faults, current).0), now);
    assert FaultMgr.PowerUpdated(c.faults, current).1 <==>
           Xor(c.faults.power.prev, current) * c.faults.power.enableMask != {} && current * MASK_HEALTH != {};
  }

  /** In a run, after safe mode or the loss of the last connection. */
  lemma SafeAfter(run: seq<Moment>, events: seq<CellLogic.Event>, i: nat)
    requires CellSafety.IsRun(run, events) && i < |events|
    requires events[i].SafeMode? || (events[i].Connections? && events[i].count == 0)
    ensures var d := run[i + 1].cell; d.state == SafeState(run[i].cell) && IsOff(d, MOTOR) && IsOff(d, COMM)
  {
    hide Sound, CellLogic.Next, IsOff, SafeState;
    RunIsSound(run, events, i);
    assert Follows(run[i], events[i], run[i + 1]);
    SoundLater(run[i].cell, run[i].time, events[i].now);
    GoesSafe(run[i].cell, events[i]);
  }

  // ---- Changes of the system state ----

  /** A change to offline or startup that is made turns everything off, also when it was current; a change to
      another state touches no power, and a refused one nothing. */
  lemma ChangeIs(c: Cell, next: StateEnum, now: real)
    requires Sound(c, now)
    ensures var d := ChangeState(c, next, now);
            && d.state == StateAfter(c.state, next, c.finished) && d.faults == c.faults && d.finished == c.finished
            && (if !Enters(c.state, next, c.finished) then d == c
                else if next == OFFLINESTATE || next == STARTUPSTATE then IsOff(d, MOTOR) && IsOff(d, COMM)
                else d == c.(state := next))
  {
    hide TurnOffAll, SubInv, FaultMgr.Valid;
    TurnOffAllTurns(c.(state := next), now);
  }

  /** Both subsystems are commanded on and are on. */
  predicate FullyOn(c: Cell) {
    forall kind :: SubOf(c, kind).targ == ON && SubOf(c, kind).actual == ON
  }

  lemma FullyOnIs(c: Cell)
    ensures FullyOn(c) <==> AllOn(c)
  {
    assert SubOf(c, MOTOR) == c.motor && SubOf(c, COMM) == c.comm;
  }

  /** A power report: offline and startup end with both targets off; the other states become idle from standby with
      everything on, and standby without, and touch no power. */
  lemma ReportIs(c: Cell, now: real)
    requires Sound(c, now)
    ensures var d := Report(c, now);
            if c.state == OFFLINESTATE || c.state == STARTUPSTATE then
              d.state == c.state && d.motor.targ == OFF && d.comm.targ == OFF
            else d == c.(state := if !FullyOn(c) then STANDBYSTATE
                                  else if c.state == STANDBYSTATE then IDLESTATE else c.state)
  {
    hide TurnOffAll, SubInv, FaultMgr.Valid;
    TurnOffAllTurns(c, now);
    FullyOnIs(c);
  }

  /** A snapshot reports whenever the target or the actual state of the subsystem, blocked or not, is another than
      it noted before; it then has noted both. */
  lemma SnapshotReports(c: Cell, kind: PowerSystemType, info: SysInfo, now: real)
    requires Sound(c, now)
    ensures var d, s := SubsystemSnapshot(c, kind, info, now), SubOf(c, kind);
            var targ := if IsBlocked(c, kind) then OFF else s.targ;
            && SubOf(d, kind).targPrev == SubOf(d, kind).targ && SubOf(d, kind).actualPrev == SubOf(d, kind).actual
            && (targ != s.targPrev || s.actual != s.actualPrev ==>
                  if d.state == OFFLINESTATE || d.state == STARTUPSTATE
                  then d.motor.targ == OFF && d.comm.targ == OFF else d.state == STANDBYSTATE <==> !FullyOn(d))
            && (targ == s.targPrev && s.actual == s.actualPrev ==> d.state == c.state)
  {
    hide Report, SubInv, FaultMgr.Valid, IsBlocked;
    var o := Snapshot(SubOf(c, kind), c.port, info, IsBlocked(c, kind), now);
    var c1 := WithSub(c, kind, o.sub, o.port);
    SnapshotSound(c, kind, info, now);
    ReportIs(c1, now);
    ReportAgrees(c1, now);
    FullyOnIs(c1);
    FullyOnIs(SubsystemSnapshot(c, kind, info, now));
  }

  /** A snapshot with the motor's power bit high and comm's low ends with the motor off. */
  lemma UncoveredMotorTrips(c: Cell, info: SysInfo, now: real)
    requires Sound(c, now) && info.outputPort[0] && !info.outputPort[1]
    ensures IsOff(ProcessDaq(c, info, now), MOTOR)
  {
    hide ProcessDaq, Sound;
    assert MotorWithoutComm(info);
    DaqOnlyLowers(c, info, now);
  }

  /** A state whose reports never have power on. */
  predicate Resting(s: StateEnum) { s == OFFLINESTATE || s == STARTUPSTATE || s == STANDBYSTATE }

  /** Over any run: from the loss of the last connection until one is reported, without requests to change it,
      the state stays offline, startup or standby. */
  lemma {:induction false} RestsWhileDisconnected(run: seq<Moment>, events: seq<CellLogic.Event>, i: nat, j: nat)
    requires CellSafety.IsRun(run, events) && |run| == |events| + 1 && i < j < |run|
    requires events[i].Connections? && events[i].count == 0
    requires forall k | i < k < j :: !events[k].ChangeSystemState? && (events[k].Connections? ==> events[k].count == 0)
    ensures Resting(run[j].cell.state)
  {
    hide CellSafety.IsRun, Sound, Follows, CellLogic.Next, IsOff, SafeState;
    StepOfRun(run, events, j - 1);
    if i == j - 1 {
      SafeAfter(run, events, i);
      SafeRests(run[i].cell);
    } else {
      RestsWhileDisconnected(run, events, i, j - 1);
      DisconnectedStaysOff(run, events, i, j - 1, MOTOR);
      DisconnectedStaysOff(run, events, i, j - 1, COMM);
      RunIsSound(run, events, j - 1);
      RestsOneMore(run[j - 1], events[j - 1], run[j]);
    }
  }

  lemma SafeRests(c: Cell)
    ensures Resting(SafeState(c))
  {}

  lemma RestsOneMore(m: Moment, e: CellLogic.Event, n: Moment)
    requires Sound(m.cell, m.time) && Follows(m, e, n)
    requires IsOff(m.cell, MOTOR) && IsOff(m.cell, COMM) && m.cell.faults.commFault && Resting(m.cell.state)
    requires !e.ChangeSystemState? && (e.Connections? ==> e.count == 0)
    ensures Resting(n.cell.state)
  {
    hide Sound, DaqRead, CmdPower, TryOn, TurnOff, ConnectionsReported, GoToSafeMode, IsOff;
    SoundLater(m.cell, m.time, e.now);
    KindsOfSound(m.cell, e.now);
    match e {
      case Command(kind, on, now) => CommandIs(m.cell, kind, on, now);
      case SubsystemOn(kind, now) => TryOnIs(m.cell, kind, now);
      case SubsystemOff(kind, now) => TurnOffIs(m.cell, kind, now);
      case Daq(info, timedOut, now) => OffRests(m.cell, info, timedOut, now);
      case Connections(_, _) => GoesSafe(m.cell, e);
      case SafeMode(_) => GoesSafe(m.cell, e);
      case _ =>
    }
  }

  // ---- Before the first connection ----

  /** Over any run: until a connection is reported everything is off and every request to turn it on is refused. */
  lemma {:induction false} OffUntilConnected(run: seq<Moment>, events: seq<CellLogic.Event>, j: nat,
                                             kind: PowerSystemType)
    requires CellSafety.IsRun(run, events) && |run| == |events| + 1 && j < |run|
    requires forall k | 0 <= k < j && events[k].Connections? :: events[k].count == 0
    ensures run[j].cell.faults.commFault && IsOff(run[j].cell, kind)
    ensures forall k | 0 <= k < j :: !CarriedOutAt(run, events, k, kind)
  {
    hide Sound, Follows, CarriedOutAt, IsOff, Starts, StepFacts, OnCarriedOut;
    if j == 0 {
      RunStartsOff(run, events, kind);
    } else {
      hide CellSafety.IsRun;
      OffUntilConnected(run, events, j - 1, kind);
      StepKeeps(run, events, j - 1, kind);
      DisconnectedStep(run[j - 1].cell, events[j - 1], run[j].cell, kind);
    }
  }

  lemma RunStartsOff(run: seq<Moment>, events: seq<CellLogic.Event>, kind: PowerSystemType)
    requires CellSafety.IsRun(run, events)
    ensures run[0].cell.faults.commFault && IsOff(run[0].cell, kind)
  {
    hide Follows, IsOff, Starts;
    var info, port :| Starts(run[0], info, port);
    StartsOff(run[0], info, port, kind);
  }

  lemma DisconnectedStep(c: Cell, e: CellLogic.Event, d: Cell, kind: PowerSystemType)
    requires StepFacts(c, e, d, kind) && c.faults.commFault && IsOff(c, kind) && (e.Connections? ==> e.count == 0)
    ensures d.faults.commFault && IsOff(d, kind) && !OnCarriedOut(c, e, kind)
  {
    hide Sound, CellLogic.Next, IsBlocked, OnCarriedOut, IsOff;
    CommFaultBlocks(c);
    if e.Connections? { Disconnects(c, e); }
  }

  lemma StartsOff(m: Moment, info: SysInfo, port: OutputPort, kind: PowerSystemType)
    requires Starts(m, info, port)
    ensures m.cell.faults.commFault && IsOff(m.cell, kind) && m.cell.state == STARTUPSTATE && !m.cell.finished
    ensures Changed(m.cell.motor) && Changed(m.cell.comm)
  {}

  // ---- A snapshot that finds everything off ----

  ghost predicate BothOff(c: Cell, now: real) {
    Sound(c, now) && IsOff(c, MOTOR) && IsOff(c, COMM) && Resting(c.state)
  }

  predicate SameState(c: Cell, d: Cell) { d.state == c.state && d.finished == c.finished }

  lemma ReportRests(c: Cell, now: real)
    requires c.motor.targ == OFF && c.comm.targ == OFF && Resting(c.state)
    ensures Report(c, now) == c
  {}

  lemma SnapshotRests(c: Cell, kind: PowerSystemType, info: SysInfo, now: real)
    requires BothOff(c, now)
    ensures var d := SubsystemSnapshot(c, kind, info, now); BothOff(d, now) && SameState(c, d)
  {
    hide Report, SubInv, IsBlocked, FaultMgr.Valid;
    SnapshotLowers(c, kind, info, now);
    var o := Snapshot(SubOf(c, kind), c.port, info, IsBlocked(c, kind), now);
    ReportRests(WithSub(c, kind, o.sub, o.port), now);
  }

  lemma PassRests(c: Cell, kind: PowerSystemType, faults: FaultBits, now: real)
    requires BothOff(c, now)
    ensures var d := SubsystemPass(c, kind, faults, now).0; BothOff(d, now) && SameState(c, d)
  {
    hide Pass, Sound, OverLimit, OverLimitBits, Remembers;
    PassLowers(c, kind, faults, now);
  }

  /** A report may go safe, which from a finished startup leads to standby and otherwise keeps the state. */
  lemma UpdateRests(c: Cell, current: FaultBits, now: real)
    requires BothOff(c, now)
    ensures var d := UpdateFaults(c, current, now); BothOff(d, now) && (c.state == SafeState(c) ==> SameState(c, d))
  {
    hide GoToSafeMode, Sound, FaultMgr.PowerUpdated, Remembers;
    ReportedFaults(c, current, now);
    UpdateFaultsLowers(c, current, now);
  }

  lemma ChecksRest(c: Cell, info: SysInfo, now: real)
    requires BothOff(c, now)
    ensures var d := DaqChecks(c, info, now); BothOff(d, now) && (c.state == SafeState(c) ==> SameState(c, d))
  {
    hide UpdateFaults, TurnOff, Sound, HealthFaults, MotorWithoutComm;
    var health := HealthFaults(info);
    UpdateRests(c, health, now);
    var c1 := if health == {} then c else UpdateFaults(c, health, now);
    TurnOffTurns(c1, MOTOR, now);
  }

  lemma SafeAgain(c: Cell, d: Cell)
    requires SameState(c, d) && c.state == SafeState(c)
    ensures d.state == SafeState(d)
  {}

  lemma SameTwice(c: Cell, d: Cell, e: Cell)
    requires SameState(c, d) && SameState(d, e)
    ensures SameState(c, e)
  {}

  /** The part of a snapshot after the checks, with everything off. */
  lemma SubsystemsRest(c: Cell, info: SysInfo, now: real)
    requires BothOff(DaqChecks(c, info, now), now)
    ensures var d := ProcessDaq(c, info, now);
            && BothOff(d, now)
            && (DaqChecks(c, info, now).state == SafeState(DaqChecks(c, info, now)) ==>
                  SameState(DaqChecks(c, info, now), d))
  {
    hide DaqChecks, SubsystemSnapshot, SubsystemPass, UpdateFaults, HealthFaults, BothOff, SafeState, SameState;
    var c1 := DaqChecks(c, info, now);
    var m1 := SubsystemSnapshot(c1, MOTOR, info, now);
    var (m2, f2) := SubsystemPass(m1, MOTOR, HealthFaults(info), now);
    var k1 := SubsystemSnapshot(m2, COMM, info, now);
    var (k2, f3) := SubsystemPass(k1, COMM, f2, now);
    SnapshotRests(c1, MOTOR, info, now);
    PassRests(m1, MOTOR, HealthFaults(info), now);
    SnapshotRests(m2, COMM, info, now);
    PassRests(k1, COMM, f2, now);
    UpdateRests(k2, f3, now);
    SameTwice(c1, m1, m2);
    SameTwice(c1, m2, k1);
    SameTwice(c1, k1, k2);
    if c1.state == SafeState(c1) {
      SafeAgain(c1, k2);
      SameTwice(c1, k2, UpdateFaults(k2, f3, now));
    }
  }

  /** A snapshot that finds everything off in a resting state leaves it so. */
  lemma DaqRests(c: Cell, info: SysInfo, now: real)
    requires BothOff(c, now)
    ensures BothOff(ProcessDaq(c, info, now), now)
  {
    hide DaqChecks, ProcessDaq, BothOff;
    ChecksRest(c, info, now);
    SubsystemsRest(c, info, now);
  }

  lemma OffRests(c: Cell, info: SysInfo, timedOut: bool, now: real)
    requires BothOff(c, now)
    ensures Resting(DaqRead(c, info, timedOut, now).state)
  {
    hide ProcessDaq, Sound, UpdateFaults, TurnOffAll, SafeState;
    if timedOut {
      TurnOffAllTurns(c, now);
      UpdateRests(TurnOffAll(c, now), {POWER_SYSTEM_TIMEOUT}, now);
      DaqRests(TimedOut(c, now), info, now);
    } else {
      DaqRests(c, info, now);
    }
  }

  // ---- The health of the supplies ----

  /** The load share fault if and only if redundancy or load distribution is lost, the health fault if and only
      if one of the two supplies has no good voltage or too much current, and no other. */
  lemma HealthIs(info: SysInfo, bit: FaultPos)
    ensures var input := info.inputPort;
            bit in HealthFaults(info) <==>
              || (bit == POWER_SUPPLY_LOAD_SHARE_ERR && (!input[0] || !input[1]))
              || (bit == POWER_HEALTH_FAULT && (!input[2] || !input[3] || !input[4] || !input[5]))
  {}

  /** A snapshot with a supply fault: the fault is in the power summary afterwards; when it was not in the last
      report kept, everything ends off and the system in its safe state. */
  lemma SupplyFaultTrips(c: Cell, info: SysInfo, bit: FaultPos, now: real)
    requires Sound(c, now) && bit in HealthFaults(info)
    ensures var d := ProcessDaq(c, info, now);
            && bit in d.faults.power.summary
            && (bit !in c.faults.power.prev ==> d.state == SafeState(c) && IsOff(d, MOTOR) && IsOff(d, COMM))
  {
    hide DaqChecks, HealthFaults, Sound, ProcessDaq, SafeState, Remembers;
    HealthBit(c, info, bit, now);
    DaqRemembers(c, info, bit, now);
    if bit !in c.faults.power.prev {
      NewFaultGoesSafe(c, info, bit, now);
      SubsystemsRest(c, info, now);
      CheckedSafe(c, info, now);
    }
  }

  lemma HealthBit(c: Cell, info: SysInfo, bit: FaultPos, now: real)
    requires Sound(c, now) && bit in HealthFaults(info)
    ensures bit in MASK_HEALTH && bit in MASK_FAULTS && bit in c.faults.power.enableMask
  {
    HealthIs(info, bit);
  }

  lemma CheckedSafe(c: Cell, info: SysInfo, now: real)
    requires DaqChecks(c, info, now).state == SafeState(c) && DaqChecks(c, info, now).finished == c.finished
    ensures SafeState(DaqChecks(c, info, now)) == SafeState(c)
  {
    hide DaqChecks;
  }

  lemma NewFaultGoesSafe(c: Cell, info: SysInfo, bit: FaultPos, now: real)
    requires Sound(c, now) && bit in HealthFaults(info) && bit !in c.faults.power.prev
    requires bit in MASK_HEALTH && bit in c.faults.power.enableMask
    ensures var d := DaqChecks(c, info, now);
            BothOff(d, now) && d.state == SafeState(c) && d.finished == c.finished
  {
    hide UpdateFaults, HealthFaults, Sound, TurnOff, FaultMgr.PowerUpdated, Remembers;
    var health := HealthFaults(info);
    assert bit in Xor(c.faults.power.prev, health) * c.faults.power.enableMask && bit in health * MASK_HEALTH;
    ReportedFaults(c, health, now);
    UpdateFaultsLowers(c, health, now);
    var c1 := UpdateFaults(c, health, now);
    SafeRests(c);
    TurnOffTurns(c1, MOTOR, now);
  }

  lemma DaqRemembers(c: Cell, info: SysInfo, bit: FaultPos, now: real)
    requires Sound(c, now) && bit in HealthFaults(info) && bit in MASK_FAULTS
    ensures bit in ProcessDaq(c, info, now).faults.power.summary
  {
    hide DaqSubsystems, UpdateFaults, HealthFaults, SubInv, OverLimit, OverLimitBits, MotorWithoutComm,
      FaultMgr.Blocked;
    var (d, f) := DaqSubsystems(c, info, now);
    SubsystemsLower(c, info, now);
    UpdateFaultsLowers(d, f, now);
    FaultMgr.ReportLatches(d.faults, f, {bit}, bit);
  }

  /** In a run: the same of every snapshot that is read in time. */
  lemma SupplyFaultTripsInRun(run: seq<Moment>, events: seq<CellLogic.Event>, i: nat, bit: FaultPos)
    requires CellSafety.IsRun(run, events) && |run| == |events| + 1 && i < |events|
    requires events[i].Daq? && !events[i].timedOut
    requires bit in HealthFaults(events[i].info)
    ensures var c, d := run[i].cell, run[i + 1].cell;
            && bit in d.faults.power.summary
            && (bit !in c.faults.power.prev ==> d.state == SafeState(c) && IsOff(d, MOTOR) && IsOff(d, COMM))
  {
    hide CellSafety.IsRun, Sound, ProcessDaq, HealthFaults, SafeState, IsOff;
    DaqAt(run, events, i);
    SupplyFaultTrips(run[i].cell, events[i].info, bit, events[i].now);
  }
}
