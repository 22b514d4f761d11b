/** Motor power over comm power that is off: exactly which events bring it about. */
module MotorOverComm {
  import opened ControlDefs
  import opened FaultStatusBits
  import opened PowerLogic
  import opened PowerRuns
  import opened PowerTrips
  import opened SystemStates
  import opened CellLogic
  import opened CellSafety
  import FaultMgr

  /** The motor bit is high and the comm bit is low. */
  predicate Over(c: Cell) { c.port[MOTOR_POWER_ON] && !c.port[ILC_COMM_POWER_ON] }

  predicate Commands(c: Cell) { c.state == STANDBYSTATE || c.state == IDLESTATE }

  /** States whose power reports turn everything off. */
  predicate Unpowered(c: Cell) { c.state == OFFLINESTATE || c.state == STARTUPSTATE }

  predicate Accepted(c: Cell, kind: PowerSystemType) { OnAccepted(SubOf(c, kind), IsBlocked(c, kind)) }

  /** The fault records after the early health report of a snapshot. */
  function AfterHealth(c: Cell, info: SysInfo): FaultMgr.Faults {
    if HealthFaults(info) == {} then c.faults else FaultMgr.PowerUpdated(c.faults, HealthFaults(info)).0
  }

  /** The subsystem as its pass sees it: with the new snapshot, and turned off if a fault blocks it. */
  function Seen(c: Cell, kind: PowerSystemType, info: SysInfo, blocked: bool, now: real): Sub {
    Snapshot(SubOf(c, kind), c.port, info, blocked, now).sub
  }

  /** Reporting `current` sends the model to safe mode. */
  predicate GoesSafe(f: FaultMgr.Faults, current: FaultBits) {
    Xor(f.power.prev, current) * f.power.enableMask != {} && current * MASK_HEALTH != {}
  }

  /** The motor bit lasts through health checks, motor check, the motor's blocks, report and pass, ... */
  predicate MotorLastsSoFar(c: Cell, info: SysInfo, now: real) {
    && c.port[MOTOR_POWER_ON] && !(HealthFaults(info) != {} && GoesSafe(c.faults, HealthFaults(info)))
    && !MotorWithoutComm(info) && !FaultMgr.Blocked(AfterHealth(c, info), CheckMask(MOTOR))
    && StaysOn(Seen(c, MOTOR, info, false, now), now)
    && (Unpowered(c) ==> !Changed(Seen(c, MOTOR, info, false, now)))
  }

  /** What the passes raise, when the motor has lasted: nothing for a comm that is blocked. */
  function PassesRaise(c: Cell, info: SysInfo, now: real): FaultBits {
    var commBlocked := FaultMgr.Blocked(AfterHealth(c, info), CheckMask(COMM));
    Raised(Seen(c, MOTOR, info, false, now), now)
    + if commBlocked then {} else Raised(Seen(c, COMM, info, false, now), now)
  }

  /** ... and through comm's report and the report of all faults gathered. An unhealthy supply that was
      reported before goes to safe mode with the first report that has an enabled fault more, ... */
  predicate MotorLasts(c: Cell, info: SysInfo, now: real) {
    var commBlocked := FaultMgr.Blocked(AfterHealth(c, info), CheckMask(COMM));
    && MotorLastsSoFar(c, info, now)
    && (Unpowered(c) ==> !Changed(Seen(c, COMM, info, commBlocked, now)))
    && (HealthFaults(info) != {} ==> PassesRaise(c, info, now) * c.faults.power.enableMask <= HealthFaults(info))
  }

  /** ... and it does turn comm off. */
  predicate CommGoes(c: Cell, info: SysInfo, now: real) {
    || FaultMgr.Blocked(AfterHealth(c, info), CheckMask(COMM))
    || !StaysOn(Seen(c, COMM, info, false, now), now)
  }

  /** The event turns comm off under a motor that stays on, or turns the motor on without comm. */
  predicate LosesComm(c: Cell, e: CellLogic.Event) {
    var motorHigh, commLow := c.port[MOTOR_POWER_ON], !c.port[ILC_COMM_POWER_ON];
    match e
    case Command(kind, on, now) =>
      && Commands(c)
      && (match (kind, on)
          case (MOTOR, true) => commLow && c.comm.actual == ON && Accepted(c, MOTOR)
          case (MOTOR, false) => false
          case (COMM, true) => motorHigh && !Accepted(c, COMM)
          case (COMM, false) => motorHigh && c.motor.actual == OFF)
    case SubsystemOn(MOTOR, now) => commLow && Accepted(c, MOTOR)
    case SubsystemOn(COMM, now) => motorHigh && !Accepted(c, COMM)
    case SubsystemOff(kind, now) => kind == COMM && motorHigh
    case Daq(info, timedOut, now) => !timedOut && MotorLasts(c, info, now) && CommGoes(c, info, now)
    case _ => false
  }

  // ---- What the parts of a snapshot do to the power bits ----

  predicate Bit(c: Cell, kind: PowerSystemType) { c.port[Cfg(kind).powerOnPos] }

  predicate BothLow(c: Cell) { !Bit(c, MOTOR) && !Bit(c, COMM) }

  lemma AllOffBits(c: Cell, now: real)
    requires Kinds(c)
    ensures BothLow(TurnOffAll(c, now)) && TurnOffAll(c, now).state == c.state
  {}

  lemma ReportBits(c: Cell, now: real)
    requires Kinds(c)
    ensures var d := Report(c, now);
            && (Unpowered(d) <==> Unpowered(c))
            && (if Unpowered(c) && !BothTargetsOff(c) then BothLow(d) else d == c.(state := d.state))
  {
    hide TurnOffAll, BothLow;
    AllOffBits(c, now);
  }

  lemma SafeUpdateBits(c: Cell, current: FaultBits, now: real)
    requires Kinds(c)
    ensures var d := UpdateFaults(c, current, now);
            if GoesSafe(c.faults, current) then BothLow(d)
            else d == c.(faults := FaultMgr.PowerUpdated(c.faults, current).0)
  {
    hide FaultMgr.PowerUpdated, TurnOffAll, BothLow, GoToSafeMode, GoesSafe;
    SafeModeBits(c.(faults := FaultMgr.PowerUpdated(c.faults, current).0), now);
    GoesSafeIs(c.faults, current);
  }

  lemma GoesSafeIs(f: FaultMgr.Faults, current: FaultBits)
    ensures FaultMgr.PowerUpdated(f, current).1 <==> GoesSafe(f, current)
  {}

  lemma SafeModeBits(c: Cell, now: real)
    requires Kinds(c)
    ensures BothLow(GoToSafeMode(c, now))
  {
    hide TurnOff;
    TurnOffBits(c, MOTOR, now);
    TurnOffBits(TurnOff(c, MOTOR, now), COMM, now);
    var off := TurnOffAll(c, now);
    TurnOffBits(off, MOTOR, now);
    TurnOffBits(TurnOff(off, MOTOR, now), COMM, now);
    var next := off.(state := SafeTarget(off.state, STANDBYSTATE));
    TurnOffBits(next, MOTOR, now);
    TurnOffBits(TurnOff(next, MOTOR, now), COMM, now);
  }

  lemma TurnOffBits(c: Cell, kind: PowerSystemType, now: real)
    requires Kinds(c)
    ensures var d := TurnOff(c, kind, now);
            && Kinds(d) && !Bit(d, kind) && Bit(d, Other(kind)) == Bit(c, Other(kind))
            && SubOf(d, Other(kind)) == SubOf(c, Other(kind)) && d.state == c.state && d.faults == c.faults
  {}

  /** The report that follows the snapshot turns everything off. */
  predicate ReportCuts(c: Cell, kind: PowerSystemType, seen: Sub) {
    Unpowered(c) && Changed(seen) && (seen.targ != OFF || SubOf(c, Other(kind)).targ != OFF)
  }

  /** The cell once the snapshot is kept, before the report. */
  function Kept(c: Cell, kind: PowerSystemType, info: SysInfo, now: real): Cell {
    var o := Snapshot(SubOf(c, kind), c.port, info, IsBlocked(c, kind), now);
    WithSub(c, kind, o.sub, o.port)
  }

  lemma KeptBits(c: Cell, kind: PowerSystemType, info: SysInfo, now: real)
    requires Kinds(c)
    ensures var d, seen := Kept(c, kind, info, now), Seen(c, kind, info, IsBlocked(c, kind), now);
            && Kinds(d) && SubOf(d, kind) == seen && SubOf(d, Other(kind)) == SubOf(c, Other(kind))
            && Bit(d, kind) == (Bit(c, kind) && !IsBlocked(c, kind)) && Bit(d, Other(kind)) == Bit(c, Other(kind))
            && d.state == c.state && d.faults == c.faults
  {
    hide IsBlocked;
  }

  lemma SnapshotIs(c: Cell, kind: PowerSystemType, info: SysInfo, now: real)
    ensures var c1 := Kept(c, kind, info, now);
            var c2 := if Changed(Seen(c, kind, info, IsBlocked(c, kind), now)) then Report(c1, now) else c1;
            SubsystemSnapshot(c, kind, info, now) == WithSub(c2, kind, Noted(SubOf(c2, kind)), c2.port)
  {
    hide IsBlocked, Report, Noted, Changed;
  }

  lemma SnapshotBits(c: Cell, kind: PowerSystemType, info: SysInfo, now: real)
    requires Kinds(c)
    ensures var d, seen := SubsystemSnapshot(c, kind, info, now), Seen(c, kind, info, IsBlocked(c, kind), now);
            if ReportCuts(c, kind, seen) then BothLow(d)
            else
              && Bit(d, kind) == (Bit(c, kind) && !IsBlocked(c, kind)) && Bit(d, Other(kind)) == Bit(c, Other(kind))
              && SubOf(d, kind) == Noted(seen) && SubOf(d, Other(kind)) == SubOf(c, Other(kind))
              && (Unpowered(d) <==> Unpowered(c)) && d.faults == c.faults
  {
    hide IsBlocked, Report, Noted, Kept, Seen, SubsystemSnapshot, Changed;
    SnapshotIs(c, kind, info, now);
    KeptBits(c, kind, info, now);
    ReportBits(Kept(c, kind, info, now), now);
  }

  lemma PassBits(c: Cell, kind: PowerSystemType, faults: FaultBits, now: real)
    requires Sound(c, now)
    ensures var (d, f) := SubsystemPass(c, kind, faults, now);
            && (Bit(d, kind) <==> Bit(c, kind) && StaysOn(SubOf(c, kind), now))
            && Bit(d, Other(kind)) == Bit(c, Other(kind)) && SubOf(d, Other(kind)) == SubOf(c, Other(kind))
            && d.state == c.state && d.faults == c.faults
            && f == faults + if SubOf(c, kind).targ == ON then Raised(SubOf(c, kind), now) else {}
  {
    hide Pass, StaysOn, SubInv, GoodPass, OverLimit, OverLimitBits, FaultMgr.Valid, Raised;
    PassSummary(SubOf(c, kind), c.port, faults, now);
    PassBitIff(SubOf(c, kind), c.port, faults, now);
    PassRaises(SubOf(c, kind), c.port, faults, now);
  }

  lemma ChecksBits(c: Cell, info: SysInfo, now: real)
    requires Kinds(c)
    ensures var d := DaqChecks(c, info, now);
            if HealthFaults(info) != {} && GoesSafe(c.faults, HealthFaults(info)) then BothLow(d)
            else if MotorWithoutComm(info) then !Bit(d, MOTOR)
            else d == c.(faults := AfterHealth(c, info))
  {
    hide UpdateFaults, TurnOff, FaultMgr.PowerUpdated, HealthFaults, GoesSafe;
    SafeUpdateBits(c, HealthFaults(info), now);
    var c1 := if HealthFaults(info) == {} then c else UpdateFaults(c, HealthFaults(info), now);
    assert Kinds(c1) by { UpdateKeepsKinds(c, HealthFaults(info), now); }
    TurnOffBits(c1, MOTOR, now);
  }

  lemma UpdateKeepsKinds(c: Cell, current: FaultBits, now: real)
    requires Kinds(c)
    ensures Kinds(UpdateFaults(c, current, now))
  {}

  // ---- The whole snapshot ----

  /** Once the motor bit is low, or both are, the rest of the snapshot keeps it so. */
  lemma MotorLowStays(c: Cell, d: Cell, now: real)
    requires Lowered(c, d, now) && !Bit(c, MOTOR)
    ensures !Bit(d, MOTOR)
  {}

  /** The cells of `DaqSubsystems` one after the other, each a lowering of the one before. */
  lemma Stages(c: Cell, info: SysInfo, now: real) returns (c1: Cell, m1: Cell, m2: Cell, k1: Cell, k2: Cell)
    requires Sound(c, now)
    ensures c1 == DaqChecks(c, info, now) && Lowered(c, c1, now)
    ensures m1 == SubsystemSnapshot(c1, MOTOR, info, now) && Lowered(c1, m1, now)
    ensures m2 == SubsystemPass(m1, MOTOR, HealthFaults(info), now).0 && Lowered(m1, m2, now)
    ensures k1 == SubsystemSnapshot(m2, COMM, info, now) && Lowered(m2, k1, now)
    ensures var gathered := SubsystemPass(m1, MOTOR, HealthFaults(info), now).1;
            k2 == SubsystemPass(k1, COMM, gathered, now).0 && Lowered(k1, k2, now)
    ensures k2 == DaqSubsystems(c, info, now).0
    ensures Lowered(k2, ProcessDaq(c, info, now), now)
  {
    hide DaqChecks, SubsystemSnapshot, SubsystemPass, SubInv, Lowers, Remembers, HealthFaults, UpdateFaults;
    c1 := DaqChecks(c, info, now);
    ChecksLower(c, info, now);
    m1 := SubsystemSnapshot(c1, MOTOR, info, now);
    SnapshotLowers(c1, MOTOR, info, now);
    var (afterMotor, gathered) := SubsystemPass(m1, MOTOR, HealthFaults(info), now);
    m2 := afterMotor;
    PassLowers(m1, MOTOR, HealthFaults(info), now);
    k1 := SubsystemSnapshot(m2, COMM, info, now);
    SnapshotLowers(m2, COMM, info, now);
    var (afterComm, all) := SubsystemPass(k1, COMM, gathered, now);
    k2 := afterComm;
    PassLowers(k1, COMM, gathered, now);
    UpdateFaultsLowers(k2, all, now);
  }

  lemma NotedStays(s: Sub, now: real)
    ensures StaysOn(Noted(s), now) == StaysOn(s, now) && Noted(s).targ == s.targ
    ensures Raised(Noted(s), now) == Raised(s, now)
  {}

  lemma BitMeansOn(c: Cell, kind: PowerSystemType, now: real)
    requires Sound(c, now) && Bit(c, kind)
    ensures SubOf(c, kind).targ == ON
  {}

  lemma SeenIs(c: Cell, d: Cell, kind: PowerSystemType, info: SysInfo, blocked: bool, now: real)
    requires SubOf(c, kind) == SubOf(d, kind)
    ensures Seen(c, kind, info, blocked, now) == Seen(d, kind, info, blocked, now)
    ensures Seen(c, kind, info, false, now) == SubOf(c, kind).(info := info)
  {}

  /** The motor's part of a snapshot: the motor bit lasts or not, and if it does comm is untouched. */
  lemma MotorPart(c: Cell, info: SysInfo, now: real)
    requires Sound(c, now)
    ensures var m1 := SubsystemSnapshot(DaqChecks(c, info, now), MOTOR, info, now);
            var (m2, gathered) := SubsystemPass(m1, MOTOR, HealthFaults(info), now);
            && (Bit(m2, MOTOR) <==> MotorLastsSoFar(c, info, now))
            && (Bit(m2, MOTOR) ==>
                  && m2.comm == c.comm && Bit(m2, COMM) == Bit(c, COMM) && m2.faults == AfterHealth(c, info)
                  && (Unpowered(m2) <==> Unpowered(c))
                  && gathered == HealthFaults(info) + Raised(Seen(c, MOTOR, info, false, now), now))
  {
    hide DaqChecks, SubsystemSnapshot, SubsystemPass, SubInv, Remembers, HealthFaults, StaysOn, Seen, Changed,
      AfterHealth, MotorWithoutComm, FaultMgr.Blocked, Noted, FaultMgr.Valid, GoesSafe, Raised;
    var c1, m1, m2, k1, k2 := Stages(c, info, now);
    ChecksBits(c, info, now);
    SnapshotBits(c1, MOTOR, info, now);
    PassBits(m1, MOTOR, HealthFaults(info), now);
    var safe := HealthFaults(info) != {} && GoesSafe(c.faults, HealthFaults(info));
    if Bit(c, MOTOR) && !safe && !MotorWithoutComm(info) && !FaultMgr.Blocked(c1.faults, CheckMask(MOTOR)) {
      var seen := Seen(c1, MOTOR, info, false, now);
      SeenIs(c1, c, MOTOR, info, false, now);
      BitMeansOn(c, MOTOR, now);
      NotedStays(seen, now);
    }
  }

  /** Comm's part of a snapshot, when the motor bit has lasted so far. */
  lemma CommPart(c: Cell, m2: Cell, info: SysInfo, gathered: FaultBits, now: real)
    requires Sound(m2, now) && Bit(m2, MOTOR) && Bit(m2, COMM)
    requires m2.comm == c.comm && m2.faults == AfterHealth(c, info) && (Unpowered(m2) <==> Unpowered(c))
    ensures var (k2, all) := SubsystemPass(SubsystemSnapshot(m2, COMM, info, now), COMM, gathered, now);
            var blocked := FaultMgr.Blocked(m2.faults, CheckMask(COMM));
            && (Bit(k2, MOTOR) <==> !(Unpowered(c) && Changed(Seen(c, COMM, info, blocked, now))))
            && (Bit(k2, MOTOR) ==>
                  && (Bit(k2, COMM) <==> !CommGoes(c, info, now)) && k2.faults == m2.faults
                  && all == gathered + if blocked then {} else Raised(Seen(c, COMM, info, false, now), now))
  {
    hide SubsystemSnapshot, SubsystemPass, SubInv, Remembers, StaysOn, Seen, Changed, AfterHealth, FaultMgr.Blocked,
      Noted, FaultMgr.Valid, Raised;
    var blocked := FaultMgr.Blocked(m2.faults, CheckMask(COMM));
    var k1 := SubsystemSnapshot(m2, COMM, info, now);
    SnapshotLowers(m2, COMM, info, now);
    SnapshotBits(m2, COMM, info, now);
    PassLowers(k1, COMM, gathered, now);
    PassBits(k1, COMM, gathered, now);
    SeenIs(m2, c, COMM, info, blocked, now);
    NotedStays(Seen(m2, COMM, info, blocked, now), now);
    BitMeansOn(m2, COMM, now);
    BitMeansOn(m2, MOTOR, now);
    BlockedIsOff(m2, COMM, info, now);
  }

  lemma BlockedIsOff(c: Cell, kind: PowerSystemType, info: SysInfo, now: real)
    ensures Seen(c, kind, info, true, now).targ == OFF
  {}

  /** The report of all faults gathered, after a health report that did not go to safe mode. */
  lemma LastReport(c: Cell, info: SysInfo, raised: FaultBits)
    requires HealthFaults(info) == {} || !GoesSafe(c.faults, HealthFaults(info))
    requires raised * MASK_HEALTH == {}
    ensures GoesSafe(AfterHealth(c, info), HealthFaults(info) + raised) <==>
            HealthFaults(info) != {} && !(raised * c.faults.power.enableMask <= HealthFaults(info))
  {
    var health, f, g := HealthFaults(info), c.faults.power, AfterHealth(c, info).power;
    HealthIsMasked(info);
    assert g.prev == f.prev && g.enableMask == f.enableMask by { HealthKeeps(c, info); }
    if health == {} {
      assert (health + raised) * MASK_HEALTH == {};
    } else {
      assert (health + raised) * MASK_HEALTH != {};
      DifferenceOf(f.prev, health, raised, f.enableMask);
    }
  }

  lemma HealthKeeps(c: Cell, info: SysInfo)
    requires HealthFaults(info) == {} || !GoesSafe(c.faults, HealthFaults(info))
    ensures var f, g := c.faults.power, AfterHealth(c, info).power; g.prev == f.prev && g.enableMask == f.enableMask
  {
    hide HealthFaults;
    if HealthFaults(info) != {} { HealthIsMasked(info); }
  }

  lemma HealthIsMasked(info: SysInfo)
    ensures HealthFaults(info) <= MASK_HEALTH
    ensures HealthFaults(info) != {} ==> HealthFaults(info) * MASK_HEALTH != {}
  {
    assert HealthFaults(info) * MASK_HEALTH == HealthFaults(info);
  }

  lemma DifferenceOf(prev: FaultBits, health: FaultBits, raised: FaultBits, mask: FaultBits)
    requires Xor(prev, health) * mask == {}
    ensures Xor(prev, health + raised) * mask == {} <==> raised * mask <= health
  {
    forall bit | bit in mask
      ensures bit in prev <==> bit in health
    {
      assert bit in Xor(prev, health) * mask <==> (bit in prev) != (bit in health);
    }
    forall bit
      ensures bit in Xor(prev, health + raised) * mask <==> bit in raised * mask && bit !in health
    {}
  }

  lemma RaisedIsNotHealth(s: Sub, now: real)
    ensures Raised(s, now) * MASK_HEALTH == {}
  {
    hide RaisesVoltageFault, RaisesVoltageWarn, Unoperable, TestsBreakers, BreakerStatus;
  }

  /** A snapshot leaves the motor on over comm off if and only if the motor lasts and comm goes. */
  lemma DaqBits(c: Cell, info: SysInfo, now: real)
    requires Sound(c, now) && !Over(c)
    ensures Over(ProcessDaq(c, info, now)) <==> MotorLasts(c, info, now) && CommGoes(c, info, now)
  {
    hide DaqChecks, SubsystemSnapshot, SubsystemPass, SubInv, Remembers, HealthFaults, StaysOn, Seen, Changed,
      AfterHealth, MotorWithoutComm, FaultMgr.Blocked, FaultMgr.Valid, UpdateFaults, CommGoes, GoesSafe,
      MotorLastsSoFar, Raised;
    var c1, m1, m2, k1, k2 := Stages(c, info, now);
    MotorPart(c, info, now);
    SafeUpdateBits(k2, DaqSubsystems(c, info, now).1, now);
    if Bit(m2, MOTOR) {
      CommPart(c, m2, info, SubsystemPass(m1, MOTOR, HealthFaults(info), now).1, now);
      if Bit(k2, MOTOR) {
        RaisedIsNotHealth(Seen(c, MOTOR, info, false, now), now);
        RaisedIsNotHealth(Seen(c, COMM, info, false, now), now);
        var commBlocked := FaultMgr.Blocked(m2.faults, CheckMask(COMM));
        assert DaqSubsystems(c, info, now).1 == HealthFaults(info) + PassesRaise(c, info, now);
        SoFarIsHealthy(c, info, now);
        LastReport(c, info, PassesRaise(c, info, now));
      }
    }
  }

  lemma SoFarIsHealthy(c: Cell, info: SysInfo, now: real)
    requires MotorLastsSoFar(c, info, now)
    ensures HealthFaults(info) == {} || !GoesSafe(c.faults, HealthFaults(info))
  {}

  // ---- Every event, every run ----

  lemma CommandBits(c: Cell, kind: PowerSystemType, on: bool, now: real)
    requires Sound(c, now) && !Over(c)
    ensures Over(CmdPower(c, kind, on, now).0) <==> LosesComm(c, Command(kind, on, now))
  {
    hide IsBlocked, TurnOff, SubInv, FaultMgr.Valid, TryOn, CrioReady;
    TryOnBits(c, kind, now);
    TurnOffBits(c, MOTOR, now);
    TurnOffBits(c, COMM, now);
    TurnOffBits(TurnOff(c, MOTOR, now), COMM, now);
  }

  lemma TryOnBits(c: Cell, kind: PowerSystemType, now: real)
    requires Kinds(c)
    ensures var d := TryOn(c, kind, now).0;
            && (Bit(d, kind) <==> Accepted(c, kind)) && Bit(d, Other(kind)) == Bit(c, Other(kind))
  {
    hide IsBlocked, CrioReady;
  }

  lemma TimedOutBits(c: Cell, info: SysInfo, now: real)
    requires Sound(c, now)
    ensures !Over(DaqRead(c, info, true, now))
  {
    hide ProcessDaq, TimedOut, Sound, SubInv;
    TimedOutLowers(c, now);
    DaqOnlyLowers(TimedOut(c, now), info, now);
    MotorLowStays(TimedOut(c, now), ProcessDaq(TimedOut(c, now), info, now), now);
  }

  /** For every event: it puts the motor on over comm that is off if and only if `LosesComm`, which is
      a motor power-on over comm that is only actually ON or started directly, a comm power-off while the
      motor is actually OFF or given directly, a refused comm power-on, or a snapshot that trips
      comm and leaves the motor. */
  lemma MotorOverCommIff(c: Cell, e: CellLogic.Event)
    requires Sound(c, e.now) && !Over(c)
    ensures Over(CellLogic.Next(c, e)) <==> LosesComm(c, e)
  {
    hide CmdPower, TryOn, TurnOff, DaqRead, ConnectionsReported, GoToSafeMode, ChangeState, SubInv, MotorLasts,
      CommGoes, Accepted, FaultMgr.Valid;
    match e {
      case Command(kind, on, now) => CommandBits(c, kind, on, now);
      case SubsystemOn(kind, now) => TryOnBits(c, kind, now);
      case SubsystemOff(kind, now) => TurnOffBits(c, kind, now);
      case Daq(info, timedOut, now) =>
        if timedOut {
          TimedOutBits(c, info, now);
        } else {
          DaqBits(c, info, now);
          NoTimeOut(c, info, now);
        }
      case Connections(count, now) => ConnectionBits(c, count, now);
      case ChangeSystemState(next, now) => ChangeStateBits(c, next, now);
      case SafeMode(now) => SafeModeBits(c, now);
      case _ =>
    }
  }

  lemma ConnectionBits(c: Cell, count: nat, now: real)
    requires Kinds(c)
    ensures BothLow(ConnectionsReported(c, count, now)) || ConnectionsReported(c, count, now).port == c.port
  {
    hide GoToSafeMode, BothLow;
    SafeModeBits(c.(faults := FaultMgr.ConnectionsReported(c.faults, count)), now);
  }

  lemma NoTimeOut(c: Cell, info: SysInfo, now: real)
    ensures DaqRead(c, info, false, now) == ProcessDaq(c, info, now)
  {}

  lemma ChangeStateBits(c: Cell, next: StateEnum, now: real)
    requires Kinds(c)
    ensures BothLow(ChangeState(c, next, now)) || ChangeState(c, next, now).port == c.port
  {
    hide TurnOffAll, BothLow;
    AllOffBits(c.(state := next), now);
  }

  lemma StartIsNotOver(m: Moment, info: SysInfo, port: OutputPort)
    requires Starts(m, info, port)
    ensures !Over(m.cell)
  {}

  /** A run of the controller keeps comm power under motor power throughout exactly when none of its
      events loses it. */
  lemma {:induction false} CommUnderMotorIff(run: seq<Moment>, events: seq<CellLogic.Event>)
    requires CellSafety.IsRun(run, events)
    ensures (forall k | 0 <= k < |run| :: !Over(run[k].cell)) <==>
            (forall i | 0 <= i < |events| :: !LosesComm(run[i].cell, events[i]))
  {
    hide Sound, SubInv, LosesComm, Over, CellLogic.Next;
    if forall k | 0 <= k < |run| :: !Over(run[k].cell) {
      forall i | 0 <= i < |events|
        ensures !LosesComm(run[i].cell, events[i])
      {
        StepIff(run, events, i);
        assert !Over(run[i + 1].cell);
      }
    }
    if forall i | 0 <= i < |events| :: !LosesComm(run[i].cell, events[i]) {
      forall k | 0 <= k < |run|
        ensures !Over(run[k].cell)
      {
        NeverOver(run, events, k);
      }
    }
  }

  lemma StepIff(run: seq<Moment>, events: seq<CellLogic.Event>, i: nat)
    requires CellSafety.IsRun(run, events) && i < |events| && !Over(run[i].cell)
    ensures Over(run[i + 1].cell) <==> LosesComm(run[i].cell, events[i])
  {
    hide Sound, SubInv, LosesComm, Over, CellLogic.Next;
    RunIsSound(run, events, i);
    assert Follows(run[i], events[i], run[i + 1]);
    SoundLater(run[i].cell, run[i].time, events[i].now);
    MotorOverCommIff(run[i].cell, events[i]);
  }

  lemma {:induction false} NeverOver(run: seq<Moment>, events: seq<CellLogic.Event>, k: nat)
    requires CellSafety.IsRun(run, events) && k < |run|
    requires forall i | 0 <= i < |events| :: !LosesComm(run[i].cell, events[i])
    ensures !Over(run[k].cell)
  {
    hide Sound, SubInv, LosesComm, Over, CellLogic.Next, Follows, CellSafety.Starts;
    if k == 0 {
      var info, port :| Starts(run[0], info, port);
      StartIsNotOver(run[0], info, port);
    } else {
      NeverOver(run, events, k - 1);
      StepIff(run, events, k - 1);
    }
  }
}
