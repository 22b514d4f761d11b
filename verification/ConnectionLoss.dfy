/** The loss of the last TCP/IP connection, with every thread interleaved at its lock operations: a
    power-on request may have passed its fault check before the loss is flagged. */
module ConnectionLoss {
  import opened ControlDefs
  import opened FaultStatusBits
  import opened PowerLogic
  import opened PowerRuns
  import opened CellLogic
  import opened CellSafety
  import FaultMgr

  /** The lock of a subsystem, as a `setPowerOn` holds it: `Asking` when the fault manager has read the
      connection flag for it and not the power record yet, `Deciding` when it has its answer and has not
      acted on it yet. Calls that do nothing else under the lock are one step. */
  datatype Lock = Free | Asking(flag: bool) | Deciding(blocked: bool)

  /** Where the thread is that reports the number of connections: it sets the flag, then turns off the
      motor, then comm. Reports are serialized. */
  datatype Reporter = Resting | Flagged | MotorDone

  datatype World = World(cell: Cell, motorLock: Lock, commLock: Lock, reporter: Reporter, time: real)

  function LockOf(w: World, kind: PowerSystemType): Lock { if kind == MOTOR then w.motorLock else w.commLock }

  function WithLock(w: World, kind: PowerSystemType, l: Lock): World {
    if kind == MOTOR then w.(motorLock := l) else w.(commLock := l)
  }

  datatype Step =
    | OnAsk(kind: PowerSystemType, now: real)
    | OnDecide(kind: PowerSystemType, now: real)
    | OnCommit(kind: PowerSystemType, now: real)
    | Off(kind: PowerSystemType, now: real)
    | NewInfo(kind: PowerSystemType, info: SysInfo, now: real)
    | RunPass(kind: PowerSystemType, gathered: FaultBits, now: real)
    | PowerReport(bits: FaultBits, now: real)
    | Reset(bits: FaultBits, now: real)
    | Enable(bits: FaultBits, now: real)
    | Interlock(enable: bool, now: real)
    | Emergency(now: real)
    | ReportNone(now: real)
    | ReporterMotorOff(now: real)
    | ReporterCommOff(now: real)
    | ReportSome(count: nat, now: real)

  predicate Allowed(w: World, s: Step) {
    && w.time <= s.now
    && match s
       case OnAsk(kind, _) => LockOf(w, kind).Free?
       case OnDecide(kind, _) => LockOf(w, kind).Asking?
       case OnCommit(kind, _) => LockOf(w, kind).Deciding?
       case Off(kind, _) => LockOf(w, kind).Free?
       case RunPass(kind, _, _) => LockOf(w, kind).Free?
       case ReportNone(_) => w.reporter.Resting?
       case ReporterMotorOff(_) => w.reporter.Flagged? && w.motorLock.Free?
       case ReporterCommOff(_) => w.reporter.MotorDone? && w.commLock.Free?
       case ReportSome(count, _) => w.reporter.Resting? && count >= 1
       case _ => true
  }

  /** The commit of `setPowerOn` with the answer it was given. */
  function Commit(c: Cell, kind: PowerSystemType, blocked: bool, now: real): Cell {
    var o := PowerOnTried(SubOf(c, kind), c.port, blocked, now);
    WithSub(c, kind, o.sub, o.port)
  }

  function CellAfter(w: World, s: Step): Cell {
    var c := w.cell;
    match s
    case OnAsk(_, _) => c
    case OnDecide(_, _) => c
    case OnCommit(kind, now) => Commit(c, kind, LockOf(w, kind) != Deciding(false), now)
    case Off(kind, now) => TurnOff(c, kind, now)
    case NewInfo(kind, info, _) => WithSub(c, kind, SubOf(c, kind).(info := info), c.port)
    case RunPass(kind, gathered, now) => SubsystemPass(c, kind, gathered, now).0
    case PowerReport(bits, _) => c.(faults := FaultMgr.PowerUpdated(c.faults, bits).0)
    case Reset(bits, _) => c.(faults := FaultMgr.AllReset(c.faults, bits))
    case Enable(bits, _) => c.(faults := FaultMgr.AllEnabled(c.faults, bits))
    case Interlock(enable, _) => c.(port := c.port[CRIO_INTERLOCK_ENABLE := enable])
    case Emergency(_) => EmergencyOff(c)
    case ReportNone(_) => c.(faults := FaultMgr.ConnectionsReported(c.faults, 0))
    case ReporterMotorOff(now) => TurnOff(c, MOTOR, now)
    case ReporterCommOff(now) => TurnOff(c, COMM, now)
    case ReportSome(count, _) => c.(faults := FaultMgr.ConnectionsReported(c.faults, count))
  }

  /** The answer of the fault manager once it has read the connection flag as `flag`. */
  predicate Answer(c: Cell, kind: PowerSystemType, flag: bool) {
    FaultMgr.Blocked(c.faults.(commFault := flag), CheckMask(kind))
  }

  function Next(w: World, s: Step): World {
    var w1 := w.(cell := CellAfter(w, s), time := s.now);
    match s
    case OnAsk(kind, _) => WithLock(w1, kind, Asking(w.cell.faults.commFault))
    case OnDecide(kind, _) => WithLock(w1, kind, Deciding(Answer(w.cell, kind, LockOf(w, kind) != Asking(false))))
    case OnCommit(kind, _) => WithLock(w1, kind, Free)
    case ReportNone(_) => w1.(reporter := Flagged)
    case ReporterMotorOff(_) => w1.(reporter := MotorDone)
    case ReporterCommOff(_) => w1.(reporter := Resting)
    case _ => w1
  }

  /** Off, and nobody inside the lock is about to turn it on. */
  predicate Quiet(w: World, kind: PowerSystemType) {
    IsOff(w.cell, kind) && LockOf(w, kind) != Asking(false) && LockOf(w, kind) != Deciding(false)
  }

  ghost predicate Inv(w: World) {
    && Sound(w.cell, w.time)
    && (!w.reporter.Resting? ==> w.cell.faults.commFault)
    && (w.reporter.MotorDone? ==> Quiet(w, MOTOR))
  }

  predicate Disconnected(w: World) { w.cell.faults.commFault && Quiet(w, MOTOR) && Quiet(w, COMM) }

  lemma CommitSound(c: Cell, kind: PowerSystemType, blocked: bool, now: real)
    requires Sound(c, now)
    ensures var d := Commit(c, kind, blocked, now);
            && Sound(d, now) && d.faults == c.faults
            && (IsOff(c, Other(kind)) ==> IsOff(d, Other(kind)))
            && (blocked ==> IsOff(d, kind))
  {}

  lemma NewInfoSound(c: Cell, kind: PowerSystemType, info: SysInfo, now: real)
    requires Sound(c, now)
    ensures var d := WithSub(c, kind, SubOf(c, kind).(info := info), c.port);
            Sound(d, now) && d.faults == c.faults && forall k :: IsOff(c, k) ==> IsOff(d, k)
  {}

  /** Off stays off, and the records are not touched. */
  ghost predicate Quieter(c: Cell, d: Cell, now: real) {
    Sound(d, now) && d.faults == c.faults && forall k :: IsOff(c, k) ==> IsOff(d, k)
  }

  lemma PassQuietens(c: Cell, kind: PowerSystemType, gathered: FaultBits, now: real)
    requires Sound(c, now)
    ensures Quieter(c, SubsystemPass(c, kind, gathered, now).0, now)
  {
    hide SubsystemPass, Sound, OverLimit, OverLimitBits, Remembers;
    PassLowers(c, kind, gathered, now);
  }

  lemma TurnOffQuietens(c: Cell, kind: PowerSystemType, now: real)
    requires Sound(c, now)
    ensures Quieter(c, TurnOff(c, kind, now), now) && IsOff(TurnOff(c, kind, now), kind)
  {
    hide TurnOff, Sound;
    TurnOffTurns(c, kind, now);
  }

  /** What a step may do to the controller: it stays sound, off stays off unless a commit turns it on. */
  ghost predicate Fine(w: World, s: Step) {
    && Sound(CellAfter(w, s), s.now)
    && (forall kind | IsOff(w.cell, kind) && !(s == OnCommit(kind, s.now) && LockOf(w, kind) == Deciding(false)) ::
          IsOff(CellAfter(w, s), kind))
    && CellAfter(w, s).faults.commFault ==
         (if s.ReportNone? then true else if s.ReportSome? then false else w.cell.faults.commFault)
  }

  predicate TurnsOff(s: Step) { s.Off? || s.ReporterMotorOff? || s.ReporterCommOff? }

  predicate OfSubsystem(s: Step) { TurnsOff(s) || s.OnAsk? || s.OnDecide? || s.OnCommit? || s.NewInfo? || s.RunPass? }

  lemma TurnOffStepFine(w: World, s: Step)
    requires Sound(w.cell, w.time) && Allowed(w, s) && TurnsOff(s)
    ensures Fine(w, s)
    ensures IsOff(CellAfter(w, s), if s.Off? then s.kind else if s.ReporterMotorOff? then MOTOR else COMM)
  {
    hide Sound, IsOff, TurnOff;
    SoundLater(w.cell, w.time, s.now);
    TurnOffQuietens(w.cell, if s.Off? then s.kind else if s.ReporterMotorOff? then MOTOR else COMM, s.now);
  }

  lemma CommitStepFine(w: World, kind: PowerSystemType, now: real)
    requires Sound(w.cell, w.time) && Allowed(w, OnCommit(kind, now))
    ensures Fine(w, OnCommit(kind, now))
  {
    hide Sound, IsOff, Commit;
    SoundLater(w.cell, w.time, now);
    CommitSound(w.cell, kind, LockOf(w, kind) != Deciding(false), now);
  }

  /** Steps of one subsystem. */
  lemma SubsystemStepFine(w: World, s: Step)
    requires Sound(w.cell, w.time) && Allowed(w, s) && OfSubsystem(s)
    ensures Fine(w, s)
    ensures s.Off? ==> IsOff(CellAfter(w, s), s.kind)
    ensures s.ReporterMotorOff? ==> IsOff(CellAfter(w, s), MOTOR)
    ensures s.ReporterCommOff? ==> IsOff(CellAfter(w, s), COMM)
  {
    hide Fine, CellAfter, Sound, IsOff, Allowed;
    if TurnsOff(s) {
      TurnOffStepFine(w, s);
    } else if s.OnCommit? {
      CommitStepFine(w, s.kind, s.now);
    } else {
      PassStepFine(w, s);
    }
  }

  lemma PassStepFine(w: World, s: Step)
    requires Sound(w.cell, w.time) && Allowed(w, s) && (s.OnAsk? || s.OnDecide? || s.NewInfo? || s.RunPass?)
    ensures Fine(w, s)
  {
    hide Sound, IsOff, SubsystemPass;
    SoundLater(w.cell, w.time, s.now);
    if s.NewInfo? { NewInfoSound(w.cell, s.kind, s.info, s.now); }
    if s.RunPass? { PassQuietens(w.cell, s.kind, s.gathered, s.now); }
  }

  /** Steps of the fault records and of the rest of the port. */
  lemma OtherStepFine(w: World, s: Step)
    requires Sound(w.cell, w.time) && Allowed(w, s) && !OfSubsystem(s)
    ensures Fine(w, s)
  {
    hide SubInv, TurnOff, SubsystemPass, Commit, EmergencyOff;
    SoundLater(w.cell, w.time, s.now);
    var c := w.cell;
    match s {
      case PowerReport(bits, _) => FaultMgr.EventsKeepValid(c.faults, bits, 0);
      case Reset(bits, _) => FaultMgr.EventsKeepValid(c.faults, bits, 0);
      case Enable(bits, _) => FaultMgr.EventsKeepValid(c.faults, bits, 0);
      case Interlock(enable, now) => PortWritesLower(c, enable, now);
      case Emergency(now) => PortWritesLower(c, true, now);
      case ReportNone(_) => FaultMgr.EventsKeepValid(c.faults, {}, 0);
      case ReportSome(count, _) => FaultMgr.EventsKeepValid(c.faults, {}, count);
      case _ =>
    }
  }

  lemma FlagBlocks(c: Cell)
    ensures Answer(c, MOTOR, true) && Answer(c, COMM, true)
  {}

  lemma StepKeepsInv(w: World, s: Step)
    requires Inv(w) && Allowed(w, s)
    ensures Inv(Next(w, s))
    ensures s.ReporterCommOff? ==> Disconnected(Next(w, s))
    ensures Disconnected(w) && !s.ReportSome? ==> Disconnected(Next(w, s))
  {
    hide Sound, IsOff, CellAfter, Answer;
    if OfSubsystem(s) { SubsystemStepFine(w, s); } else { OtherStepFine(w, s); }
    FlagBlocks(w.cell);
  }

  /** The start of a run: the controller as constructed and every lock free. */
  ghost predicate Starts(w: World) {
    && w.motorLock.Free? && w.commLock.Free? && w.reporter.Resting?
    && exists info, port :: CellSafety.Starts(Moment(w.cell, w.time), info, port)
  }

  lemma StartHasInv(w: World)
    requires Starts(w)
    ensures Inv(w)
  {
    var info, port :| CellSafety.Starts(Moment(w.cell, w.time), info, port);
    InitialIsSound(Moment(w.cell, w.time), info, port);
  }

  ghost predicate IsRun(run: seq<World>, steps: seq<Step>) {
    && |run| == |steps| + 1
    && Starts(run[0])
    && forall i | 0 <= i < |steps| :: Allowed(run[i], steps[i]) && run[i + 1] == Next(run[i], steps[i])
  }

  lemma {:induction false} RunKeepsInv(run: seq<World>, steps: seq<Step>, i: nat)
    requires IsRun(run, steps) && i < |run|
    ensures Inv(run[i])
  {
    hide Inv, Allowed, Next, Starts;
    if i == 0 {
      StartHasInv(run[0]);
    } else {
      RunKeepsInv(run, steps, i - 1);
      StepKeepsInv(run[i - 1], steps[i - 1]);
    }
  }

  /** Once the report of no connections completes, and until a report of at least one, both targets are
      OFF and both power bits low, whatever requests were under way when it began. */
  lemma {:induction false} OffAfterReport(run: seq<World>, steps: seq<Step>, i: nat, j: nat)
    requires IsRun(run, steps) && |run| == |steps| + 1 && i < j < |run| && steps[i].ReporterCommOff?
    requires forall k | i < k < j :: !steps[k].ReportSome?
    ensures Disconnected(run[j])
  {
    hide Inv, Next, Disconnected, Starts;
    RunKeepsInv(run, steps, j - 1);
    assert Allowed(run[j - 1], steps[j - 1]) && run[j] == Next(run[j - 1], steps[j - 1]);
    StepKeepsInv(run[j - 1], steps[j - 1]);
    if i < j - 1 {
      OffAfterReport(run, steps, i, j - 1);
    }
  }
}
