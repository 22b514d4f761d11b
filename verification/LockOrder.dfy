/** The locks of the power, model, fault and simulator classes: which calls take which, and why no
    interleaving of them trips a lock check or waits in a circle. */
module LockOrder {
  import opened Options
  import opened ControlDefs

  datatype Lock = ModelLock | SubLock(kind: PowerSystemType) | PortLock | PowerFaultLock | TelemetryFaultLock
                | SummaryLock | SimLock | MaskLock | QueueLock

  /** Locks are taken in increasing rank. */
  function Rank(l: Lock): nat {
    match l
    case ModelLock => 0
    case SubLock(_) => 1
    case PortLock | PowerFaultLock | TelemetryFaultLock | SummaryLock => 2
    case SimLock | MaskLock | QueueLock => 3
  }

  /** What the code does with locks: take and give back, check as the VMUTEX macros do, or go one of
      two ways. */
  datatype Instr = Acquire(l: Lock) | Release(l: Lock) | CheckHeld(l: Lock) | CheckFree(l: Lock)
                 | Either(a: seq<Instr>, b: seq<Instr>)
  type Code = seq<Instr>

  predicate Below(held: set<Lock>, rank: nat) { forall l | l in held :: Rank(l) < rank }

  /** The locks held after `code`, or nothing when some path of it breaks the discipline. */
  function Check(code: Code, held: set<Lock>): Option<set<Lock>>
    decreases code
  {
    if code == [] then Some(held)
    else if After(code[0], held).None? then None
    else Check(code[1..], After(code[0], held).value)
  }

  function After(i: Instr, held: set<Lock>): Option<set<Lock>>
    decreases i
  {
    match i
    case Acquire(l) => if Below(held, Rank(l)) then Some(held + {l}) else None
    case Release(l) => if l in held then Some(held - {l}) else None
    case CheckHeld(l) => if l in held then Some(held) else None
    case CheckFree(l) => if l !in held then Some(held) else None
    case Either(a, b) => if Check(a, held) == Check(b, held) then Check(a, held) else None
  }

  predicate Keeps(code: Code, held: set<Lock>) { Check(code, held) == Some(held) }

  lemma {:induction false} CheckAppend(a: Code, b: Code, held: set<Lock>)
    ensures Check(a + b, held) == if Check(a, held).None? then None else Check(b, Check(a, held).value)
    decreases |a|
  {
    if a == [] {
      assert a + b == b;
    } else {
      assert (a + b)[0] == a[0] && (a + b)[1..] == a[1..] + b;
      var first := After(a[0], held);
      if first.Some? { CheckAppend(a[1..], b, first.value); }
    }
  }

  // ---- Threads ----

  datatype Thread = Thread(held: set<Lock>, code: Code)
  type System = seq<Thread>

  predicate Free(s: System, l: Lock) { forall t | t in s :: l !in t.held }

  /** One step of a thread; `left` picks a branch, and a thread at rest starts `entry`. */
  predicate CanStep(s: System, t: nat) {
    && t < |s| && s[t].code != []
    && (s[t].code[0].Acquire? ==> Free(s, s[t].code[0].l))
  }

  function Stepped(s: System, t: nat, left: bool): System
    requires CanStep(s, t)
  {
    var me := s[t];
    var rest := me.code[1..];
    s[t := match me.code[0]
           case Acquire(l) => Thread(me.held + {l}, rest)
           case Release(l) => Thread(me.held - {l}, rest)
           case CheckHeld(_) => Thread(me.held, rest)
           case CheckFree(_) => Thread(me.held, rest)
           case Either(a, b) => Thread(me.held, (if left then a else b) + rest)]
  }

  datatype Event = Step(t: nat, left: bool) | Start(t: nat, entry: Code)

  ghost predicate Possible(s: System, e: Event) {
    match e
    case Step(t, _) => CanStep(s, t)
    case Start(t, entry) => t < |s| && s[t].code == [] && IsEntry(entry)
  }

  function Next(s: System, e: Event): System
    requires Possible(s, e)
  {
    match e
    case Step(t, left) => Stepped(s, t, left)
    case Start(t, entry) => s[t := Thread(s[t].held, entry)]
  }

  ghost predicate Leads(s: System, events: seq<Event>, end: System)
    decreases |events|
  {
    if events == [] then s == end
    else Possible(s, events[0]) && Leads(Next(s, events[0]), events[1..], end)
  }

  /** `n` threads at rest. */
  function Resting(n: nat): System { seq(n, _ => Thread({}, [])) }

  // ---- What goes wrong ----

  /** A thread locks a mutex it holds, gives back one it does not hold, or fails a VMUTEX check. */
  predicate Trips(t: Thread) {
    && t.code != []
    && match t.code[0]
       case Acquire(l) => l in t.held
       case Release(l) => l !in t.held
       case CheckHeld(l) => l !in t.held
       case CheckFree(l) => l in t.held
       case Either(_, _) => false
  }

  predicate WaitsFor(s: System, t: nat, u: nat) {
    && t < |s| && u < |s| && s[t].code != [] && s[t].code[0].Acquire? && s[t].code[0].l in s[u].held
  }

  // ---- The invariant ----

  predicate ThreadOk(t: Thread) { Check(t.code, t.held) == Some({}) }

  predicate Ok(s: System) {
    && (forall t | 0 <= t < |s| :: ThreadOk(s[t]))
    && forall t, u | 0 <= t < u < |s| :: s[t].held !! s[u].held
  }

  lemma HeadIsFine(t: Thread)
    requires ThreadOk(t) && t.code != []
    ensures After(t.code[0], t.held).Some? && Check(t.code[1..], After(t.code[0], t.held).value) == Some({})
  {}

  lemma StepKeeps(s: System, t: nat, left: bool)
    requires Ok(s) && CanStep(s, t)
    ensures Ok(Stepped(s, t, left))
  {
    var me, n := s[t], Stepped(s, t, left);
    HeadIsFine(me);
    if me.code[0].Either? {
      CheckAppend(me.code[0].a, me.code[1..], me.held);
      CheckAppend(me.code[0].b, me.code[1..], me.held);
    }
    assert ThreadOk(n[t]);
    if me.code[0].Acquire? {
      assert forall u | 0 <= u < |s| :: s[u] in s && me.code[0].l !in s[u].held;
    }
  }

  lemma NextKeeps(s: System, e: Event)
    requires Ok(s) && Possible(s, e)
    ensures Ok(Next(s, e))
  {
    match e {
      case Step(t, left) => StepKeeps(s, t, left);
      case Start(t, entry) =>
        assert ThreadOk(s[t]) && s[t].held == {};
        EntryKeeps(entry);
    }
  }

  lemma {:induction false} RunKeeps(s: System, events: seq<Event>, end: System)
    requires Ok(s) && Leads(s, events, end)
    ensures Ok(end)
    decreases |events|
  {
    hide Ok, Next, Possible;
    if events != [] {
      NextKeeps(s, events[0]);
      RunKeeps(Next(s, events[0]), events[1..], end);
    }
  }

  // ---- The theorems ----

  /** However many threads make these calls, and however they interleave: no thread locks a mutex
      twice or trips a check. */
  lemma NeverTrips(n: nat, events: seq<Event>, end: System, t: nat)
    requires Leads(Resting(n), events, end) && t < |end|
    ensures !Trips(end[t])
  {
    RunKeeps(Resting(n), events, end);
    if end[t].code != [] { HeadIsFine(end[t]); }
  }

  predicate Wants(s: System, t: nat) { t < |s| && s[t].code != [] && s[t].code[0].Acquire? }

  lemma WaitingGoesUp(s: System, t: nat, u: nat)
    requires Ok(s) && WaitsFor(s, t, u) && Wants(s, u)
    ensures Rank(s[t].code[0].l) < Rank(s[u].code[0].l)
  {
    HeadIsFine(s[u]);
  }

  /** Each thread of `path` waits for the next. */
  predicate IsPath(s: System, path: seq<nat>) {
    |path| > 1 ==> WaitsFor(s, path[0], path[1]) && IsPath(s, path[1..])
  }

  /** No threads wait for each other in a circle. */
  lemma NoWaitCycle(n: nat, events: seq<Event>, end: System, path: seq<nat>)
    requires Leads(Resting(n), events, end) && IsPath(end, path) && |path| > 1
    ensures path[0] != path[|path| - 1]
  {
    RunKeeps(Resting(n), events, end);
    if Wants(end, path[|path| - 1]) {
      PathGoesUp(end, path);
    }
  }

  lemma {:induction false} PathGoesUp(s: System, path: seq<nat>)
    requires Ok(s) && |path| > 1 && IsPath(s, path) && Wants(s, path[|path| - 1])
    ensures Wants(s, path[0]) && Rank(s[path[0]].code[0].l) < Rank(s[path[|path| - 1]].code[0].l)
    decreases |path|
  {
    if |path| > 2 {
      PathGoesUp(s, path[1..]);
    }
    WaitingGoesUp(s, path[0], path[1]);
  }

  /** As long as some call is unfinished, some thread can go on. */
  lemma SomeoneCanGoOn(n: nat, events: seq<Event>, end: System, t: nat) returns (u: nat)
    requires Leads(Resting(n), events, end) && t < |end| && end[t].code != []
    ensures CanStep(end, u)
  {
    RunKeeps(Resting(n), events, end);
    u := GoOn(end, t);
  }

  lemma {:induction false} GoOn(s: System, t: nat) returns (u: nat)
    requires Ok(s) && t < |s| && s[t].code != []
    ensures CanStep(s, u)
    decreases if s[t].code[0].Acquire? then 4 - Rank(s[t].code[0].l) else 0
  {
    u := t;
    if !CanStep(s, t) {
      var holder :| 0 <= holder < |s| && s[t].code[0].l in s[holder].held;
      assert ThreadOk(s[holder]);
      assert WaitsFor(s, t, holder);
      if s[holder].code[0].Acquire? {
        WaitingGoesUp(s, t, holder);
        u := GoOn(s, holder);
      } else {
        u := holder;
      }
    }
  }

  // ---- The calls ----

  /** A `lock_guard` around `body`. */
  function Guarded(l: Lock, body: Code): Code { [Acquire(l)] + body + [Release(l)] }

  function Maybe(a: Code): Code { [Either(a, [])] }

  function WriteBit(): Code { [CheckFree(PortLock)] + Guarded(PortLock, []) }
  function ReadSysInfo(): Code { WriteBit() }
  function Emergency(): Code { [CheckFree(PortLock)] + WriteBit() + WriteBit() }

  function PowerFaults(): Code { Guarded(PowerFaultLock, []) }

  /** `_setPowerOff`, `setPowerOff`, `_setPowerOn`, `setPowerOn` and the getters of a subsystem. */
  function Off(k: PowerSystemType): Code { [CheckHeld(SubLock(k))] + WriteBit() + WriteBit() }
  function SetOff(k: PowerSystemType): Code { [CheckFree(SubLock(k))] + Guarded(SubLock(k), Off(k)) }
  function On(k: PowerSystemType): Code {
    [CheckHeld(SubLock(k))] + PowerFaults() + [Either(Off(k), WriteBit() + WriteBit())]
  }
  function SetOn(k: PowerSystemType): Code { [CheckFree(SubLock(k))] + Guarded(SubLock(k), On(k)) }
  function GetPower(k: PowerSystemType): Code { [CheckFree(SubLock(k))] + Guarded(SubLock(k), []) }

  function TurnOffAll(): Code { [CheckHeld(ModelLock)] + SetOff(MOTOR) + SetOff(COMM) }

  /** A change of the state map, which may enter a state that turns power off. */
  function EnterSome(): Code { Maybe(TurnOffAll()) }
  function ChangeState(): Code { Guarded(ModelLock, EnterSome()) }
  function GoToSafeMode(): Code {
    [CheckFree(ModelLock)] + Guarded(ModelLock, [CheckHeld(ModelLock)] + TurnOffAll() + EnterSome())
  }
  function ReportChange(): Code {
    [CheckFree(ModelLock)]
    + Guarded(ModelLock, GetPower(COMM) + GetPower(MOTOR) + GetPower(COMM) + GetPower(MOTOR)
                         + [Either(Maybe(TurnOffAll()), EnterSome())])
  }
  function SystemShutdown(): Code {
    [CheckFree(ModelLock)] + Guarded(ModelLock, []) + ChangeState() + Guarded(ModelLock, TurnOffAll())
  }

  /** A mask is built under a lock when it is first asked for. */
  function GetMask(): Code { Maybe(Guarded(MaskLock, [])) }

  /** The fault mask is built on two others. */
  function GetMaskFaults(): Code { GetMask() + GetMask() + GetMask() }

  function UpdatePowerFaults(): Code {
    GetMaskFaults() + PowerFaults() + Maybe(Maybe(GoToSafeMode()) + GetMaskFaults() + Guarded(SummaryLock, []))
  }
  function ResetFaults(): Code {
    GetMaskFaults() + PowerFaults() + Guarded(TelemetryFaultLock, []) + Guarded(SummaryLock, [])
  }
  function EnableFaults(): Code { Guarded(SummaryLock, []) + PowerFaults() + Guarded(TelemetryFaultLock, []) }
  function ReportConnections(): Code { [Either(Guarded(SummaryLock, []) + GoToSafeMode(), ResetFaults())] }

  /** `processDaq` of a subsystem: the report to the model comes before its lock is taken. */
  function SubsystemDaq(k: PowerSystemType): Code {
    [CheckFree(SubLock(k))] + PowerFaults() + Maybe(SetOff(k)) + Maybe(ReportChange()) + Guarded(SubLock(k), Pass(k))
  }
  function Pass(k: PowerSystemType): Code {
    [CheckHeld(SubLock(k))] + Maybe(WriteBit()) + Maybe(Off(k)) + Maybe(Off(k))
  }
  function ProcessDaq(): Code {
    Maybe(UpdatePowerFaults()) + Maybe(SetOff(MOTOR)) + SubsystemDaq(MOTOR) + SubsystemDaq(COMM) + UpdatePowerFaults()
  }
  function CheckTimeout(): Code { Maybe(SetOff(MOTOR) + SetOff(COMM) + UpdatePowerFaults()) }
  function DaqInfoRead(): Code { ReadSysInfo() + CheckTimeout() + ProcessDaq() }
  function DaqTimeoutCheck(): Code { CheckTimeout() + Maybe(ReadSysInfo() + ProcessDaq()) }
  function PowerMotor(): Code { [Either(GetPower(COMM) + Maybe(SetOn(MOTOR)), SetOff(MOTOR))] }
  function PowerComm(): Code { GetPower(MOTOR) + Maybe(SetOff(MOTOR)) + [Either(SetOn(COMM), SetOff(COMM))] }

  /** A command goes into or comes out of the queue of the event thread. */
  function Queue(): Code { Guarded(QueueLock, []) }

  /** Look-ups of the system state, and the report of a time-out of the motion engine. */
  function GetCurrentState(): Code { Guarded(ModelLock, []) }
  function ReportMotionEngineTimeout(): Code { Guarded(SummaryLock, []) }

  /** The FPGA loop holds the port while it talks to the simulator, and then queues a read. */
  function SimPort(): Code { Guarded(SimLock, []) }
  function ReadWriteFpga(): Code { Maybe(Emergency()) + Guarded(PortLock, SimPort() + SimPort()) + Maybe(Queue()) }
  function SimRun(): Code { SimPort() + SimPort() }

  ghost predicate IsEntry(code: Code) {
    || code == WriteBit() || code == SetOff(MOTOR) || code == SetOff(COMM)
    || code == SetOn(MOTOR) || code == SetOn(COMM)
    || code == GetPower(MOTOR) || code == GetPower(COMM) || code == ChangeState() || code == GoToSafeMode()
    || code == SystemShutdown() || code == ReportConnections() || code == ResetFaults() || code == EnableFaults()
    || code == DaqInfoRead() || code == DaqTimeoutCheck() || code == PowerMotor() || code == PowerComm()
    || code == ReadWriteFpga() || code == SimRun() || code == GetMaskFaults()
    || code == Queue() || code == GetCurrentState() || code == ReportMotionEngineTimeout()
  }

  // ---- The calls keep the discipline ----

  lemma GuardedKeeps(l: Lock, body: Code, held: set<Lock>)
    requires Below(held, Rank(l)) && Keeps(body, held + {l})
    ensures Keeps(Guarded(l, body), held)
  {
    CheckAppend([Acquire(l)] + body, [Release(l)], held);
    CheckAppend([Acquire(l)], body, held);
    assert [Acquire(l)][1..] == [] && [Release(l)][1..] == [];
    assert l !in held && held + {l} - {l} == held;
  }

  lemma FreeKeeps(l: Lock, held: set<Lock>)
    requires l !in held
    ensures Keeps([CheckFree(l)], held)
  {
    assert [CheckFree(l)][1..] == [];
  }

  lemma HeldKeeps(l: Lock, held: set<Lock>)
    requires l in held
    ensures Keeps([CheckHeld(l)], held)
  {
    assert [CheckHeld(l)][1..] == [];
  }

  lemma EitherKeeps(a: Code, b: Code, held: set<Lock>)
    requires Keeps(a, held) && Keeps(b, held)
    ensures Keeps([Either(a, b)], held)
  {
    assert [Either(a, b)][1..] == [];
  }

  lemma BothKeep(a: Code, b: Code, held: set<Lock>)
    requires Keeps(a, held) && Keeps(b, held)
    ensures Keeps(a + b, held)
  {
    CheckAppend(a, b, held);
  }

  lemma MaybeKeeps(a: Code, held: set<Lock>)
    requires Keeps(a, held)
    ensures Keeps(Maybe(a), held)
  {
    EitherKeeps(a, [], held);
  }

  lemma LeafKeeps(l: Lock, held: set<Lock>)
    requires Below(held, Rank(l))
    ensures Keeps(Guarded(l, []), held)
  {
    GuardedKeeps(l, [], held);
  }

  lemma WriteBitKeeps(held: set<Lock>)
    requires Below(held, 2)
    ensures Keeps(WriteBit(), held) && Keeps(WriteBit() + WriteBit(), held)
  {
    hide Check, WriteBit, Guarded;
    assert Keeps(WriteBit(), held) by {
      assert WriteBit() == [CheckFree(PortLock)] + Guarded(PortLock, []) by { UnfoldWriteBit(); }
      assert PortLock !in held;
      FreeKeeps(PortLock, held);
      LeafKeeps(PortLock, held);
      BothKeep([CheckFree(PortLock)], Guarded(PortLock, []), held);
    }
    BothKeep(WriteBit(), WriteBit(), held);
  }

  lemma UnfoldWriteBit()
    ensures WriteBit() == [CheckFree(PortLock)] + Guarded(PortLock, [])
  {}

  lemma OffKeeps(k: PowerSystemType, held: set<Lock>)
    requires SubLock(k) in held && Below(held, 2)
    ensures Keeps(Off(k), held)
  {
    hide Check, WriteBit;
    HeldKeeps(SubLock(k), held);
    WriteBitKeeps(held);
    BothKeep([CheckHeld(SubLock(k))], WriteBit(), held);
    BothKeep([CheckHeld(SubLock(k))] + WriteBit(), WriteBit(), held);
  }

  /** The pattern of every locking call: check that the lock is free, then hold it around `body`. */
  lemma CheckedKeeps(l: Lock, body: Code, held: set<Lock>)
    requires Below(held, Rank(l)) && Keeps(body, held + {l})
    ensures Keeps([CheckFree(l)] + Guarded(l, body), held)
  {
    hide Check, Guarded;
    assert l !in held;
    FreeKeeps(l, held);
    GuardedKeeps(l, body, held);
    BothKeep([CheckFree(l)], Guarded(l, body), held);
  }

  lemma SetOffKeeps(k: PowerSystemType, held: set<Lock>)
    requires Below(held, 1)
    ensures Keeps(SetOff(k), held) && Keeps(GetPower(k), held)
  {
    hide Check, Off, Guarded;
    OffKeeps(k, held + {SubLock(k)});
    CheckedKeeps(SubLock(k), Off(k), held);
    NothingKeeps(held + {SubLock(k)});
    CheckedKeeps(SubLock(k), [], held);
  }

  lemma NothingKeeps(held: set<Lock>)
    ensures Keeps([], held)
  {}

  lemma SetOnKeeps(k: PowerSystemType, held: set<Lock>)
    requires Below(held, 1)
    ensures Keeps(SetOn(k), held)
  {
    hide Check, Off, WriteBit, Guarded;
    var inside := held + {SubLock(k)};
    HeldKeeps(SubLock(k), inside);
    LeafKeeps(PowerFaultLock, inside);
    OffKeeps(k, inside);
    WriteBitKeeps(inside);
    EitherKeeps(Off(k), WriteBit() + WriteBit(), inside);
    BothKeep([CheckHeld(SubLock(k))], PowerFaults(), inside);
    BothKeep([CheckHeld(SubLock(k))] + PowerFaults(), [Either(Off(k), WriteBit() + WriteBit())], inside);
    CheckedKeeps(SubLock(k), On(k), held);
  }

  lemma TurnOffAllKeeps(held: set<Lock>)
    requires held == {ModelLock}
    ensures Keeps(TurnOffAll(), held) && Keeps(EnterSome(), held)
  {
    hide Check, SetOff;
    HeldKeeps(ModelLock, held);
    SetOffKeeps(MOTOR, held);
    SetOffKeeps(COMM, held);
    BothKeep([CheckHeld(ModelLock)], SetOff(MOTOR), held);
    BothKeep([CheckHeld(ModelLock)] + SetOff(MOTOR), SetOff(COMM), held);
    MaybeKeeps(TurnOffAll(), held);
  }

  lemma ModelCallsKeep()
    ensures Keeps(ChangeState(), {}) && Keeps(GoToSafeMode(), {}) && Keeps(SystemShutdown(), {})
  {
    hide Check, TurnOffAll, EnterSome, Guarded;
    var inside := {} + {ModelLock};
    TurnOffAllKeeps(inside);
    GuardedKeeps(ModelLock, EnterSome(), {});
    HeldKeeps(ModelLock, inside);
    BothKeep([CheckHeld(ModelLock)], TurnOffAll(), inside);
    BothKeep([CheckHeld(ModelLock)] + TurnOffAll(), EnterSome(), inside);
    CheckedKeeps(ModelLock, [CheckHeld(ModelLock)] + TurnOffAll() + EnterSome(), {});
    NothingKeeps(inside);
    CheckedKeeps(ModelLock, [], {});
    GuardedKeeps(ModelLock, TurnOffAll(), {});
    BothKeep([CheckFree(ModelLock)] + Guarded(ModelLock, []), ChangeState(), {});
    BothKeep([CheckFree(ModelLock)] + Guarded(ModelLock, []) + ChangeState(), Guarded(ModelLock, TurnOffAll()), {});
  }

  lemma ReportChangeKeeps()
    ensures Keeps(ReportChange(), {})
  {
    hide Check, TurnOffAll, EnterSome, Guarded, GetPower;
    var inside := {} + {ModelLock};
    TurnOffAllKeeps(inside);
    SetOffKeeps(MOTOR, inside);
    SetOffKeeps(COMM, inside);
    MaybeKeeps(TurnOffAll(), inside);
    var decide := [Either(Maybe(TurnOffAll()), EnterSome())];
    EitherKeeps(Maybe(TurnOffAll()), EnterSome(), inside);
    var c, m := GetPower(COMM), GetPower(MOTOR);
    BothKeep(c, m, inside);
    BothKeep(c + m, c, inside);
    BothKeep(c + m + c, m, inside);
    BothKeep(c + m + c + m, decide, inside);
    CheckedKeeps(ModelLock, c + m + c + m + decide, {});
  }

  lemma FaultCallsKeep()
    ensures Keeps(PowerFaults(), {}) && Keeps(UpdatePowerFaults(), {}) && Keeps(ResetFaults(), {})
    ensures Keeps(EnableFaults(), {}) && Keeps(ReportConnections(), {}) && Keeps(GetMaskFaults(), {})
  {
    hide Check, GoToSafeMode, Guarded, GetMask, GetMaskFaults;
    ModelCallsKeep();
    LeafKeeps(PowerFaultLock, {});
    LeafKeeps(TelemetryFaultLock, {});
    LeafKeeps(SummaryLock, {});
    GetMaskKeeps({});
    MaybeKeeps(GoToSafeMode(), {});
    var g, s, m := Maybe(GoToSafeMode()), Guarded(SummaryLock, []), GetMaskFaults();
    BothKeep(g, m, {});
    BothKeep(g + m, s, {});
    MaybeKeeps(g + m + s, {});
    BothKeep(m, PowerFaults(), {});
    BothKeep(m + PowerFaults(), Maybe(g + m + s), {});
    BothKeep(m + PowerFaults(), Guarded(TelemetryFaultLock, []), {});
    BothKeep(m + PowerFaults() + Guarded(TelemetryFaultLock, []), s, {});
    BothKeep(Guarded(SummaryLock, []), PowerFaults(), {});
    BothKeep(Guarded(SummaryLock, []) + PowerFaults(), Guarded(TelemetryFaultLock, []), {});
    BothKeep(Guarded(SummaryLock, []), GoToSafeMode(), {});
    EitherKeeps(Guarded(SummaryLock, []) + GoToSafeMode(), ResetFaults(), {});
  }

  lemma GetMaskKeeps(held: set<Lock>)
    requires Below(held, 3)
    ensures Keeps(GetMask(), held) && Keeps(GetMaskFaults(), held)
  {
    hide Check, Guarded;
    LeafKeeps(MaskLock, held);
    MaybeKeeps(Guarded(MaskLock, []), held);
    BothKeep(GetMask(), GetMask(), held);
    BothKeep(GetMask() + GetMask(), GetMask(), held);
  }

  lemma PassKeeps(k: PowerSystemType)
    ensures Keeps(Pass(k), {SubLock(k)})
  {
    hide Check, WriteBit, Off;
    var held: set<Lock> := {SubLock(k)};
    HeldKeeps(SubLock(k), held);
    WriteBitKeeps(held);
    OffKeeps(k, held);
    MaybeKeeps(WriteBit(), held);
    MaybeKeeps(Off(k), held);
    var w, o := Maybe(WriteBit()), Maybe(Off(k));
    BothKeep([CheckHeld(SubLock(k))], w, held);
    BothKeep([CheckHeld(SubLock(k))] + w, o, held);
    BothKeep([CheckHeld(SubLock(k))] + w + o, o, held);
  }

  lemma SubsystemDaqKeeps(k: PowerSystemType)
    ensures Keeps(SubsystemDaq(k), {})
  {
    hide Check, PowerFaults, SetOff, ReportChange, Guarded, Pass;
    FreeKeeps(SubLock(k), {});
    FaultCallsKeep();
    SetOffKeeps(k, {});
    ReportChangeKeeps();
    PassKeeps(k);
    assert {} + {SubLock(k)} == {SubLock(k)};
    GuardedKeeps(SubLock(k), Pass(k), {});
    MaybeKeeps(SetOff(k), {});
    MaybeKeeps(ReportChange(), {});
    var c := [CheckFree(SubLock(k))];
    BothKeep(c, PowerFaults(), {});
    BothKeep(c + PowerFaults(), Maybe(SetOff(k)), {});
    BothKeep(c + PowerFaults() + Maybe(SetOff(k)), Maybe(ReportChange()), {});
    BothKeep(c + PowerFaults() + Maybe(SetOff(k)) + Maybe(ReportChange()), Guarded(SubLock(k), Pass(k)), {});
  }

  lemma DaqCallsKeep()
    ensures Keeps(DaqInfoRead(), {}) && Keeps(DaqTimeoutCheck(), {})
  {
    hide Check, UpdatePowerFaults, SetOff, SubsystemDaq, WriteBit;
    FaultCallsKeep();
    SetOffKeeps(MOTOR, {});
    SetOffKeeps(COMM, {});
    SubsystemDaqKeeps(MOTOR);
    SubsystemDaqKeeps(COMM);
    WriteBitKeeps({});
    var u, m, c := UpdatePowerFaults(), SetOff(MOTOR), SetOff(COMM);
    MaybeKeeps(u, {});
    MaybeKeeps(m, {});
    BothKeep(Maybe(u), Maybe(m), {});
    BothKeep(Maybe(u) + Maybe(m), SubsystemDaq(MOTOR), {});
    BothKeep(Maybe(u) + Maybe(m) + SubsystemDaq(MOTOR), SubsystemDaq(COMM), {});
    BothKeep(Maybe(u) + Maybe(m) + SubsystemDaq(MOTOR) + SubsystemDaq(COMM), u, {});
    BothKeep(m, c, {});
    BothKeep(m + c, u, {});
    MaybeKeeps(m + c + u, {});
    BothKeep(ReadSysInfo(), CheckTimeout(), {});
    BothKeep(ReadSysInfo() + CheckTimeout(), ProcessDaq(), {});
    BothKeep(ReadSysInfo(), ProcessDaq(), {});
    MaybeKeeps(ReadSysInfo() + ProcessDaq(), {});
    BothKeep(CheckTimeout(), Maybe(ReadSysInfo() + ProcessDaq()), {});
  }

  lemma PowerCallsKeep()
    ensures Keeps(PowerMotor(), {}) && Keeps(PowerComm(), {})
  {
    hide Check, SetOff, SetOn, GetPower;
    SetOffKeeps(MOTOR, {});
    SetOffKeeps(COMM, {});
    SetOnKeeps(MOTOR, {});
    SetOnKeeps(COMM, {});
    MaybeKeeps(SetOn(MOTOR), {});
    BothKeep(GetPower(COMM), Maybe(SetOn(MOTOR)), {});
    EitherKeeps(GetPower(COMM) + Maybe(SetOn(MOTOR)), SetOff(MOTOR), {});
    MaybeKeeps(SetOff(MOTOR), {});
    EitherKeeps(SetOn(COMM), SetOff(COMM), {});
    BothKeep(GetPower(MOTOR), Maybe(SetOff(MOTOR)), {});
    BothKeep(GetPower(MOTOR) + Maybe(SetOff(MOTOR)), [Either(SetOn(COMM), SetOff(COMM))], {});
  }

  lemma PortCallsKeep()
    ensures Keeps(ReadWriteFpga(), {}) && Keeps(SimRun(), {})
  {
    hide Check, WriteBit, Guarded;
    WriteBitKeeps({});
    FreeKeeps(PortLock, {});
    BothKeep([CheckFree(PortLock)], WriteBit(), {});
    BothKeep([CheckFree(PortLock)] + WriteBit(), WriteBit(), {});
    MaybeKeeps(Emergency(), {});
    LeafKeeps(SimLock, {});
    BothKeep(SimPort(), SimPort(), {});
    LeafKeeps(SimLock, {} + {PortLock});
    BothKeep(SimPort(), SimPort(), {} + {PortLock});
    GuardedKeeps(PortLock, SimPort() + SimPort(), {});
    BothKeep(Maybe(Emergency()), Guarded(PortLock, SimPort() + SimPort()), {});
    LeafKeeps(QueueLock, {});
    MaybeKeeps(Queue(), {});
    BothKeep(Maybe(Emergency()) + Guarded(PortLock, SimPort() + SimPort()), Maybe(Queue()), {});
  }

  /** Every call takes its locks in order, passes its checks, and gives back what it takes. */
  lemma EntryKeeps(code: Code)
    requires IsEntry(code)
    ensures Keeps(code, {})
  {
    hide Check;
    WriteBitKeeps({});
    SetOffKeeps(MOTOR, {});
    SetOffKeeps(COMM, {});
    SetOnKeeps(MOTOR, {});
    SetOnKeeps(COMM, {});
    ModelCallsKeep();
    FaultCallsKeep();
    DaqCallsKeep();
    PowerCallsKeep();
    PortCallsKeep();
    LeafKeeps(QueueLock, {});
    LeafKeeps(ModelLock, {});
    LeafKeeps(SummaryLock, {});
  }
}
