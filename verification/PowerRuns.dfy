/** What one power subsystem keeps over every run: commands, snapshots and passes in any order and
    interleaving, and any writes of other parts of the program to the rest of the output port. */
module PowerRuns {
  import opened ControlDefs
  import opened FaultStatusBits
  import opened PowerLogic

  datatype State = State(sub: Sub, port: OutputPort, clock: real)

  datatype Event =
    | CmdOn(blocked: bool, now: real)
    | CmdOff(now: real)
    | Snap(info: SysInfo, blocked: bool, now: real)
    | DaqPass(faults: FaultBits, now: real)
    | PortWrite(port: OutputPort, now: real)

  /** Time does not go back; nobody else writes the breaker line or raises the power bit. */
  predicate Legal(st: State, e: Event) {
    && st.clock <= e.now
    && (e.PortWrite? ==>
          var cfg := Cfg(st.sub.kind);
          && e.port[cfg.breakerPos] == st.port[cfg.breakerPos]
          && (e.port[cfg.powerOnPos] ==> st.port[cfg.powerOnPos]))
  }

  function StepOut(st: State, e: Event): Out {
    match e
    case CmdOn(blocked, now) => PowerOnTried(st.sub, st.port, blocked, now)
    case CmdOff(now) => TurnedOff(st.sub, st.port, {}, now)
    case Snap(info, blocked, now) => var o := Snapshot(st.sub, st.port, info, blocked, now); o.(sub := Noted(o.sub))
    case DaqPass(faults, now) => Pass(st.sub, st.port, faults, now)
    case PortWrite(port, _) => Out(st.sub, port, {})
  }

  function Next(st: State, e: Event): State {
    var o := StepOut(st, e);
    State(o.sub, o.port, e.now)
  }

  /** The constructor turns the power off. */
  ghost predicate Initial(st: State) {
    exists info, port ::
      var o := TurnedOff(InitialSub(st.sub.kind, info, st.clock), port, {}, st.clock);
      st.sub == o.sub && st.port == o.port
  }

  ghost predicate IsRun(states: seq<State>, events: seq<Event>) {
    && |states| == |events| + 1
    && Initial(states[0])
    && (forall i | 0 <= i < |events| :: Legal(states[i], events[i]) && states[i + 1] == Next(states[i], events[i]))
  }

  /** The invariant of a subsystem between steps, at time `t`. */
  predicate SubInv(s: Sub, port: OutputPort, t: real) {
    && (s.targ == ON || s.targ == OFF)
    && s.actual != TURNING_OFF
    && (s.phase == 1 || s.phase == 2)
    && (port[Cfg(s.kind).powerOnPos] ==> s.targ == ON)
    && (!port[Cfg(s.kind).breakerPos] ==> s.targ == ON && s.actual == RESET)
    && s.phaseStart <= t && s.onStart <= t
    && (s.targ == ON ==> Sequenced(s))
  }

  /** Where a subsystem that should be on is in its sequence. */
  predicate Sequenced(s: Sub) {
    && s.onStart <= s.phaseStart
    && s.telemCounter >= 0
    && (s.actual == TURNING_ON && s.phase == 2 ==> s.telemCounter >= 10)
    && (s.actual == OFF ==> s.telemCounter == 0)
  }

  predicate Inv(st: State) { SubInv(st.sub, st.port, st.clock) }

  predicate OutInv(o: Out, t: real) { SubInv(o.sub, o.port, t) }

  lemma OffKeeps(s: Sub, port: OutputPort, faults: FaultBits, now: real)
    requires s.phaseStart <= now && s.onStart <= now && s.actual != TURNING_OFF
    requires s.targ == ON || (s.targ == OFF && (s.phase == 1 || s.phase == 2))
    ensures OutInv(TurnedOff(s, port, faults, now), now)
  {}

  lemma BreakersCheckedKeeps(s: Sub, port: OutputPort, faults: FaultBits, now: real)
    requires SubInv(s, port, now) && s.targ == ON
    ensures var (o, broken) := BreakersChecked(s, port, faults, now);
            OutInv(o, now) && (!broken ==> o.sub == s && o.port == port)
  {
    OffKeeps(s, port, faults, now);
  }

  lemma OnPassKeeps(s: Sub, port: OutputPort, faults: FaultBits, now: real)
    requires SubInv(s, port, now) && s.targ == ON && s.actual == ON
    ensures OutInv(OnPass(s, port, faults, now), now)
  {
    OffKeeps(s, port, faults, now);
    BreakersCheckedKeeps(s, port, faults, now);
  }

  lemma TurningOnPassKeeps(s: Sub, port: OutputPort, faults: FaultBits, now: real)
    requires SubInv(s, port, now) && s.targ == ON && s.actual == TURNING_ON
    ensures OutInv(TurningOnPass(s, port, faults, now), now)
  {}

  lemma ResetPassKeeps(s: Sub, port: OutputPort, faults: FaultBits, now: real)
    requires SubInv(s, port, now) && s.targ == ON && s.actual == RESET
    ensures OutInv(ResetPass(s, port, faults, now), now)
  {
    OffKeeps(s, port, faults, now);
    BreakersCheckedKeeps(s, port[Cfg(s.kind).breakerPos := true], faults, now);
  }

  lemma PowerOnPassKeeps(s: Sub, port: OutputPort, faults: FaultBits, now: real)
    requires SubInv(s, port, now) && s.targ == ON
    ensures OutInv(PowerOnPass(s, port, faults, now), now)
  {
    OffKeeps(s, port, faults, now);
    var f := if RelayOn(s) && CrioReady(s) && !InterlockRelayOn(s) then faults + {INTERLOCK_FAULT} else faults;
    var g := if Voltage(s) > Cfg(s.kind).maxVoltageWarn then f + {Cfg(s.kind).voltageWarn} else f;
    match s.actual {
      case ON => OnPassKeeps(s, port, g, now);
      case OFF => TurningOnPassKeeps(s.(actual := TURNING_ON, phase := 1, phaseStart := now), port, g, now);
      case TURNING_ON => TurningOnPassKeeps(s, port, g, now);
      case RESET => ResetPassKeeps(s, port, g, now);
      case UNKNOWN =>
    }
  }

  lemma PowerOffPassKeeps(s: Sub, port: OutputPort, faults: FaultBits, now: real)
    requires SubInv(s, port, now) && s.targ == OFF
    ensures OutInv(PowerOffPass(s, port, faults, now), now)
  {}

  lemma StepKeepsInv(st: State, e: Event)
    requires Inv(st) && Legal(st, e)
    ensures Inv(Next(st, e))
  {
    match e {
      case CmdOn(_, now) =>
      case CmdOff(now) =>
      case Snap(info, _, now) =>
      case DaqPass(faults, now) =>
        if st.sub.targ == ON {
          PowerOnPassKeeps(st.sub, st.port, faults, now);
        } else {
          PowerOffPassKeeps(st.sub, st.port, faults, now);
        }
      case PortWrite(_, _) =>
    }
  }

  lemma {:induction false} RunKeepsInv(states: seq<State>, events: seq<Event>, i: nat)
    requires IsRun(states, events) && i < |states|
    ensures Inv(states[i])
  {
    if i > 0 {
      RunKeepsInv(states, events, i - 1);
      StepKeepsInv(states[i - 1], events[i - 1]);
    }
  }

  // ---- The graph of the actual power state ----

  predicate Edge(a: PowerState, b: PowerState) {
    match a
    case UNKNOWN => b == OFF
    case OFF => b == TURNING_ON
    case TURNING_ON => b == ON || b == RESET || b == OFF
    case RESET => b == ON || b == OFF
    case ON => b == OFF
    case TURNING_OFF => false
  }

  /** Which bits of the port a step of this subsystem may touch. */
  predicate OwnBitsOnly(kind: PowerSystemType, before: OutputPort, after: OutputPort) {
    forall p: OutputPos | p != Cfg(kind).powerOnPos && p != Cfg(kind).breakerPos :: after[p] == before[p]
  }

  /** What one pass does, whatever the snapshot: at most one edge, OFF only on a snapshot with the
      power bit low and the voltage under the off level, no relay fault, the target never raised,
      and only the subsystem's own two bits written. */
  predicate GoodPass(s: Sub, port: OutputPort, faults: FaultBits, o: Out) {
    && (o.sub.actual == s.actual || Edge(s.actual, o.sub.actual))
    && (o.sub.actual == OFF && s.actual != OFF ==>
          s.targ == OFF && !RelayOn(s) && Voltage(s) < Cfg(s.kind).voltageOffLevel)
    && faults <= o.faults
    && (POWER_RELAY_OPEN_FAULT in o.faults ==> POWER_RELAY_OPEN_FAULT in faults)
    && (o.sub.targ == s.targ || o.sub.targ == OFF)
    && (o.port[Cfg(s.kind).powerOnPos] ==> port[Cfg(s.kind).powerOnPos])
    && OwnBitsOnly(s.kind, port, o.port)
  }

  lemma PowerOffPassGood(s: Sub, port: OutputPort, faults: FaultBits, now: real)
    requires SubInv(s, port, now) && s.targ == OFF
    ensures GoodPass(s, port, faults, PowerOffPass(s, port, faults, now))
  {}

  lemma BreakersCheckedGood(s: Sub, port: OutputPort, faults: FaultBits, now: real)
    requires SubInv(s, port, now) && s.targ == ON
    ensures GoodPass(s, port, faults, BreakersChecked(s, port, faults, now).0)
  {}

  lemma TurningOnPassGood(s: Sub, port: OutputPort, faults: FaultBits, now: real)
    requires SubInv(s, port, now) && s.targ == ON && s.actual == TURNING_ON
    ensures var o := TurningOnPass(s, port, faults, now);
            && GoodPass(s, port, faults, o)
            && o.sub.actual != OFF
            && (s.phaseStart == now && s.phase == 1 ==> o.sub.actual == TURNING_ON)
  {}

  lemma OnPassGood(s: Sub, port: OutputPort, faults: FaultBits, now: real)
    requires SubInv(s, port, now) && s.targ == ON && s.actual == ON
    ensures GoodPass(s, port, faults, OnPass(s, port, faults, now))
  {
    BreakersCheckedGood(s, port, faults, now);
  }

  lemma ResetPassGood(s: Sub, port: OutputPort, faults: FaultBits, now: real)
    requires SubInv(s, port, now) && s.targ == ON && s.actual == RESET
    ensures GoodPass(s, port, faults, ResetPass(s, port, faults, now))
  {
    hide BreakersChecked, OutputIsOn, TurnedOff;
    TurnedOffGood(s, port, faults, faults, now);
    TurnedOffGood(s, port, faults, faults + {Cfg(s.kind).voltageFault, HARDWARE_FAULT}, now);
    BreakersCheckedGood(s, port[Cfg(s.kind).breakerPos := true], faults, now);
  }

  lemma TurnedOffGood(s: Sub, port: OutputPort, faults: FaultBits, more: FaultBits, now: real)
    requires faults <= more && (POWER_RELAY_OPEN_FAULT in more ==> POWER_RELAY_OPEN_FAULT in faults)
    ensures GoodPass(s, port, faults, TurnedOff(s, port, more, now))
  {}

  lemma PowerOnPassGood(s: Sub, port: OutputPort, faults: FaultBits, now: real)
    requires SubInv(s, port, now) && s.targ == ON
    ensures GoodPass(s, port, faults, PowerOnPass(s, port, faults, now))
  {
    hide OnPass, TurningOnPass, ResetPass, InterlockRelayOn, CrioReady, TurnedOff, OwnBitsOnly;
    var f := if RelayOn(s) && CrioReady(s) && !InterlockRelayOn(s) then faults + {INTERLOCK_FAULT} else faults;
    var g := if Voltage(s) > Cfg(s.kind).maxVoltageWarn then f + {Cfg(s.kind).voltageWarn} else f;
    TurnedOffGood(s, port, faults, f + {Cfg(s.kind).voltageFault}, now);
    TurnedOffGood(s, port, faults, g + {Cfg(s.kind).excessiveCurrent}, now);
    TurnedOffGood(s, port, faults, g, now);
    match s.actual {
      case ON => OnPassGood(s, port, g, now);
      case OFF => TurningOnPassGood(s.(actual := TURNING_ON, phase := 1, phaseStart := now), port, g, now);
      case TURNING_ON => TurningOnPassGood(s, port, g, now);
      case RESET => ResetPassGood(s, port, g, now);
      case UNKNOWN =>
    }
  }

  /** In any run, one step changes the actual state along one edge of the graph at most, and only in a
      pass; TURNING_OFF is never reached, so the relay fault of the off-timeout is never raised. */
  lemma ActualStateGraph(states: seq<State>, events: seq<Event>, i: nat)
    requires IsRun(states, events) && i < |events|
    ensures var a, b, e := states[i].sub, states[i + 1].sub, events[i];
            && a.actual != TURNING_OFF && b.actual != TURNING_OFF
            && (!e.DaqPass? ==> b.actual == a.actual)
            && (e.DaqPass? ==> GoodPass(a, states[i].port, e.faults, StepOut(states[i], e)))
  {
    RunKeepsInv(states, events, i);
    RunKeepsInv(states, events, i + 1);
    var e, s := events[i], states[i].sub;
    if e.DaqPass? {
      if s.targ == ON {
        PowerOnPassKeeps(s, states[i].port, e.faults, e.now);
        SubInvLater(states[i], e.now);
        PowerOnPassGood(s, states[i].port, e.faults, e.now);
      } else {
        SubInvLater(states[i], e.now);
        PowerOffPassGood(s, states[i].port, e.faults, e.now);
      }
    }
  }

  lemma SubInvLater(st: State, now: real)
    requires Inv(st) && st.clock <= now
    ensures SubInv(st.sub, st.port, now)
  {}

  // ---- Becoming ON ----

  /** The snapshot of the pass that makes a subsystem ON. */
  predicate SafeToBeOn(s: Sub) {
    && OutputIsOn(s)
    && Cfg(s.kind).breakerOperatingVoltage <= Voltage(s) <= Cfg(s.kind).maxVoltageFault
    && Current(s) <= Cfg(s.kind).maxCurrent
    && BreakerStatus(s.kind, s.info.inputPort) != FAULT
  }

  lemma BecomesOnInPass(s: Sub, port: OutputPort, faults: FaultBits, now: real)
    requires SubInv(s, port, now)
    requires s.actual != ON && Pass(s, port, faults, now).sub.actual == ON
    ensures s.targ == ON && SafeToBeOn(s) && now - s.phaseStart > Cfg(s.kind).outputOnMaxDelay
    ensures s.actual == TURNING_ON || s.actual == RESET
    ensures s.actual == TURNING_ON ==> (if s.phase == 1 then s.telemCounter + 1 else s.telemCounter) >= 10
  {
    if s.targ == OFF {
      PowerOffPassGood(s, port, faults, now);
    } else {
      PowerOnPassGood(s, port, faults, now);
    }
  }

  predicate Accepts(st: State, e: Event) { e.CmdOn? && OnAccepted(st.sub, e.blocked) }

  /** `j` is the latest accepted power-on command before step `i`. */
  ghost predicate LatestOn(states: seq<State>, events: seq<Event>, i: nat, j: int)
    requires i < |states| <= |events| + 1
  {
    && 0 <= j < i
    && Accepts(states[j], events[j])
    && forall k | j < k < i :: !Accepts(states[k], events[k])
  }

  /** The number of passes among steps `start` to `end - 1`. */
  function Passes(events: seq<Event>, start: nat, end: nat): nat
    requires start <= end <= |events|
    decreases end
  {
    if start == end then 0
    else Passes(events, start, end - 1) + (if events[end - 1].DaqPass? then 1 else 0)
  }

  /** What one step does to the marks of the latest power-on command. */
  lemma StepMarks(st: State, e: Event)
    requires Inv(st) && Legal(st, e)
    ensures var s, t := st.sub, Next(st, e).sub;
            t.targ == ON ==>
              if Accepts(st, e) then t.onStart == e.now && t.telemCounter == 0
              else
                && s.targ == ON && t.onStart == s.onStart
                && t.telemCounter <= s.telemCounter + (if e.DaqPass? then 1 else 0)
  {
    if e.DaqPass? {
      SubInvLater(st, e.now);
      if st.sub.targ == ON {
        PassMarks(st.sub, st.port, e.faults, e.now);
      } else {
        PowerOffPassGood(st.sub, st.port, e.faults, e.now);
      }
    }
  }

  lemma PassMarks(s: Sub, port: OutputPort, faults: FaultBits, now: real)
    requires SubInv(s, port, now) && s.targ == ON
    ensures var t := PowerOnPass(s, port, faults, now).sub;
            t.onStart == s.onStart && t.telemCounter <= s.telemCounter + 1
  {}

  /** While the target is ON there was an accepted power-on command, and the state remembers its
      time and no more passes than there were since. */
  lemma {:induction false} OnWasCommanded(states: seq<State>, events: seq<Event>, i: nat) returns (j: nat)
    requires IsRun(states, events) && i < |states| && states[i].sub.targ == ON
    ensures LatestOn(states, events, i, j)
    ensures states[i].sub.onStart == events[j].now && states[i].sub.telemCounter <= Passes(events, j, i)
  {
    hide Pass, PowerOnTried, Snapshot, SubInv;
    RunKeepsInv(states, events, i - 1);
    StepMarks(states[i - 1], events[i - 1]);
    if Accepts(states[i - 1], events[i - 1]) {
      j := i - 1;
    } else {
      j := OnWasCommanded(states, events, i - 1);
    }
  }

  /** A subsystem becomes ON only strictly later than `outputOnMaxDelay` after the latest accepted
      power-on command, on a safe snapshot, and, unless it comes out of a breaker reset, in the tenth
      or a later pass since that command. This covers commands repeated in mid-sequence. */
  lemma BecomesOnOnlyWhenReady(states: seq<State>, events: seq<Event>, i: nat) returns (j: nat)
    requires IsRun(states, events) && i < |events|
    requires states[i].sub.actual != ON && states[i + 1].sub.actual == ON
    ensures LatestOn(states, events, i, j)
    ensures events[i].now - events[j].now > Cfg(states[i].sub.kind).outputOnMaxDelay
    ensures SafeToBeOn(states[i].sub) && states[i].sub.targ == ON
    ensures states[i].sub.actual != RESET ==> Passes(events, j, i + 1) >= 10
  {
    ActualStateGraph(states, events, i);
    RunKeepsInv(states, events, i);
    SubInvLater(states[i], events[i].now);
    BecomesOnInPass(states[i].sub, states[i].port, events[i].faults, events[i].now);
    j := OnWasCommanded(states, events, i);
  }

  /** A command that is accepted makes a subsystem ON at once exactly when its actual state still is. */
  lemma OnAtOnceIff(st: State, e: Event)
    requires Inv(st) && Legal(st, e) && Accepts(st, e)
    ensures Next(st, e).sub.targ == ON
    ensures Next(st, e).sub.actual == ON <==> st.sub.actual == ON
  {}

  lemma BecomesResetInPass(s: Sub, port: OutputPort, faults: FaultBits, now: real)
    requires SubInv(s, port, now)
    requires s.actual != RESET && Pass(s, port, faults, now).sub.actual == RESET
    ensures s.targ == ON && (if s.phase == 1 then s.telemCounter + 1 else s.telemCounter) >= 10
  {
    if s.targ == OFF {
      PowerOffPassGood(s, port, faults, now);
    } else {
      PowerOnPassGood(s, port, faults, now);
    }
  }

  lemma PassesGrow(events: seq<Event>, start: nat, mid: nat, end: nat)
    requires start <= mid <= end <= |events|
    ensures Passes(events, start, mid) <= Passes(events, start, end)
    decreases end
  {
    if mid < end { PassesGrow(events, start, mid, end - 1); }
  }

  /** Only one command is the latest. */
  lemma LatestIsUnique(states: seq<State>, events: seq<Event>, i: nat, j: int, k: int)
    requires i < |states| <= |events| + 1 && LatestOn(states, events, i, j) && LatestOn(states, events, i, k)
    ensures j == k
  {}

  /** One step into ON or RESET, long enough after the latest command. */
  lemma StepIntoOn(states: seq<State>, events: seq<Event>, k: nat, j: nat)
    requires IsRun(states, events) && k < |events| && LatestOn(states, events, k, j)
    ensures states[k].sub.actual != ON && states[k + 1].sub.actual == ON ==>
              && events[k].now - events[j].now > Cfg(states[k].sub.kind).outputOnMaxDelay
              && (states[k].sub.actual != RESET ==> Passes(events, j, k + 1) >= 10)
    ensures states[k].sub.actual != RESET && states[k + 1].sub.actual == RESET ==> Passes(events, j, k + 1) >= 10
  {
    hide Pass, SubInv, Sequenced, PowerOnTried, Snapshot, GoodPass;
    if states[k].sub.actual != ON && states[k + 1].sub.actual == ON {
      var c := BecomesOnOnlyWhenReady(states, events, k);
      LatestIsUnique(states, events, k, j, c);
    }
    if states[k].sub.actual != RESET && states[k + 1].sub.actual == RESET {
      StepIntoReset(states, events, k);
      var c := OnWasCommanded(states, events, k);
      LatestIsUnique(states, events, k, j, c);
    }
  }

  lemma StepIntoReset(states: seq<State>, events: seq<Event>, k: nat)
    requires IsRun(states, events) && k < |events|
    requires states[k].sub.actual != RESET && states[k + 1].sub.actual == RESET
    ensures events[k].DaqPass? && states[k].sub.targ == ON && states[k].sub.telemCounter + 1 >= 10
  {
    RunKeepsInv(states, events, k);
    ActualStateGraph(states, events, k);
    SubInvLater(states[k], events[k].now);
    BecomesResetInPass(states[k].sub, states[k].port, events[k].faults, events[k].now);
  }

  /** What a command given to a subsystem that was not ON implies later, while it is the latest. */
  lemma {:induction false} SinceCommand(states: seq<State>, events: seq<Event>, i: nat, j: nat)
    requires IsRun(states, events) && i < |states| && LatestOn(states, events, i, j)
    ensures states[j].sub.actual != ON && states[i].sub.actual == ON ==>
              states[i].clock - events[j].now > Cfg(states[i].sub.kind).outputOnMaxDelay
    ensures states[j].sub.actual !in {ON, RESET} && states[i].sub.actual in {ON, RESET} ==>
              Passes(events, j, i) >= 10
  {
    hide Pass, SubInv, Sequenced, PowerOnTried, Snapshot, GoodPass;
    RunKeepsInv(states, events, i - 1);
    StepKeepsKind(states[i - 1], events[i - 1]);
    if i - 1 == j {
      OnAtOnceIff(states[j], events[j]);
      CommandKeepsActual(states[j], events[j]);
    } else {
      SinceCommand(states, events, i - 1, j);
      StepIntoOn(states, events, i - 1, j);
      PassesGrow(events, j, i - 1, i);
    }
  }

  lemma CommandKeepsActual(st: State, e: Event)
    requires e.CmdOn?
    ensures Next(st, e).sub.actual == st.sub.actual
  {}

  lemma StepKeepsKind(st: State, e: Event)
    requires Inv(st) && Legal(st, e)
    ensures Next(st, e).sub.kind == st.sub.kind && st.clock <= Next(st, e).clock
  {
    StepOnLine(st, e);
  }

  /** A subsystem that is ON as it should be was either ON already when it was last commanded, or it has
      waited: more than `outputOnMaxDelay`, and ten passes unless that command fell into a reset. */
  lemma SequenceIsWaitedOut(states: seq<State>, events: seq<Event>, i: nat) returns (j: nat)
    requires IsRun(states, events) && i < |states|
    requires states[i].sub.targ == ON && states[i].sub.actual == ON
    ensures LatestOn(states, events, i, j)
    ensures states[j].sub.actual != ON ==>
              states[i].clock - events[j].now > Cfg(states[i].sub.kind).outputOnMaxDelay
    ensures states[j].sub.actual !in {ON, RESET} ==> Passes(events, j, i) >= 10
  {
    j := OnWasCommanded(states, events, i);
    SinceCommand(states, events, i, j);
  }

  // ---- The breaker reset pulse ----

  predicate LineLow(st: State) { !st.port[Cfg(st.sub.kind).breakerPos] }

  /** What one step does to the breaker reset line. */
  lemma StepOnLine(st: State, e: Event)
    requires Inv(st) && Legal(st, e)
    ensures Next(st, e).sub.kind == st.sub.kind
    ensures !LineLow(st) && LineLow(Next(st, e)) ==> Next(st, e).sub.phaseStart == e.now
    ensures LineLow(st) && LineLow(Next(st, e)) ==> Next(st, e).sub.phaseStart == st.sub.phaseStart
    ensures LineLow(st) && !LineLow(Next(st, e)) ==>
              || Next(st, e).sub.targ == OFF || Accepts(st, e)
              || (e.DaqPass? && e.now - st.sub.phaseStart > Cfg(st.sub.kind).resetBreakerPulseWidth)
  {
    if e.DaqPass? {
      SubInvLater(st, e.now);
      if st.sub.targ == ON {
        PassOnLine(st.sub, st.port, e.faults, e.now);
      } else {
        PowerOffPassKeeps(st.sub, st.port, e.faults, e.now);
      }
    }
  }

  lemma PassOnLine(s: Sub, port: OutputPort, faults: FaultBits, now: real)
    requires SubInv(s, port, now) && s.targ == ON
    ensures var o, pos := PowerOnPass(s, port, faults, now), Cfg(s.kind).breakerPos;
            && o.sub.kind == s.kind
            && (port[pos] && !o.port[pos] ==> o.sub.phaseStart == now)
            && (!port[pos] && !o.port[pos] ==> o.sub.phaseStart == s.phaseStart)
            && (!port[pos] && o.port[pos] ==>
                  o.sub.targ == OFF || now - s.phaseStart > Cfg(s.kind).resetBreakerPulseWidth)
  {
    hide BreakerStatus, OutputIsOn;
  }

  lemma {:induction false} PulseStart(states: seq<State>, events: seq<Event>, i: nat, j: nat)
    requires IsRun(states, events) && i < j < |states| && !LineLow(states[i])
    requires forall k | i < k <= j :: LineLow(states[k])
    ensures states[j].sub.phaseStart == events[i].now && states[j].sub.kind == states[i].sub.kind
  {
    hide Pass, PowerOnTried, Snapshot, SubInv;
    RunKeepsInv(states, events, j - 1);
    StepOnLine(states[j - 1], events[j - 1]);
    if i < j - 1 {
      PulseStart(states, events, i, j - 1);
    }
  }

  /** Once lowered, the breaker reset line stays low past the pulse width, unless the power is turned
      off or commanded on again. */
  lemma ResetPulseIsLongEnough(states: seq<State>, events: seq<Event>, i: nat, j: nat)
    requires IsRun(states, events) && i < j < |events|
    requires !LineLow(states[i]) && !LineLow(states[j + 1])
    requires forall k | i < k <= j :: LineLow(states[k])
    ensures || states[j + 1].sub.targ == OFF || Accepts(states[j], events[j])
            || events[j].now - events[i].now > Cfg(states[i].sub.kind).resetBreakerPulseWidth
  {
    hide Pass, PowerOnTried, Snapshot, SubInv;
    RunKeepsInv(states, events, j);
    StepOnLine(states[j], events[j]);
    PulseStart(states, events, i, j);
  }

  /** No step of a subsystem writes the other subsystem's bits, the interlock bit or a spare bit. */
  lemma StepWritesOwnBits(st: State, e: Event)
    requires Inv(st) && Legal(st, e) && !e.PortWrite?
    ensures OwnBitsOnly(st.sub.kind, st.port, Next(st, e).port)
  {
    if e.DaqPass? {
      SubInvLater(st, e.now);
      if st.sub.targ == ON {
        PowerOnPassGood(st.sub, st.port, e.faults, e.now);
      } else {
        PowerOffPassGood(st.sub, st.port, e.faults, e.now);
      }
    }
  }
}
