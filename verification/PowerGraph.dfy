/** The graph of actual power states is exact: every edge that `PowerRuns` allows is taken by some run
    that starts where the constructor does. */
module PowerGraph {
  import opened ControlDefs
  import opened FaultStatusBits
  import opened PowerLogic
  import opened PowerRuns

  ghost predicate Reachable(st: State) {
    exists states, events :: IsRun(states, events) && states[|events|] == st
  }

  lemma ReachNext(st: State, e: Event)
    requires Reachable(st) && Legal(st, e)
    ensures Reachable(Next(st, e))
  {
    var states, events :| IsRun(states, events) && states[|events|] == st;
    var more, longer := events + [e], states + [Next(st, e)];
    forall i | 0 <= i < |more|
      ensures Legal(longer[i], more[i]) && longer[i + 1] == Next(longer[i], more[i])
    {
      if i < |events| { assert longer[i + 1] == states[i + 1] && more[i] == events[i]; }
    }
    assert IsRun(longer, more) && longer[|more|] == Next(st, e);
  }

  // ---- Three snapshots: power off, power on, power on with the breakers open ----

  const PORT_OFF: OutputPort := [false, false, true, true, true, false, false, false]
  const PORT_ON: OutputPort := [true, true, true, true, true, false, false, false]
  const BREAKERS_CLOSED: InputPort := seq(32, i => i < 31)
  const BREAKERS_OPEN: InputPort := seq(32, i => false)
  const INFO_OFF := SysInfo(PORT_OFF, BREAKERS_CLOSED, 0.0, 0.0, true, 0.0, 0.0, true, 0, 0.0)
  const INFO_ON := SysInfo(PORT_ON, BREAKERS_CLOSED, 24.0, 5.0, true, 24.0, 5.0, true, 0, 0.0)
  const INFO_OPEN := INFO_ON.(inputPort := BREAKERS_OPEN)

  lemma Snapshots(kind: PowerSystemType)
    ensures BreakerStatus(kind, BREAKERS_CLOSED) == GOOD && BreakerStatus(kind, BREAKERS_OPEN) == FAULT
    ensures !InputBit(BREAKERS_CLOSED, INTERLOCK_POWER_RELAY) && !InputBit(BREAKERS_OPEN, INTERLOCK_POWER_RELAY)
  {}

  /** One snapshot and one pass, a second after the last event. */
  function Cycle(st: State, info: SysInfo): State {
    Next(Next(st, Snap(info, false, st.clock + 1.0)), DaqPass({}, st.clock + 1.0))
  }

  lemma CycleReached(st: State, info: SysInfo)
    requires Reachable(st)
    ensures Reachable(Cycle(st, info))
    ensures var before := Next(st, Snap(info, false, st.clock + 1.0));
            Reachable(before) && Legal(before, DaqPass({}, st.clock + 1.0)) && before.sub.actual == st.sub.actual
  {
    hide Pass;
    ReachNext(st, Snap(info, false, st.clock + 1.0));
    ReachNext(Next(st, Snap(info, false, st.clock + 1.0)), DaqPass({}, st.clock + 1.0));
  }

  lemma ReachUnknown(kind: PowerSystemType) returns (st: State)
    ensures Reachable(st) && st.sub.kind == kind && st.sub.targ == OFF && st.sub.actual == UNKNOWN
  {
    var o := TurnedOff(InitialSub(kind, INFO_OFF, 0.0), PORT_OFF, {}, 0.0);
    st := State(o.sub, o.port, 0.0);
    assert Initial(st);
    assert IsRun([st], []);
  }

  lemma OffCycle(st: State)
    requires st.sub.targ == OFF && st.sub.actual != OFF
    ensures Cycle(st, INFO_OFF).sub.actual == OFF && Cycle(st, INFO_OFF).sub.targ == OFF
    ensures Cycle(st, INFO_OFF).sub.kind == st.sub.kind && Cycle(st, INFO_OFF).sub.info == INFO_OFF
  {}

  lemma ReachOff(kind: PowerSystemType) returns (st: State)
    ensures Reachable(st) && st.sub.kind == kind && st.sub.info == INFO_OFF
    ensures st.sub.targ == OFF && st.sub.actual == OFF
  {
    var u := ReachUnknown(kind);
    CycleReached(u, INFO_OFF);
    OffCycle(u);
    st := Cycle(u, INFO_OFF);
  }

  /** Commanded on, no pass yet. */
  lemma ReachCommanded(kind: PowerSystemType) returns (st: State)
    ensures Reachable(st) && st.sub.kind == kind && st.sub.targ == ON && st.sub.actual == OFF
    ensures st.sub.telemCounter == 0 && st.sub.phase == 1
  {
    var off := ReachOff(kind);
    ReachNext(off, CmdOn(false, off.clock));
    st := Next(off, CmdOn(false, off.clock));
  }

  lemma FirstCycle(st: State)
    requires st.sub.targ == ON && st.sub.actual == OFF && st.sub.telemCounter == 0 && st.sub.phase == 1
    ensures TurningOn(Cycle(st, INFO_ON), st.sub.kind, 1)
  {
    Snapshots(st.sub.kind);
    hide BreakerStatus;
  }

  /** Turning on with `n` passes done, a second apart. */
  predicate TurningOn(st: State, kind: PowerSystemType, n: int) {
    && st.sub.kind == kind && st.sub.targ == ON && st.sub.actual == TURNING_ON
    && st.sub.phase == 1 && st.sub.telemCounter == n && st.clock - st.sub.phaseStart == n as real - 1.0
  }

  lemma NextCycle(st: State, kind: PowerSystemType, n: int)
    requires 1 <= n < 9 && TurningOn(st, kind, n)
    ensures TurningOn(Cycle(st, INFO_ON), kind, n + 1)
  {
    Snapshots(kind);
    hide BreakerStatus;
  }

  lemma {:induction false} ReachTurningOn(kind: PowerSystemType, n: int) returns (st: State)
    requires 1 <= n <= 9
    ensures Reachable(st) && TurningOn(st, kind, n)
    decreases n
  {
    if n == 1 {
      var c := ReachCommanded(kind);
      CycleReached(c, INFO_ON);
      FirstCycle(c);
      st := Cycle(c, INFO_ON);
    } else {
      var before := ReachTurningOn(kind, n - 1);
      CycleReached(before, INFO_ON);
      NextCycle(before, kind, n - 1);
      st := Cycle(before, INFO_ON);
    }
  }

  /** The tenth pass decides, since more than the delay has passed since the first. */
  lemma TenthCycle(st: State, kind: PowerSystemType)
    requires TurningOn(st, kind, 9)
    ensures var on, reset := Cycle(st, INFO_ON).sub, Cycle(st, INFO_OPEN).sub;
            && on.actual == ON && on.targ == ON && on.kind == kind
            && reset.actual == RESET && reset.targ == ON && reset.kind == kind
            && reset.phaseStart == st.clock + 1.0
  {
    Snapshots(kind);
    hide BreakerStatus;
  }

  lemma ReachOn(kind: PowerSystemType) returns (st: State)
    ensures Reachable(st) && st.sub.kind == kind && st.sub.actual == ON && st.sub.targ == ON
  {
    var t := ReachTurningOn(kind, 9);
    CycleReached(t, INFO_ON);
    TenthCycle(t, kind);
    st := Cycle(t, INFO_ON);
  }

  lemma ReachReset(kind: PowerSystemType) returns (st: State)
    ensures Reachable(st) && st.sub.kind == kind && st.sub.actual == RESET && st.sub.targ == ON
    ensures st.sub.phaseStart == st.clock
  {
    var t := ReachTurningOn(kind, 9);
    CycleReached(t, INFO_OPEN);
    TenthCycle(t, kind);
    st := Cycle(t, INFO_OPEN);
  }

  lemma ResetCycle(st: State)
    requires st.sub.actual == RESET && st.sub.targ == ON && st.sub.phaseStart == st.clock
    ensures Cycle(st, INFO_ON).sub.actual == ON
  {
    Snapshots(st.sub.kind);
    hide BreakerStatus;
  }

  /** Some reachable pass moves the actual state from `a` to `b`. */
  ghost predicate Taken(kind: PowerSystemType, a: PowerState, b: PowerState) {
    exists st, now :: EdgeAt(st, now, kind, a, b)
  }

  ghost predicate EdgeAt(st: State, now: real, kind: PowerSystemType, a: PowerState, b: PowerState) {
    && Reachable(st) && Legal(st, DaqPass({}, now)) && st.sub.kind == kind
    && st.sub.actual == a && Next(st, DaqPass({}, now)).sub.actual == b
  }

  lemma CycleTakes(st: State, info: SysInfo, b: PowerState)
    requires Reachable(st) && Cycle(st, info).sub.actual == b
    ensures Taken(st.sub.kind, st.sub.actual, b)
  {
    hide Pass, Snapshot;
    CycleReached(st, info);
    var before := Next(st, Snap(info, false, st.clock + 1.0));
    assert before.sub.kind == st.sub.kind by { SnapKeepsKind(st, info); }
    assert EdgeAt(before, st.clock + 1.0, st.sub.kind, st.sub.actual, b);
  }

  lemma SnapKeepsKind(st: State, info: SysInfo)
    ensures Next(st, Snap(info, false, st.clock + 1.0)).sub.kind == st.sub.kind
  {}

  /** From any reachable state that is not OFF, a command off and one cycle lead to OFF. */
  lemma OffTaken(st: State)
    requires Reachable(st) && st.sub.actual != OFF
    ensures Taken(st.sub.kind, st.sub.actual, OFF)
  {
    hide Cycle;
    ReachNext(st, CmdOff(st.clock));
    var off := Next(st, CmdOff(st.clock));
    OffCycle(off);
    CycleTakes(off, INFO_OFF, OFF);
  }

  lemma EveryEdgeIsTaken(kind: PowerSystemType, a: PowerState, b: PowerState)
    requires Edge(a, b)
    ensures Taken(kind, a, b)
  {
    hide Cycle, Taken;
    match a {
      case UNKNOWN =>
        var st := ReachUnknown(kind);
        OffTaken(st);
      case OFF =>
        var st := ReachCommanded(kind);
        FirstCycle(st);
        CycleTakes(st, INFO_ON, TURNING_ON);
      case TURNING_ON =>
        var st := ReachTurningOn(kind, 9);
        TenthCycle(st, kind);
        if b == ON { CycleTakes(st, INFO_ON, ON); }
        else if b == RESET { CycleTakes(st, INFO_OPEN, RESET); }
        else { OffTaken(st); }
      case RESET =>
        var st := ReachReset(kind);
        ResetCycle(st);
        if b == ON { CycleTakes(st, INFO_ON, ON); } else { OffTaken(st); }
      case ON =>
        var st := ReachOn(kind);
        OffTaken(st);
      case TURNING_OFF =>
    }
  }

  lemma ReachableIsSound(st: State, now: real)
    requires Reachable(st) && st.clock <= now
    ensures SubInv(st.sub, st.port, now)
  {
    var states, events :| IsRun(states, events) && states[|events|] == st;
    RunKeepsInv(states, events, |events|);
    SubInvLater(st, now);
  }

  lemma TakenIsEdge(st: State, now: real, kind: PowerSystemType, a: PowerState, b: PowerState)
    requires EdgeAt(st, now, kind, a, b) && a != b
    ensures Edge(a, b)
  {
    hide PowerOnPass, PowerOffPass;
    ReachableIsSound(st, now);
    if st.sub.targ == ON {
      PowerOnPassGood(st.sub, st.port, {}, now);
    } else {
      PowerOffPassGood(st.sub, st.port, {}, now);
    }
  }

  /** The graph is exact: some run from the constructor changes the actual state from `a` to `b` in one
      pass exactly when it has that edge. TURNING_OFF is on none. */
  lemma GraphIsExact(kind: PowerSystemType, a: PowerState, b: PowerState)
    requires a != b
    ensures Taken(kind, a, b) <==> Edge(a, b)
    ensures Edge(a, b) ==> a != TURNING_OFF && b != TURNING_OFF
  {
    hide EdgeAt;
    if Edge(a, b) {
      EveryEdgeIsTaken(kind, a, b);
    }
    if Taken(kind, a, b) {
      var st, now :| EdgeAt(st, now, kind, a, b);
      TakenIsEdge(st, now, kind, a, b);
    }
  }

  /** A command repeated while the voltage of a subsystem still decays skips the sequence: it is ON at
      once, with no pass and no delay since the command. */
  lemma CommandDuringDecay(kind: PowerSystemType)
    ensures exists st, e :: Reachable(st) && Legal(st, e) && Accepts(st, e) && st.sub.kind == kind
                            && st.sub.targ == OFF && Next(st, e).sub.targ == ON && Next(st, e).sub.actual == ON
  {
    var on := ReachOn(kind);
    var blink := Next(on, Snap(INFO_ON, false, on.clock));
    ReachNext(on, Snap(INFO_ON, false, on.clock));
    ReachNext(blink, CmdOff(blink.clock));
    var st := Next(blink, CmdOff(blink.clock));
    var e := CmdOn(false, st.clock);
    assert Legal(st, e) && Accepts(st, e) && Next(st, e).sub.actual == ON;
  }
}
