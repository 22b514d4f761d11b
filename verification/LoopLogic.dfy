/** The controller, the simulated hardware and the threads between them, one step at a time. */
module LoopLogic {
  import opened Options
  import opened ControlDefs
  import opened CellLogic
  import opened SimLogic

  const SYS_INFO_TIMEOUT := 1.5

  /** `held` is the snapshot the FPGA loop fetched last, `queued` counts the reads it queued that are not
      carried out yet, and `readTime` is when the last one was. */
  datatype Loop = Loop(cell: Cell, sim: Sim, held: SysInfo, queued: nat, readTime: real)

  /** What can happen next: any call on the controller but the reading of a snapshot, a round of the FPGA
      loop, the read it queued, a time-out check, or an iteration of the simulator. */
  datatype LoopEvent =
    | Control(e: CellLogic.Event)
    | Exchange(now: real)
    | Read(now: real)
    | Check(now: real)
    | Tick(now: real)

  function TimeOf(e: LoopEvent): real { if e.Control? then e.e.now else e.now }

  /** No read for too long. */
  predicate Late(l: Loop, now: real) { now - l.readTime > SYS_INFO_TIMEOUT }

  /** What the event is to the controller. A check that is not late does nothing. */
  function CellEvent(l: Loop, e: LoopEvent): Option<CellLogic.Event> {
    match e
    case Control(c) => Some(c)
    case Read(now) => Some(Daq(l.held, now - l.held.timestamp > SYS_INFO_TIMEOUT, now))
    case Check(now) => if Late(l, now) then Some(Daq(l.held, true, now)) else None
    case _ => None
  }

  function CellAfter(l: Loop, e: LoopEvent): Cell {
    match CellEvent(l, e)
    case Some(c) => CellLogic.Next(l.cell, c)
    case None => l.cell
  }

  function After(l: Loop, e: LoopEvent): Loop
    requires e.Read? ==> l.queued > 0
  {
    match e
    case Exchange(_) => l.(sim := l.sim.(newOutput := l.cell.port), held := l.sim.info, queued := l.queued + 1)
    case Read(now) => l.(cell := CellAfter(l, e), queued := l.queued - 1, readTime := now)
    case Tick(now) => l.(sim := Iterated(l.sim, now))
    case _ => l.(cell := CellAfter(l, e))
  }

  datatype Stage = Stage(l: Loop, time: real)

  /** Time does not go back, a read was queued, and snapshots come from the FPGA loop alone. */
  predicate Allowed(s: Stage, e: LoopEvent) {
    s.time <= TimeOf(e) && (e.Control? ==> !e.e.Daq?) && (e.Read? ==> s.l.queued > 0)
  }

  function StageAfter(s: Stage, e: LoopEvent): Stage
    requires e.Read? ==> s.l.queued > 0
  {
    Stage(After(s.l, e), TimeOf(e))
  }

  predicate StepsTo(s: Stage, e: LoopEvent, t: Stage) { Allowed(s, e) && t == StageAfter(s, e) }

  /** The times of the reads among the first `i` events. */
  function Reads(events: seq<LoopEvent>, i: nat): seq<real>
    requires i <= |events|
  {
    if i == 0 then []
    else if events[i - 1].Read? then Reads(events, i - 1) + [events[i - 1].now]
    else Reads(events, i - 1)
  }

  // ---- The time-out check ----

  /** Each read of the run comes in time, and the run does not go on too long after its last read. */
  ghost predicate InTime(run: seq<Stage>, events: seq<LoopEvent>)
    requires |run| == |events| + 1
  {
    && (forall i | 0 <= i < |events| && events[i].Read? :: !Late(run[i].l, events[i].now))
    && !Late(run[|events|].l, run[|events|].time)
  }

  /** No time-out check among the first `i` events is late. */
  ghost predicate NoLateCheck(run: seq<Stage>, events: seq<LoopEvent>, i: nat)
    requires |run| == |events| + 1 && i <= |events|
  {
    forall k | 0 <= k < i && events[k].Check? :: !Late(run[k].l, events[k].now)
  }

  /** When the reads come in time nothing in the run is late, so that no time-out check, at whatever
      moment it comes, does anything. */
  lemma {:induction false} NothingIsLate(run: seq<Stage>, events: seq<LoopEvent>, i: nat, now: real)
    requires |run| == |events| + 1 && i < |run|
    requires forall k | 0 <= k < |events| :: StepsTo(run[k], events[k], run[k + 1])
    requires InTime(run, events)
    requires now <= if i < |events| then TimeOf(events[i]) else run[i].time
    ensures !Late(run[i].l, now) && After(run[i].l, Check(now)) == run[i].l
    decreases |run| - i
  {
    hide CellLogic.Next, Iterated;
    if i < |events| && !events[i].Read? {
      assert StepsTo(run[i], events[i], run[i + 1]);
      assert run[i + 1].l.readTime == run[i].l.readTime;
      if i + 1 < |events| { assert StepsTo(run[i + 1], events[i + 1], run[i + 2]); }
      NothingIsLate(run, events, i + 1, now);
    }
  }

  /** Reads in time keep every check of the run quiet. */
  lemma InTimeIsEnough(run: seq<Stage>, events: seq<LoopEvent>)
    requires |run| == |events| + 1 && InTime(run, events)
    requires forall k | 0 <= k < |events| :: StepsTo(run[k], events[k], run[k + 1])
    ensures NoLateCheck(run, events, |events|)
  {
    hide StageAfter;
    forall k | 0 <= k < |events| && events[k].Check?
      ensures !Late(run[k].l, events[k].now)
    {
      NothingIsLate(run, events, k, events[k].now);
    }
  }
}
