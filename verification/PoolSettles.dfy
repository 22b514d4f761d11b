/** With a fixed target and no new commands the pool stops by itself, within a number of steps known in
    advance, and then holds exactly its target. */
module PoolSettles {
  import opened PoolLogic
  import opened PoolRuns

  // ---- The work still ahead, counted so that every step uses some of it up ----

  function MsgWork(kind: Kind): nat {
    match kind
    case End => 4
    case Cmd(leaves) => if leaves then 5 else 2
  }

  /** A size check may queue an end message, but only while the pool is too large. */
  function CheckWork(tooLarge: bool): nat { if tooLarge then 5 else 1 }

  function PhaseWork(p: Phase, tooLarge: bool): nat {
    match p
    case Idle => 0
    case Busy(m) => MsgWork(m.kind) - 1
    case Exiting => 3
    case ExitResizing => CheckWork(tooLarge)
    case LeftResizing(_) => CheckWork(tooLarge) + 1
    case Left(_) => 1
    case Ended => 0
  }

  function QueueWork(q: seq<Msg>): nat { if q == [] then 0 else MsgWork(q[0].kind) + QueueWork(q[1..]) }

  function ThreadWork(threads: seq<Phase>, tooLarge: bool): nat {
    if threads == [] then 0 else PhaseWork(threads[0], tooLarge) + ThreadWork(threads[1..], tooLarge)
  }

  function Surplus(s: Pool): nat { if |s.pool| > s.target then |s.pool| - s.target else 0 }

  function Work(s: Pool): nat
    requires s.joined <= |s.handed|
  {
    var tooLarge := Surplus(s) > 0;
    4 * Surplus(s) + QueueWork(s.queue) + ThreadWork(s.threads, tooLarge)
    + s.pending * CheckWork(tooLarge) + |s.handed| - s.joined
  }

  lemma {:induction false} QueueWorkAppend(q: seq<Msg>, m: Msg)
    ensures QueueWork(q + [m]) == QueueWork(q) + MsgWork(m.kind)
  {
    if q == [] {
      assert q + [m] == [m];
    } else {
      assert (q + [m])[1..] == q[1..] + [m];
      QueueWorkAppend(q[1..], m);
    }
  }

  lemma {:induction false} ThreadWorkUpdate(ts: seq<Phase>, t: nat, p: Phase, large: bool)
    requires t < |ts|
    ensures ThreadWork(ts[t := p], large) == ThreadWork(ts, large) - PhaseWork(ts[t], large) + PhaseWork(p, large)
  {
    if t == 0 {
      assert ts[t := p][1..] == ts[1..];
    } else {
      assert ts[t := p][1..] == ts[1..][t - 1 := p];
      ThreadWorkUpdate(ts[1..], t - 1, p, large);
    }
  }

  lemma {:induction false} ThreadWorkShrinks(ts: seq<Phase>)
    ensures ThreadWork(ts, false) <= ThreadWork(ts, true)
  {
    if ts != [] { ThreadWorkShrinks(ts[1..]); }
  }

  lemma {:induction false} ThreadWorkIdle(ts: seq<Phase>, us: seq<Phase>, large: bool)
    requires ts <= us && forall t | |ts| <= t < |us| :: us[t] == Idle
    ensures ThreadWork(us, large) == ThreadWork(ts, large)
    decreases |us|
  {
    if ts != [] {
      ThreadWorkIdle(ts[1..], us[1..], large);
    } else if us != [] {
      assert us[0] == Idle;
      ThreadWorkIdle([], us[1..], large);
    }
  }

  /** A size check uses up its own share: at most one end message is queued, and only when too large. */
  lemma ResizedWork(s: Pool)
    requires s.joined <= |s.handed|
    ensures var r := Resized(s);
            r.joined <= |r.handed| && Work(r) <= Work(s) + (if Surplus(s) > 0 then 4 else 0)
  {
    hide Grown;
    GrownIs(s);
    var g := Grown(s);
    ThreadWorkIdle(s.threads, g.threads, Surplus(s) > 0);
    if g.target < |g.pool| {
      QueueWorkAppend(g.queue, Msg(|g.takers| + |g.queue|, End));
    }
  }

  /** A release pays for the size check that follows it. */
  lemma ReleasedWork(s: Pool, t: nat, next: Phase, notFound: Phase)
    requires ThreadsOk(s) && t in s.pool && IsToken(next)
    requires PhaseWork(s.threads[t], false) >= PhaseWork(next, false) + 2
    requires PhaseWork(s.threads[t], false) == PhaseWork(s.threads[t], true)
    ensures var r := Released(s, t, next, notFound);
            r.joined <= |r.handed| && Work(r) < Work(s)
  {
    hide Erased;
    ErasedIs(s.pool, t);
    var before, after := Surplus(s) > 0, Surplus(Released(s, t, next, notFound)) > 0;
    ThreadWorkUpdate(s.threads, t, next, after);
    ThreadWorkShrinks(s.threads);
  }

  lemma MoveWorks(s: Pool, step: Step)
    requires ThreadsOk(s) && Enabled(s, step) && (step.Dequeue? || step.Return? || step.Join?)
    ensures var r := Apply(s, step); r.joined <= |r.handed| && Work(r) < Work(s)
  {
    hide Resized, Released, ThreadWork;
    var large := Surplus(s) > 0;
    match step {
      case Dequeue(t) =>
        ThreadWorkUpdate(s.threads, t, if s.queue[0].kind.End? then Exiting else Busy(s.queue[0]), large);
      case Return(t) =>
        ThreadWorkUpdate(s.threads, t, if s.threads[t].Left? then Ended else Idle, large);
      case Join =>
    }
  }

  /** Every step of the pool itself uses up work. */
  lemma StepWorks(s: Pool, step: Step)
    requires Ok(s) && Enabled(s, step)
    ensures var r := Apply(s, step); r.joined <= |r.handed| && Work(r) < Work(s)
  {
    hide Resized, Released, ThreadWork, QueueWork;
    match step {
      case Leave(t) =>
        LeaveKeeps(s, t);
        var m := s.threads[t].m;
        ReleasedWork(s.(finished := s.finished + [m.id]), t, LeftResizing(m), Left(m));
      case Release(t) =>
        ReleaseKeeps(s, t);
        ReleasedWork(s, t, ExitResizing, Ended);
      case Resize(t) =>
        var next := if s.threads[t].ExitResizing? then Ended else Left(s.threads[t].m);
        ThreadWorkUpdate(s.threads, t, next, Surplus(s) > 0);
        ResizedWork(s.(threads := s.threads[t := next]));
      case CallerResize =>
        ResizedWork(s.(pending := s.pending - 1));
      case _ => MoveWorks(s, step);
    }
  }

  /** A run of the pool alone is never longer than the work it starts with. */
  lemma {:induction false} OwnRunIsBounded(s: Pool, events: seq<Event>, end: Pool)
    requires Ok(s) && Leads(s, events, end) && OwnOnly(events)
    ensures |events| <= Work(s)
    decreases |events|
  {
    hide Apply, Work;
    if events != [] {
      assert events[0].Own?;
      StepWorks(s, events[0].step);
      StepKeeps(s, events[0].step);
      OwnRunIsBounded(Next(s, events[0]), events[1..], end);
    }
  }

  /** With room for its threads, a pool that cannot move any more has settled: it holds exactly its
      target, all its threads wait, nothing is left to do unless nobody may do it, and every thread that
      went is joined. */
  ghost predicate Settled(s: Pool) {
    && |s.pool| == s.target
    && (forall t | t in s.pool :: t < |s.threads| && s.threads[t].Idle?)
    && (s.target > 0 ==> s.queue == [])
    && (forall id: nat | id < |s.takers| :: id in s.finished)
    && s.joined == |s.handed| && (forall t | t in s.handed :: t < |s.threads| && s.threads[t].Ended?)
    && s.pending == 0
  }

  lemma StuckIsSettled(s: Pool)
    requires Ok(s) && RoomOk(s) && Stuck(s)
    ensures Settled(s)
  {
    assert s.joined < |s.handed| ==> s.handed[s.joined] in s.handed;
    assert |s.pool| > 0 ==> s.pool[0] in s.pool;
    assert !Enabled(s, CallerResize) && !Enabled(s, Join);
    assert |s.pool| > 0 ==> !Enabled(s, Dequeue(s.pool[0]));
    forall t | 0 <= t < |s.threads|
      ensures s.threads[t].Idle? || s.threads[t].Ended? || (s.threads[t].Busy? && Existing(s) > s.max)
    {
      assert !Enabled(s, Return(t)) && !Enabled(s, Leave(t)) && !Enabled(s, Release(t)) && !Enabled(s, Resize(t));
    }
    AllAccounted(s);
    assert Existing(s) == |s.pool|;
  }

  /** Every thread is in the pool or was handed to the joiner. */
  lemma AllAccounted(s: Pool)
    requires ThreadsOk(s)
    ensures |s.threads| == |s.pool| + |s.handed|
  {
    var both := s.pool + s.handed;
    assert forall t: nat :: t in both <==> t in s.pool || t in s.handed;
    assert forall i | 0 <= i < |s.pool| :: s.pool[i] in s.pool;
    assert forall i | 0 <= i < |s.handed| :: s.handed[i] in s.handed;
    DistinctCovers(both, |s.threads|);
  }

  /** A list of the numbers below `n`, each once, has `n` entries. */
  lemma {:induction false} DistinctCovers(s: seq<nat>, n: nat)
    requires Distinct(s) && forall x: nat :: x in s <==> x < n
    ensures |s| == n
    decreases n
  {
    assert s != [] ==> s[0] in s;
    if n > 0 {
      assert n - 1 in s;
      ErasedIs(s, n - 1);
      DistinctCovers(Erased(s, n - 1), n - 1);
    }
  }

  /** From any moment of any run of a pool made with room for its threads: the pool alone makes at most
      `Work` steps, and wherever it stops it has settled on its target. */
  lemma PoolAlwaysSettles(count: nat, max: nat, past: seq<Event>, s: Pool, events: seq<Event>, end: Pool)
    requires count <= max && Leads(NewPool(count, max), past, s)
    requires Leads(s, events, end) && OwnOnly(events)
    ensures s.joined <= |s.handed| && |events| <= Work(s)
    ensures Stuck(end) ==> Settled(end) && end.target == s.target
  {
    hide Next, Work, Settled, Stuck;
    RunKeeps(NewPool(count, max), past, s);
    OwnRunIsBounded(s, events, end);
    RunKeeps(s, events, end);
    TargetKept(s, events, end);
    if Stuck(end) { StuckIsSettled(end); }
  }

  lemma {:induction false} TargetKept(s: Pool, events: seq<Event>, end: Pool)
    requires Leads(s, events, end) && OwnOnly(events)
    ensures end.target == s.target && end.shutdown == s.shutdown && end.max == s.max
    decreases |events|
  {
    hide Grown;
    if events != [] {
      assert events[0].Own?;
      var step := events[0].step;
      if step.Resize? {
        GrownIs(Checking(s, step.t));
      } else if step.CallerResize? {
        GrownIs(s.(pending := s.pending - 1));
      }
      TargetKept(Next(s, events[0]), events[1..], end);
    }
  }

  // ---- Without room a pool can lock up ----

  /** A pool of `count` threads of which the first `i` run commands that want to leave. */
  function AllWantOut(count: nat, max: nat, i: nat): Pool
    requires i <= count
  {
    Pool([], seq(i, t => t), [],
         seq(count, t => if 0 <= t < i then Busy(Msg(t, Cmd(true))) else Idle),
         seq(count, t => t), [], 0, count, max, false, 0)
  }

  lemma {:induction false} LastLeads(s: Pool, events: seq<Event>, mid: Pool, e: Event)
    requires Leads(s, events, mid) && Possible(mid, e)
    ensures Leads(s, events + [e], Next(mid, e))
    decreases |events|
  {
    hide Next, Possible;
    if events == [] {
      assert events + [e] == [e] && [e][1..] == [];
    } else {
      assert (events + [e])[1..] == events[1..] + [e];
      LastLeads(Next(s, events[0]), events[1..], mid, e);
    }
  }

  lemma {:induction false} FillRun(count: nat, max: nat, i: nat) returns (events: seq<Event>)
    requires i <= count
    ensures Leads(NewPool(count, max), events, AllWantOut(count, max, i))
  {
    var s := NewPool(count, max);
    if i == 0 {
      events := [Own(CallerResize)];
      var r := Next(s, events[0]);
      hide Grown;
      GrownIs(s.(pending := 0));
      assert r == AllWantOut(count, max, 0) by {
        assert r.threads == AllWantOut(count, max, 0).threads && r.pool == AllWantOut(count, max, 0).pool;
      }
      assert events[1..] == [];
    } else {
      var before := FillRun(count, max, i - 1);
      var mid := AllWantOut(count, max, i - 1);
      LastLeads(s, before, mid, Submit(true));
      var posted := Next(mid, Submit(true));
      LastLeads(s, before + [Submit(true)], posted, Own(Dequeue(i - 1)));
      var taken := Next(posted, Own(Dequeue(i - 1)));
      assert taken.takers == AllWantOut(count, max, i).takers && taken.threads == AllWantOut(count, max, i).threads;
      assert taken == AllWantOut(count, max, i);
      events := before + [Submit(true)] + [Own(Dequeue(i - 1))];
    }
  }

  /** Wherever the pool stops it has settled exactly when it was made with no more threads than may
      exist. Otherwise `count` commands that all want to leave wait for each other for ever. */
  lemma SettlesIffRoom(count: nat, max: nat)
    ensures (forall past, s :: Leads(NewPool(count, max), past, s) && Stuck(s) ==> Settled(s)) <==> count <= max
  {
    if count <= max {
      forall past, s | Leads(NewPool(count, max), past, s) && Stuck(s)
        ensures Settled(s)
      {
        PoolAlwaysSettles(count, max, past, s, [], s);
      }
    } else {
      var past := FillRun(count, max, count);
      var s := AllWantOut(count, max, count);
      assert s.pool[0] in s.pool && s.threads[0].Busy?;
      assert Stuck(s) && !Settled(s);
    }
  }
}
