/** What `shutdownPool` promises: which earlier commands are sure to run before it returns, and exactly
    when that is all of them. */
module PoolShutdown {
  import opened PoolLogic
  import opened PoolRuns
  import opened PoolSettles

  // ---- Which threads may stop answering the queue ----

  /** A thread on its way out of the pool. */
  predicate IsLeaving(p: Phase) { p.Exiting? || (p.Busy? && p.m.kind == Cmd(true)) }

  function LeavingCount(threads: seq<Phase>): nat {
    if threads == [] then 0 else (if IsLeaving(threads[0]) then 1 else 0) + LeavingCount(threads[1..])
  }

  predicate HasCmd(q: seq<Msg>) { q != [] && (q[0].kind.Cmd? || HasCmd(q[1..])) }

  /** How many messages of `q` cost the pool a thread before its last command is taken. */
  function ExitsBeforeLastCmd(q: seq<Msg>): nat {
    if q != [] && HasCmd(q[1..]) then (if q[0].kind == Cmd(false) then 0 else 1) + ExitsBeforeLastCmd(q[1..]) else 0
  }

  /** Checked by a caller before shutting down: every command queued has a thread left to take it. */
  predicate EnoughThreads(s: Pool) {
    HasCmd(s.queue) ==> |s.pool| > LeavingCount(s.threads) + ExitsBeforeLastCmd(s.queue)
  }

  // ---- What shutting down means ----

  /** What `shutdownPool` waits for: no thread in the pool and none left to join. */
  predicate ShutDown(s: Pool) { s.pool == [] && s.joined == |s.handed| }

  /** Every command queued or running at `s` has been run and reported finished at `end`, and every
      thread has ended and was joined. */
  ghost predicate Drained(s: Pool, end: Pool) {
    && (forall m | m in s.queue && m.kind.Cmd? :: m.id in end.finished)
    && (forall id: nat | id < |s.takers| :: id in end.finished)
    && (forall t | 0 <= t < |end.threads| :: t in end.handed && end.threads[t].Ended?)
  }

  // ---- Counting ----

  lemma {:induction false} LeavingCountUpdate(ts: seq<Phase>, t: nat, p: Phase)
    requires t < |ts|
    ensures LeavingCount(ts[t := p])
         == LeavingCount(ts) - (if IsLeaving(ts[t]) then 1 else 0) + (if IsLeaving(p) then 1 else 0)
  {
    if t == 0 {
      assert ts[t := p][1..] == ts[1..];
    } else {
      assert ts[t := p][1..] == ts[1..][t - 1 := p];
      LeavingCountUpdate(ts[1..], t - 1, p);
    }
  }

  lemma {:induction false} NoneLeaving(ts: seq<Phase>)
    requires forall t | 0 <= t < |ts| :: !IsLeaving(ts[t])
    ensures LeavingCount(ts) == 0
  {
    if ts != [] { NoneLeaving(ts[1..]); }
  }

  lemma {:induction false} CmdAt(q: seq<Msg>) returns (j: nat)
    requires HasCmd(q)
    ensures j < |q| && q[j].kind.Cmd?
  {
    j := 0;
    if !q[0].kind.Cmd? {
      j := CmdAt(q[1..]);
      j := j + 1;
    }
  }

  lemma {:induction false} CmdFound(q: seq<Msg>, j: nat)
    requires j < |q| && q[j].kind.Cmd?
    ensures HasCmd(q)
  {
    if j > 0 { CmdFound(q[1..], j - 1); }
  }

  // ---- One step while shutting down ----

  predicate ShuttingDown(s: Pool) { s.shutdown && s.target == 0 }

  /** A step other than taking a message lets go of a thread only if that thread was leaving. */
  lemma OtherStep(s: Pool, step: Step)
    requires Ok(s) && ShuttingDown(s) && Enabled(s, step) && !step.Dequeue?
    ensures var r := Apply(s, step);
            && ShuttingDown(r) && r.takers == s.takers && s.queue <= r.queue
            && |r.pool| - LeavingCount(r.threads) == |s.pool| - LeavingCount(s.threads)
  {
    hide Erased;
    match step {
      case Return(t) => LeavingCountUpdate(s.threads, t, if s.threads[t].Left? then Ended else Idle);
      case Leave(t) =>
        assert t in s.pool;
        ErasedIs(s.pool, t);
        LeavingCountUpdate(s.threads, t, LeftResizing(s.threads[t].m));
      case Release(t) =>
        assert t in s.pool;
        ErasedIs(s.pool, t);
        LeavingCountUpdate(s.threads, t, ExitResizing);
      case Resize(t) =>
        LeavingCountUpdate(s.threads, t, if s.threads[t].ExitResizing? then Ended else Left(s.threads[t].m));
      case _ =>
    }
  }

  /** Taking a message: the pool keeps its threads, and the taker is leaving if the message says so. */
  lemma TakeStep(s: Pool, t: nat)
    requires ShuttingDown(s) && Enabled(s, Dequeue(t))
    ensures var r := Apply(s, Dequeue(t));
            && ShuttingDown(r) && |r.takers| == |s.takers| + 1 && r.queue == s.queue[1..] && r.pool == s.pool
            && LeavingCount(r.threads) == LeavingCount(s.threads) + (if s.queue[0].kind == Cmd(false) then 0 else 1)
  {
    LeavingCountUpdate(s.threads, t, if s.queue[0].kind.End? then Exiting else Busy(s.queue[0]));
  }

  // ---- Enough threads: every run drains ----

  /** The messages of `q`, the first of them number `first`, that are still to be taken. */
  function StillQueued(q: seq<Msg>, first: nat, s: Pool): seq<Msg> {
    if first <= |s.takers| <= first + |q| then q[|s.takers| - first..] else []
  }

  predicate Draining(q: seq<Msg>, first: nat, s: Pool) {
    var rest := StillQueued(q, first, s);
    && ShuttingDown(s) && first <= |s.takers|
    && rest <= s.queue
    && (HasCmd(rest) ==> |s.pool| > LeavingCount(s.threads) + ExitsBeforeLastCmd(rest))
  }

  lemma DrainingKept(q: seq<Msg>, first: nat, s: Pool, e: Event)
    requires Ok(s) && Draining(q, first, s) && Possible(s, e)
    ensures Draining(q, first, Next(s, e))
  {
    if e.Own? {
      hide Ok, Apply, Draining;
      StepDrains(q, first, s, e.step);
    }
  }

  lemma StepDrains(q: seq<Msg>, first: nat, s: Pool, step: Step)
    requires Ok(s) && Draining(q, first, s) && Enabled(s, step)
    ensures Draining(q, first, Apply(s, step))
  {
    hide Ok, Apply;
    if step.Dequeue? {
      TakeStep(s, step.t);
      var rest := StillQueued(q, first, s);
      if rest != [] { assert StillQueued(q, first, Apply(s, step)) == rest[1..]; }
    } else {
      OtherStep(s, step);
    }
  }

  lemma {:induction false} DrainingThroughout(q: seq<Msg>, first: nat, s: Pool, events: seq<Event>, end: Pool)
    requires Ok(s) && Draining(q, first, s) && Leads(s, events, end)
    ensures Draining(q, first, end)
    decreases |events|
  {
    hide Ok, Next, Draining;
    if events != [] {
      NextKeeps(s, events[0]);
      DrainingKept(q, first, s, events[0]);
      DrainingThroughout(q, first, Next(s, events[0]), events[1..], end);
    }
  }

  lemma EnoughDrains(s: Pool, events: seq<Event>, end: Pool)
    requires Ok(s) && ShuttingDown(s) && EnoughThreads(s)
    requires Leads(s, events, end) && ShutDown(end)
    ensures Drained(s, end)
  {
    DrainingThroughout(s.queue, |s.takers|, s, events, end);
    RunKeeps(s, events, end);
    AllFinished(end);
    forall m | m in s.queue && m.kind.Cmd?
      ensures m.id in end.finished
    {
      var i :| 0 <= i < |s.queue| && s.queue[i] == m;
      if |end.takers| <= m.id {
        var rest := StillQueued(s.queue, |s.takers|, end);
        CmdFound(rest, m.id - |end.takers|);
      }
    }
  }

  /** With the pool empty and everything joined, every message taken is finished and every thread over. */
  lemma AllFinished(end: Pool)
    requires Ok(end) && ShutDown(end)
    ensures forall id: nat | id < |end.takers| :: id in end.finished
    ensures forall t | 0 <= t < |end.threads| :: t in end.handed && end.threads[t].Ended?
  {
    forall t | 0 <= t < |end.threads|
      ensures t in end.handed && end.threads[t].Ended?
    {
      assert t !in end.pool && t in end.handed;
      var i :| 0 <= i < |end.handed| && end.handed[i] == t;
    }
    assert forall id: nat | id < |end.takers| :: !Running(end, id);
  }

  // ---- Too few threads: some run returns with a command never taken ----

  /** Only taking a message is possible. */
  ghost predicate Resting(s: Pool) { forall step :: Enabled(s, step) ==> step.Dequeue? }

  /** Without taking messages, the pool comes to rest with its leaving threads gone. */
  lemma {:induction false} Rest(s: Pool) returns (events: seq<Event>, r: Pool)
    requires Ok(s) && RoomOk(s) && ShuttingDown(s)
    ensures Leads(s, events, r) && Ok(r) && RoomOk(r) && ShuttingDown(r) && Resting(r)
    ensures r.takers == s.takers && s.queue <= r.queue
    ensures |r.pool| - LeavingCount(r.threads) == |s.pool| - LeavingCount(s.threads)
    decreases Work(s)
  {
    hide Apply, Ok, RoomOk, Enabled;
    assert s.joined <= |s.handed| by { OkJoined(s); }
    if step :| Enabled(s, step) && !step.Dequeue? {
      StepWorks(s, step);
      StepKeeps(s, step);
      OkThreads(s);
      RoomKept(s, Own(step));
      OtherStep(s, step);
      var later;
      later, r := Rest(Apply(s, step));
      events := [Own(step)] + later;
      assert events[1..] == later;
    } else {
      events, r := [], s;
    }
  }

  lemma OkThreads(s: Pool)
    requires Ok(s)
    ensures ThreadsOk(s)
  {}

  lemma OkJoined(s: Pool)
    requires Ok(s)
    ensures s.joined <= |s.handed|
  {}

  lemma RestingIsIdle(s: Pool)
    requires Ok(s) && RoomOk(s) && Resting(s)
    ensures forall t | t in s.pool :: t < |s.threads| && s.threads[t].Idle?
    ensures LeavingCount(s.threads) == 0 && s.joined == |s.handed|
  {
    assert s.joined < |s.handed| ==> s.handed[s.joined] in s.handed;
    assert !Enabled(s, CallerResize) && !Enabled(s, Join);
    forall t | 0 <= t < |s.threads|
      ensures s.threads[t].Idle? || s.threads[t].Ended? || (s.threads[t].Busy? && Existing(s) > s.max)
    {
      assert !Enabled(s, Return(t)) && !Enabled(s, Leave(t)) && !Enabled(s, Release(t)) && !Enabled(s, Resize(t));
    }
    AllAccounted(s);
    NoneLeaving(s.threads);
  }

  lemma {:induction false} LeadsOn(s: Pool, events: seq<Event>, mid: Pool, more: seq<Event>, end: Pool)
    requires Leads(s, events, mid) && Leads(mid, more, end)
    ensures Leads(s, events + more, end)
    decreases |events|
  {
    hide Next, Possible;
    if events == [] {
      assert events + more == more;
    } else {
      assert (events + more)[1..] == events[1..] + more;
      LeadsOn(Next(s, events[0]), events[1..], mid, more, end);
    }
  }

  /** Letting every thread that can go go first runs the pool dry before the last command of `q`. */
  lemma {:induction false} RunsDry(s: Pool, q: seq<Msg>) returns (events: seq<Event>, end: Pool, j: nat)
    requires Ok(s) && RoomOk(s) && ShuttingDown(s)
    requires q <= s.queue && HasCmd(q) && |s.pool| <= LeavingCount(s.threads) + ExitsBeforeLastCmd(q)
    ensures Leads(s, events, end) && Ok(end) && ShutDown(end)
    ensures j < |q| && q[j].kind.Cmd? && |s.takers| + j >= |end.takers|
    decreases |q|
  {
    hide Ok, RoomOk, Apply;
    var rest, r := Rest(s);
    RestingIsIdle(r);
    if r.pool == [] {
      events, end := rest, r;
      j := CmdAt(q);
    } else {
      var t := r.pool[0];
      assert Enabled(r, Dequeue(t)) by { assert t in r.pool; }
      TakeStep(r, t);
      StepKeeps(r, Dequeue(t));
      OkThreads(r);
      RoomKept(r, Own(Dequeue(t)));
      var d := Apply(r, Dequeue(t));
      assert q[1..] <= d.queue;
      var later;
      later, end, j := RunsDry(d, q[1..]);
      j := j + 1;
      events := rest + ([Own(Dequeue(t))] + later);
      assert ([Own(Dequeue(t))] + later)[1..] == later;
      assert Leads(r, [Own(Dequeue(t))] + later, end);
      LeadsOn(s, rest, r, [Own(Dequeue(t))] + later, end);
    }
  }

  // ---- The theorem ----

  /** Shutting down runs every command queued before, in every run, exactly when the caller could see
      enough threads for them. */
  lemma ShutdownDrainsIff(s: Pool)
    requires Ok(s) && RoomOk(s)
    ensures (forall events, end :: Leads(ShutdownCalled(s), events, end) && ShutDown(end) ==> Drained(s, end))
            <==> EnoughThreads(s)
  {
    hide Ok, ShutDown, HasCmd;
    var c := ShutdownCalled(s);
    NextKeeps(s, Shutdown);
    if EnoughThreads(s) {
      forall events, end | Leads(c, events, end) && ShutDown(end)
        ensures Drained(s, end)
      {
        EnoughDrains(c, events, end);
      }
    } else {
      OkThreads(s);
      RoomKept(s, Shutdown);
      var events, end, j := RunsDry(c, s.queue);
      NotTaken(s, end, j);
    }
  }

  lemma NotTaken(s: Pool, end: Pool, j: nat)
    requires Ok(s) && Ok(end) && j < |s.queue| && s.queue[j].kind.Cmd? && |s.takers| + j >= |end.takers|
    ensures !Drained(s, end)
  {
    assert s.queue[j] in s.queue && s.queue[j].id == |s.takers| + j;
  }

  /** Enough: a thread in the pool, no end message pending, and no command that leaves. */
  lemma {:induction false} QuietPoolHasEnough(s: Pool)
    requires s.pool != [] && (forall m | m in s.queue :: m.kind == Cmd(false))
    requires forall t | 0 <= t < |s.threads| :: !IsLeaving(s.threads[t])
    ensures EnoughThreads(s)
  {
    NoneLeaving(s.threads);
    NoExits(s.queue);
  }

  lemma {:induction false} NoExits(q: seq<Msg>)
    requires forall m | m in q :: m.kind == Cmd(false)
    ensures ExitsBeforeLastCmd(q) == 0
  {
    if q != [] {
      assert q[0] in q;
      NoExits(q[1..]);
    }
  }

  /** Not every command sent before shutdown completes: here a pool of one thread runs a command that
      leaves it, and the command queued behind is never taken in some run. */
  lemma HeaderPromiseFails()
    ensures exists past, s, events, end ::
              && Leads(NewPool(1, 2), past, s) && s.queue == [Msg(1, Cmd(false))]
              && Leads(ShutdownCalled(s), events, end) && ShutDown(end) && 1 !in end.finished
  {
    var past, s := OneThreadWantsOut();
    RunKeeps(NewPool(1, 2), past, s);
    NextKeeps(s, Shutdown);
    hide Ok, Leads;
    var events, end, j := RunsDry(ShutdownCalled(s), s.queue);
    assert 1 !in end.finished by { UntakenIsUnfinished(end, 1); }
  }

  lemma UntakenIsUnfinished(s: Pool, id: nat)
    requires Ok(s) && id >= |s.takers|
    ensures id !in s.finished
  {}

  lemma OneThreadWantsOut() returns (past: seq<Event>, s: Pool)
    ensures Leads(NewPool(1, 2), past, s)
    ensures s == Pool([Msg(1, Cmd(false))], [0], [], [Busy(Msg(0, Cmd(true)))], [0], [], 0, 1, 2, false, 0)
  {
    past := [Own(CallerResize), Submit(true), Own(Dequeue(0)), Submit(false)];
    FirstSize();
    var s1 := Pool([], [], [], [Idle], [0], [], 0, 1, 2, false, 0);
    var s2 := Pool([Msg(0, Cmd(true))], [], [], [Idle], [0], [], 0, 1, 2, false, 0);
    assert Next(s1, past[1]) == s2;
    LeaverTaken(s2);
    s := Next(Next(s2, past[2]), past[3]);
    assert Possible(NewPool(1, 2), past[0]) && Possible(s1, past[1]) && Possible(Next(s2, past[2]), past[3]);
    hide Next, Possible;
    LeadsFour(NewPool(1, 2), past);
  }

  /** The constructor's own size check makes the one thread. */
  lemma FirstSize()
    ensures Possible(NewPool(1, 2), Own(CallerResize))
    ensures Next(NewPool(1, 2), Own(CallerResize)) == Pool([], [], [], [Idle], [0], [], 0, 1, 2, false, 0)
  {
    var s := NewPool(1, 2).(pending := 0);
    var one := ThreadAdded(s);
    assert one == Pool([], [], [], [Idle], [0], [], 0, 1, 2, false, 0);
    assert Grown(one) == one;
    assert Grown(s) == one;
  }

  lemma LeaverTaken(s: Pool)
    requires s == Pool([Msg(0, Cmd(true))], [], [], [Idle], [0], [], 0, 1, 2, false, 0)
    ensures Possible(s, Own(Dequeue(0)))
    ensures Next(s, Own(Dequeue(0))) == Pool([], [0], [], [Busy(Msg(0, Cmd(true)))], [0], [], 0, 1, 2, false, 0)
  {
    assert Enabled(s, Dequeue(0));
  }

  lemma LeadsFour(s: Pool, events: seq<Event>)
    requires |events| == 4 && Possible(s, events[0])
    requires Possible(Next(s, events[0]), events[1])
    requires Possible(Next(Next(s, events[0]), events[1]), events[2])
    requires Possible(Next(Next(Next(s, events[0]), events[1]), events[2]), events[3])
    ensures Leads(s, events, Next(Next(Next(Next(s, events[0]), events[1]), events[2]), events[3]))
  {
    hide Next, Possible;
    var s1 := Next(s, events[0]);
    var s2 := Next(s1, events[1]);
    var s3 := Next(s2, events[2]);
    assert events[1..][1..][1..] == [events[3]];
    assert Leads(s3, [events[3]], Next(s3, events[3])) by { assert [events[3]][1..] == []; }
    assert Leads(s2, events[1..][1..], Next(s3, events[3]));
    assert Leads(s1, events[1..], Next(s3, events[3]));
  }
}
