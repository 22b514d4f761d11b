/** What every run of the thread pool keeps: each message is handled once, each thread is joined at most
    once, and the pool settles on its target. */
module PoolRuns {
  import opened PoolLogic

  // ---- Threads: in the pool or with the joiner, never both ----

  predicate Distinct(s: seq<nat>) { forall i, j | 0 <= i < j < |s| :: s[i] != s[j] }

  predicate InPool(p: Phase) { p.Idle? || p.Busy? || p.Exiting? }

  ghost predicate ThreadsOk(s: Pool) {
    && Distinct(s.pool) && Distinct(s.handed)
    && (forall t | t in s.pool :: t < |s.threads| && InPool(s.threads[t]) && t !in s.handed)
    && (forall t | t in s.handed :: t < |s.threads| && !InPool(s.threads[t]))
    && (forall t | 0 <= t < |s.threads| :: t in s.pool || t in s.handed)
    && s.joined <= |s.handed|
    && (forall i | 0 <= i < s.joined :: s.handed[i] < |s.threads| && s.threads[s.handed[i]].Ended?)
  }

  // ---- Messages: taken in order, run and finished once ----

  /** Message `id` is being run by the thread that took it. */
  predicate Running(s: Pool, id: nat) {
    && id < |s.takers| && s.takers[id] < |s.threads|
    && s.threads[s.takers[id]].Busy? && s.threads[s.takers[id]].m.id == id
  }

  ghost predicate MessagesOk(s: Pool) {
    && (forall i | 0 <= i < |s.queue| :: s.queue[i].id == |s.takers| + i)
    && (forall id | 0 <= id < |s.takers| :: s.takers[id] < |s.threads|)
    && Distinct(s.finished)
    && (forall id | id in s.finished :: id < |s.takers| && !Running(s, id))
    && (forall id: nat | id < |s.takers| :: id in s.finished || Running(s, id))
    && (forall t | 0 <= t < |s.threads| && s.threads[t].Busy? :: s.threads[t].m.kind.Cmd? && BusyOwn(s, t))
  }

  predicate BusyOwn(s: Pool, t: nat)
    requires t < |s.threads| && s.threads[t].Busy?
  {
    s.threads[t].m.id < |s.takers| && s.takers[s.threads[t].m.id] == t
  }

  // ---- Size: something is always on its way to correct it ----

  predicate IsToken(p: Phase) { p.ExitResizing? || p.LeftResizing? }

  /** A size check is still to come. */
  ghost predicate CheckComes(s: Pool) {
    s.pending > 0 || exists t :: 0 <= t < |s.threads| && IsToken(s.threads[t])
  }

  ghost predicate ExitComes(s: Pool) {
    || (exists i :: 0 <= i < |s.queue| && s.queue[i].kind.End?)
    || (exists t :: 0 <= t < |s.threads| && s.threads[t].Exiting?)
  }

  ghost predicate SizeOk(s: Pool) {
    && (|s.pool| > s.target ==> ExitComes(s) || CheckComes(s))
    && (|s.pool| < s.target ==> CheckComes(s))
  }

  /** The pool never holds more threads than may exist. */
  predicate RoomOk(s: Pool) { s.target <= s.max && |s.pool| <= s.max }

  ghost predicate Ok(s: Pool) { ThreadsOk(s) && MessagesOk(s) && SizeOk(s) }

  /** A command is queued behind all others whenever it comes, also after shutdown. */
  lemma SubmittedIsLast(s: Pool, leaves: bool)
    ensures var r := Next(s, Submit(leaves));
            && |r.queue| == |s.queue| + 1 && r.queue[..|s.queue|] == s.queue
            && r.queue[|s.queue|].kind == Cmd(leaves) && r.(queue := s.queue) == s
  {}

  /** A new target leaves room for one thread more, and raises the maximum only where there would be none; after
      shutdown the target stays zero. A size check is to come. */
  lemma NewTarget(s: Pool, n: nat)
    ensures var r := Next(s, SetTarget(n));
            && r.target == (if s.shutdown then 0 else n)
            && (n < s.max ==> r.max == s.max) && (n >= s.max ==> r.max == n + 1)
            && r.pending == s.pending + 1 && r == s.(target := r.target, max := r.max, pending := r.pending)
    ensures var r := Next(s, Shutdown);
            && r.shutdown && r.target == 0 && r.pending == s.pending + 1
            && r.max == if s.max == 0 then 1 else s.max
  {}

  // ---- Waiting to leave ----

  /** The first `n` numbers. */
  function Below(n: nat): (r: set<nat>)
    ensures |r| == n && forall u: nat :: u in r <==> u < n
  {
    if n == 0 then {} else Below(n - 1) + {n - 1}
  }

  function Without(n: nat, gone: seq<nat>): set<nat> { set u | u in Below(n) && u !in gone }

  /** The threads that were created and not joined yet, whether in the pool or not. */
  function NotJoined(s: Pool): set<nat>
    requires s.joined <= |s.handed|
  {
    Without(|s.threads|, s.handed[..s.joined])
  }

  /** A command that wants to leave the pool can go on exactly while no more threads than the maximum are not
      joined yet; those that left before count until they are. */
  lemma LeaveWaits(s: Pool, t: nat)
    requires ThreadsOk(s)
    ensures Enabled(s, Leave(t)) <==>
            && t < |s.threads| && s.threads[t].Busy? && s.threads[t].m.kind == Cmd(true) && |NotJoined(s)| <= s.max
  {
    var gone := s.handed[..s.joined];
    assert forall u | u in gone :: u in s.handed;
    assert Distinct(gone) by {
      forall i, j | 0 <= i < j < |gone|
        ensures gone[i] != gone[j]
      {
        assert s.handed[i] != s.handed[j];
      }
    }
    LeftOver(|s.threads|, gone);
  }

  /** Of the first `n` numbers all but those of `gone` are left. */
  lemma {:induction false} LeftOver(n: nat, gone: seq<nat>)
    requires Distinct(gone) && forall u | u in gone :: u < n
    ensures |Without(n, gone)| == n - |gone|
  {
    if gone == [] {
      assert Without(n, gone) == Below(n);
    } else {
      var rest := gone[1..];
      assert gone == [gone[0]] + rest;
      assert forall u | u in rest :: u in gone;
      LeftOver(n, rest);
      assert gone[0] in gone && gone[0] !in rest;
      assert Without(n, gone) == Without(n, rest) - {gone[0]};
    }
  }

  // ---- Building blocks ----

  lemma {:induction false} GrownIs(s: Pool)
    ensures var g := Grown(s);
            && g == s.(threads := g.threads, pool := g.pool)
            && |g.pool| == (if |s.pool| < s.target then s.target else |s.pool|)
            && |g.threads| == |s.threads| + |g.pool| - |s.pool|
            && s.pool <= g.pool && s.threads <= g.threads
            && (forall t | |s.threads| <= t < |g.threads| :: g.threads[t] == Idle)
            && (forall i | |s.pool| <= i < |g.pool| :: g.pool[i] == i - |s.pool| + |s.threads|)
    decreases s.target - |s.pool|
  {
    if s.target > |s.pool| {
      GrownIs(ThreadAdded(s));
    }
  }

  lemma {:induction false} ErasedIs(pool: seq<nat>, t: nat)
    requires Distinct(pool) && t in pool
    ensures var e := Erased(pool, t);
            && |e| == |pool| - 1 && Distinct(e) && (forall u :: u in e <==> u in pool && u != t)
  {
    if pool[0] == t {
      assert pool == [t] + pool[1..];
    } else {
      var rest := pool[1..];
      assert forall u :: u in pool <==> u == pool[0] || u in rest;
      ErasedIs(rest, t);
      var e := Erased(pool, t);
      assert e == [pool[0]] + Erased(rest, t);
      assert pool[0] !in rest;
    }
  }

  lemma AddedThreadsOk(s: Pool)
    requires ThreadsOk(s)
    ensures ThreadsOk(ThreadAdded(s))
  {
    var a := ThreadAdded(s);
    forall t | t in a.pool
      ensures t < |a.threads| && InPool(a.threads[t]) && t !in a.handed
    {
      assert t in s.pool || t == |s.threads|;
    }
    forall t | 0 <= t < |a.threads|
      ensures t in a.pool || t in a.handed
    {
      if t == |s.threads| { assert a.pool[|s.pool|] == t; }
    }
    forall i, j | 0 <= i < j < |a.pool|
      ensures a.pool[i] != a.pool[j]
    {
      assert s.pool[i] in s.pool;
    }
  }

  lemma {:induction false} GrownThreadsOk(s: Pool)
    requires ThreadsOk(s)
    ensures ThreadsOk(Grown(s))
    decreases s.target - |s.pool|
  {
    hide ThreadsOk;
    if s.target > |s.pool| {
      AddedThreadsOk(s);
      GrownThreadsOk(ThreadAdded(s));
    }
  }

  lemma GrownKeeps(s: Pool)
    requires ThreadsOk(s) && MessagesOk(s)
    ensures ThreadsOk(Grown(s)) && MessagesOk(Grown(s))
  {
    hide Grown, ThreadsOk;
    GrownThreadsOk(s);
    GrownIs(s);
    RunningSame(s, Grown(s));
  }

  lemma RunningSame(s: Pool, s': Pool)
    requires s.takers == s'.takers && |s.threads| <= |s'.threads|
    requires forall t | 0 <= t < |s'.threads| && (t >= |s.threads| || s.threads[t] != s'.threads[t]) ::
               !s'.threads[t].Busy? && (t < |s.threads| ==> !s.threads[t].Busy?)
    requires forall id: nat | id < |s.takers| :: s.takers[id] < |s.threads|
    ensures forall id: nat :: Running(s, id) <==> Running(s', id)
  {}

  lemma PostedKeeps(s: Pool, kind: Kind)
    requires Ok(s)
    ensures Ok(Posted(s, kind))
  {
    var p := Posted(s, kind);
    assert forall i | 0 <= i < |s.queue| :: p.queue[i] == s.queue[i];
    RunningSame(s, p);
  }

  /** A size check leaves the pool at its target, or above it with an end message queued. */
  lemma ResizedKeeps(s: Pool)
    requires ThreadsOk(s) && MessagesOk(s)
    ensures Ok(Resized(s))
  {
    hide Grown;
    GrownKeeps(s);
    GrownIs(s);
    var g := Grown(s);
    if g.target < |g.pool| {
      var p := Posted(g, End);
      assert forall i | 0 <= i < |g.queue| :: p.queue[i] == g.queue[i];
      RunningSame(g, p);
      assert p.queue[|g.queue|].kind.End?;
      assert ExitComes(p);
    }
  }

  /** A released thread is out of the pool, with the joiner, and a size check follows. */
  lemma ReleasedKeeps(s: Pool, t: nat, next: Phase, notFound: Phase)
    requires ThreadsOk(s) && t in s.pool && IsToken(next)
    ensures var r := Released(s, t, next, notFound);
            ThreadsOk(r) && CheckComes(r) && |r.pool| == |s.pool| - 1 && r.threads == s.threads[t := next]
  {
    hide Erased;
    ErasedIs(s.pool, t);
    var r := Released(s, t, next, notFound);
    assert IsToken(r.threads[t]);
    forall u | 0 <= u < |r.threads|
      ensures u in r.pool || u in r.handed
    {
      if u == t { assert r.handed[|s.handed|] == t; }
    }
    assert forall i | 0 <= i < |s.handed| :: s.handed[i] in s.handed;
  }

  // ---- Every step keeps all of it ----

  /** What stays true of messages when threads move without taking or finishing one. */
  lemma MessagesKept(s: Pool, s': Pool)
    requires MessagesOk(s) && s'.queue == s.queue && s'.takers == s.takers && s'.finished == s.finished
    requires |s'.threads| == |s.threads|
    requires forall t | 0 <= t < |s.threads| && s.threads[t] != s'.threads[t] ::
               !s.threads[t].Busy? && !s'.threads[t].Busy?
    ensures MessagesOk(s')
  {
    RunningSame(s, s');
  }

  lemma DequeueKeepsThreads(s: Pool, t: nat)
    requires ThreadsOk(s) && SizeOk(s) && Enabled(s, Dequeue(t))
    ensures ThreadsOk(Apply(s, Dequeue(t))) && SizeOk(Apply(s, Dequeue(t)))
  {
    var d := Apply(s, Dequeue(t));
    assert s.threads[t].Idle?;
    if s.queue[0].kind.End? {
      assert d.threads[t].Exiting?;
    } else if i :| 0 <= i < |s.queue| && s.queue[i].kind.End? {
      assert d.queue[i - 1] == s.queue[i];
    } else if u :| 0 <= u < |s.threads| && s.threads[u].Exiting? {
      assert d.threads[u].Exiting?;
    }
    if u :| 0 <= u < |s.threads| && IsToken(s.threads[u]) { assert IsToken(d.threads[u]); }
  }

  lemma DistinctAppend(s: seq<nat>, x: nat)
    requires Distinct(s) && x !in s
    ensures Distinct(s + [x]) && forall y: nat :: y in s + [x] <==> y in s || y == x
  {
    assert (s + [x])[|s|] == x;
    assert forall i | 0 <= i < |s| :: (s + [x])[i] == s[i] && s[i] in s;
  }

  lemma TakeEnd(s: Pool, t: nat)
    requires MessagesOk(s) && Enabled(s, Dequeue(t)) && s.queue[0].kind.End?
    ensures MessagesOk(Apply(s, Dequeue(t)))
  {
    var d := Apply(s, Dequeue(t));
    forall id: nat | id < |s.takers|
      ensures Running(d, id) <==> Running(s, id)
    {}
    hide Distinct;
    DistinctAppend(s.finished, s.queue[0].id);
    BusyOwnKept(s, d, t);
  }

  lemma TakeCommand(s: Pool, t: nat)
    requires MessagesOk(s) && Enabled(s, Dequeue(t)) && s.queue[0].kind.Cmd?
    ensures MessagesOk(Apply(s, Dequeue(t)))
  {
    var d := Apply(s, Dequeue(t));
    forall id: nat | id < |s.takers|
      ensures Running(d, id) <==> Running(s, id)
    {}
    assert Running(d, s.queue[0].id);
    BusyOwnKept(s, d, t);
  }

  lemma BusyOwnKept(s: Pool, d: Pool, t: nat)
    requires MessagesOk(s) && t < |s.threads| == |d.threads| && s.takers <= d.takers
    requires forall u | 0 <= u < |s.threads| && u != t :: d.threads[u] == s.threads[u]
    ensures forall u | 0 <= u < |d.threads| && u != t && d.threads[u].Busy? ::
              d.threads[u].m.kind.Cmd? && BusyOwn(d, u)
  {
    forall u | 0 <= u < |d.threads| && u != t && d.threads[u].Busy?
      ensures d.threads[u].m.kind.Cmd? && BusyOwn(d, u)
    {
      assert s.threads[u].Busy? && BusyOwn(s, u);
    }
  }

  /** Taking a message: it is the oldest in the queue, and no other thread ever takes it. */
  lemma DequeueKeeps(s: Pool, t: nat)
    requires Ok(s) && Enabled(s, Dequeue(t))
    ensures var d := Apply(s, Dequeue(t)); Ok(d) && s.queue[0].id == |s.takers| && d.takers == s.takers + [t]
  {
    hide ThreadsOk, SizeOk, Distinct;
    DequeueKeepsThreads(s, t);
    if s.queue[0].kind.End? { TakeEnd(s, t); } else { TakeCommand(s, t); }
  }

  /** Finishing the message a thread runs: its number is new among the finished ones. */
  lemma FinishKeeps(s: Pool, t: nat, next: Phase)
    requires MessagesOk(s) && t < |s.threads| && s.threads[t].Busy? && !next.Busy?
    ensures var m := s.threads[t].m;
            && m.id !in s.finished
            && MessagesOk(s.(finished := s.finished + [m.id], threads := s.threads[t := next]))
  {
    var m := s.threads[t].m;
    var f := s.(finished := s.finished + [m.id], threads := s.threads[t := next]);
    assert BusyOwn(s, t) && Running(s, m.id);
    forall id: nat | id < |s.takers| && id != m.id
      ensures Running(f, id) <==> Running(s, id)
    {}
    assert f.finished[|s.finished|] == m.id;
    assert forall i | 0 <= i < |s.finished| :: f.finished[i] == s.finished[i] && s.finished[i] in s.finished;
    assert forall id | id in s.finished :: id in f.finished;
    forall u | 0 <= u < |f.threads| && f.threads[u].Busy?
      ensures f.threads[u].m.kind.Cmd? && BusyOwn(f, u)
    {
      assert s.threads[u].Busy? && BusyOwn(s, u);
    }
  }

  /** A thread that moves without touching pool, joiner or queue. */
  lemma MovedKeeps(s: Pool, t: nat, next: Phase, finished: seq<nat>)
    requires ThreadsOk(s) && SizeOk(s) && t < |s.threads| && InPool(next) == InPool(s.threads[t])
    requires !IsToken(s.threads[t]) && !s.threads[t].Exiting? && !s.threads[t].Ended?
    ensures var r := s.(threads := s.threads[t := next], finished := finished); ThreadsOk(r) && SizeOk(r)
  {
    var r := s.(threads := s.threads[t := next], finished := finished);
    if u :| 0 <= u < |s.threads| && IsToken(s.threads[u]) { assert IsToken(r.threads[u]); }
    if i :| 0 <= i < |s.queue| && s.queue[i].kind.End? { assert r.queue[i].kind.End?; }
    if u :| 0 <= u < |s.threads| && s.threads[u].Exiting? { assert r.threads[u].Exiting?; }
  }

  lemma StepKeeps(s: Pool, step: Step)
    requires Ok(s) && Enabled(s, step)
    ensures Ok(Apply(s, step))
  {
    hide Resized, Released;
    match step {
      case Dequeue(t) => DequeueKeeps(s, t);
      case Return(t) => ReturnKeeps(s, t);
      case Leave(t) => LeaveKeeps(s, t);
      case Release(t) => ReleaseKeeps(s, t);
      case Resize(t) =>
        var s1 := Checking(s, t);
        MessagesKept(s, s1);
        ResizedKeeps(s1);
      case CallerResize =>
        var s1 := s.(pending := s.pending - 1);
        MessagesKept(s, s1);
        ResizedKeeps(s1);
      case Join =>
        MessagesKept(s, Apply(s, step));
        JoinKeeps(s);
    }
  }

  lemma ReturnKeeps(s: Pool, t: nat)
    requires Ok(s) && Enabled(s, Return(t))
    ensures Ok(Apply(s, Return(t)))
  {
    if s.threads[t].Left? {
      MovedKeeps(s, t, Ended, s.finished);
      MessagesKept(s, Apply(s, Return(t)));
    } else {
      MovedKeeps(s, t, Idle, s.finished + [s.threads[t].m.id]);
      FinishKeeps(s, t, Idle);
    }
  }

  lemma JoinKeeps(s: Pool)
    requires ThreadsOk(s) && SizeOk(s) && Enabled(s, Join)
    ensures ThreadsOk(Apply(s, Join)) && SizeOk(Apply(s, Join))
  {
    var j := Apply(s, Join);
    assert j == s.(joined := s.joined + 1);
    assert ExitComes(s) ==> ExitComes(j);
    assert CheckComes(s) ==> CheckComes(j);
  }

  lemma LeaveKeeps(s: Pool, t: nat)
    requires Ok(s) && Enabled(s, Leave(t))
    ensures Ok(Apply(s, Leave(t))) && t in s.pool
  {
    hide Erased;
    var m := s.threads[t].m;
    assert t in s.pool;
    var s1 := s.(finished := s.finished + [m.id]);
    ReleasedKeeps(s1, t, LeftResizing(m), Left(m));
    FinishKeeps(s, t, LeftResizing(m));
    var f := s.(finished := s.finished + [m.id], threads := s.threads[t := LeftResizing(m)]);
    MessagesKept(f, Apply(s, Leave(t)));
  }

  lemma ReleaseKeeps(s: Pool, t: nat)
    requires Ok(s) && Enabled(s, Release(t))
    ensures Ok(Apply(s, Release(t))) && t in s.pool
  {
    hide Erased;
    assert t in s.pool;
    ReleasedKeeps(s, t, ExitResizing, Ended);
    MessagesKept(s, Apply(s, Release(t)));
  }

  lemma NextKeeps(s: Pool, e: Event)
    requires Ok(s) && Possible(s, e)
    ensures Ok(Next(s, e))
  {
    hide Apply;
    match e {
      case Own(step) => StepKeeps(s, step);
      case Submit(leaves) => PostedKeeps(s, Cmd(leaves));
      case SetTarget(n) => RunningSame(s, TargetSet(s, n));
      case Shutdown => RunningSame(s, ShutdownCalled(s));
    }
  }

  lemma RoomKept(s: Pool, e: Event)
    requires ThreadsOk(s) && RoomOk(s) && Possible(s, e)
    ensures RoomOk(Next(s, e)) && s.max <= Next(s, e).max
  {
    hide Grown, Erased;
    if e.Own? {
      match e.step {
        case Resize(t) => GrownIs(Checking(s, t));
        case CallerResize => GrownIs(s.(pending := s.pending - 1));
        case Release(t) => if t in s.pool { ErasedIs(s.pool, t); }
        case Leave(t) => if t in s.pool { ErasedIs(s.pool, t); }
        case _ =>
      }
    }
  }

  lemma {:induction false} RunKeeps(s: Pool, events: seq<Event>, end: Pool)
    requires Ok(s) && Leads(s, events, end)
    ensures Ok(end) && (RoomOk(s) ==> RoomOk(end))
    decreases |events|
  {
    hide Next;
    if events != [] {
      NextKeeps(s, events[0]);
      if RoomOk(s) { RoomKept(s, events[0]); }
      RunKeeps(Next(s, events[0]), events[1..], end);
    }
  }

  /** What has happened stays: who took which message, what was finished, who was handed over and joined. */
  lemma {:induction false} HistoryOnlyGrows(s: Pool, events: seq<Event>, end: Pool)
    requires Leads(s, events, end)
    ensures s.takers <= end.takers && s.finished <= end.finished && s.handed <= end.handed
    ensures s.joined <= end.joined && |s.threads| <= |end.threads|
    ensures forall t | 0 <= t < |s.threads| && s.threads[t].Ended? :: end.threads[t].Ended?
    decreases |events|
  {
    if events != [] {
      HistoryStep(s, events[0]);
      HistoryOnlyGrows(Next(s, events[0]), events[1..], end);
    }
  }

  lemma HistoryStep(s: Pool, e: Event)
    requires Possible(s, e)
    ensures var n := Next(s, e);
            && s.takers <= n.takers && s.finished <= n.finished && s.handed <= n.handed
            && s.joined <= n.joined && |s.threads| <= |n.threads|
            && (forall t | 0 <= t < |s.threads| && s.threads[t].Ended? :: n.threads[t].Ended?)
  {
    hide Grown, Erased;
    if e.Own? {
      match e.step {
        case Resize(t) => GrownIs(Checking(s, t));
        case CallerResize => GrownIs(s.(pending := s.pending - 1));
        case _ =>
      }
    }
  }
}
