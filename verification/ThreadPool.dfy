/** The pool, its command queue and its joiner as objects, each operation proved to be the steps of
    `PoolLogic` it stands for. */
module ThreadPool {
  import opened PoolLogic
  import opened PoolRuns
  import opened Options

  /** A first-in first-out queue of messages, numbered as they come. */
  class CommandQueue {
    var qu: seq<Msg>
    var queued: nat

    constructor ()
      ensures qu == [] && queued == 0
    {
      qu, queued := [], 0;
    }

    method QueCmd(kind: Kind)
      modifies this
      ensures qu == old(qu) + [Msg(old(queued), kind)] && queued == old(queued) + 1
    {
      qu := qu + [Msg(queued, kind)];
      queued := queued + 1;
    }

    /** The oldest message, or nothing when the queue is empty. */
    method GetCmd() returns (cmd: Option<Msg>)
      modifies this`qu
      ensures old(qu) == [] ==> cmd == None && qu == []
      ensures old(qu) != [] ==> cmd.Some? && old(qu) == [cmd.value] + qu
    {
      if qu == [] {
        return None;
      }
      cmd := Some(qu[0]);
      qu := qu[1..];
    }
  }

  /** The threads handed over for joining, oldest first. */
  class EventThreadJoiner {
    var eventThreads: seq<nat>
    var count: int
    ghost var handed: seq<nat>
    ghost var joined: nat

    ghost predicate Valid()
      reads this
    {
      joined <= |handed| && eventThreads == handed[joined..] && count == |eventThreads|
    }

    constructor ()
      ensures Valid() && handed == [] && joined == 0
    {
      eventThreads, count := [], 0;
      handed, joined := [], 0;
    }

    method AddThread(t: nat)
      requires Valid()
      modifies this
      ensures Valid() && handed == old(handed) + [t] && joined == old(joined)
    {
      count := count + 1;
      eventThreads := eventThreads + [t];
      handed := handed + [t];
    }

    /** One round of `joinLoop` with a thread to join. */
    method JoinFront() returns (t: nat)
      requires Valid() && eventThreads != []
      modifies this
      ensures Valid() && handed == old(handed) && joined == old(joined) + 1
      ensures t == handed[old(joined)] && count == old(count) - 1
    {
      t := eventThreads[0];
      eventThreads := eventThreads[1..];
      count := count - 1;
      joined := joined + 1;
    }
  }

  class ThreadPool {
    const q: CommandQueue
    const joiner: EventThreadJoiner
    var pool: seq<nat>
    var threads: seq<Phase>
    var target: nat
    var max: nat
    var shutdown: bool
    ghost var takers: seq<nat>
    ghost var finished: seq<nat>
    ghost var pending: nat

    ghost predicate Valid()
      reads this, q, joiner
    {
      joiner.Valid() && q.queued == |takers| + |q.qu|
    }

    /** The pool as `PoolLogic` sees it. */
    ghost function View(): Pool
      reads this, q, joiner
    {
      Pool(q.qu, takers, finished, threads, pool, joiner.handed, joiner.joined, target, max, shutdown, pending)
    }

    constructor (thrdCount: nat, maxPoolThreads: nat)
      ensures Valid() && View() == NewPool(thrdCount, maxPoolThreads) && fresh(q) && fresh(joiner)
    {
      q := new CommandQueue();
      joiner := new EventThreadJoiner();
      pool, threads := [], [];
      target, max, shutdown := thrdCount, maxPoolThreads, false;
      takers, finished, pending := [], [], 1;
    }

    /** A pool nobody is expected to leave. */
    constructor Fixed(thrdCount: nat)
      ensures Valid() && View() == NewPool(thrdCount, thrdCount + 1) && fresh(q) && fresh(joiner)
    {
      q := new CommandQueue();
      joiner := new EventThreadJoiner();
      pool, threads := [], [];
      target, max, shutdown := thrdCount, thrdCount + 1, false;
      takers, finished, pending := [], [], 1;
    }

    /** `_resize` */
    method AdjustSize()
      requires Valid()
      modifies this`pool, this`threads, q
      ensures Valid() && View() == Resized(old(View()))
    {
      while target > |pool|
        invariant Valid() && Grown(View()) == Grown(old(View()))
        invariant unchanged(q)
      {
        pool := pool + [|threads|];
        threads := threads + [Idle];
      }
      assert View() == Grown(old(View()));
      if target < |pool| {
        q.QueCmd(End);
      }
    }

    /** The part of `release` under the lock: find the thread, erase it, hand it to the joiner. */
    method EraseAndHand(t: nat, next: Phase, notFound: Phase) returns (found: bool)
      requires Valid() && t < |threads|
      modifies this`pool, this`threads, joiner
      ensures Valid() && View() == Released(old(View()), t, next, notFound) && found == (t in old(pool))
    {
      var i := FindThread(pool, t);
      if i == |pool| {
        assert pool[..i] == pool;
        threads := threads[t := notFound];
        return false;
      }
      ErasedAt(pool, i);
      pool := pool[..i] + pool[i + 1..];
      joiner.AddThread(t);
      threads := threads[t := next];
      return true;
    }

    /** `release` for a thread whose loop has ended, uninterrupted: out of the pool, then a size check. A
        thread that is not in the pool is done, without a check; the invariant says this does not happen. */
    method Release(t: nat) returns (found: bool)
      requires Valid() && t < |threads| && threads[t].Exiting?
      modifies this, q, joiner
      ensures Valid() && found == (t in old(pool))
      ensures var mid := Apply(old(View()), Step.Release(t));
              View() == if found then Apply(mid, Step.Resize(t)) else mid
      ensures old(Ok(View())) ==> found && Ok(View())
    {
      hide Resized, Erased, Ok;
      ghost var before := View();
      found := EraseAndHand(t, ExitResizing, Ended);
      ghost var mid := View();
      assert mid == Apply(before, Step.Release(t));
      if Ok(before) {
        ReleaseKeeps(before, t);
        StepKeeps(mid, Step.Resize(t));
      }
      if found {
        threads := threads[t := Ended];
        AdjustSize();
      }
    }

    /** `leavePool` called by the command that thread `t` runs, when there is room to leave. */
    method LeavePool(t: nat)
      requires Valid() && Ok(View()) && Enabled(View(), Step.Leave(t))
      modifies this, q, joiner
      ensures Valid() && Ok(View())
      ensures var mid := Apply(old(View()), Step.Leave(t)); View() == Apply(mid, Step.Resize(t))
    {
      hide Resized, Erased, Ok;
      ghost var before := View();
      LeaveKeeps(before, t);
      var m := threads[t].m;
      finished := finished + [m.id];
      var found := EraseAndHand(t, LeftResizing(m), Left(m));
      ghost var mid := View();
      assert mid == Apply(before, Step.Leave(t));
      StepKeeps(mid, Step.Resize(t));
      threads := threads[t := Left(m)];
      AdjustSize();
    }

    /** `resize` */
    method Resize(targetThrdCount: nat)
      requires Valid()
      modifies this, q
      ensures Valid() && View() == Apply(TargetSet(old(View()), targetThrdCount), CallerResize)
    {
      if targetThrdCount >= max {
        max := targetThrdCount + 1;
      }
      target := if shutdown then 0 else targetThrdCount;
      AdjustSize();
    }

    /** `shutdownPool` up to where it waits. */
    method StartShutdown()
      requires Valid()
      modifies this, q
      ensures Valid() && View() == Apply(ShutdownCalled(old(View())), CallerResize)
    {
      shutdown := true;
      Resize(0);
    }

    /** Thread `t` takes a message; an end message ends its loop, a command starts to run. */
    method TakeCommand(t: nat)
      requires Valid() && Enabled(View(), Dequeue(t))
      modifies this, q`qu
      ensures Valid() && View() == Apply(old(View()), Dequeue(t))
    {
      var cmd := q.GetCmd();
      assert q.qu == old(q.qu)[1..];
      takers := takers + [t];
      if cmd.value.kind.End? {
        threads := threads[t := Exiting];
        finished := finished + [cmd.value.id];
      } else {
        threads := threads[t := Busy(cmd.value)];
      }
    }

    /** The command of thread `t` returns. Its finish was reported already if it left the pool. */
    method FinishCommand(t: nat)
      requires Valid() && Enabled(View(), Return(t))
      modifies this
      ensures Valid() && View() == Apply(old(View()), Return(t))
    {
      if threads[t].Left? {
        threads := threads[t := Ended];
      } else {
        finished := finished + [threads[t].m.id];
        threads := threads[t := Idle];
      }
    }

    method JoinOne()
      requires Valid() && Enabled(View(), Join)
      modifies joiner
      ensures Valid() && View() == Apply(old(View()), Join)
    {
      var t := joiner.JoinFront();
    }
  }

  /** The first place of `t` in `pool`, or the length when it is not there. */
  method FindThread(pool: seq<nat>, t: nat) returns (i: nat)
    ensures i <= |pool| && t !in pool[..i] && (i < |pool| ==> pool[i] == t)
  {
    i := 0;
    while i < |pool| && pool[i] != t
      invariant i <= |pool| && t !in pool[..i]
    {
      i := i + 1;
    }
  }

  lemma {:induction false} ErasedAt(pool: seq<nat>, i: nat)
    requires i < |pool| && pool[i] !in pool[..i]
    ensures Erased(pool, pool[i]) == pool[..i] + pool[i + 1..]
  {
    if i == 0 {
      assert pool[..0] + pool[1..] == pool[1..];
    } else {
      assert pool[0] == pool[..i][0];
      assert pool[..i][1..] == pool[1..][..i - 1];
      ErasedAt(pool[1..], i - 1);
      assert pool[..i] + pool[i + 1..] == [pool[0]] + (pool[1..][..i - 1] + pool[1..][i..]);
    }
  }
}
