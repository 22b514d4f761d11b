/** The thread pool as a state machine: threads share one queue, shrinking is done by end messages that
    any thread may answer, and every exit looks at the size again. */
module PoolLogic {

  /** What a queued message does: end the thread that answers it, or run a command that stays in the
      pool or leaves it part-way. */
  datatype Kind = End | Cmd(leaves: bool)

  /** Messages are numbered in the order they are queued. */
  datatype Msg = Msg(id: nat, kind: Kind)

  /** Where a thread is. A thread that left the pool still runs the command it left with. */
  datatype Phase =
    | Idle                   // waiting for the queue
    | Busy(m: Msg)           // running a command inside the pool
    | Exiting                // its loop has ended, not released yet
    | ExitResizing           // released on exit, the size not checked yet
    | LeftResizing(m: Msg)   // released by `leavePool`, the size not checked yet
    | Left(m: Msg)           // finishing its command outside the pool
    | Ended

  /** `takers[i]` is the thread that took message `i`. The joiner was `handed` threads in this order and
      has joined the first `joined`. `pending` counts calls of `resize` that have not reached `_resize`. */
  datatype Pool = Pool(
    queue: seq<Msg>, takers: seq<nat>, finished: seq<nat>,
    threads: seq<Phase>, pool: seq<nat>, handed: seq<nat>, joined: nat,
    target: nat, max: nat, shutdown: bool, pending: nat)

  /** The constructor, before its own `_resize`. */
  function NewPool(count: nat, max: nat): Pool {
    Pool([], [], [], [], [], [], 0, count, max, false, 1)
  }

  function Posted(s: Pool, kind: Kind): Pool {
    s.(queue := s.queue + [Msg(|s.takers| + |s.queue|, kind)])
  }

  function ThreadAdded(s: Pool): Pool {
    s.(threads := s.threads + [Idle], pool := s.pool + [|s.threads|])
  }

  function Grown(s: Pool): Pool
    decreases s.target - |s.pool|
  {
    if s.target > |s.pool| then Grown(ThreadAdded(s)) else s
  }

  /** `_resize`: grow to the target at once; shrink by one end message. */
  function Resized(s: Pool): Pool {
    var g := Grown(s);
    if g.target < |g.pool| then Posted(g, End) else g
  }

  /** `pool` without the first `t`. */
  function Erased(pool: seq<nat>, t: nat): seq<nat> {
    if pool == [] then []
    else if pool[0] == t then pool[1..]
    else [pool[0]] + Erased(pool[1..], t)
  }

  /** `release` up to its `_resize`: a thread found in the pool goes to the joiner and is `next`; one that
      is not found is done, and no size check follows. */
  function Released(s: Pool, t: nat, next: Phase, notFound: Phase): Pool
    requires t < |s.threads|
  {
    if t in s.pool then
      s.(pool := Erased(s.pool, t), handed := s.handed + [t], threads := s.threads[t := next])
    else s.(threads := s.threads[t := notFound])
  }

  /** `resize` and `shutdownPool` up to their `_resize`. */
  function TargetSet(s: Pool, n: nat): Pool {
    s.(max := if n >= s.max then n + 1 else s.max, target := if s.shutdown then 0 else n, pending := s.pending + 1)
  }

  function ShutdownCalled(s: Pool): Pool { TargetSet(s.(shutdown := true), 0) }

  /** Threads that exist: created and not yet joined and destroyed. */
  function Existing(s: Pool): int { |s.threads| - s.joined }

  datatype Step =
    | Dequeue(t: nat) | Return(t: nat) | Leave(t: nat) | Release(t: nat) | Resize(t: nat)
    | CallerResize | Join

  predicate Enabled(s: Pool, step: Step) {
    match step
    case Dequeue(t) => t < |s.threads| && s.threads[t].Idle? && s.queue != []
    case Return(t) =>
      && t < |s.threads|
      && (s.threads[t].Left? || (s.threads[t].Busy? && s.threads[t].m.kind == Cmd(false)))
    case Leave(t) => t < |s.threads| && s.threads[t].Busy? && s.threads[t].m.kind == Cmd(true) && Existing(s) <= s.max
    case Release(t) => t < |s.threads| && s.threads[t].Exiting?
    case Resize(t) => t < |s.threads| && (s.threads[t].ExitResizing? || s.threads[t].LeftResizing?)
    case CallerResize => s.pending > 0
    case Join => s.joined < |s.handed| && s.handed[s.joined] < |s.threads| && s.threads[s.handed[s.joined]].Ended?
  }

  /** Thread `t`, released, goes on to its size check. */
  function Checking(s: Pool, t: nat): Pool
    requires t < |s.threads| && (s.threads[t].ExitResizing? || s.threads[t].LeftResizing?)
  {
    s.(threads := s.threads[t := if s.threads[t].ExitResizing? then Ended else Left(s.threads[t].m)])
  }

  function Apply(s: Pool, step: Step): Pool
    requires Enabled(s, step)
  {
    match step
    case Dequeue(t) =>
      var m := s.queue[0];
      var s1 := s.(queue := s.queue[1..], takers := s.takers + [t]);
      if m.kind.End? then s1.(finished := s.finished + [m.id], threads := s.threads[t := Exiting])
      else s1.(threads := s.threads[t := Busy(m)])
    case Return(t) =>
      if s.threads[t].Left? then s.(threads := s.threads[t := Ended])
      else s.(finished := s.finished + [s.threads[t].m.id], threads := s.threads[t := Idle])
    case Leave(t) =>
      var m := s.threads[t].m;
      Released(s.(finished := s.finished + [m.id]), t, LeftResizing(m), Left(m))
    case Release(t) => Released(s, t, ExitResizing, Ended)
    case Resize(t) =>
      Resized(Checking(s, t))
    case CallerResize => Resized(s.(pending := s.pending - 1))
    case Join => s.(joined := s.joined + 1)
  }

  /** Steps of the pool itself, and what its users do. */
  datatype Event = Own(step: Step) | Submit(leaves: bool) | SetTarget(n: nat) | Shutdown

  predicate Possible(s: Pool, e: Event) { e.Own? ==> Enabled(s, e.step) }

  function Next(s: Pool, e: Event): Pool
    requires Possible(s, e)
  {
    match e
    case Own(step) => Apply(s, step)
    case Submit(leaves) => Posted(s, Cmd(leaves))
    case SetTarget(n) => TargetSet(s, n)
    case Shutdown => ShutdownCalled(s)
  }

  /** `events` can happen in this order from `s` and end in `end`. */
  predicate Leads(s: Pool, events: seq<Event>, end: Pool)
    decreases |events|
  {
    if events == [] then s == end
    else Possible(s, events[0]) && Leads(Next(s, events[0]), events[1..], end)
  }

  predicate OwnOnly(events: seq<Event>) { forall e | e in events :: e.Own? }

  ghost predicate Stuck(s: Pool) { forall step :: !Enabled(s, step) }
}
