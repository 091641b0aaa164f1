/** The task scheduler of src/spawn.rs, run as a single-threaded state machine.
    Thread ids are explicit parameters. A runnable is identified by the index of
    its task, and the task's future is abstracted to the number of times it will
    wake itself while it runs before it completes. */
module Spawn {
  import opened Wrappers

  /** Index of a task, the identity of its (unique) runnable. */
  type TaskId = nat

  /** The value MAIN_TID holds until the reactor thread is captured. */
  const NoThread: int := -1

  /** One execution of `Runnable::run`: which task ran, on which thread. */
  datatype Run = Run(task: TaskId, tid: int)

  /** The process-wide state the scheduler works on.
      mainTid   - MAIN_TID
      queue     - the contents of the unbounded channel, oldest first
      pending   - the eventfd counter: tickles not yet drained
      runs      - every run so far, in order
      selfWakes - per task, how many more of its runs end with the task waking itself */
  datatype Sched = Sched(mainTid: int, queue: seq<TaskId>, pending: nat, runs: seq<Run>, selfWakes: seq<nat>)

  /** Every queued runnable belongs to a task that exists. */
  ghost predicate WellFormed(s: Sched) {
    forall i :: 0 <= i < |s.queue| ==> s.queue[i] < |s.selfWakes|
  }

  /** The state of a freshly started process. */
  function Init(): Sched {
    Sched(NoThread, [], 0, [], [])
  }

  function Sum(xs: seq<nat>): nat {
    if xs == [] then 0 else xs[0] + Sum(xs[1..])
  }

  lemma {:induction false} SumDecrement(xs: seq<nat>, i: nat)
    requires i < |xs| && xs[i] > 0
    ensures Sum(xs[i := xs[i] - 1]) + 1 == Sum(xs)
  {
    if i > 0 {
      SumDecrement(xs[1..], i - 1);
      assert xs[i := xs[i] - 1][1..] == xs[1..][i - 1 := xs[i] - 1];
    }
  }

  /** `on_main_thread`: the caller is the reactor thread iff its id is the latched one.
      Before the latch is set no real thread id passes. */
  function IsMainThread(mainTid: int, tid: int): (b: bool)
    ensures mainTid == NoThread && tid != NoThread ==> !b
    ensures b ==> tid == mainTid
  {
    mainTid == tid
  }

  /** `MAIN_TID.compare_exchange(-1, tid)`: the stored id after the exchange. */
  function Latched(mainTid: int, tid: int): int {
    if mainTid == NoThread then tid else mainTid
  }

  /** `tx.send(runnable)` followed by `tickle()`. */
  function Enqueued(s: Sched, t: TaskId): Sched {
    s.(queue := s.queue + [t], pending := s.pending + 1)
  }

  /** `runnable.run()` on thread `tid`: the run is logged, and a future that still
      wakes itself reschedules with `woken_while_running`, which always enqueues. */
  function Ran(s: Sched, tid: int, t: TaskId): Sched
    requires t < |s.selfWakes|
  {
    var logged := s.(runs := s.runs + [Run(t, tid)]);
    if s.selfWakes[t] > 0 then
      Enqueued(logged.(selfWakes := s.selfWakes[t := s.selfWakes[t] - 1]), t)
    else
      logged
  }

  /** `Scheduler::schedule`: run inline iff on the main thread and not a self-wake;
      otherwise enqueue and tickle. */
  function Scheduled(s: Sched, tid: int, t: TaskId, wokenWhileRunning: bool): Sched
    requires t < |s.selfWakes|
  {
    if IsMainThread(s.mainTid, tid) && !wokenWhileRunning then Ran(s, tid, t) else Enqueued(s, t)
  }

  lemma RanWellFormed(s: Sched, tid: int, t: TaskId)
    requires WellFormed(s) && t < |s.selfWakes|
    ensures WellFormed(Ran(s, tid, t)) && |Ran(s, tid, t).selfWakes| == |s.selfWakes|
  {
  }

  /** One turn of the `while let Ok(r) = rx.try_recv()` loop: pop the oldest runnable and run it. */
  function Step(s: Sched, tid: int): Sched
    requires WellFormed(s) && s.queue != []
  {
    Ran(s.(queue := s.queue[1..]), tid, s.queue[0])
  }

  lemma StepProgress(s: Sched, tid: int)
    requires WellFormed(s) && s.queue != []
    ensures WellFormed(Step(s, tid))
    ensures |Step(s, tid).queue| + Sum(Step(s, tid).selfWakes) < |s.queue| + Sum(s.selfWakes)
  {
    var t := s.queue[0];
    RanWellFormed(s.(queue := s.queue[1..]), tid, t);
    if s.selfWakes[t] > 0 { SumDecrement(s.selfWakes, t); }
  }

  /** The whole loop: pop and run until the queue is empty. */
  function Drained(s: Sched, tid: int): Sched
    requires WellFormed(s)
    decreases |s.queue| + Sum(s.selfWakes)
  {
    if s.queue == [] then s
    else
      assert WellFormed(Step(s, tid))
          && |Step(s, tid).queue| + Sum(Step(s, tid).selfWakes) < |s.queue| + Sum(s.selfWakes)
      by { StepProgress(s, tid); }
      Drained(Step(s, tid), tid)
  }

  /** `async_handler` on thread `tid`: latch MAIN_TID, drain the eventfd, return early
      on an empty queue, otherwise run the queue dry. */
  function Handled(s: Sched, tid: int): Sched
    requires WellFormed(s)
  {
    var s1 := s.(mainTid := Latched(s.mainTid, tid), pending := 0);
    if s1.queue == [] then s1 else Drained(s1, tid)
  }

  /** Task creation by `async_task::spawn_unchecked`: a new task with its self-wake budget. */
  function Created(s: Sched, selfWakes: nat): Sched {
    s.(selfWakes := s.selfWakes + [selfWakes])
  }

  /** `spawn`: create the task, then schedule its runnable once, as a fresh (non-self) wake. */
  function Spawned(s: Sched, tid: int, selfWakes: nat): Sched {
    Scheduled(Created(s, selfWakes), tid, |s.selfWakes|, false)
  }

  /** The task ids of a run log, in order. */
  function Tasks(rs: seq<Run>): (ts: seq<TaskId>)
    ensures |ts| == |rs|
    ensures forall i :: 0 <= i < |rs| ==> ts[i] == rs[i].task
  {
    if rs == [] then [] else [rs[0].task] + Tasks(rs[1..])
  }

  // ---------------------------------------------------------------------------
  // Properties of a single schedule

  /** On the main thread, a fresh wake runs the runnable right there, on the caller;
      a future that does not wake itself leaves the queue and the notifier alone. */
  lemma ScheduleInline(s: Sched, tid: int, t: TaskId)
    requires t < |s.selfWakes| && IsMainThread(s.mainTid, tid)
    ensures var d := Scheduled(s, tid, t, false);
      && d.runs == s.runs + [Run(t, tid)]
      && d.mainTid == s.mainTid
      && (s.selfWakes[t] == 0 ==> d.queue == s.queue && d.pending == s.pending)
  {
  }

  /** In every other case the runnable goes to the back of the queue, the notifier
      is signalled exactly once, and nothing runs on the caller. */
  lemma ScheduleQueues(s: Sched, tid: int, t: TaskId, wokenWhileRunning: bool)
    requires t < |s.selfWakes| && (!IsMainThread(s.mainTid, tid) || wokenWhileRunning)
    ensures var d := Scheduled(s, tid, t, wokenWhileRunning);
      && d.queue == s.queue + [t]
      && d.pending == s.pending + 1
      && d.runs == s.runs
      && d.selfWakes == s.selfWakes && d.mainTid == s.mainTid
  {
  }

  /** A self-wake is queued whatever thread it comes from, the main thread included. */
  lemma SelfWakeQueued(s: Sched, tid: int, t: TaskId)
    requires t < |s.selfWakes|
    ensures Scheduled(s, tid, t, true) == Enqueued(s, t)
  {
  }

  // ---------------------------------------------------------------------------
  // Properties of the drain loop

  /** The drain leaves the queue empty, keeps MAIN_TID and the log so far, runs
      every popped runnable on the draining thread, and signals the notifier once
      per runnable that requeued itself during the loop. */
  lemma {:induction false} DrainedFrame(s: Sched, tid: int)
    requires WellFormed(s)
    ensures var d := Drained(s, tid);
      && d.queue == []
      && d.mainTid == s.mainTid
      && |d.selfWakes| == |s.selfWakes|
      && |s.runs| + |s.queue| <= |d.runs|
      && d.runs[..|s.runs|] == s.runs
      && (forall i :: |s.runs| <= i < |d.runs| ==> d.runs[i].tid == tid)
      && d.pending + |s.runs| + |s.queue| == s.pending + |d.runs|
    decreases |s.queue| + Sum(s.selfWakes)
  {
    if s.queue != [] {
      var next := Step(s, tid);
      StepProgress(s, tid);
      DrainedFrame(next, tid);
      var d := Drained(next, tid);
      assert d.runs[..|s.runs|] == d.runs[..|next.runs|][..|s.runs|];
    }
  }

  /** The runnables that were queued when the drain started run first, one run per
      entry, in enqueue order. */
  lemma {:induction false} DrainedInOrder(s: Sched, tid: int)
    requires WellFormed(s)
    ensures var d := Drained(s, tid);
      && |s.runs| + |s.queue| <= |d.runs|
      && forall i :: 0 <= i < |s.queue| ==> d.runs[|s.runs| + i] == Run(s.queue[i], tid)
    decreases |s.queue| + Sum(s.selfWakes)
  {
    DrainedFrame(s, tid);
    if s.queue != [] {
      var next := Step(s, tid);
      StepProgress(s, tid);
      DrainedInOrder(next, tid);
      DrainedFrame(next, tid);
      var d := Drained(next, tid);
      assert |next.runs| == |s.runs| + 1;
      assert d.runs[|s.runs|] == d.runs[..|next.runs|][|s.runs|] == Run(s.queue[0], tid);
      forall i | 1 <= i < |s.queue|
        ensures d.runs[|s.runs| + i] == Run(s.queue[i], tid)
      {
        assert next.queue[i - 1] == s.queue[i];
        assert d.runs[|s.runs| + i] == d.runs[|next.runs| + (i - 1)];
      }
    }
  }

  /** The runs a drain still owes task `x`: one per queue entry, plus the
      self-wakes left to a task that is queued. */
  function Owed(s: Sched, x: TaskId): nat
    requires WellFormed(s)
  {
    multiset(s.queue)[x] + (if x in s.queue then s.selfWakes[x] else 0)
  }

  lemma StepOwed(s: Sched, tid: int, x: TaskId)
    requires WellFormed(s) && s.queue != []
    ensures WellFormed(Step(s, tid))
    ensures Owed(s, x) == (if x == s.queue[0] then 1 else 0) + Owed(Step(s, tid), x)
  {
    var t := s.queue[0];
    var next := Step(s, tid);
    StepProgress(s, tid);
    assert s.queue == [t] + s.queue[1..];
    assert multiset(s.queue) == multiset{t} + multiset(s.queue[1..]);
    if s.selfWakes[t] > 0 {
      assert next.queue == s.queue[1..] + [t];
      assert multiset(next.queue) == multiset(s.queue);
      assert x in next.queue <==> x in s.queue by {
        assert x in next.queue <==> x in multiset(next.queue);
        assert x in s.queue <==> x in multiset(s.queue);
      }
    } else {
      assert next.queue == s.queue[1..];
      assert x in s.queue <==> x == t || x in next.queue;
    }
  }

  /** How often each task runs in one drain: once per queue entry, plus once more
      for each time a queued task wakes itself. */
  lemma {:induction false} DrainedCounts(s: Sched, tid: int)
    requires WellFormed(s)
    ensures var d := Drained(s, tid);
      && |s.runs| <= |d.runs|
      && forall x :: multiset(Tasks(d.runs[|s.runs|..]))[x] == Owed(s, x)
    decreases |s.queue| + Sum(s.selfWakes)
  {
    DrainedFrame(s, tid);
    var d := Drained(s, tid);
    if s.queue == [] {
      assert d.runs[|s.runs|..] == [];
    } else {
      var t := s.queue[0];
      var next := Step(s, tid);
      StepProgress(s, tid);
      DrainedCounts(next, tid);
      DrainedFrame(next, tid);
      assert d.runs[|s.runs|..] == [Run(t, tid)] + d.runs[|next.runs|..] by {
        assert d.runs[|s.runs|] == d.runs[..|next.runs|][|s.runs|];
      }
      assert Tasks(d.runs[|s.runs|..]) == [t] + Tasks(d.runs[|next.runs|..]);
      forall x ensures multiset(Tasks(d.runs[|s.runs|..]))[x] == Owed(s, x) {
        StepOwed(s, tid, x);
      }
    }
  }

  /** After one drain no queued task has a self-wake left; tasks that were not
      queued keep theirs. */
  lemma {:induction false} DrainedExhaustsWakes(s: Sched, tid: int)
    requires WellFormed(s)
    ensures var d := Drained(s, tid);
      && |d.selfWakes| == |s.selfWakes|
      && forall x :: 0 <= x < |s.selfWakes| ==> d.selfWakes[x] == if x in s.queue then 0 else s.selfWakes[x]
    decreases |s.queue| + Sum(s.selfWakes)
  {
    DrainedFrame(s, tid);
    if s.queue != [] {
      var t := s.queue[0];
      assert s.queue == [t] + s.queue[1..];
      var next := Step(s, tid);
      StepProgress(s, tid);
      DrainedExhaustsWakes(next, tid);
      assert forall x :: x in s.queue <==> x == t || x in s.queue[1..];
    }
  }

  // ---------------------------------------------------------------------------
  // Properties of async_handler

  /** The first handler call latches its thread as the main thread; once latched,
      MAIN_TID never changes. */
  lemma HandlerLatches(s: Sched, tid: int)
    requires WellFormed(s)
    ensures s.mainTid == NoThread ==> Handled(s, tid).mainTid == tid
    ensures s.mainTid != NoThread ==> Handled(s, tid).mainTid == s.mainTid
  {
    var s1 := s.(mainTid := Latched(s.mainTid, tid), pending := 0);
    if s1.queue != [] { DrainedFrame(s1, tid); }
  }

  /** With an empty queue the handler runs nothing; it only latches and drains the notifier. */
  lemma HandlerEmptyQueue(s: Sched, tid: int)
    requires WellFormed(s) && s.queue == []
    ensures var d := Handled(s, tid);
      d.runs == s.runs && d.queue == [] && d.pending == 0 && d.selfWakes == s.selfWakes
  {
  }

  /** The whole contract of one handler call: the queue ends empty, the log only
      grows, every new run is on the handler's thread, the old queue runs first and
      in order, the count of runs per task is the queue's plus the requeues, the
      notifier holds exactly one signal per requeue, and every queued task has
      used up its self-wakes. */
  lemma HandlerDrains(s: Sched, tid: int)
    requires WellFormed(s)
    ensures var d := Handled(s, tid);
      && d.queue == []
      && |s.runs| + |s.queue| <= |d.runs|
      && d.runs[..|s.runs|] == s.runs
      && (forall i :: |s.runs| <= i < |d.runs| ==> d.runs[i].tid == tid)
      && (forall i :: 0 <= i < |s.queue| ==> d.runs[|s.runs| + i] == Run(s.queue[i], tid))
      && (forall x :: multiset(Tasks(d.runs[|s.runs|..]))[x]
                        == multiset(s.queue)[x] + (if x in s.queue then s.selfWakes[x] else 0))
      && d.pending + |s.queue| == |d.runs| - |s.runs|
      && |d.selfWakes| == |s.selfWakes|
      && (forall x :: 0 <= x < |s.selfWakes| ==> d.selfWakes[x] == if x in s.queue then 0 else s.selfWakes[x])
  {
    var s1 := s.(mainTid := Latched(s.mainTid, tid), pending := 0);
    if s1.queue != [] {
      DrainedFrame(s1, tid);
      DrainedInOrder(s1, tid);
      DrainedCounts(s1, tid);
      DrainedExhaustsWakes(s1, tid);
    } else {
      assert Handled(s, tid).runs[|s.runs|..] == [];
    }
  }

  // ---------------------------------------------------------------------------
  // Properties of spawn and end-to-end scenarios

  /** `spawn` schedules the new runnable exactly once: off the main thread (or before
      the latch) it is queued with one tickle and not run; on the main thread it runs inline. */
  lemma SpawnSchedulesOnce(s: Sched, tid: int, selfWakes: nat)
    ensures var d := Spawned(s, tid, selfWakes);
      && |d.selfWakes| == |s.selfWakes| + 1
      && d.mainTid == s.mainTid
      && (!IsMainThread(s.mainTid, tid) ==>
            d.queue == s.queue + [|s.selfWakes|] && d.pending == s.pending + 1 && d.runs == s.runs)
      && (IsMainThread(s.mainTid, tid) ==>
            d.runs == s.runs + [Run(|s.selfWakes|, tid)]
            && (selfWakes == 0 ==> d.queue == s.queue && d.pending == s.pending))
  {
  }

  /** A runnable queued from any thread runs in the next handler call, on the
      handler's thread, after exactly the runnables that were queued before it. */
  lemma {:induction false} QueuedRunsAtNextHandler(s: Sched, tid: int, t: TaskId, wokenWhileRunning: bool, reactor: int)
    requires WellFormed(s) && t < |s.selfWakes|
    requires !IsMainThread(s.mainTid, tid) || wokenWhileRunning
    ensures var q := Scheduled(s, tid, t, wokenWhileRunning);
      && WellFormed(q)
      && |s.runs| + |s.queue| < |Handled(q, reactor).runs|
      && Handled(q, reactor).runs[|s.runs| + |s.queue|] == Run(t, reactor)
  {
    var q := Scheduled(s, tid, t, wokenWhileRunning);
    ScheduleQueues(s, tid, t, wokenWhileRunning);
    assert q.queue[|s.queue|] == t;
    HandlerDrains(q, reactor);
  }

  /** The first request of a fresh process, spawned from thread `tid` with a future
      that completes in its first run: the spawn only queues and tickles once (the
      reactor thread is not yet known), and the first handler call on `tid` latches
      it, runs the task exactly once and leaves nothing queued or signalled. */
  lemma {:induction false} FirstRequestScenario(tid: int)
    requires tid != NoThread
    ensures var q := Spawned(Init(), tid, 0);
      && q.queue == [0] && q.pending == 1 && q.runs == []
      && Handled(q, tid) == Sched(tid, [], 0, [Run(0, tid)], [0])
  {
    var q := Spawned(Init(), tid, 0);
    var s1 := q.(mainTid := tid, pending := 0);
    var next := Ran(s1.(queue := []), tid, 0);
    assert Drained(s1, tid) == Drained(next, tid);
  }

  // ---------------------------------------------------------------------------
  // Runnables run only on the event-loop thread

  /** Thread `r` is the event-loop thread: MAIN_TID is unset or `r`, and every run
      so far happened on `r`. */
  predicate OnReactor(s: Sched, r: int) {
    && (s.mainTid == NoThread || s.mainTid == r)
    && forall i :: 0 <= i < |s.runs| ==> s.runs[i].tid == r
  }

  /** A schedule from any real thread keeps every run on the event-loop thread: it
      runs inline only on the latched thread, and never before the latch. */
  lemma ScheduledOnReactor(s: Sched, tid: int, t: TaskId, wokenWhileRunning: bool, r: int)
    requires t < |s.selfWakes| && tid != NoThread && OnReactor(s, r)
    ensures OnReactor(Scheduled(s, tid, t, wokenWhileRunning), r)
  {
  }

  /** So does `spawn`, from whichever thread it is called. */
  lemma SpawnedOnReactor(s: Sched, tid: int, selfWakes: nat, r: int)
    requires tid != NoThread && OnReactor(s, r)
    ensures OnReactor(Spawned(s, tid, selfWakes), r)
  {
    ScheduledOnReactor(Created(s, selfWakes), tid, |s.selfWakes|, false, r);
  }

  /** A handler call on the event-loop thread latches that thread, if it is not yet
      latched, and runs everything it drains there. */
  lemma HandledOnReactor(s: Sched, r: int)
    requires WellFormed(s) && OnReactor(s, r)
    ensures OnReactor(Handled(s, r), r)
  {
    HandlerDrains(s, r);
    HandlerLatches(s, r);
    var d := Handled(s, r);
    forall i | 0 <= i < |s.runs|
      ensures d.runs[i].tid == r
    {
      assert d.runs[i] == d.runs[..|s.runs|][i] == s.runs[i];
    }
  }

  // ---------------------------------------------------------------------------
  // The scheduler as the source runs it: process-wide state updated in place

  /** The process-wide statics of src/spawn.rs (MAIN_TID, the SCHEDULER channel)
      together with the eventfd counter of the notifier, the log of runs, and the
      self-wake budget of every task spawned so far. */
  class Scheduler {
    var mainTid: int
    var queue: seq<TaskId>
    var pending: nat
    var runs: seq<Run>
    var selfWakes: seq<nat>

    /** The abstract state the pure functions above speak about. */
    function State(): Sched
      reads this
    {
      Sched(mainTid, queue, pending, runs, selfWakes)
    }

    ghost predicate Valid()
      reads this
    {
      WellFormed(State())
    }

    /** Process start: MAIN_TID is -1, the channel is empty, nothing has run. */
    constructor ()
      ensures Valid() && State() == Init()
    {
      mainTid, queue, pending, runs, selfWakes := NoThread, [], 0, [], [];
    }

    /** `on_main_thread`, asked from thread `tid`. */
    method OnMainThread(tid: int) returns (main: bool)
      ensures main == IsMainThread(mainTid, tid)
    {
      main := mainTid == tid;
    }

    /** `tickle`: one write of 1 to the eventfd. */
    method Tickle()
      modifies this`pending
      ensures pending == old(pending) + 1
    {
      pending := pending + 1;
    }

    /** `on_tickled`: the read that resets the eventfd counter. */
    method OnTickled()
      modifies this`pending
      ensures pending == 0
    {
      pending := 0;
    }

    /** `tx.send`: the unbounded channel never refuses. */
    method Send(t: TaskId)
      modifies this`queue
      ensures queue == old(queue) + [t]
    {
      queue := queue + [t];
    }

    /** `rx.try_recv`: the oldest runnable, or nothing when the channel is empty. */
    method TryRecv() returns (r: Option<TaskId>)
      modifies this`queue
      ensures old(queue) == [] ==> r == None && queue == []
      ensures old(queue) != [] ==> r == Some(old(queue)[0]) && queue == old(queue)[1..]
    {
      if queue == [] {
        r := None;
      } else {
        r := Some(queue[0]);
        queue := queue[1..];
      }
    }

    /** `Runnable::run` on thread `tid`. A future that wakes itself during the
        poll calls back into `Schedule` with `woken_while_running` set. */
    method RunTask(tid: int, t: TaskId)
      requires Valid() && t < |selfWakes|
      modifies this
      ensures Valid() && State() == Ran(old(State()), tid, t)
      decreases 1
    {
      runs := runs + [Run(t, tid)];
      if selfWakes[t] > 0 {
        selfWakes := selfWakes[t := selfWakes[t] - 1];
        Schedule(tid, t, true);
      }
    }

    /** `Scheduler::schedule`, called on thread `tid`. */
    method Schedule(tid: int, t: TaskId, wokenWhileRunning: bool)
      requires Valid() && t < |selfWakes|
      modifies this
      ensures Valid() && State() == Scheduled(old(State()), tid, t, wokenWhileRunning)
      decreases if wokenWhileRunning then 0 else 2
    {
      var main := OnMainThread(tid);
      if main && !wokenWhileRunning {
        RunTask(tid, t);
      } else {
        Send(t);
        Tickle();
      }
    }

    /** `async_handler`, the notifier's read handler, running on thread `tid`.
        Returns the number of runnables it processed. */
    method AsyncHandler(tid: int) returns (cnt: nat)
      requires Valid()
      modifies this
      ensures Valid() && State() == Handled(old(State()), tid)
      ensures cnt == |runs| - |old(runs)|
    {
      if mainTid == NoThread {
        mainTid := tid;
      }
      OnTickled();
      if queue == [] {
        return 0;
      }
      cnt := RunQueued(tid);
    }

    /** The `while let Ok(r) = rx.try_recv()` loop of `async_handler`. */
    method RunQueued(tid: int) returns (cnt: nat)
      requires Valid()
      modifies this
      ensures Valid() && State() == Drained(old(State()), tid)
      ensures cnt == |runs| - |old(runs)|
    {
      ghost var target := Drained(State(), tid);
      cnt := 0;
      var next := TryRecv();
      while next.Some?
        invariant Valid() && |runs| == |old(runs)| + cnt
        invariant next.None? ==> queue == []
        invariant WellFormed(Unpopped(State(), next)) && Drained(Unpopped(State(), next), tid) == target
        decreases |queue| + Sum(selfWakes) + (if next.Some? then 1 else 0)
      {
        var t := next.value;
        UnpoppedStep(State(), t, tid);
        RunTask(tid, t);
        cnt := cnt + 1;
        next := TryRecv();
      }
    }

    /** `spawn` called on thread `tid` with a future that wakes itself `budget`
        times before it completes; returns the new task. */
    method Spawn(tid: int, budget: nat) returns (t: TaskId)
      requires Valid()
      modifies this
      ensures Valid() && t == |old(selfWakes)|
      ensures State() == Spawned(old(State()), tid, budget)
    {
      t := |selfWakes|;
      selfWakes := selfWakes + [budget];
      Schedule(tid, t, false);
    }
  }

  /** The scheduler state with a runnable just taken by `try_recv` put back at the front. */
  function Unpopped(s: Sched, next: Option<TaskId>): Sched {
    if next.Some? then s.(queue := [next.value] + s.queue) else s
  }

  /** Running the runnable `try_recv` just returned is one turn of the drain loop. */
  lemma UnpoppedStep(s: Sched, t: TaskId, tid: int)
    requires WellFormed(Unpopped(s, Some(t)))
    ensures WellFormed(s) && t < |s.selfWakes|
    ensures WellFormed(Ran(s, tid, t))
    ensures Drained(Unpopped(s, Some(t)), tid) == Drained(Ran(s, tid, t), tid)
    ensures |Ran(s, tid, t).queue| + Sum(Ran(s, tid, t).selfWakes) < |s.queue| + Sum(s.selfWakes) + 1
  {
    var before := Unpopped(s, Some(t));
    assert before.queue[0] == t;
    assert before.(queue := before.queue[1..]) == s;
    StepProgress(before, tid);
  }
}
