/** The callback work queue: posters, one worker thread and stoppers, interleaved at
    lock-section granularity. */
module WorkQueue {
  import opened Options

  /** Where the worker thread is: before its thread exists, at the condition variable,
      inside a posted function, or past its return. */
  datatype Worker<T> = NotStarted | Waiting | Running(job: T) | Exited

  /** The Stop call that set mStopped: not made, at the join, returned, or made on the worker
      thread itself (which detaches instead of joining). */
  datatype Stopper = NotCalled | Joining | Returned | Detached

  datatype State<T> = State(
    queue: seq<T>,        // mQueue
    stopped: bool,        // mStopped
    worker: Worker<T>,
    stopper: Stopper,
    accepted: seq<T>,     // every job Post took, in order
    completed: seq<T>,    // every job whose function has returned, in order
    discarded: seq<T>)    // every job Stop cleared, in order

  datatype Event<T> =
    | Start
    | Post(job: T)
    | Stop(onWorker: bool)
    | Wake      // the worker leaves the wait and runs its lock section
    | Finish    // the posted function returns (or throws into Invoke)
    | Join      // the thread join inside Stop returns

  function Init<T>(): State<T> {
    State([], false, NotStarted, NotCalled, [], [], [])
  }

  predicate Enabled<T>(s: State<T>, e: Event<T>) {
    match e
    case Start => s.worker.NotStarted?
    case Post(_) => true
    case Stop(onWorker) => onWorker ==> s.worker.Running?
    case Wake => s.worker.Waiting? && (s.stopped || s.queue != [])
    case Finish => s.worker.Running?
    case Join => s.stopper.Joining? && s.worker.Exited?
  }

  function Step<T>(s: State<T>, e: Event<T>): State<T>
    requires Enabled(s, e)
  {
    match e
    case Start => s.(worker := Waiting)
    case Post(job) =>
      if s.stopped then s else s.(queue := s.queue + [job], accepted := s.accepted + [job])
    case Stop(onWorker) =>
      if s.stopped then s
      else s.(stopped := true, queue := [], discarded := s.queue,
              stopper := if s.worker.NotStarted? then Returned else if onWorker then Detached else Joining)
    case Wake =>
      if s.stopped then s.(worker := Exited)
      else s.(worker := Running(s.queue[0]), queue := s.queue[1..])
    case Finish => s.(worker := Waiting, completed := s.completed + [s.worker.job])
    case Join => s.(stopper := Returned)
  }

  ghost predicate Legal<T>(s: State<T>, run: seq<Event<T>>)
    decreases |run|
  {
    run == [] || (Enabled(s, run[0]) && Legal(Step(s, run[0]), run[1..]))
  }

  ghost function Run<T>(s: State<T>, run: seq<Event<T>>): State<T>
    requires Legal(s, run)
    decreases |run|
  {
    if run == [] then s else Run(Step(s, run[0]), run[1..])
  }

  // ----- Invariant -----

  function InFlight<T>(s: State<T>): seq<T> {
    if s.worker.Running? then [s.worker.job] else []
  }

  /** Every job whose function has been entered, in order. */
  function Started<T>(s: State<T>): seq<T> {
    s.completed + InFlight(s)
  }

  ghost predicate Inv<T>(s: State<T>) {
    && s.accepted == s.completed + InFlight(s) + s.queue + s.discarded
    && (s.stopped ==> s.queue == [])
    && (!s.stopped ==> s.discarded == [] && s.stopper.NotCalled? && !s.worker.Exited?)
    && (s.stopped ==> !s.stopper.NotCalled?)
    && (s.stopper.Returned? ==> !s.worker.Running?)
  }

  lemma StepKeepsInv<T>(s: State<T>, e: Event<T>)
    requires Inv(s) && Enabled(s, e)
    ensures Inv(Step(s, e))
  {
    var s' := Step(s, e);
    match e
    case Wake =>
      if !s.stopped {
        assert s.queue == [s.queue[0]] + s'.queue;
      }
    case _ =>
  }

  /** Conservation over every run: the accepted jobs are, in order, those that completed, the
      one running, those waiting and those discarded. So no job is lost, run twice or overtaken. */
  lemma Conservation<T>(run: seq<Event<T>>)
    requires Legal(Init(), run)
    ensures var s := Run(Init(), run);
            && Inv(s)
            && s.accepted == s.completed + InFlight(s) + s.queue + s.discarded
            && Started(s) <= s.accepted
            && (s.discarded != [] ==> s.stopped && s.queue == [])
  {
    RunKeepsInv(Init(), run);
  }

  lemma {:induction false} RunKeepsInv<T>(s: State<T>, run: seq<Event<T>>)
    requires Inv(s) && Legal(s, run)
    ensures Inv(Run(s, run))
    decreases |run|
  {
    if run != [] {
      StepKeepsInv(s, run[0]);
      RunKeepsInv(Step(s, run[0]), run[1..]);
    }
  }

  // ----- Stop -----

  /** Once mStopped is set no further function is ever entered and nothing more is accepted. */
  lemma {:induction false} StoppedStartsNothing<T>(s: State<T>, run: seq<Event<T>>)
    requires Inv(s) && s.stopped && Legal(s, run)
    ensures var s' := Run(s, run);
            && s'.stopped
            && Started(s') == Started(s)
            && s'.accepted == s.accepted
            && s'.discarded == s.discarded
    decreases |run|
  {
    if run != [] {
      StepKeepsInv(s, run[0]);
      StoppedStartsNothing(Step(s, run[0]), run[1..]);
    }
  }

  /** The barrier: after the stopping call has returned on another thread nothing runs, in
      any continuation. */
  lemma Barrier<T>(before: seq<Event<T>>, after: seq<Event<T>>)
    requires Legal(Init(), before) && Run(Init(), before).stopper.Returned?
    requires Legal(Run(Init(), before), after)
    ensures var s, s' := Run(Init(), before), Run(Run(Init(), before), after);
            && InFlight(s) == [] && InFlight(s') == []
            && s'.completed == s.completed
            && s'.accepted == s'.completed + s'.discarded
  {
    var s := Run(Init(), before);
    RunKeepsInv(Init(), before);
    RunKeepsInv(s, after);
    StoppedStartsNothing(s, after);
    ReturnedStays(s, after);
    var s' := Run(s, after);
    assert s.completed + [] == s.completed && s'.completed + [] == s'.completed;
  }

  lemma {:induction false} ReturnedStays<T>(s: State<T>, run: seq<Event<T>>)
    requires Inv(s) && s.stopped && s.stopper.Returned? && Legal(s, run)
    ensures Run(s, run).stopper.Returned?
    decreases |run|
  {
    if run != [] {
      StepKeepsInv(s, run[0]);
      ReturnedStays(Step(s, run[0]), run[1..]);
    }
  }

  /** Worker steps left before the thread exits, once stopped. */
  function StepsToExit<T>(s: State<T>): nat {
    match s.worker
    case NotStarted => 2
    case Running(_) => 2
    case Waiting => 1
    case Exited => 0
  }

  /** Stop makes progress: a stopped queue with a live worker always has a worker step to
      take, and every such step brings the exit, and so the join, one step closer. */
  lemma StopMakesProgress<T>(s: State<T>)
    requires Inv(s) && s.stopped && !s.worker.NotStarted?
    ensures s.worker.Exited? <==> StepsToExit(s) == 0
    ensures s.worker.Exited? && s.stopper.Joining? ==> Enabled(s, Join)
    ensures !s.worker.Exited? ==>
              exists e: Event<T> ::
                (e.Wake? || e.Finish?) && Enabled(s, e) && StepsToExit(Step(s, e)) == StepsToExit(s) - 1
  {
    if s.worker.Waiting? {
      assert StepsToExit(Step(s, Wake)) == 0 && Event<T>.Wake.Wake?;
    } else if s.worker.Running? {
      assert StepsToExit(Step(s, Finish)) == 1 && Event<T>.Finish.Finish?;
    }
  }

  /** A Stop on the worker thread never joins it, which would wait for itself: over every continuation, the
      call that sets the flag is detached exactly when it was made on the worker; made elsewhere, it joins
      a worker there is, and returns at once when there is none. */
  lemma StopNeverJoinsItself<T>(s: State<T>, onWorker: bool, run: seq<Event<T>>)
    requires Inv(s) && !s.stopped && Enabled(s, Stop(onWorker)) && Legal(Step(s, Stop(onWorker)), run)
    ensures var s' := Run(Step(s, Stop(onWorker)), run);
            && (s'.stopper.Detached? <==> onWorker)
            && (s'.stopper.Joining? ==> !onWorker && !s.worker.NotStarted?)
            && (s.worker.NotStarted? ==> s'.stopper.Returned?)
            && (run == [] && !s.worker.NotStarted? && !onWorker ==> s'.stopper.Joining?)
  {
    StopperStays(Step(s, Stop(onWorker)), run);
  }

  lemma {:induction false} StopperStays<T>(s: State<T>, run: seq<Event<T>>)
    requires s.stopped && Legal(s, run)
    ensures var s' := Run(s, run);
            && (s'.stopper == s.stopper || (s.stopper.Joining? && s'.stopper.Returned?))
    decreases |run|
  {
    if run != [] {
      StopperStays(Step(s, run[0]), run[1..]);
    }
  }

  // ----- The queue object -----

  class Queue<T> {
    var mQueue: seq<T>
    var mStopped: bool
    var mJoinable: bool          // mThread.joinable()
    ghost var worker: Worker<T>
    ghost var stopper: Stopper
    ghost var accepted: seq<T>
    ghost var completed: seq<T>
    ghost var discarded: seq<T>

    ghost function View(): State<T>
      reads this
    {
      State(mQueue, mStopped, worker, stopper, accepted, completed, discarded)
    }

    ghost predicate Valid()
      reads this
    {
      && Inv(View())
      && (mJoinable <==> !worker.NotStarted? && (stopper.NotCalled? || stopper.Joining?))
    }

    constructor ()
      ensures Valid() && View() == Init()
    {
      mQueue, mStopped, mJoinable := [], false, false;
      worker, stopper := NotStarted, NotCalled;
      accepted, completed, discarded := [], [], [];
    }

    /** Spawns the worker. The implementations call it once, right after construction: a thread
        spawned after Stop would never be joined. */
    method StartThread()
      requires Valid() && Enabled(View(), Start) && !mStopped
      modifies this
      ensures Valid() && View() == Step(old(View()), Start)
    {
      StepKeepsInv(View(), Start);
      worker := Waiting;
      mJoinable := true;
    }

    method PostJob(job: T)
      requires Valid()
      modifies this
      ensures Valid() && View() == Step(old(View()), Post(job))
      ensures mQueue == if mStopped then old(mQueue) else old(mQueue) + [job]
    {
      StepKeepsInv(View(), Post(job));
      if mStopped {
        return;
      }
      mQueue := mQueue + [job];
      accepted := accepted + [job];
    }

    /** Stop up to the join. */
    method StopLockSection(onWorker: bool) returns (mustJoin: bool)
      requires Valid() && Enabled(View(), Stop(onWorker))
      modifies this
      ensures Valid() && View() == Step(old(View()), Stop(onWorker))
      ensures mustJoin <==> !old(mStopped) && old(mJoinable) && !onWorker
      ensures mStopped && mQueue == []
    {
      StepKeepsInv(View(), Stop(onWorker));
      mustJoin := false;
      if mStopped {
        return;
      }
      mStopped := true;
      discarded := mQueue;
      mQueue := [];
      stopper := Returned;
      if mJoinable {
        if onWorker {
          mJoinable, stopper := false, Detached;
        } else {
          mustJoin, stopper := true, Joining;
        }
      }
    }

    /** The join returns. */
    method JoinReturns()
      requires Valid() && Enabled(View(), Join)
      modifies this
      ensures Valid() && View() == Step(old(View()), Join)
    {
      StepKeepsInv(View(), Join);
      mJoinable, stopper := false, Returned;
    }

    /** One lock section of the worker loop: the job to run, or nothing when it must return. */
    method WakeUp() returns (job: Option<T>)
      requires Valid() && Enabled(View(), Wake)
      modifies this
      ensures Valid() && View() == Step(old(View()), Wake)
      ensures if old(mStopped) then job == None && worker.Exited?
              else job == Some(old(mQueue)[0]) && mQueue == old(mQueue)[1..] && worker == Running(job.value)
    {
      StepKeepsInv(View(), Wake);
      if mStopped {
        worker := Exited;
        return None;
      }
      job := Some(mQueue[0]);
      worker := Running(mQueue[0]);
      mQueue := mQueue[1..];
    }

    /** The function returned; the worker goes back to the wait. */
    method JobReturns()
      requires Valid() && Enabled(View(), Finish)
      modifies this
      ensures Valid() && View() == Step(old(View()), Finish)
    {
      StepKeepsInv(View(), Finish);
      completed := completed + [worker.job];
      worker := Waiting;
    }
  }
}
