/** What the server still does after Shutdown: its Stop has cleared the registry, closed its sessions and
    notified their clients, and then the work queue was stopped. Other threads may still be at work. */
module ServerShutdown {
  import opened Relay
  import opened ServerMachine
  import opened ServerSystem
  import Registry
  import WorkQueue

  /** No other thread owes a closed callback, nor the connection-change callback after one. */
  predicate NothingOwed(y: System) {
    y.registry.env.pending == multiset{} && y.changes.due == multiset{}
  }

  /** A callback of any kind between two states: entered by the worker, or a closed or connection-change
      callback made by a Stop or RemoveClient in its own thread. */
  ghost predicate CallsBack(y: System, y': System) {
    || WorkQueue.Started(y'.out.queue) != WorkQueue.Started(y.out.queue)
    || y'.told != y.told
    || y'.changes.made != y.changes.made
  }

  /** Shutdown has stopped the queue and returned. */
  ghost predicate Returned(y: System) {
    && Registry.Lifecycle(y.registry) && LastStopDone(y.registry, y.closes, y.changes)
    && WorkQueue.Inv(y.out.queue) && y.out.queue.stopped && y.out.queue.stopper.Returned?
  }

  /** A step after that: nothing comes from the worker, and nothing at all if nothing was owed. */
  ghost predicate Quiet(y: System, y': System) {
    && Returned(y')
    && WorkQueue.Started(y'.out.queue) == WorkQueue.Started(y.out.queue)
    && (NothingOwed(y) ==> NothingOwed(y') && !CallsBack(y, y'))
  }

  /** On a cleared registry a lock section takes nobody out, and owes nothing new. */
  lemma SectionOwesNothing(r: Registry.State, e: Registry.Event)
    requires Registry.Lifecycle(r) && r.env.teardown.Cleared? && Registry.Enabled(r, e)
    ensures r.env.owing == multiset{} ==> Registry.Step(r, e).env.owing == multiset{} && !e.NotifyByShutdown?
    ensures r.env.pending == multiset{} ==> Registry.Step(r, e).env.pending == multiset{} && !e.Notify?
    ensures Takes(r.clients, e) == {} && !e.ShutdownClear?
  {
    assert r.clients == map[] && multiset(r.clients.Keys) == multiset{};
  }

  lemma SectionIsQuiet(r: Registry.State, c: Closing, g: Changing, e: Registry.Event)
    requires Registry.Lifecycle(r) && LastStopDone(r, c, g) && Registry.Enabled(r, e)
    ensures var r' := Registry.Step(r, e);
            && Registry.Lifecycle(r') && LastStopDone(r', AfterSection(c, r.clients, e), AfterNotice(g, e))
            && (r.env.pending == multiset{} ==>
                  r'.env.pending == multiset{} && Tells(e) == multiset{} && AfterNotice(g, e) == g)
  {
    Registry.StepKeepsLifecycle(r, e);
    SectionOwesNothing(r, e);
    assert g.due + multiset{} == g.due;
  }

  lemma StepIsQuiet(y: System, t: Step)
    requires Returned(y) && Enabled(y, t)
    ensures Quiet(y, Next(y, t))
  {
    match t
    case OnRegistry(r) =>
      SectionIsQuiet(y.registry, y.closes, y.changes, r);
      assert y.told + multiset{} == y.told;
    case Accept(sid, path, isSsl, _) =>
      SectionIsQuiet(y.registry, y.closes, y.changes, Registry.Register(sid, path, isSsl));
    case OnQueue(q) => WorkQueue.StepKeepsInv(y.out.queue, q);
    case PostCall(_) =>
    case _ =>
  }

  lemma {:induction false} RunIsQuiet(y: System, run: seq<Step>)
    requires Returned(y) && Legal(y, run)
    ensures Quiet(y, Run(y, run))
    decreases |run|
  {
    if run != [] {
      StepIsQuiet(y, run[0]);
      RunIsQuiet(Next(y, run[0]), run[1..]);
    }
  }

  lemma OwedIsMade(y: System) returns (t: Step)
    requires !NothingOwed(y)
    ensures Enabled(y, t) && CallsBack(y, Next(y, t))
  {
    if y.registry.env.pending != multiset{} {
      var id :| id in y.registry.env.pending;
      t := OnRegistry(Registry.Notify(id));
      assert |y.told + multiset{id}| > |y.told|;
    } else {
      var id :| id in y.changes.due;
      t := CallChange(id, false);
    }
  }

  /** In every run, once Shutdown has stopped the queue and returned: it has made both callbacks about all
      the clients it took out; the worker runs nothing, in any continuation; and a callback of any kind
      can still come exactly when a Stop or RemoveClient in another thread took a client out before and
      has not got to its closed callback, or to the connection-change callback after it. */
  lemma CallbackAfterShutdownExactlyWhenOwed(before: seq<Step>)
    requires Legal(Init(), before) && Run(Init(), before).out.queue.stopper.Returned?
    ensures var y := Run(Init(), before); y.registry.env.owing == multiset{} && y.changes.dueLast == multiset{}
    ensures var y := Run(Init(), before);
            (exists run :: Legal(y, run) && CallsBack(y, Run(y, run)))
            <==> y.registry.env.pending != multiset{} || y.changes.due != multiset{}
    ensures var y := Run(Init(), before);
            forall run :: Legal(y, run) ==> WorkQueue.InFlight(Run(y, run).out.queue) == []
  {
    Reached(before);
    CallsBackExactly(Run(Init(), before));
  }

  lemma CallsBackExactly(y: System)
    requires Returned(y)
    ensures (exists run :: Legal(y, run) && CallsBack(y, Run(y, run))) <==> !NothingOwed(y)
    ensures forall run :: Legal(y, run) ==> WorkQueue.InFlight(Run(y, run).out.queue) == []
  {
    forall run | Legal(y, run) ensures Quiet(y, Run(y, run)) {
      RunIsQuiet(y, run);
    }
    if !NothingOwed(y) {
      var t := OwedIsMade(y);
      RunOne(y, t);
    }
  }
}
