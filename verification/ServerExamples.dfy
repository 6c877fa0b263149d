/** Runs of the whole server in which its promises fail: the inputs behind the exact conditions. */
module ServerExamples {
  import SessionSpec
  import opened Relay
  import opened ServerStrands
  import opened ServerMachine
  import opened ServerCloses
  import ServerSystem
  import Registry
  import WorkQueue

  function Fresh(): SessionSpec.State {
    SessionSpec.Init(SessionSpec.Server(0))
  }

  /** Listening, nobody owed anything, the worker waiting. */
  ghost predicate Listens(y: System) {
    && !Registry.Rejects(y.registry) && y.registry.env.owing == multiset{}
    && y.closes.takenLast == {} && y.closes.called == {} && 0 !in y.closes.taken
    && y.changes.dueLast == multiset{} && y.told == multiset{}
    && y.out == Outbox(WorkQueue.Step(WorkQueue.Init(), WorkQueue.Start), [])
  }

  predicate FreshAt(y: System, sid: nat) {
    sid in y.sessions && y.sessions[sid] == Fresh() && sid in y.strands && y.strands[sid] == Strand(Idle, [])
  }

  /** With two fresh connections. */
  lemma Listening() returns (run: seq<Step>)
    ensures Legal(Init(), run)
    ensures var y := Run(Init(), run);
            && Listens(y) && FreshAt(y, 0) && FreshAt(y, 1)
            && y.registry.nextId == 1 && y.registry.clients == map[]
  {
    run := Extend([], OnQueue(WorkQueue.Start));
    run := Extend(run, OnRegistry(Registry.StartCheck));
    run := Extend(run, OnRegistry(Registry.StartInstall(8080)));
    run := Extend(run, NewSession(0, 0));
    run := Extend(run, NewSession(1, 0));
  }

  /** The server takes n ids for http requests. */
  function TakeIds(n: nat): seq<Step> {
    if n == 0 then [] else [OnRegistry(Registry.TakeId)] + TakeIds(n - 1)
  }

  lemma {:induction false} TakesIds(y: System, n: nat)
    requires y.registry.nextId < Registry.WRAP
    ensures Legal(y, TakeIds(n)) && Run(y, TakeIds(n)) == y.(registry := Registry.Bumped(y.registry, n))
    decreases n
  {
    if n > 0 {
      assert y.told + multiset{} == y.told && y.closes.taken + {} == y.closes.taken;
      assert y.changes.due + multiset{} == y.changes.due;
      var r' := Registry.Step(y.registry, Registry.TakeId);
      assert Next(y, OnRegistry(Registry.TakeId)) == y.(registry := r');
      TakesIds(y.(registry := r'), n - 1);
      assert TakeIds(n)[1..] == TakeIds(n - 1);
      Registry.WrapOnceMore(y.registry.nextId, n);
      assert Registry.Bumped(r', n - 1) == Registry.Bumped(y.registry, n);
    }
  }

  /** The counter goes once round, but for one id. */
  lemma AlmostWraps(run: seq<Step>) returns (run': seq<Step>)
    requires Legal(Init(), run) && Run(Init(), run).registry.nextId < Registry.WRAP
    ensures Legal(Init(), run')
    ensures var y := Run(Init(), run);
            Run(Init(), run') == y.(registry := Registry.Bumped(y.registry, Registry.WRAP - 1))
  {
    TakesIds(Run(Init(), run), Registry.WRAP - 1);
    RunConcat(Init(), run, TakeIds(Registry.WRAP - 1));
    run' := run + TakeIds(Registry.WRAP - 1);
  }

  /** A fresh connection is accepted and entered under the counter's id. */
  lemma Accepts(run: seq<Step>, sid: nat) returns (run': seq<Step>)
    requires Legal(Init(), run) && Listens(Run(Init(), run)) && FreshAt(Run(Init(), run), sid)
    ensures Legal(Init(), run')
    ensures var y, y' := Run(Init(), run), Run(Init(), run');
            var id := y.registry.nextId;
            && Listens(y') && y'.registry.nextId == Registry.NextId(id)
            && y'.registry.clients.Keys == y.registry.clients.Keys + {id} && y'.registry.clients[id].session == sid
            && y'.sessions == y.sessions[sid := SessionSpec.OnOpen(Fresh(), id, true)]
            && y'.strands == y.strands[sid := Strand(Posting(SessionSpec.Up(id), true), [])]
  {
    run' := Extend(run, Accept(sid, "/", false, true));
  }

  // ----- What outlives Shutdown -----

  lemma OneClient() returns (run: seq<Step>)
    ensures Legal(Init(), run)
    ensures var y := Run(Init(), run);
            && Listens(y) && FreshAt(y, 1) && OpenClient(y.sessions, 0)
            && y.registry.nextId == 2 && y.registry.clients.Keys == {1}
  {
    run := Listening();
    run := Accepts(run, 0);
  }

  /** Two clients under one id: the second overwrites the first. */
  lemma TwoUnderOneId() returns (run: seq<Step>)
    ensures Legal(Init(), run)
    ensures var y := Run(Init(), run);
            && Listens(y) && OpenClient(y.sessions, 0)
            && y.registry.clients.Keys == {1} && y.registry.clients[1].session == 1
  {
    run := OneClient();
    run := AlmostWraps(run);
    run := Accepts(run, 1);
  }

  /** RemoveClient takes the one client out. */
  lemma Removed(run: seq<Step>) returns (run': seq<Step>)
    requires Legal(Init(), run) && Listens(Run(Init(), run)) && Run(Init(), run).registry.clients.Keys == {1}
    requires Run(Init(), run).registry.clients[1].session == 1
    ensures Legal(Init(), run')
    ensures var y, y' := Run(Init(), run), Run(Init(), run');
            && Listens(y') && y'.sessions == y.sessions
            && y'.registry.clients == map[] && 1 in y'.registry.env.pending
  {
    run' := Extend(run, OnRegistry(Registry.Remove(1)));
    assert Run(Init(), run').registry.clients == map[];
  }

  /** Shutdown clears an empty registry. */
  lemma ShutDown(run: seq<Step>) returns (run': seq<Step>)
    requires Legal(Init(), run) && Listens(Run(Init(), run)) && Run(Init(), run).registry.clients == map[]
    ensures Legal(Init(), run')
    ensures var y, y' := Run(Init(), run), Run(Init(), run');
            && LastStopDone(y'.registry, y'.closes, y'.changes) && y'.sessions == y.sessions && y'.out == y.out
            && y'.told == multiset{} && y'.registry.env.pending == y.registry.env.pending
            && 0 !in y'.closes.taken && y'.closes.called == {}
  {
    run' := Extend(run, OnRegistry(Registry.ShutdownFlag));
    run' := Extend(run', OnRegistry(Registry.ShutdownClear));
    assert Run(Init(), run').told == multiset{};
  }

  lemma QueueStops(run: seq<Step>) returns (run': seq<Step>)
    requires Legal(Init(), run) && Run(Init(), run).out.queue == WorkQueue.Step(WorkQueue.Init(), WorkQueue.Start)
    requires var y := Run(Init(), run); LastStopDone(y.registry, y.closes, y.changes)
    ensures Legal(Init(), run')
    ensures var y, y' := Run(Init(), run), Run(Init(), run');
            && y'.registry == y.registry && y'.told == y.told && y'.closes == y.closes && y'.sessions == y.sessions
            && y'.out.queue.stopped && y'.out.queue.stopper.Returned?
  {
    run' := Extend(run, OnQueue(WorkQueue.Stop(false)));
    run' := Extend(run', OnQueue(WorkQueue.Wake));
    run' := Extend(run', OnQueue(WorkQueue.Join));
  }

  /** A client, 2^32 - 1 http requests and a client under the same id; RemoveClient takes that id out; and
      Shutdown runs to its end. Then RemoveClient still makes its closed callback; and the first session is
      still open, displaced, while nobody called Close on it, or ever will. */
  lemma OutliveShutdown() returns (run: seq<Step>)
    ensures Legal(Init(), run) && Run(Init(), run).out.queue.stopper.Returned?
    ensures var y := Run(Init(), run);
            && Enabled(y, OnRegistry(Registry.Notify(1)))
            && y.told == multiset{} && Next(y, OnRegistry(Registry.Notify(1))).told == multiset{1}
    ensures var y := Run(Init(), run);
            OpenClient(y.sessions, 0) && 0 in y.displaced && !TakenOut(y.closes, 0)
  {
    run := TwoUnderOneId();
    run := Removed(run);
    run := ShutDown(run);
    run := QueueStops(run);
    ServerSystem.OpenSessionsAreAttended(run, 0);
  }

  // ----- A client under the id 0 -----

  lemma ZeroEntered() returns (run: seq<Step>)
    ensures Legal(Init(), run)
    ensures var y := Run(Init(), run);
            && Listens(y) && y.registry.clients.Keys == {0}
            && 0 in y.sessions && y.sessions[0] == SessionSpec.OnOpen(Fresh(), 0, true)
            && 0 in y.strands && y.strands[0] == Strand(Posting(SessionSpec.Up(0), true), [])
  {
    run := Listening();
    run := AlmostWraps(run);
    run := Accepts(run, 0);
  }

  lemma AddedDelivered(run: seq<Step>) returns (run': seq<Step>)
    requires Legal(Init(), run) && Listens(Run(Init(), run)) && Run(Init(), run).registry.clients.Keys == {0}
    requires var y := Run(Init(), run);
             && 0 in y.sessions && y.sessions[0].m.clientId == 0
             && 0 in y.strands && y.strands[0] == Strand(Posting(SessionSpec.Up(0), true), [])
    ensures Legal(Init(), run')
    ensures var y, y' := Run(Init(), run), Run(Init(), run');
            && WorkQueue.Started(y'.out.queue) == [About(0, 0, SessionSpec.Up(0))]
            && y'.registry == y.registry && y'.told == y.told && y'.sessions == y.sessions
  {
    run' := Extend(run, PostCall(0));
    run' := Extend(run', OnQueue(WorkQueue.Wake));
  }

  lemma StopTells(run: seq<Step>) returns (run': seq<Step>)
    requires Legal(Init(), run) && 0 in Run(Init(), run).registry.clients
    ensures Legal(Init(), run')
    ensures var y, y' := Run(Init(), run), Run(Init(), run');
            && y'.told == y.told + multiset{0} && y'.out == y.out && y'.sessions == y.sessions
  {
    run' := Extend(run, OnRegistry(Registry.StopClear));
    assert Run(Init(), run').told == Run(Init(), run).told;
    run' := Extend(run', OnRegistry(Registry.Notify(0)));
  }

  /** 2^32 - 1 http requests and a client: it is entered under 0 and delivered as added, while its session
      only closes; what is told of its closing is told by a Stop. */
  lemma ZeroIsAddedThenStopped() returns (run: seq<Step>)
    ensures Legal(Init(), run)
    ensures var y := Run(Init(), run);
            && Select(WorkQueue.Started(y.out.queue), From(0)) == [SessionSpec.Up(0)]
            && 0 in y.sessions && y.sessions[0].log.wire == [SessionSpec.CloseFrame]
            && y.sessions[0].io.pendingReads == 0
            && y.told == multiset{0}
  {
    run := ZeroEntered();
    run := AddedDelivered(run);
    run := StopTells(run);
    OneSelected(About(0, 0, SessionSpec.Up(0)));
  }

  lemma OneSelected(job: Job)
    requires job.About?
    ensures Select([job], From(job.source)) == [job.notice]
  {
    assert [job][..0] == [];
  }
}
