/** What the callback thread and the other threads tell the application about the server's clients, over
    every interleaving of the whole server. */
module ServerSystem {
  import SessionSpec
  import SessionRuns
  import opened Relay
  import opened ServerStrands
  import opened ServerMachine
  import opened ServerCloses
  import Registry
  import WorkQueue

  // ----- The invariant -----

  /** What the registry and the callers know of each id. */
  function BooksOf(log: Registry.Log, told: multiset<nat>): Books {
    Books(multiset(log.registered), multiset(log.notified), told)
  }

  ghost predicate Inv(y: System) {
    && StrandsOk(y.sessions, y.strands, y.out.offered, BooksOf(y.registry.log, y.told))
    && PlacesOk(y.sessions, y.registry.clients, y.closes, y.displaced)
    && Registry.Sound(y.registry)
    && OutboxOk(y.out)
    && (y.out.queue.stopped ==> LastStopDone(y.registry, y.closes, y.changes))
  }

  lemma RegistryLogs(r: Registry.State, e: Registry.Event)
    requires Registry.Enabled(r, e)
    ensures multiset(Registry.Step(r, e).log.registered)
            == multiset(r.log.registered)
               + (if e.Register? && !Registry.Rejects(r) then multiset{r.nextId} else multiset{})
    ensures multiset(Registry.Step(r, e).log.notified) == multiset(r.log.notified) + Tells(e)
  {
  }

  /** What an accept does to the registry. */
  lemma AcceptMoves(r: Registry.State, s: SessionSpec.State, sid: nat, path: string, isSsl: bool, told: multiset<nat>)
    requires Registry.Sound(r)
    ensures var r' := AcceptedBy(r, s, sid, path, isSsl);
            && Registry.Sound(r')
            && BooksOf(r'.log, told)
               == (if s.io.sink && !Registry.Rejects(r) then Entering(BooksOf(r.log, told), r.nextId)
                   else BooksOf(r.log, told))
            && (r.env.teardown.Cleared? ==> r'.env == r.env)
  {
    if s.io.sink {
      Registry.StepKeepsSound(r, Registry.Register(sid, path, isSsl));
      RegistryLogs(r, Registry.Register(sid, path, isSsl));
    }
  }

  /** What the lock section of a call does to the registry. */
  lemma LookupMoves(r: Registry.State, n: SessionSpec.Notice, told: multiset<nat>)
    requires Registry.Sound(r)
    ensures var r' := LockSection(r, n);
            && Registry.Sound(r')
            && BooksOf(r'.log, told)
               == Noticing(BooksOf(r.log, told), if TakesOut(r, n) then multiset{n.id} else multiset{})
            && (r.env.teardown.Cleared? ==> r'.env == r.env)
  {
    if TakesOut(r, n) {
      Registry.StepKeepsSound(r, Registry.WsClosed(n.id));
      Registry.StepKeepsSound(Registry.TakeOut(r, n.id), Registry.Notify(n.id));
      RegistryLogs(Registry.TakeOut(r, n.id), Registry.Notify(n.id));
    } else {
      assert multiset(r.log.notified) + multiset{} == multiset(r.log.notified);
    }
  }

  /** What any other thread's lock section does to the registry. */
  lemma SectionMoves(r: Registry.State, e: Registry.Event, told: multiset<nat>, c: Closing, g: Changing)
    requires Registry.Sound(r) && Registry.Enabled(r, e) && !e.Register?
    ensures var r' := Registry.Step(r, e);
            && Registry.Sound(r')
            && BooksOf(r'.log, told + Tells(e)) == Telling(BooksOf(r.log, told), Tells(e))
            && (LastStopDone(r, c, g) ==> LastStopDone(r', AfterSection(c, r.clients, e), AfterNotice(g, e)))
  {
    Registry.StepKeepsSound(r, e);
    RegistryLogs(r, e);
    assert multiset(r.log.registered) + multiset{} == multiset(r.log.registered);
  }

  lemma PostKeepsOut(o: Outbox, strand: Strand, sid: nat, id: nat)
    requires OutboxOk(o) && strand.pc.Posting?
    ensures OutboxOk(PostFor(o, strand, sid, id)) && PostFor(o, strand, sid, id).queue.stopped == o.queue.stopped
  {
    PostKeepsOutbox(o, About(sid, id, strand.pc.notice));
  }

  lemma StrandStepKeepsInv(y: System, t: Step)
    requires Inv(y) && Enabled(y, t) && (t.NewSession? || t.Handle? || t.PostCall?)
    ensures Inv(Next(y, t))
  {
    var b := BooksOf(y.registry.log, y.told);
    match t
    case NewSession(sid, maxBacklog) =>
      NewStrand(y.sessions, y.strands, sid, maxBacklog, y.out.offered, b);
      SessionMoved(y.sessions, sid, SessionSpec.Init(SessionSpec.Server(maxBacklog)), y.registry.clients, y.closes,
                   y.displaced);
    case Handle(sid, e) =>
      HandleStrand(y.sessions, y.strands, sid, e, y.out.offered, b);
      HandlerKeepsPlace(y.sessions, y.strands, sid, e);
      SessionMoved(y.sessions, sid, SessionSpec.Step(y.sessions[sid], e), y.registry.clients, y.closes, y.displaced);
    case PostCall(sid) =>
      PostStrand(y.sessions, y.strands, sid, y.out, b);
      PostKeepsOut(y.out, y.strands[sid], sid, y.sessions[sid].m.clientId);
  }

  lemma HandlerKeepsPlace(sessions: SessionMap, strands: StrandMap, sid: nat, e: SessionSpec.Event)
    requires sid in sessions && StrandAt(sessions, strands, sid)
    requires SessionSpec.Outstanding(sessions[sid], e) && !e.OpenOk?
    ensures KeepsPlace(sessions, sid, SessionSpec.Step(sessions[sid], e))
  {
    IdentityIsFixed(sessions[sid], e);
    if CameUp(sessions, sid) {
      SessionRuns.ClosedStaysClosed(sessions[sid], e);
    }
  }

  lemma CallStepKeepsInv(y: System, t: Step)
    requires Inv(y) && Enabled(y, t) && (t.Accept? || t.Lookup?)
    ensures Inv(Next(y, t))
  {
    var b := BooksOf(y.registry.log, y.told);
    assert StrandAt(y.sessions, y.strands, t.sid);
    match t
    case Accept(sid, path, isSsl, bound) =>
      AcceptStrand(y.sessions, y.strands, sid, Registry.AnsweredId(y.registry), !Registry.Rejects(y.registry), bound,
                   y.out.offered, b);
      AcceptKeepsPlaces(y.sessions, sid, y.registry, path, isSsl, y.closes, y.displaced);
      AcceptMoves(y.registry, y.sessions[sid], sid, path, isSsl, y.told);
    case Lookup(sid, bound) =>
      var n := y.strands[sid].pc.notice;
      CallIsOwn(y.sessions[sid], y.strands[sid]);
      LookupStrand(y.sessions, y.strands, sid, Binds(y.registry, n, bound), TakesOut(y.registry, n), y.out.offered, b);
      LookupKeepsPlaces(y.sessions, y.strands[sid], sid, y.registry, y.closes, y.displaced);
      LookupMoves(y.registry, n, y.told);
  }

  lemma OtherStepKeepsInv(y: System, t: Step)
    requires Inv(y) && Enabled(y, t) && (t.OnRegistry? || t.CallClose? || t.CallChange? || t.OnQueue?)
    ensures Inv(Next(y, t))
  {
    var b := BooksOf(y.registry.log, y.told);
    match t
    case OnRegistry(r) =>
      SectionMoves(y.registry, r, y.told, y.closes, y.changes);
      ToldStrands(y.sessions, y.strands, y.out.offered, b, Tells(r));
      SectionKeepsPlaces(y.sessions, y.registry, y.closes, r, y.displaced);
    case CallClose(sid, byShutdown) =>
      CallKeepsPlaces(y.sessions, y.registry.clients, y.closes, sid, byShutdown, y.displaced);
    case CallChange(_, _) =>
    case OnQueue(q) =>
      MoveKeepsOutbox(y.out, q);
      OtherPosted(y.sessions, y.strands, y.out.offered, b);
  }

  lemma {:induction false} RunKeepsInv(y: System, run: seq<Step>)
    requires Inv(y) && Legal(y, run)
    ensures Inv(Run(y, run))
    decreases |run|
  {
    if run != [] {
      var t := run[0];
      if t.NewSession? || t.Handle? || t.PostCall? {
        StrandStepKeepsInv(y, t);
      } else if t.Accept? || t.Lookup? {
        CallStepKeepsInv(y, t);
      } else {
        OtherStepKeepsInv(y, t);
      }
      RunKeepsInv(Next(y, t), run[1..]);
    }
  }

  lemma Reached(run: seq<Step>)
    requires Legal(Init(), run)
    ensures Inv(Run(Init(), run))
  {
    Registry.InitIsSound();
    assert forall c :: Holders(map[], c) == {};
    assert forall c :: Closers(map[], map[], c) == {};
    RunKeepsInv(Init(), run);
  }

  // ----- What the callback thread delivers -----

  /** End to end, in every interleaving of all strands, all threads and the worker: the callbacks the
      worker has entered for a session are, in order, a prefix of those its strand posted; and the calls
      of its strand are, in order, its client's story: added, then its messages as received, then closed.
      Nothing is lost on the way: a strand between handlers has reported the whole story, and a queue
      that runs dry unstopped has delivered every callback posted. So a client whose calls all found a
      callback set and that was not removed by Stop or RemoveClient is delivered added, its messages in
      receive order, and closed, or a prefix of that. */
  lemma DeliveredInOrder(run: seq<Step>, sid: nat)
    requires Legal(Init(), run) && sid in Run(Init(), run).sessions
    ensures sid in Run(Init(), run).strands
    ensures var y := Run(Init(), run);
            var s, strand := y.sessions[sid], y.strands[sid];
            var delivered := Select(WorkQueue.Started(y.out.queue), From(sid));
            && delivered <= PostedNotices(strand.calls)
            && (!y.out.queue.stopped && y.out.queue.queue == [] ==> delivered == PostedNotices(strand.calls))
            && Notices(strand.calls) <= ClientStory(s)
            && (strand.pc.Idle? && s.io.sink ==> Notices(strand.calls) == ClientStory(s))
            && (!SessionSpec.Entered(s) ==> strand.calls == [] && delivered == [])
            && ((forall i :: 0 <= i < |strand.calls| ==> strand.calls[i].posted) ==>
                  delivered <= [SessionSpec.Up(s.m.clientId)] + SessionRuns.Messages(s.log.received)
                               + [SessionSpec.Down(s.m.clientId)])
  {
    Reached(run);
    var y := Run(Init(), run);
    assert StrandAt(y.sessions, y.strands, sid);
    DeliveredFromOutbox(y.out, y.strands, sid);
    StrandTells(y.sessions[sid], y.strands[sid]);
  }

  // ----- By client id -----

  /** A multiple of 2^32 ids was taken between registrations i and j, the first of them under c. */
  ghost predicate Wraps(log: Registry.Log, c: nat, i: nat, j: nat) {
    i < j < |log.registered| && j < |log.taken| && log.registered[i] == c
    && (log.taken[j] - log.taken[i]) % Registry.WRAP == 0
  }

  lemma SharedExactlyAcrossWraps(sessions: SessionMap, r: Registry.State, sid: nat)
    requires Registry.LogOk(r.log, r.env.issued)
    requires sid in sessions && SessionSpec.Entered(sessions[sid])
    requires |Holders(sessions, sessions[sid].m.clientId)| == multiset(r.log.registered)[sessions[sid].m.clientId]
    ensures Holders(sessions, sessions[sid].m.clientId) != {sid}
            <==> exists i: nat, j: nat :: Wraps(r.log, sessions[sid].m.clientId, i, j)
  {
    var c := sessions[sid].m.clientId;
    var holders := Holders(sessions, c);
    assert sid in holders && holders == {sid} + (holders - {sid});
    if holders != {sid} {
      assert |holders - {sid}| > 0;
      var i, j := Registry.CountedIsTwice(r.log.registered, c);
      Registry.SameIdExactly(r.log.taken[i], r.log.taken[j]);
      assert Wraps(r.log, c, i, j);
    }
    if i: nat, j: nat :| Wraps(r.log, c, i, j) {
      Registry.SameIdExactly(r.log.taken[i], r.log.taken[j]);
      Registry.TwiceIsCounted(r.log.registered, c, i, j);
    }
  }

  /** In every run, a client's id was given to some other client exactly when a multiple of 2^32 ids was
      taken between the two registrations. The application tells clients apart by their ids: what it is
      called with under a client's id is what was delivered for that client's session exactly when
      nothing was delivered for another session given the id, so it differs only after such a wrap. */
  lemma IdSharedExactlyAcrossWraps(run: seq<Step>, sid: nat)
    requires Legal(Init(), run)
    requires var y := Run(Init(), run); sid in y.sessions && SessionSpec.Entered(y.sessions[sid])
    ensures var y := Run(Init(), run);
            var c, entered := y.sessions[sid].m.clientId, WorkQueue.Started(y.out.queue);
            && (Holders(y.sessions, c) != {sid} <==> exists i: nat, j: nat :: Wraps(y.registry.log, c, i, j))
            && (y.registry.env.issued < Registry.WRAP ==> Holders(y.sessions, c) == {sid})
            && (OwnById(entered, c, sid)
                <==> forall j :: j in Holders(y.sessions, c) && j != sid ==> Select(entered, From(j)) == [])
  {
    Reached(run);
    var y := Run(Init(), run);
    assert IdAt(y.sessions, y.strands, BooksOf(y.registry.log, y.told), y.sessions[sid].m.clientId);
    SharedExactlyAcrossWraps(y.sessions, y.registry, sid);
    EnteredAreOffered(y.out);
    forall i | 0 <= i < |WorkQueue.Started(y.out.queue)| ensures JobOwn(y.sessions, WorkQueue.Started(y.out.queue)[i]) {
      assert JobOwn(y.sessions, y.out.offered[i]);
    }
    SharedExactly(y.sessions, WorkQueue.Started(y.out.queue), sid);
  }

  // ----- Closed callbacks -----

  /** Across posted and synchronous notifications, whatever the ids: no strand posts its closing twice,
      and those closings and the ones told elsewhere are together no more than the clients that were
      given the id. So a client that Stop or RemoveClient took out gets no closed callback through the
      queue unless another client shared its id. */
  lemma ClosedIsToldOnce(run: seq<Step>, sid: nat, c: nat)
    requires Legal(Init(), run)
    ensures var y := Run(Init(), run);
            && (sid in y.strands ==> Closes(y.strands[sid]) <= 1)
            && |Closers(y.sessions, y.strands, c)| + y.told[c] <= |Holders(y.sessions, c)|
            && |Holders(y.sessions, c)| == multiset(y.registry.log.registered)[c]
            && (y.registry.env.issued < Registry.WRAP ==> |Holders(y.sessions, c)| <= 1)
  {
    Reached(run);
    var y := Run(Init(), run);
    assert StrandAt(y.sessions, y.strands, sid);
    if sid in y.strands {
      StrandTells(y.sessions[sid], y.strands[sid]);
    }
    assert IdAt(y.sessions, y.strands, BooksOf(y.registry.log, y.told), c);
    assert Registry.PlacedAt(y.registry, c);
    if y.registry.env.issued < Registry.WRAP {
      Registry.IdsAreDistinct(y.registry.log, y.registry.env.issued);
    }
  }

  // ----- Where the clients are -----

  /** In every run, an open client is in exactly one of three places: in the registry, where Close is never
      called on it; taken out by a Stop or RemoveClient that called Close on it or is about to; or
      displaced by another session that was given its id. Once Shutdown has stopped the queue nobody is in
      the registry, so exactly the displaced ones have nobody to close them. */
  lemma OpenSessionsAreAttended(run: seq<Step>, sid: nat)
    requires Legal(Init(), run) && OpenClient(Run(Init(), run).sessions, sid)
    ensures var y := Run(Init(), run);
            var live, taken := Live(y.sessions, y.registry.clients, sid), TakenOut(y.closes, sid);
            var displaced := sid in y.displaced;
            && (live || taken || displaced)
            && !(live && taken) && !(live && displaced) && !(taken && displaced)
            && (displaced ==> Holders(y.sessions, y.sessions[sid].m.clientId) != {sid})
            && (y.out.queue.stopped ==> (displaced <==> sid !in y.closes.called && sid !in y.closes.taken))
  {
    Reached(run);
    var y := Run(Init(), run);
    PlaceOf(y.sessions, y.registry.clients, y.closes, y.displaced, sid);
  }

  /** A client that came up keeps its id, what was raised stays raised, and the displaced stay so. */
  ghost predicate Goes(y: System, y': System, sid: nat) {
    && y.displaced <= y'.displaced
    && (CameUp(y.sessions, sid) ==>
          && CameUp(y'.sessions, sid) && y'.sessions[sid].m.clientId == y.sessions[sid].m.clientId
          && SessionSpec.Entered(y'.sessions[sid]) == SessionSpec.Entered(y.sessions[sid]))
  }

  lemma StepGoes(y: System, t: Step, sid: nat)
    requires Enabled(y, t)
    ensures Goes(y, Next(y, t), sid)
  {
    if t.Handle? && t.sid == sid && CameUp(y.sessions, sid) {
      SessionRuns.ClosedStaysClosed(y.sessions[sid], t.e);
      IdentityIsFixed(y.sessions[sid], t.e);
    }
  }

  lemma {:induction false} RunGoes(y: System, run: seq<Step>, sid: nat)
    requires Legal(y, run)
    ensures Goes(y, Run(y, run), sid)
    decreases |run|
  {
    if run != [] {
      StepGoes(y, run[0], sid);
      RunGoes(Next(y, run[0]), run[1..], sid);
    }
  }

  /** Nor will there ever be anybody: no continuation calls Close on a displaced session. */
  lemma DisplacedIsNeverClosed(run: seq<Step>, more: seq<Step>, sid: nat)
    requires Legal(Init(), run) && sid in Run(Init(), run).displaced && Legal(Run(Init(), run), more)
    ensures !TakenOut(Run(Run(Init(), run), more).closes, sid)
  {
    Reached(run);
    RunKeepsInv(Run(Init(), run), more);
    RunGoes(Run(Init(), run), more, sid);
    var y := Run(Run(Init(), run), more);
    assert PlaceAt(y.sessions, y.registry.clients, y.closes, y.displaced, sid);
  }
}
