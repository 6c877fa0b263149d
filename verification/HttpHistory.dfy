/** What a connection answers, told from the events alone: which requests got which responses, and what
    ended it. */
module HttpHistory {
  import opened Http
  import WorkQueue

  /** A request that calls for a response: whether a handler was found for it, and whether it asked to keep
      the connection. */
  datatype Asked = Asked(handled: bool, keepAlive: bool)

  /** The request an event brings: none once the server is gone, nor for an upgrade that is allowed; one
      that is not allowed is answered without a handler, and closes. */
  function AskedBy(sink: bool, e: Event): seq<Asked> {
    match e
    case ReadRequest(handled, keepAlive) => if sink then [Asked(handled, keepAlive)] else []
    case ReadUpgrade(allowed) => if sink && !allowed then [Asked(false, false)] else []
    case _ => []
  }

  /** The requests of a run, in order, after those before. */
  function AskedIn(run: seq<Event>, sink: bool, before: seq<Asked>): seq<Asked> {
    if run == [] then before else AskedIn(run[1..], sink && !run[0].SinkGone?, before + AskedBy(sink, run[0]))
  }

  /** Whether the handler of request k called Reply. */
  predicate Replies(run: seq<Event>, k: nat) {
    exists i :: 0 <= i < |run| && run[i].CallReply? && run[i].k == k
  }

  // ----- The invariant -----

  ghost predicate WrapperAt(y: State, asked: seq<Asked>, k: nat) {
    && (k in y.wrappers <==> k < |asked| && asked[k].handled)
    && (Request(k) in y.queue.accepted ==> k in y.wrappers)
    && (!y.queue.stopped && k in y.wrappers ==> Request(k) in y.queue.accepted)
  }

  ghost predicate Tracks(y: State, asked: seq<Asked>) {
    && |asked| == y.conn.requests
    && (forall k: nat :: WrapperAt(y, asked, k))
    && (forall i :: 0 <= i < |y.conn.responses| && i < |asked| && !asked[i].handled ==>
          y.conn.responses[i].keepAlive == asked[i].keepAlive)
    && (y.conn.writes != [] ==>
          y.conn.responses != [] && y.conn.writes == [y.conn.responses[|y.conn.responses| - 1].keepAlive])
  }

  lemma PostingTracks(y: State, y': State, asked: seq<Asked>)
    requires Tracks(y, asked) && OnlyPosts(y, y')
    ensures Tracks(y', asked)
  {
    forall k: nat ensures WrapperAt(y', asked, k) {
      assert WrapperAt(y, asked, k);
    }
  }

  lemma AnswerTracks(y: State, asked: seq<Asked>, keepAlive: bool)
    requires Inv(y) && Tracks(y, asked) && y.conn.pendingReads > 0
    ensures Tracks(OnConn(y, StartResponse(TakeRequest(y.conn), y.conn.requests, keepAlive, NotFound)),
                   asked + [Asked(false, keepAlive)])
  {
    var y' := OnConn(y, StartResponse(TakeRequest(y.conn), y.conn.requests, keepAlive, NotFound));
    forall k: nat ensures WrapperAt(y', asked + [Asked(false, keepAlive)], k) {
      assert WrapperAt(y, asked, k);
    }
    AllReplied(y);
  }

  /** A wrapper for the next request, and its job posted. */
  function WithWrapper(y: State, k: nat): State
    requires y.conn.pendingReads > 0
  {
    State(TakeRequest(y.conn), y.wrappers[k := Wrapper(false, 0, 0)],
          WorkQueue.Step(y.queue, WorkQueue.Post(Request(k))))
  }

  lemma WrapperTracks(y: State, asked: seq<Asked>, keepAlive: bool)
    requires Inv(y) && Tracks(y, asked) && y.conn.pendingReads > 0
    ensures Tracks(WithWrapper(y, y.conn.requests), asked + [Asked(true, keepAlive)])
  {
    var y1, asked' := WithWrapper(y, y.conn.requests), asked + [Asked(true, keepAlive)];
    AllReplied(y);
    forall k: nat ensures WrapperAt(y1, asked', k) {
      assert WrapperAt(y, asked, k);
    }
  }

  lemma DispatchTracks(y: State, asked: seq<Asked>, keepAlive: bool)
    requires Inv(y) && Tracks(y, asked) && y.conn.pendingReads > 0
    ensures Tracks(Dispatch(OnConn(y, TakeRequest(y.conn)), y.conn.requests, keepAlive),
                   asked + [Asked(true, keepAlive)])
  {
    var y1 := WithWrapper(y, y.conn.requests);
    WrapperTracks(y, asked, keepAlive);
    PostingTracks(y1, Release(y1, y.conn.requests, keepAlive), asked + [Asked(true, keepAlive)]);
  }

  lemma QueueTracks(y: State, asked: seq<Asked>, q: WorkQueue.Event<Job>, keepAlive: bool)
    requires Inv(y) && Tracks(y, asked) && Enabled(y, OnQueue(q, keepAlive))
    ensures Tracks(Step(y, OnQueue(q, keepAlive)), asked)
  {
    var y1 := State(y.conn, y.wrappers, WorkQueue.Step(y.queue, q));
    forall k: nat ensures WrapperAt(y1, asked, k) {
      assert WrapperAt(y, asked, k);
    }
    ReleaseAllFixes(y1, Gone(y.queue, q), keepAlive);
    PostingTracks(y1, Step(y, OnQueue(q, keepAlive)), asked);
  }

  lemma TurnTracks(y: State, asked: seq<Asked>, e: Event)
    requires Inv(y) && Tracks(y, asked) && Enabled(y, e)
    requires e.HandshakeDone? || e.ReadFailed? || e.WriteDone? || e.SinkGone? || e.RunPosted?
             || ((e.ReadUpgrade? || e.ReadRequest?) && AskedBy(y.conn.sink, e) == [])
    ensures Tracks(Step(y, e), asked)
  {
    forall k: nat ensures WrapperAt(Step(y, e), asked, k) {
      assert WrapperAt(y, asked, k);
    }
    if e.RunPosted? {
      assert WrapperAt(y, asked, y.conn.posted[0].request);
      assert y.conn.posted[0].request == |y.conn.responses|;
    }
  }

  lemma PostTracks(y: State, asked: seq<Asked>, e: Event)
    requires Tracks(y, asked) && Enabled(y, e) && (e.CallReply? || e.Copy? || e.DropCopy?)
    ensures Tracks(Step(y, e), asked)
  {
    PostingTracks(y, Step(y, e), asked);
  }

  lemma ReadTracks(y: State, asked: seq<Asked>, e: Event)
    requires Inv(y) && Tracks(y, asked) && Enabled(y, e) && AskedBy(y.conn.sink, e) != []
    ensures Tracks(Step(y, e), asked + AskedBy(y.conn.sink, e))
  {
    if e.ReadRequest? && e.handled {
      DispatchTracks(y, asked, e.keepAlive);
    } else {
      AnswerTracks(y, asked, e.ReadRequest? && e.keepAlive);
    }
  }

  lemma StepTracks(y: State, asked: seq<Asked>, e: Event)
    requires Inv(y) && Tracks(y, asked) && Enabled(y, e)
    ensures Tracks(Step(y, e), asked + AskedBy(y.conn.sink, e))
  {
    assert asked + [] == asked;
    if AskedBy(y.conn.sink, e) != [] {
      ReadTracks(y, asked, e);
    } else if e.OnQueue? {
      QueueTracks(y, asked, e.q, e.keepAlive);
    } else if e.CallReply? || e.Copy? || e.DropCopy? {
      PostTracks(y, asked, e);
    } else {
      TurnTracks(y, asked, e);
    }
  }

  lemma StepKeepsSink(y: State, e: Event)
    requires Enabled(y, e)
    ensures Step(y, e).conn.sink == (y.conn.sink && !e.SinkGone?)
  {
    if e.OnQueue? {
      ReleaseAllFixes(State(y.conn, y.wrappers, WorkQueue.Step(y.queue, e.q)), Gone(y.queue, e.q), e.keepAlive);
    }
  }

  lemma {:induction false} RunTracks(y: State, asked: seq<Asked>, run: seq<Event>)
    requires Inv(y) && Tracks(y, asked) && Legal(y, run)
    ensures Inv(Run(y, run)) && Tracks(Run(y, run), AskedIn(run, y.conn.sink, asked))
    decreases |run|
  {
    if run != [] {
      StepKeepsInv(y, run[0]);
      StepTracks(y, asked, run[0]);
      StepKeepsSink(y, run[0]);
      RunTracks(Step(y, run[0]), asked + AskedBy(y.conn.sink, run[0]), run[1..]);
    }
  }

  // ----- Replies by handlers -----

  predicate Sent(y: State, k: nat) {
    k in y.wrappers && y.wrappers[k].sent
  }

  lemma StepSends(y: State, e: Event, k: nat)
    requires Enabled(y, e) && (forall j :: j in y.wrappers ==> j < y.conn.requests)
    ensures Sent(Step(y, e), k) <==> Sent(y, k) || (e.CallReply? && e.k == k)
  {
    if e.OnQueue? {
      ReleaseAllFixes(State(y.conn, y.wrappers, WorkQueue.Step(y.queue, e.q)), Gone(y.queue, e.q), e.keepAlive);
    }
  }

  lemma {:induction false} RunSends(y: State, run: seq<Event>, k: nat)
    requires Inv(y) && Legal(y, run)
    ensures Sent(Run(y, run), k) <==> Sent(y, k) || Replies(run, k)
    decreases |run|
  {
    if run != [] {
      StepKeepsInv(y, run[0]);
      StepSends(y, run[0], k);
      RunSends(Step(y, run[0]), run[1..], k);
      assert forall i :: 0 <= i < |run[1..]| ==> run[1..][i] == run[i + 1];
      if Replies(run[1..], k) {
        var i :| 0 <= i < |run[1..]| && run[1..][i].CallReply? && run[1..][i].k == k;
        assert run[i + 1].CallReply? && run[i + 1].k == k;
      }
      if i :| 0 <= i < |run| && run[i].CallReply? && run[i].k == k {
        assert i > 0 ==> run[1..][i - 1].k == k;
      }
    }
  }

  /** What is answered, told from the events of the run: the requests that call for a response are those
      read while the server existed, refused upgrades among them. Response k answers the k-th: with 404,
      and the keep-alive the request asked for, exactly when no handler was found or the upgrade was refused;
      otherwise by the handler exactly when it called Reply, else as a bad request. And while the queue
      is not stopped the jobs it accepted for this connection are those of the requests with a handler. */
  lemma ResponsesFollowTheRequests(isSsl: bool, queue: Queue, run: seq<Event>, k: nat)
    requires WithoutRequests(queue) && Legal(Init(isSsl, queue), run)
    ensures var y, asked := Run(Init(isSsl, queue), run), AskedIn(run, true, []);
            && |asked| == y.conn.requests
            && (k < |y.conn.responses| ==>
                  && k < |asked|
                  && y.conn.responses[k].kind == (if !asked[k].handled then NotFound
                                                  else if Replies(run, k) then ByHandler else BadRequest)
                  && (!asked[k].handled ==> y.conn.responses[k].keepAlive == asked[k].keepAlive))
            && (Request(k) in y.queue.accepted ==> k < |asked| && asked[k].handled)
            && (!y.queue.stopped && k < |asked| && asked[k].handled ==> Request(k) in y.queue.accepted)
  {
    var y0 := Init(isSsl, queue);
    InitHolds(isSsl, queue);
    RunTracks(y0, [], run);
    RunSends(y0, run, k);
    assert WrapperAt(Run(y0, run), AskedIn(run, true, []), k);
  }

  // ----- The end -----

  /** The events that end a connection: a failed handshake, read or write, a response that does not keep it
      alive, an upgrade that is allowed, and any request once the server is gone. */
  predicate EndsBy(c: Conn, e: Event) {
    match e
    case HandshakeDone(ok) => !ok
    case ReadFailed => true
    case ReadUpgrade(allowed) => allowed || !c.sink
    case ReadRequest(_, _) => !c.sink
    case WriteDone(ok) => !ok || c.writes == [] || !c.writes[0]
    case _ => false
  }

  ghost predicate EndsIn(y: State, run: seq<Event>)
    requires Legal(y, run)
    decreases |run|
  {
    run != [] && (EndsBy(y.conn, run[0]) || EndsIn(Step(y, run[0]), run[1..]))
  }

  lemma StepEnds(y: State, e: Event)
    requires Enabled(y, e)
    ensures Step(y, e).conn.ended <==> y.conn.ended || EndsBy(y.conn, e)
  {
    if e.OnQueue? {
      ReleaseAllFixes(State(y.conn, y.wrappers, WorkQueue.Step(y.queue, e.q)), Gone(y.queue, e.q), e.keepAlive);
    }
  }

  /** A connection is finished exactly when one of these came; then it reads and answers nothing more. */
  lemma {:induction false} EndsExactly(y: State, run: seq<Event>)
    requires Legal(y, run)
    ensures Run(y, run).conn.ended <==> y.conn.ended || EndsIn(y, run)
    decreases |run|
  {
    if run != [] {
      StepEnds(y, run[0]);
      EndsExactly(Step(y, run[0]), run[1..]);
    }
  }
}
