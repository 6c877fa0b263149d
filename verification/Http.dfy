/** Plain http on one connection: the read, handle, respond loop, the wrappers handed to request
    handlers, and the work queue that runs the handlers. The connection object has no state of its own
    beyond the operations it has outstanding, so it is modelled on values. */
module Http {
  import WorkQueue

  /** A job that runs the handler of a request of this connection, or any other job. */
  datatype Job = Request(k: nat) | Other

  type Queue = WorkQueue.State<Job>

  /** What answers a request: the connection's own 404, the handler's reply, or the 400 of a wrapper
      that was destroyed without a reply. */
  datatype Kind = NotFound | ByHandler | BadRequest

  /** A response posted to the connection's strand. */
  datatype Reply = Reply(request: nat, keepAlive: bool, kind: Kind)

  datatype Answer = Answer(request: nat, kind: Kind, keepAlive: bool)

  datatype Conn = Conn(
    handshaking: bool,        // ssl handshake outstanding
    ended: bool,              // the connection object is finished: closed, upgraded or failed
    sink: bool,               // the server still exists
    pendingReads: nat,        // request reads outstanding
    writes: seq<bool>,        // response writes outstanding, with their keep-alive flags
    posted: seq<Reply>,       // SendResponse calls waiting on the strand
    requests: nat,            // requests read, while the server exists, that call for a response
    responses: seq<Answer>)   // the responses started

  /** A CHttpWrapper: mResponseSent, the copies handlers keep, and how often it has replied. The queue's
      own reference to it is its job. */
  datatype Wrapper = Wrapper(sent: bool, copies: nat, replies: nat)

  datatype State = State(conn: Conn, wrappers: map<nat, Wrapper>, queue: Queue)

  function Init(isSsl: bool, queue: Queue): State {
    State(Conn(isSsl, false, true, if isSsl then 0 else 1, [], [], 0, []), map[], queue)
  }

  datatype Event =
    | HandshakeDone(ok: bool)
    | ReadFailed
    | ReadUpgrade(allowed: bool)
    | ReadRequest(handled: bool, keepAlive: bool)
    | CallReply(k: nat, keepAlive: bool)
    | Copy(k: nat) | DropCopy(k: nat, keepAlive: bool)
    | OnQueue(q: WorkQueue.Event<Job>, keepAlive: bool)
    | RunPosted
    | WriteDone(ok: bool)
    | SinkGone

  /** The jobs the queue still holds: the one running and those waiting. */
  function Held(q: Queue): seq<Job> {
    WorkQueue.InFlight(q) + q.queue
  }

  predicate HasJob(q: Queue, k: nat) {
    Request(k) in Held(q)
  }

  predicate Alive(y: State, k: nat) {
    k in y.wrappers && (y.wrappers[k].copies > 0 || HasJob(y.queue, k))
  }

  /** A handler can use wrapper k: it runs with it, or somebody kept a copy. */
  predicate InHand(y: State, k: nat) {
    k in y.wrappers && (y.wrappers[k].copies > 0 || y.queue.worker == WorkQueue.Running(Request(k)))
  }

  predicate Enabled(y: State, e: Event) {
    match e
    case HandshakeDone(_) => y.conn.handshaking
    case ReadFailed => y.conn.pendingReads > 0
    case ReadUpgrade(_) => y.conn.pendingReads > 0
    case ReadRequest(_, _) => y.conn.pendingReads > 0
    case CallReply(k, _) => InHand(y, k)
    case Copy(k) => InHand(y, k)
    case DropCopy(k, _) => k in y.wrappers && y.wrappers[k].copies > 0
    case OnQueue(q, _) => WorkQueue.Enabled(y.queue, q) && (q.Post? ==> q.job.Other?)
    case RunPosted => y.conn.posted != []
    case WriteDone(_) => y.conn.writes != []
    case SinkGone => true
  }

  // ----- Wrappers -----

  /** CHttpWrapper::Reply: only the first call replies. */
  function Replied(w: Wrapper): Wrapper {
    if w.sent then w else Wrapper(true, w.copies, w.replies + 1)
  }

  /** The destructor: a wrapper that never replied replies bad request now. */
  function Destroyed(w: Wrapper): Wrapper {
    if w.sent then w else Wrapper(w.sent, w.copies, w.replies + 1)
  }

  /** The reply a wrapper's change posts. */
  function PostedBy(w: Wrapper, w': Wrapper, k: nat, keepAlive: bool): seq<Reply> {
    if w'.replies > w.replies then [Reply(k, keepAlive, if w'.sent then ByHandler else BadRequest)] else []
  }

  function PutWrapper(y: State, k: nat, w: Wrapper, keepAlive: bool): State
    requires k in y.wrappers
  {
    State(y.conn.(posted := y.conn.posted + PostedBy(y.wrappers[k], w, k, keepAlive)), y.wrappers[k := w], y.queue)
  }

  /** Runs the destructor of wrapper k if its last reference is gone. */
  function Release(y: State, k: nat, keepAlive: bool): State {
    if k !in y.wrappers || Alive(y, k) then y else PutWrapper(y, k, Destroyed(y.wrappers[k]), keepAlive)
  }

  /** Releases the wrappers of jobs that were dropped. */
  function ReleaseAll(y: State, jobs: seq<Job>, keepAlive: bool): State
    decreases |jobs|
  {
    if jobs == [] then y
    else if jobs[0].Other? then ReleaseAll(y, jobs[1..], keepAlive)
    else ReleaseAll(Release(y, jobs[0].k, keepAlive), jobs[1..], keepAlive)
  }

  // ----- The connection -----

  function StartRead(c: Conn): Conn {
    c.(pendingReads := c.pendingReads + 1)
  }

  function StartResponse(c: Conn, request: nat, keepAlive: bool, kind: Kind): Conn {
    c.(writes := c.writes + [keepAlive], responses := c.responses + [Answer(request, kind, keepAlive)])
  }

  function End(c: Conn): Conn {
    c.(ended := true)
  }

  function TakeRead(c: Conn): Conn
    requires c.pendingReads > 0
  {
    c.(pendingReads := c.pendingReads - 1)
  }

  /** A request that calls for a response was read. */
  function TakeRequest(c: Conn): Conn
    requires c.pendingReads > 0
  {
    c.(pendingReads := c.pendingReads - 1, requests := c.requests + 1)
  }

  function HandshakeOver(c: Conn): Conn {
    c.(handshaking := false)
  }

  function TakePosted(c: Conn): Conn
    requires c.posted != []
  {
    c.(posted := c.posted[1..])
  }

  function TakeWrite(c: Conn): Conn
    requires c.writes != []
  {
    c.(writes := c.writes[1..])
  }

  function OnConn(y: State, c: Conn): State {
    State(c, y.wrappers, y.queue)
  }

  /** A request with a handler becomes a wrapper and a posted job; a stopped queue drops the job, and
      with it the wrapper. */
  function Dispatch(y: State, k: nat, keepAlive: bool): State {
    Release(State(y.conn, y.wrappers[k := Wrapper(false, 0, 0)], WorkQueue.Step(y.queue, WorkQueue.Post(Request(k)))),
            k, keepAlive)
  }

  /** The queue moves; jobs it lets go of drop their wrappers. */
  function Gone(q: Queue, e: WorkQueue.Event<Job>): seq<Job>
    requires WorkQueue.Enabled(q, e)
  {
    match e
    case Finish => [q.worker.job]
    case Stop(_) => if q.stopped then [] else q.queue
    case _ => []
  }

  function QueueStep(y: State, e: WorkQueue.Event<Job>, keepAlive: bool): State
    requires WorkQueue.Enabled(y.queue, e)
  {
    ReleaseAll(State(y.conn, y.wrappers, WorkQueue.Step(y.queue, e)), Gone(y.queue, e), keepAlive)
  }

  function Step(y: State, e: Event): State
    requires Enabled(y, e)
  {
    match e
    case HandshakeDone(ok) =>
      OnConn(y, if ok then StartRead(HandshakeOver(y.conn)) else End(HandshakeOver(y.conn)))
    case ReadFailed => OnConn(y, End(TakeRead(y.conn)))
    case ReadUpgrade(allowed) =>
      if !y.conn.sink || allowed then OnConn(y, End(TakeRead(y.conn)))
      else OnConn(y, StartResponse(TakeRequest(y.conn), y.conn.requests, false, NotFound))
    case ReadRequest(handled, keepAlive) =>
      if !y.conn.sink then OnConn(y, End(TakeRead(y.conn)))
      else if !handled then OnConn(y, StartResponse(TakeRequest(y.conn), y.conn.requests, keepAlive, NotFound))
      else Dispatch(OnConn(y, TakeRequest(y.conn)), y.conn.requests, keepAlive)
    case CallReply(k, keepAlive) => PutWrapper(y, k, Replied(y.wrappers[k]), keepAlive)
    case Copy(k) => State(y.conn, y.wrappers[k := y.wrappers[k].(copies := y.wrappers[k].copies + 1)], y.queue)
    case DropCopy(k, keepAlive) =>
      Release(State(y.conn, y.wrappers[k := y.wrappers[k].(copies := y.wrappers[k].copies - 1)], y.queue), k, keepAlive)
    case OnQueue(q, keepAlive) => QueueStep(y, q, keepAlive)
    case RunPosted =>
      OnConn(y, StartResponse(TakePosted(y.conn), y.conn.posted[0].request, y.conn.posted[0].keepAlive,
                              y.conn.posted[0].kind))
    case WriteDone(ok) =>
      OnConn(y, if ok && y.conn.writes[0] then StartRead(TakeWrite(y.conn)) else End(TakeWrite(y.conn)))
    case SinkGone => OnConn(y, y.conn.(sink := false))
  }

  ghost predicate Legal(y: State, run: seq<Event>)
    decreases |run|
  {
    run == [] || (Enabled(y, run[0]) && Legal(Step(y, run[0]), run[1..]))
  }

  ghost function Run(y: State, run: seq<Event>): State
    requires Legal(y, run)
    decreases |run|
  {
    if run == [] then y else Run(Step(y, run[0]), run[1..])
  }

  // ----- Invariant -----

  /** The last request was handed to a wrapper that has not replied. */
  predicate Owed(requests: nat, wrappers: map<nat, Wrapper>) {
    requests > 0 && requests - 1 in wrappers && wrappers[requests - 1].replies == 0
  }

  /** The things that can move the connection on. */
  function Turns(c: Conn, owed: bool): nat {
    (if c.handshaking then 1 else 0) + c.pendingReads + |c.writes| + |c.posted| + (if owed then 1 else 0)
  }

  /** Exactly one thing can move a live connection on; nothing is left to move an ended one. Responses
      answer the requests in order, and all but the one in progress are answered. */
  ghost predicate ConnOk(c: Conn, owed: bool) {
    && Turns(c, owed) == (if c.ended then 0 else 1)
    && (forall i :: 0 <= i < |c.responses| ==> c.responses[i].request == i)
    && c.requests == |c.responses| + (if owed || c.posted != [] then 1 else 0)
    && (c.posted != [] ==> c.posted[0].request == c.requests - 1)
  }

  /** How a request is (or will be) answered: by its handler exactly when the handler replied. */
  function KindOf(wrappers: map<nat, Wrapper>, k: nat): Kind {
    if k !in wrappers then NotFound else if wrappers[k].sent then ByHandler else BadRequest
  }

  ghost predicate AnswersOk(c: Conn, wrappers: map<nat, Wrapper>) {
    && (forall i :: 0 <= i < |c.responses| ==> c.responses[i].kind == KindOf(wrappers, i))
    && (c.posted != [] ==>
          c.posted[0].request in wrappers && c.posted[0].kind == KindOf(wrappers, c.posted[0].request))
  }

  ghost predicate WrapperOk(w: Wrapper, alive: bool) {
    w.replies == if alive && !w.sent then 0 else 1
  }

  /** Wrappers of requests already answered have replied; a live wrapper has replied exactly if its
      flag says so, and a destroyed one has replied once. Those of the jobs just dropped are about to
      be released. */
  ghost predicate WrappersOk(y: State, dropped: seq<Job>) {
    && (forall k :: k in y.wrappers ==> k < y.conn.requests)
    && (forall k :: k in y.wrappers && k + 1 < y.conn.requests ==> y.wrappers[k].replies > 0)
    && (forall k :: k in y.wrappers ==> WrapperOk(y.wrappers[k], Alive(y, k) || Request(k) in dropped))
  }

  /** Jobs in request order, so each request has at most one. */
  ghost predicate Ascending(jobs: seq<Job>) {
    forall i, j :: 0 <= i < j < |jobs| && jobs[i].Request? && jobs[j].Request? ==> jobs[i].k < jobs[j].k
  }

  ghost predicate QueueOk(y: State) {
    && WorkQueue.Inv(y.queue)
    && Ascending(Held(y.queue))
    && (forall k :: HasJob(y.queue, k) ==> k in y.wrappers)
  }

  ghost predicate Releasing(y: State, dropped: seq<Job>) {
    && ConnOk(y.conn, Owed(y.conn.requests, y.wrappers))
    && AnswersOk(y.conn, y.wrappers)
    && WrappersOk(y, dropped)
    && QueueOk(y)
    && Ascending(dropped)
  }

  ghost predicate Inv(y: State) {
    Releasing(y, [])
  }

  // ----- Wrappers keep it -----

  /** A reply takes over the turn of the wrapper that owed it. */
  lemma ReplyTakesTurn(c: Conn, wrappers: map<nat, Wrapper>, k: nat, w: Wrapper, keepAlive: bool)
    requires ConnOk(c, Owed(c.requests, wrappers)) && k in wrappers && k < c.requests
    requires k + 1 < c.requests ==> wrappers[k].replies > 0
    requires w.replies == wrappers[k].replies || (wrappers[k].replies == 0 && w.replies == 1)
    requires AnswersOk(c, wrappers) && (w.replies == wrappers[k].replies ==> w.sent == wrappers[k].sent)
    ensures var c' := c.(posted := c.posted + PostedBy(wrappers[k], w, k, keepAlive));
            ConnOk(c', Owed(c.requests, wrappers[k := w])) && AnswersOk(c', wrappers[k := w])
  {
    if w.replies > wrappers[k].replies {
      assert k == c.requests - 1 && Owed(c.requests, wrappers);
      assert c.posted == [];
    } else {
      assert c.posted + [] == c.posted;
    }
  }

  lemma PutKeeps(y: State, k: nat, w: Wrapper, keepAlive: bool, dropped: seq<Job>)
    requires Releasing(y, dropped) && k in y.wrappers
    requires (w.copies > 0 <==> y.wrappers[k].copies > 0)
    requires WrapperOk(w, Alive(y, k) || Request(k) in dropped)
    requires w.replies == y.wrappers[k].replies || (y.wrappers[k].replies == 0 && w.replies == 1)
    requires w.replies == y.wrappers[k].replies ==> w.sent == y.wrappers[k].sent
    ensures Releasing(PutWrapper(y, k, w, keepAlive), dropped)
  {
    ReplyTakesTurn(y.conn, y.wrappers, k, w, keepAlive);
  }

  lemma FirstDropped(k: nat, rest: seq<Job>)
    requires Ascending([Request(k)] + rest)
    ensures Ascending(rest) && Request(k) !in rest
    ensures forall j :: Request(j) in [Request(k)] + rest <==> j == k || Request(j) in rest
  {
    var dropped := [Request(k)] + rest;
    assert dropped[1..] == rest;
    assert forall i :: 0 <= i < |rest| ==> rest[i] == dropped[i + 1];
    forall i | 0 <= i < |rest| ensures rest[i] != Request(k) {
      assert dropped[0] == Request(k) && dropped[i + 1] == rest[i];
    }
  }

  lemma ReleaseKeeps(y: State, k: nat, keepAlive: bool, rest: seq<Job>)
    requires Releasing(y, [Request(k)] + rest)
    ensures Releasing(Release(y, k, keepAlive), rest)
    ensures Release(y, k, keepAlive).queue == y.queue
  {
    FirstDropped(k, rest);
    if k in y.wrappers && !Alive(y, k) {
      ReplyTakesTurn(y.conn, y.wrappers, k, Destroyed(y.wrappers[k]), keepAlive);
    }
  }

  lemma {:induction false} ReleaseAllKeeps(y: State, jobs: seq<Job>, keepAlive: bool)
    requires Releasing(y, jobs)
    ensures Inv(ReleaseAll(y, jobs, keepAlive))
    decreases |jobs|
  {
    if jobs != [] {
      assert jobs == [jobs[0]] + jobs[1..];
      if jobs[0].Other? {
        assert forall j :: Request(j) in jobs <==> Request(j) in jobs[1..];
        ReleaseAllKeeps(y, jobs[1..], keepAlive);
      } else {
        ReleaseKeeps(y, jobs[0].k, keepAlive, jobs[1..]);
        ReleaseAllKeeps(Release(y, jobs[0].k, keepAlive), jobs[1..], keepAlive);
      }
    }
  }

  // ----- The queue keeps it -----

  /** What the queue held is what it holds and what it let go. */
  lemma HeldSplits(q: Queue, e: WorkQueue.Event<Job>)
    requires WorkQueue.Inv(q) && WorkQueue.Enabled(q, e)
    ensures var q' := WorkQueue.Step(q, e);
            var all := Held(q) + (if e.Post? && !q.stopped then [e.job] else []);
            && (e.Finish? ==> all == Gone(q, e) + Held(q'))
            && (!e.Finish? ==> all == Held(q') + Gone(q, e))
  {
    var q' := WorkQueue.Step(q, e);
    match e
    case Wake =>
      assert !q.stopped ==> q.queue == [q.queue[0]] + q'.queue;
    case _ =>
  }

  lemma AscendingParts(a: seq<Job>, b: seq<Job>)
    requires Ascending(a + b)
    ensures Ascending(a) && Ascending(b)
  {
    assert forall i :: 0 <= i < |a| ==> a[i] == (a + b)[i];
    assert forall i :: 0 <= i < |b| ==> b[i] == (a + b)[|a| + i];
  }

  lemma AscendingSnoc(a: seq<Job>, job: Job)
    requires Ascending(a) && (job.Request? ==> forall i :: 0 <= i < |a| && a[i].Request? ==> a[i].k < job.k)
    ensures Ascending(a + [job])
  {
  }

  lemma QueueStepReleases(y: State, e: WorkQueue.Event<Job>)
    requires Inv(y) && WorkQueue.Enabled(y.queue, e) && (e.Post? ==> e.job.Other?)
    ensures Releasing(State(y.conn, y.wrappers, WorkQueue.Step(y.queue, e)), Gone(y.queue, e))
  {
    var q' := WorkQueue.Step(y.queue, e);
    var gone := Gone(y.queue, e);
    var posted: seq<Job> := if e.Post? && !y.queue.stopped then [e.job] else [];
    WorkQueue.StepKeepsInv(y.queue, e);
    HeldSplits(y.queue, e);
    if posted != [] {
      AscendingSnoc(Held(y.queue), e.job);
    } else {
      assert Held(y.queue) + posted == Held(y.queue);
    }
    if e.Finish? {
      AscendingParts(gone, Held(q'));
    } else {
      AscendingParts(Held(q'), gone);
    }
    forall k ensures HasJob(y.queue, k) <==> HasJob(q', k) || Request(k) in gone {
      assert Request(k) in Held(y.queue) + posted <==> Request(k) in Held(y.queue);
    }
  }

  // ----- Each event keeps it -----

  lemma DispatchKeeps(y: State, keepAlive: bool)
    requires Inv(y) && y.conn.pendingReads > 0
    ensures Inv(Dispatch(OnConn(y, TakeRequest(y.conn)), y.conn.requests, keepAlive))
  {
    var k := y.conn.requests;
    var y1 := State(TakeRequest(y.conn), y.wrappers[k := Wrapper(false, 0, 0)],
                    WorkQueue.Step(y.queue, WorkQueue.Post(Request(k))));
    PostRequest(y.queue, k, y.wrappers.Keys);
    AllReplied(y);
    NewWrapperOwes(y, y1);
    assert [Request(k)] + [] == [Request(k)];
    ReleaseKeeps(y1, k, keepAlive, []);
  }

  /** Posting a new request's job. */
  lemma PostRequest(q: Queue, k: nat, known: set<nat>)
    requires WorkQueue.Inv(q) && Ascending(Held(q))
    requires forall j :: HasJob(q, j) ==> j in known
    requires forall j :: j in known ==> j < k
    ensures var q' := WorkQueue.Step(q, WorkQueue.Post(Request(k)));
            && WorkQueue.Inv(q') && Ascending(Held(q'))
            && forall j :: j != k ==> (HasJob(q', j) <==> HasJob(q, j))
  {
    WorkQueue.StepKeepsInv(q, WorkQueue.Post(Request(k)));
    HeldSplits(q, WorkQueue.Post(Request(k)));
    var q' := WorkQueue.Step(q, WorkQueue.Post(Request(k)));
    if q.stopped {
      assert Held(q') == Held(q);
    } else {
      assert Held(q') == Held(q) + [Request(k)];
      forall i | 0 <= i < |Held(q)| && Held(q)[i].Request? ensures Held(q)[i].k < k {
        assert HasJob(q, Held(q)[i].k);
      }
      AscendingSnoc(Held(q), Request(k));
    }
  }

  /** While a read is outstanding every wrapper has replied. */
  lemma AllReplied(y: State)
    requires Inv(y) && y.conn.pendingReads > 0
    ensures forall j :: j in y.wrappers ==> y.wrappers[j].replies > 0
  {
    forall j | j in y.wrappers ensures y.wrappers[j].replies > 0 {
      assert !Owed(y.conn.requests, y.wrappers);
    }
  }

  lemma NewWrapperOwes(y: State, y1: State)
    requires Inv(y) && y.conn.pendingReads > 0
    requires forall j :: j in y.wrappers ==> y.wrappers[j].replies > 0
    requires y1.conn == TakeRequest(y.conn) && y1.wrappers == y.wrappers[y.conn.requests := Wrapper(false, 0, 0)]
    requires WorkQueue.Inv(y1.queue) && Ascending(Held(y1.queue))
    requires forall j :: j != y.conn.requests ==> (HasJob(y1.queue, j) <==> HasJob(y.queue, j))
    ensures Releasing(y1, [Request(y.conn.requests)])
  {
    assert Owed(y1.conn.requests, y1.wrappers);
    forall j | j in y1.wrappers && j != y.conn.requests
      ensures WrapperOk(y1.wrappers[j], Alive(y1, j) || Request(j) in [Request(y.conn.requests)])
    {
      assert WrapperOk(y.wrappers[j], Alive(y, j) || Request(j) in []);
    }
  }

  lemma AnswerKeeps(y: State, keepAlive: bool)
    requires Inv(y) && y.conn.pendingReads > 0
    ensures Inv(OnConn(y, StartResponse(TakeRequest(y.conn), y.conn.requests, keepAlive, NotFound)))
  {
    AllReplied(y);
  }

  lemma DropCopyKeeps(y: State, k: nat, keepAlive: bool)
    requires Inv(y) && Enabled(y, DropCopy(k, keepAlive))
    ensures Inv(Step(y, DropCopy(k, keepAlive)))
  {
    var y1 := State(y.conn, y.wrappers[k := y.wrappers[k].(copies := y.wrappers[k].copies - 1)], y.queue);
    assert Alive(y, k);
    assert WrappersOk(y1, [Request(k)]);
    assert [Request(k)] + [] == [Request(k)];
    ReleaseKeeps(y1, k, keepAlive, []);
  }

  lemma ReplyKeeps(y: State, k: nat, keepAlive: bool)
    requires Inv(y) && Enabled(y, CallReply(k, keepAlive))
    ensures Inv(Step(y, CallReply(k, keepAlive)))
  {
    InHandIsAlive(y, k);
    PutKeeps(y, k, Replied(y.wrappers[k]), keepAlive, []);
  }

  lemma CopyKeeps(y: State, k: nat)
    requires Inv(y) && Enabled(y, Copy(k))
    ensures Inv(Step(y, Copy(k)))
  {
    InHandIsAlive(y, k);
    var w := y.wrappers[k].(copies := y.wrappers[k].copies + 1);
    var y1 := State(y.conn, y.wrappers[k := w], y.queue);
    assert Owed(y1.conn.requests, y1.wrappers) == Owed(y.conn.requests, y.wrappers);
    forall j | j in y1.wrappers ensures WrapperOk(y1.wrappers[j], Alive(y1, j) || Request(j) in []) {
      assert WrapperOk(y.wrappers[j], Alive(y, j) || Request(j) in []);
    }
  }

  lemma InHandIsAlive(y: State, k: nat)
    requires InHand(y, k)
    ensures Alive(y, k)
  {
    if y.wrappers[k].copies == 0 {
      assert Held(y.queue)[0] == Request(k);
    }
  }

  lemma ConnKeeps(y: State, c: Conn)
    requires Inv(y) && c.requests == y.conn.requests && ConnOk(c, Owed(c.requests, y.wrappers))
    requires AnswersOk(c, y.wrappers)
    ensures Inv(OnConn(y, c))
  {
  }

  /** Handlers that only move the connection's own turn. */
  lemma TurnMoves(c: Conn, owed: bool)
    requires ConnOk(c, owed)
    ensures c.handshaking ==> ConnOk(StartRead(HandshakeOver(c)), owed) && ConnOk(End(HandshakeOver(c)), owed)
    ensures c.pendingReads > 0 ==> ConnOk(End(TakeRead(c)), owed)
    ensures c.writes != [] ==> ConnOk(StartRead(TakeWrite(c)), owed) && ConnOk(End(TakeWrite(c)), owed)
    ensures c.posted != [] ==>
              var r := c.posted[0]; ConnOk(StartResponse(TakePosted(c), r.request, r.keepAlive, r.kind), owed)
    ensures ConnOk(c.(sink := false), owed)
  {
  }

  lemma RequestKeeps(y: State, handled: bool, keepAlive: bool)
    requires Inv(y) && y.conn.pendingReads > 0
    ensures Inv(Step(y, ReadRequest(handled, keepAlive)))
  {
    TurnMoves(y.conn, Owed(y.conn.requests, y.wrappers));
    if !y.conn.sink {
      ConnKeeps(y, End(TakeRead(y.conn)));
    } else if handled {
      DispatchKeeps(y, keepAlive);
    } else {
      AnswerKeeps(y, keepAlive);
    }
  }

  lemma UpgradeKeeps(y: State, allowed: bool)
    requires Inv(y) && y.conn.pendingReads > 0
    ensures Inv(Step(y, ReadUpgrade(allowed)))
  {
    TurnMoves(y.conn, Owed(y.conn.requests, y.wrappers));
    if !y.conn.sink || allowed {
      ConnKeeps(y, End(TakeRead(y.conn)));
    } else {
      AnswerKeeps(y, false);
    }
  }

  lemma TurnKeeps(y: State, e: Event)
    requires Inv(y) && Enabled(y, e)
    requires e.HandshakeDone? || e.ReadFailed? || e.RunPosted? || e.WriteDone? || e.SinkGone?
    ensures Inv(Step(y, e))
  {
    TurnMoves(y.conn, Owed(y.conn.requests, y.wrappers));
    ConnKeeps(y, Step(y, e).conn);
  }

  lemma StepKeepsInv(y: State, e: Event)
    requires Inv(y) && Enabled(y, e)
    ensures Inv(Step(y, e))
  {
    match e
    case CallReply(k, keepAlive) => ReplyKeeps(y, k, keepAlive);
    case Copy(k) => CopyKeeps(y, k);
    case DropCopy(k, keepAlive) => DropCopyKeeps(y, k, keepAlive);
    case OnQueue(q, keepAlive) =>
      QueueStepReleases(y, q);
      ReleaseAllKeeps(State(y.conn, y.wrappers, WorkQueue.Step(y.queue, q)), Gone(y.queue, q), keepAlive);
    case ReadRequest(handled, keepAlive) => RequestKeeps(y, handled, keepAlive);
    case ReadUpgrade(allowed) => UpgradeKeeps(y, allowed);
    case _ => TurnKeeps(y, e);
  }

  lemma {:induction false} RunKeepsInv(y: State, run: seq<Event>)
    requires Inv(y) && Legal(y, run)
    ensures Inv(Run(y, run))
    decreases |run|
  {
    if run != [] {
      StepKeepsInv(y, run[0]);
      RunKeepsInv(Step(y, run[0]), run[1..]);
    }
  }

  /** A queue no request of this connection has been posted to yet. */
  ghost predicate WithoutRequests(q: Queue) {
    WorkQueue.Inv(q) && forall i :: 0 <= i < |q.accepted| ==> q.accepted[i].Other?
  }

  /** The request loop, over every interleaving of the connection, the handlers (which may reply, reply
      twice, throw, keep or drop the wrapper), the worker and Stop: at most one stream operation is
      outstanding; responses start in request order, each of the kind its request calls for, and all
      requests but the last are answered; and the loop never stalls: a connection that has not ended has
      exactly one thing that moves it on. */
  lemma OneResponsePerRequestInOrder(isSsl: bool, queue: Queue, run: seq<Event>)
    requires WithoutRequests(queue) && Legal(Init(isSsl, queue), run)
    ensures var y := Run(Init(isSsl, queue), run);
            var c := y.conn;
            && (if c.handshaking then 1 else 0) + c.pendingReads + |c.writes| <= 1
            && |c.responses| <= c.requests <= |c.responses| + 1
            && (forall i :: 0 <= i < |c.responses| ==>
                  c.responses[i].request == i && c.responses[i].kind == KindOf(y.wrappers, i))
            && Turns(c, Owed(c.requests, y.wrappers)) == (if c.ended then 0 else 1)
  {
    InitHolds(isSsl, queue);
    RunKeepsInv(Init(isSsl, queue), run);
  }

  lemma HeldIsAccepted(q: Queue)
    requires WorkQueue.Inv(q)
    ensures forall i :: 0 <= i < |Held(q)| ==> Held(q)[i] in q.accepted
  {
    forall i | 0 <= i < |Held(q)| ensures Held(q)[i] in q.accepted {
      assert q.accepted == q.completed + Held(q) + q.discarded;
      assert q.accepted[|q.completed| + i] == Held(q)[i];
    }
  }

  lemma InitHolds(isSsl: bool, queue: Queue)
    requires WithoutRequests(queue)
    ensures Inv(Init(isSsl, queue))
  {
    var y := Init(isSsl, queue);
    assert !Owed(0, y.wrappers);
    HeldIsAccepted(queue);
    assert forall i :: 0 <= i < |Held(queue)| ==> Held(queue)[i].Other?;
  }

  /** An ended connection reads, answers and owes nothing any more. */
  lemma {:induction false} EndIsFinal(y: State, run: seq<Event>)
    requires Inv(y) && y.conn.ended && Legal(y, run)
    ensures var c := Run(y, run).conn;
            c.ended && c.requests == y.conn.requests && c.responses == y.conn.responses
    decreases |run|
  {
    if run != [] {
      StepKeepsInv(y, run[0]);
      EndedStep(y, run[0]);
      EndIsFinal(Step(y, run[0]), run[1..]);
    }
  }

  lemma EndedStep(y: State, e: Event)
    requires Inv(y) && y.conn.ended && Enabled(y, e)
    ensures var c := Step(y, e).conn;
            c.ended && c.requests == y.conn.requests && c.responses == y.conn.responses
  {
    if e.OnQueue? {
      ReleaseAllFixes(State(y.conn, y.wrappers, WorkQueue.Step(y.queue, e.q)), Gone(y.queue, e.q), e.keepAlive);
    }
  }

  /** What a step does to the requests and responses when it is no read and starts no response. */
  ghost predicate OnlyPosts(y: State, y': State) {
    && y'.conn.ended == y.conn.ended && y'.conn.sink == y.conn.sink && y'.conn.writes == y.conn.writes
    && y'.conn.requests == y.conn.requests && y'.conn.responses == y.conn.responses
    && y'.wrappers.Keys == y.wrappers.Keys && y'.queue == y.queue
  }

  /** Releasing wrappers only posts. */
  lemma {:induction false} ReleaseAllFixes(y: State, jobs: seq<Job>, keepAlive: bool)
    ensures OnlyPosts(y, ReleaseAll(y, jobs, keepAlive))
    ensures forall k :: k in y.wrappers ==> ReleaseAll(y, jobs, keepAlive).wrappers[k].sent == y.wrappers[k].sent
    decreases |jobs|
  {
    if jobs != [] {
      ReleaseAllFixes(if jobs[0].Other? then y else Release(y, jobs[0].k, keepAlive), jobs[1..], keepAlive);
    }
  }

  /** A read that completes after the server is gone is not taken up. */
  lemma {:induction false} NoServerNoRequest(y: State, run: seq<Event>)
    requires !y.conn.sink && Legal(y, run)
    ensures Run(y, run).conn.requests == y.conn.requests
    decreases |run|
  {
    if run != [] {
      OrphanStep(y, run[0]);
      NoServerNoRequest(Step(y, run[0]), run[1..]);
    }
  }

  lemma OrphanStep(y: State, e: Event)
    requires !y.conn.sink && Enabled(y, e)
    ensures !Step(y, e).conn.sink && Step(y, e).conn.requests == y.conn.requests
  {
    if e.OnQueue? {
      ReleaseAllFixes(State(y.conn, y.wrappers, WorkQueue.Step(y.queue, e.q)), Gone(y.queue, e.q), e.keepAlive);
    }
  }

  ghost predicate CanTakeRequest(y: State, requests: nat) {
    exists run :: Legal(y, run) && Run(y, run).conn.requests > requests
  }

  /** When a response has been written, or failed, another request can follow exactly when it was
      written, it keeps the connection alive, and the server still exists. */
  lemma NextRequestExactlyAfterKeepAlive(y: State, ok: bool)
    requires Inv(y) && Enabled(y, WriteDone(ok))
    ensures CanTakeRequest(Step(y, WriteDone(ok)), y.conn.requests) <==> ok && y.conn.writes == [true] && y.conn.sink
  {
    var y1 := Step(y, WriteDone(ok));
    StepKeepsInv(y, WriteDone(ok));
    if ok && y.conn.writes == [true] && y.conn.sink {
      var run := [ReadRequest(false, false)];
      assert Legal(Step(y1, run[0]), run[1..]);
      assert Run(y1, run).conn.requests == y.conn.requests + 1;
    } else {
      forall run | Legal(y1, run) ensures Run(y1, run).conn.requests == y.conn.requests {
        if y1.conn.ended {
          EndIsFinal(y1, run);
        } else {
          NoServerNoRequest(y1, run);
        }
      }
    }
  }

  /** Every wrapper replies at most once, and has replied exactly once when its last reference is gone;
      in particular when the queue was stopped and its job discarded. */
  lemma EveryWrapperRepliesOnce(isSsl: bool, queue: Queue, run: seq<Event>, k: nat)
    requires WithoutRequests(queue) && Legal(Init(isSsl, queue), run)
    requires k in Run(Init(isSsl, queue), run).wrappers
    ensures var y := Run(Init(isSsl, queue), run);
            && y.wrappers[k].replies <= 1
            && (!Alive(y, k) ==> y.wrappers[k].replies == 1)
            && (y.queue.stopper.Returned? && y.wrappers[k].copies == 0 ==> y.wrappers[k].replies == 1)
  {
    InitHolds(isSsl, queue);
    RunKeepsInv(Init(isSsl, queue), run);
    var y := Run(Init(isSsl, queue), run);
    assert WrapperOk(y.wrappers[k], Alive(y, k));
    assert y.queue.stopper.Returned? ==> Held(y.queue) == [];
  }

  // ----- The wrapper object -----

  class HttpWrapper {
    var mResponseSent: bool
    ghost var copies: nat
    ghost var replies: nat

    ghost function View(): Wrapper
      reads this
    {
      Wrapper(mResponseSent, copies, replies)
    }

    constructor ()
      ensures View() == Wrapper(false, 0, 0)
    {
      mResponseSent, copies, replies := false, 0, 0;
    }

    method Reply() returns (first: bool)
      modifies this
      ensures View() == Replied(old(View()))
      ensures first <==> replies == old(replies) + 1
    {
      if mResponseSent {
        return false;
      }
      mResponseSent := true;
      replies := replies + 1;
      return true;
    }

    /** The destructor's work. */
    method Destroy() returns (badRequest: bool)
      modifies this
      ensures View() == Destroyed(old(View()))
      ensures badRequest <==> replies == old(replies) + 1
    {
      if mResponseSent {
        return false;
      }
      replies := replies + 1;
      return true;
    }
  }
}
