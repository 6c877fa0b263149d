/** The client object, its sessions and its work queue together: what the callback thread delivers,
    session by session, over any number of connect attempts. */
module ClientSystem {
  import opened SessionSpec
  import opened Relay
  import SessionRuns
  import ClientSession
  import ClientImpl
  import WorkQueue

  datatype System = System(client: ClientImpl.State, strands: map<nat, Strand>, out: Outbox)

  function Init(isSsl: bool): System {
    System(ClientImpl.Init(isSsl), map[], Outbox(WorkQueue.Init(), []))
  }

  datatype Step =
    | Handle(i: nat, e: ClientSession.Event)    // a handler of session i
    | OnClient(c: ClientImpl.Event)             // any other thread, Install among them
    | Lookup(i: nat, bound: bool)               // the callback lock section of a call
    | PostCall(i: nat)
    | OnQueue(q: WorkQueue.Event<Job>)

  predicate StrandIs(y: System, i: nat) {
    i < |y.client.slots| && i in y.strands
  }

  predicate Enabled(y: System, t: Step) {
    match t
    case Handle(i, e) =>
      StrandIs(y, i) && y.strands[i].pc.Idle? && ClientImpl.Enabled(y.client, ClientImpl.Strand(i, e))
    case OnClient(c) => !c.Strand? && ClientImpl.Enabled(y.client, c) && (c.Install? ==> |y.client.slots| !in y.strands)
    case Lookup(i, _) => StrandIs(y, i) && y.strands[i].pc.Calling?
    case PostCall(i) => StrandIs(y, i) && y.strands[i].pc.Posting?
    case OnQueue(q) => CanMove(y.out, q)
  }

  function CoreOf(slots: seq<ClientImpl.Slot>, i: nat): State
    requires i < |slots|
  {
    slots[i].attempt.core
  }

  /** The session of slot i after one of its handlers. */
  function CoreAfter(client: ClientImpl.State, i: nat, e: ClientSession.Event): State
    requires ClientImpl.Enabled(client, ClientImpl.Strand(i, e))
  {
    ClientSession.Advance(client.isSsl, client.slots[i].attempt, e).core
  }

  function AddStrand(strands: map<nat, Strand>, slots: seq<ClientImpl.Slot>, c: ClientImpl.Event): map<nat, Strand> {
    if c.Install? then strands[|slots| := Strand(Idle, [])] else strands
  }

  function Next(y: System, t: Step): System
    requires Enabled(y, t)
  {
    match t
    case Handle(i, e) =>
      y.(client := ClientImpl.Step(y.client, ClientImpl.Strand(i, e)),
         strands := y.strands[i := AfterHandler(y.strands[i], CoreOf(y.client.slots, i), CoreAfter(y.client, i, e))])
    case OnClient(c) => y.(client := ClientImpl.Step(y.client, c), strands := AddStrand(y.strands, y.client.slots, c))
    case Lookup(i, bound) => y.(strands := y.strands[i := LookedUp(y.strands[i], bound)])
    case PostCall(i) => y.(strands := y.strands[i := Posted(y.strands[i])], out := PostFor(y.out, y.strands[i], i, 0))
    case OnQueue(q) => y.(out := Move(y.out, q))
  }

  ghost predicate Legal(y: System, run: seq<Step>)
    decreases |run|
  {
    run == [] || (Enabled(y, run[0]) && Legal(Next(y, run[0]), run[1..]))
  }

  ghost function Run(y: System, run: seq<Step>): System
    requires Legal(y, run)
    decreases |run|
  {
    if run == [] then y else Run(Next(y, run[0]), run[1..])
  }

  // ----- Invariant -----

  /** What the strand of session i has reported, and is reporting, is what the session raised. */
  ghost predicate StrandAt(slots: seq<ClientImpl.Slot>, strands: map<nat, Strand>, i: nat) {
    && (i in strands <==> i < |slots|)
    && (i in strands ==> StrandOk(CoreOf(slots, i), strands[i]))
  }

  ghost predicate StrandsOk(slots: seq<ClientImpl.Slot>, strands: map<nat, Strand>) {
    forall i: nat :: StrandAt(slots, strands, i)
  }

  ghost predicate Inv(y: System) {
    && ClientImpl.Inv(y.client)
    && StrandsOk(y.client.slots, y.strands)
    && Linked(y.strands, y.out.offered)
    && OutboxOk(y.out)
  }

  lemma PutStrand(slots: seq<ClientImpl.Slot>, strands: map<nat, Strand>, i: nat, slot: ClientImpl.Slot, strand: Strand)
    requires StrandsOk(slots, strands) && i < |slots| && StrandOk(slot.attempt.core, strand)
    ensures StrandsOk(slots[i := slot], strands[i := strand])
  {
    var slots', strands' := slots[i := slot], strands[i := strand];
    forall j: nat ensures StrandAt(slots', strands', j) {
      assert StrandAt(slots, strands, j);
    }
  }

  /** A step of the connect chain ends it or leaves the session alone. */
  lemma ChainMovesCore(isSsl: bool, a: ClientSession.Connect, e: ClientSession.Event)
    requires ClientSession.Inv(isSsl, a) && ClientSession.Enabled(a, e) && !e.Handler?
    ensures Outstanding(a.core, OpenOk(0, true)) && Outstanding(a.core, OpenErr)
    ensures var core' := ClientSession.Advance(isSsl, a, e).core;
            core' == a.core || core' == OnOpen(a.core, 0, true) || core' == OnOpenFailed(a.core)
  {
  }

  /** The connect chain raises at most one notice a handler, too. */
  lemma AdvanceRaises(isSsl: bool, a: ClientSession.Connect, e: ClientSession.Event, strand: Strand)
    requires ClientSession.Inv(isSsl, a) && ClientSession.Enabled(a, e) && StrandOk(a.core, strand) && strand.pc.Idle?
    ensures var core' := ClientSession.Advance(isSsl, a, e).core; StrandOk(core', AfterHandler(strand, a.core, core'))
  {
    if e.Handler? {
      HandlerKeepsStrand(strand, a.core, e.e);
    } else {
      ChainMovesCore(isSsl, a, e);
      HandlerKeepsStrand(strand, a.core, OpenOk(0, true));
      HandlerKeepsStrand(strand, a.core, OpenErr);
    }
  }

  /** Outside the handlers sessions are only added, fresh, and told to close. */
  lemma OthersKeepStrands(s: ClientImpl.State, strands: map<nat, Strand>, c: ClientImpl.Event, offered: seq<Job>)
    requires ClientImpl.Enabled(s, c) && !c.Strand? && StrandsOk(s.slots, strands) && Linked(strands, offered)
    ensures StrandsOk(ClientImpl.Step(s, c).slots, AddStrand(strands, s.slots, c))
    ensures Linked(AddStrand(strands, s.slots, c), offered)
  {
    var slots', strands' := ClientImpl.Step(s, c).slots, AddStrand(strands, s.slots, c);
    forall j: nat ensures StrandAt(slots', strands', j) {
      assert StrandAt(s.slots, strands, j);
    }
    if c.Install? {
      assert StrandAt(s.slots, strands, |s.slots|);
      SameCallsLinked(strands, |s.slots|, Strand(Idle, []), offered);
    }
  }

  lemma CallKeepsStrand(slots: seq<ClientImpl.Slot>, strands: map<nat, Strand>, i: nat, strand: Strand)
    requires StrandsOk(slots, strands) && i < |slots| && StrandOk(CoreOf(slots, i), strand)
    ensures StrandsOk(slots, strands[i := strand])
  {
    PutStrand(slots, strands, i, slots[i], strand);
    assert slots[i := slots[i]] == slots;
  }

  lemma HandlerStepKeepsInv(y: System, t: Step)
    requires Inv(y) && Enabled(y, t) && t.Handle?
    ensures Inv(Next(y, t))
  {
    var strand := AfterHandler(y.strands[t.i], CoreOf(y.client.slots, t.i), CoreAfter(y.client, t.i, t.e));
    assert ClientImpl.SlotAt(y.client, t.i) && StrandAt(y.client.slots, y.strands, t.i);
    ClientImpl.StepKeepsInv(y.client, ClientImpl.Strand(t.i, t.e));
    AdvanceRaises(y.client.isSsl, y.client.slots[t.i].attempt, t.e, y.strands[t.i]);
    PutStrand(y.client.slots, y.strands, t.i, ClientImpl.AfterHandler(y.client.isSsl, y.client.slots[t.i], t.e),
              strand);
    SameCallsLinked(y.strands, t.i, strand, y.out.offered);
  }

  lemma StepKeepsInv(y: System, t: Step)
    requires Inv(y) && Enabled(y, t)
    ensures Inv(Next(y, t))
  {
    match t
    case Handle(_, _) => HandlerStepKeepsInv(y, t);
    case OnClient(c) =>
      ClientImpl.StepKeepsInv(y.client, c);
      OthersKeepStrands(y.client, y.strands, c, y.out.offered);
    case Lookup(i, bound) =>
      assert StrandAt(y.client.slots, y.strands, i);
      LookedUpKeepsStrand(y.strands[i], CoreOf(y.client.slots, i), bound);
      CallKeepsStrand(y.client.slots, y.strands, i, LookedUp(y.strands[i], bound));
      SameCallsLinked(y.strands, i, LookedUp(y.strands[i], bound), y.out.offered);
    case PostCall(i) =>
      assert StrandAt(y.client.slots, y.strands, i);
      PostedKeepsStrand(y.strands[i], CoreOf(y.client.slots, i));
      CallKeepsStrand(y.client.slots, y.strands, i, Posted(y.strands[i]));
      PostLinked(y.strands, i, y.out, 0);
      PostKeepsOutbox(y.out, About(i, 0, y.strands[i].pc.notice));
    case OnQueue(q) =>
      MoveKeepsOutbox(y.out, q);
      OtherLinked(y.strands, y.out.offered);
  }

  lemma {:induction false} RunKeepsInv(y: System, run: seq<Step>)
    requires Inv(y) && Legal(y, run)
    ensures Inv(Run(y, run))
    decreases |run|
  {
    if run != [] {
      StepKeepsInv(y, run[0]);
      RunKeepsInv(Next(y, run[0]), run[1..]);
    }
  }

  // ----- What the application sees -----

  /** What a connect attempt has to tell: one disconnect if it failed; connect, the messages as received
      and one disconnect once the session went down if it succeeded. */
  function AttemptStory(a: ClientSession.Connect): seq<Notice> {
    if a.completions == [false] then [ConnectFailed]
    else if a.completions == [true] then
      [Up(0)] + SessionRuns.Messages(a.core.log.received) + (if a.core.m.open then [] else [Down(0)])
    else []
  }

  lemma AttemptTold(isSsl: bool, a: ClientSession.Connect, strand: Strand)
    requires ClientSession.Inv(isSsl, a) && StrandOk(a.core, strand)
    ensures Notices(strand.calls) <= AttemptStory(a)
    ensures strand.pc.Idle? && a.core.io.sink ==> Notices(strand.calls) == AttemptStory(a)
  {
    assert a.core.log.received == [] ==> SessionRuns.Messages(a.core.log.received) == [];
    assert SessionRuns.Story(a.core) == AttemptStory(a);
    CallsTellStory(a.core, strand);
  }

  /** End to end, in every interleaving of connects, handlers of old and new sessions, Close, Shutdown
      and the worker: for each session ever made, the callbacks the worker has entered are, in order, a
      prefix of those its strand posted, and the calls of its strand are, in order, its attempt's story.
      Nothing is lost on the way: a strand between handlers has reported the whole story, and a queue
      that runs dry unstopped has delivered every callback posted. */
  lemma DeliveredInOrder(isSsl: bool, run: seq<Step>, i: nat)
    requires Legal(Init(isSsl), run) && i < |Run(Init(isSsl), run).client.slots|
    ensures i in Run(Init(isSsl), run).strands
    ensures var y := Run(Init(isSsl), run);
            var a, strand := y.client.slots[i].attempt, y.strands[i];
            var delivered := Select(WorkQueue.Started(y.out.queue), From(i));
            && delivered <= PostedNotices(strand.calls)
            && (!y.out.queue.stopped && y.out.queue.queue == [] ==> delivered == PostedNotices(strand.calls))
            && Notices(strand.calls) <= AttemptStory(a)
            && (strand.pc.Idle? && a.core.io.sink ==> Notices(strand.calls) == AttemptStory(a))
  {
    RunKeepsInv(Init(isSsl), run);
    var y := Run(Init(isSsl), run);
    assert ClientImpl.SlotAt(y.client, i) && StrandAt(y.client.slots, y.strands, i);
    DeliveredFromOutbox(y.out, y.strands, i);
    AttemptTold(y.client.isSsl, y.client.slots[i].attempt, y.strands[i]);
  }

  /** So a session whose calls all found a callback set is delivered its attempt's story, or a prefix. */
  lemma FullyReportedAttempt(isSsl: bool, run: seq<Step>, i: nat)
    requires Legal(Init(isSsl), run) && i in Run(Init(isSsl), run).strands
    requires forall k :: 0 <= k < |Run(Init(isSsl), run).strands[i].calls| ==>
               Run(Init(isSsl), run).strands[i].calls[k].posted
    ensures var y := Run(Init(isSsl), run);
            && i < |y.client.slots|
            && Select(WorkQueue.Started(y.out.queue), From(i)) <= AttemptStory(y.client.slots[i].attempt)
  {
    RunKeepsInv(Init(isSsl), run);
    var y := Run(Init(isSsl), run);
    assert StrandAt(y.client.slots, y.strands, i);
    DeliveredInOrder(isSsl, run, i);
    AllPosted(y.strands[i].calls);
  }

  // ----- After shutdown -----

  lemma {:induction false} RunStaysSilent(y: System, run: seq<Step>, entered: seq<Job>, joined: bool)
    requires Silent(y.out, entered, joined) && Legal(y, run)
    ensures Silent(Run(y, run).out, entered, joined)
    decreases |run|
  {
    if run != [] {
      if run[0].OnQueue? {
        MoveStaysSilent(y.out, run[0].q, entered, joined);
      } else if run[0].PostCall? {
        PostStaysSilent(y.out, About(run[0].i, 0, y.strands[run[0].i].pc.notice), entered, joined);
      }
      RunStaysSilent(Next(y, run[0]), run[1..], entered, joined);
    }
  }

  /** All callbacks of a client go through the queue. So once Shutdown has stopped it no callback of any
      session is entered any more, whatever connects, handlers and closes still do, and once that Stop
      has returned to another thread none is running. */
  lemma NoCallbackAfterShutdown(isSsl: bool, before: seq<Step>, after: seq<Step>)
    requires Legal(Init(isSsl), before) && Run(Init(isSsl), before).out.queue.stopped
    requires Legal(Run(Init(isSsl), before), after)
    ensures var q, q' := Run(Init(isSsl), before).out.queue, Run(Run(Init(isSsl), before), after).out.queue;
            && WorkQueue.Started(q') == WorkQueue.Started(q)
            && (q.stopper.Returned? ==> WorkQueue.InFlight(q') == [])
  {
    RunKeepsInv(Init(isSsl), before);
    var y := Run(Init(isSsl), before);
    RunStaysSilent(y, after, WorkQueue.Started(y.out.queue), y.out.queue.stopper.Returned?);
  }
}
