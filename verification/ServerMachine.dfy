/** Sessions, registry and work queue together as one state machine. Sessions are told apart by handles,
    clients by ids, which repeat once the counter wraps around. */
module ServerMachine {
  import opened SessionSpec
  import opened Relay
  import opened ServerStrands
  import Registry
  import WorkQueue

  /** The Close calls that Stop and RemoveClient make on the sessions they took out. */
  datatype Closing = Closing(
    taken: set<nat>,          // taken out by a Stop or RemoveClient call, Close not called yet
    takenLast: set<nat>,      // the same for the Stop that Shutdown itself makes
    called: set<nat>)         // Close was called, which posts to the strand

  /** The connection-change callbacks that Stop and RemoveClient make, each right after a closed one. */
  datatype Changing = Changing(
    due: multiset<nat>,       // by a Stop or RemoveClient call, for clients just notified
    dueLast: multiset<nat>,   // the same for the Stop that Shutdown itself makes
    made: nat)

  datatype System = System(
    sessions: SessionMap,
    strands: StrandMap,
    registry: Registry.State,
    out: Outbox,
    told: multiset<nat>,      // closed notifications Stop and RemoveClient gave in their own thread
    closes: Closing,
    changes: Changing,
    displaced: set<nat>)      // history: the sessions that lost their entry to another session

  function Init(): System {
    System(map[], map[], Registry.Init(), Outbox(WorkQueue.Init(), []), multiset{}, Closing({}, {}, {}),
           Changing(multiset{}, multiset{}, 0), {})
  }

  datatype Step =
    | NewSession(sid: nat, maxBacklog: nat)
    | Handle(sid: nat, e: Event)                                          // any handler but a successful accept
    | Accept(sid: nat, path: string, isSsl: bool, bound: bool)            // a successful accept
    | Lookup(sid: nat, bound: bool)                                       // the lock section of a call
    | PostCall(sid: nat)
    | OnRegistry(r: Registry.Event)                                       // any other thread
    | CallClose(sid: nat, byShutdown: bool)
    | CallChange(id: nat, byShutdown: bool)
    | OnQueue(q: WorkQueue.Event<Job>)

  predicate StrandIdle(y: System, sid: nat) {
    sid in y.sessions && sid in y.strands && y.strands[sid].pc.Idle?
  }

  predicate StrandBusy(y: System, sid: nat) {
    sid in y.sessions && sid in y.strands && !y.strands[sid].pc.Idle?
  }

  /** Shutdown's own Stop is through: it cleared the registry, called Close on the sessions it took out
      and then notified their clients, the connection-change callbacks included. Only after that does
      Shutdown stop the queue. */
  predicate LastStopDone(r: Registry.State, c: Closing, g: Changing) {
    r.env.teardown.Cleared? && r.env.owing == multiset{} && c.takenLast == {} && g.dueLast == multiset{}
  }

  /** What RegisterWsClient answers a session: 0 to one it turns away, the counter's id to one it enters. */
  function Answer(r: Registry.State): Event {
    OpenOk(Registry.AnsweredId(r), !Registry.Rejects(r))
  }

  predicate Enabled(y: System, t: Step) {
    match t
    case NewSession(sid, _) => sid !in y.sessions && sid !in y.strands
    case Handle(sid, e) =>
      && StrandIdle(y, sid) && !e.OpenOk? && Outstanding(y.sessions[sid], e) && StickyStep(y.sessions[sid], e)
      && (e.Close? ==> sid in y.closes.called)
    case Accept(sid, _, _, _) =>
      StrandIdle(y, sid) && Outstanding(y.sessions[sid], Answer(y.registry))
    case Lookup(sid, _) => StrandBusy(y, sid) && y.strands[sid].pc.Calling?
    case PostCall(sid) => StrandBusy(y, sid) && y.strands[sid].pc.Posting?
    case OnRegistry(r) =>
      && !r.Register? && !r.WsClosed? && Registry.Enabled(y.registry, r)
      && (r.NotifyByShutdown? ==> y.closes.takenLast == {})
    case CallClose(sid, byShutdown) => sid in if byShutdown then y.closes.takenLast else y.closes.taken
    case CallChange(id, byShutdown) => id in if byShutdown then y.changes.dueLast else y.changes.due
    case OnQueue(q) => CanMove(y.out, q) && (q.Stop? ==> LastStopDone(y.registry, y.closes, y.changes))
  }

  /** The lock section of a call: a close takes the client out and posts only if it was still there. */
  predicate Binds(r: Registry.State, n: Notice, bound: bool) {
    bound && (n.Down? ==> n.id in r.clients)
  }

  predicate TakesOut(r: Registry.State, n: Notice) {
    n.Down? && n.id in r.clients
  }

  /** A client that a strand takes out is notified by the post that follows. */
  ghost function LockSection(r: Registry.State, n: Notice): Registry.State {
    if TakesOut(r, n) then Registry.GiveNotice(Registry.TakeOut(r, n.id), n.id) else r
  }

  function Handled(strand: Strand, s: State, e: Event): Strand
    requires Outstanding(s, e)
  {
    AfterHandler(strand, s, SessionSpec.Step(s, e))
  }

  /** The session after its accept. */
  function Accepted(s: State, r: Registry.State): State {
    OnOpen(s, Registry.AnsweredId(r), !Registry.Rejects(r))
  }

  function AcceptedStrand(strand: Strand, s: State, r: Registry.State, bound: bool): Strand {
    AfterAccept(strand, s, Accepted(s, r), bound)
  }

  ghost function AcceptedBy(r: Registry.State, s: State, sid: nat, path: string, isSsl: bool): Registry.State {
    if s.io.sink then Registry.Step(r, Registry.Register(sid, path, isSsl)) else r
  }

  function EntryOf(clients: map<nat, Registry.Entry>, c: nat): set<nat> {
    if c in clients then {clients[c].session} else {}
  }

  /** The session whose entry an accept overwrites. */
  function Overwritten(s: State, r: Registry.State): set<nat> {
    if s.io.sink && !Registry.Rejects(r) then EntryOf(r.clients, r.nextId) else {}
  }

  /** The session whose entry a call takes out. */
  function TakenWith(r: Registry.State, n: Notice): set<nat> {
    if TakesOut(r, n) then EntryOf(r.clients, n.id) else {}
  }

  function Sessions(clients: map<nat, Registry.Entry>): set<nat> {
    set id | id in clients :: clients[id].session
  }

  /** The sessions a lock section takes out. */
  function Takes(clients: map<nat, Registry.Entry>, e: Registry.Event): set<nat> {
    match e
    case Remove(id) => if id in clients then {clients[id].session} else {}
    case StopClear => Sessions(clients)
    case ShutdownClear => Sessions(clients)
    case _ => {}
  }

  function AfterSection(c: Closing, clients: map<nat, Registry.Entry>, e: Registry.Event): Closing {
    if e.ShutdownClear? then c.(takenLast := c.takenLast + Takes(clients, e))
    else c.(taken := c.taken + Takes(clients, e))
  }

  function AfterCall(c: Closing, sid: nat, byShutdown: bool): Closing {
    if byShutdown then Closing(c.taken, c.takenLast - {sid}, c.called + {sid})
    else Closing(c.taken - {sid}, c.takenLast, c.called + {sid})
  }

  /** A closed notification given in the calling thread. */
  function Tells(e: Registry.Event): multiset<nat> {
    match e
    case Notify(id) => multiset{id}
    case NotifyByShutdown(id) => multiset{id}
    case _ => multiset{}
  }

  /** The second callback of a notification follows it. */
  function AfterNotice(g: Changing, e: Registry.Event): Changing {
    if e.NotifyByShutdown? then g.(dueLast := g.dueLast + Tells(e)) else g.(due := g.due + Tells(e))
  }

  function AfterChange(g: Changing, id: nat, byShutdown: bool): Changing {
    if byShutdown then g.(dueLast := g.dueLast - multiset{id}, made := g.made + 1)
    else g.(due := g.due - multiset{id}, made := g.made + 1)
  }

  ghost function Next(y: System, t: Step): System
    requires Enabled(y, t)
  {
    match t
    case NewSession(sid, maxBacklog) =>
      y.(sessions := y.sessions[sid := SessionSpec.Init(Server(maxBacklog))],
         strands := y.strands[sid := Strand(Idle, [])])
    case Handle(sid, e) =>
      y.(sessions := y.sessions[sid := SessionSpec.Step(y.sessions[sid], e)],
         strands := y.strands[sid := Handled(y.strands[sid], y.sessions[sid], e)])
    case Accept(sid, path, isSsl, bound) =>
      y.(sessions := y.sessions[sid := Accepted(y.sessions[sid], y.registry)],
         strands := y.strands[sid := AcceptedStrand(y.strands[sid], y.sessions[sid], y.registry, bound)],
         registry := AcceptedBy(y.registry, y.sessions[sid], sid, path, isSsl),
         displaced := y.displaced + Overwritten(y.sessions[sid], y.registry))
    case Lookup(sid, bound) =>
      y.(strands := y.strands[sid := LookedUp(y.strands[sid], Binds(y.registry, y.strands[sid].pc.notice, bound))],
         registry := LockSection(y.registry, y.strands[sid].pc.notice),
         displaced := y.displaced + (TakenWith(y.registry, y.strands[sid].pc.notice) - {sid}))
    case PostCall(sid) =>
      y.(strands := y.strands[sid := Posted(y.strands[sid])],
         out := PostFor(y.out, y.strands[sid], sid, y.sessions[sid].m.clientId))
    case OnRegistry(r) =>
      y.(registry := Registry.Step(y.registry, r), told := y.told + Tells(r),
         closes := AfterSection(y.closes, y.registry.clients, r), changes := AfterNotice(y.changes, r))
    case CallClose(sid, byShutdown) => y.(closes := AfterCall(y.closes, sid, byShutdown))
    case CallChange(id, byShutdown) => y.(changes := AfterChange(y.changes, id, byShutdown))
    case OnQueue(q) => y.(out := Move(y.out, q))
  }

  ghost predicate Legal(y: System, run: seq<Step>)
    decreases |run|
  {
    run == [] || (Enabled(y, run[0]) && Legal(Next(y, run[0]), run[1..]))
  }

  ghost function Run(y: System, run: seq<Step>): System
    requires Legal(y, run)
    decreases |run|
  {
    if run == [] then y else Run(Next(y, run[0]), run[1..])
  }

  lemma RunOne(y: System, t: Step)
    requires Enabled(y, t)
    ensures Legal(y, [t]) && Run(y, [t]) == Next(y, t)
  {
    assert Legal(Next(y, t), [t][1..]);
  }

  lemma {:induction false} RunConcat(y: System, a: seq<Step>, b: seq<Step>)
    requires Legal(y, a) && Legal(Run(y, a), b)
    ensures Legal(y, a + b) && Run(y, a + b) == Run(Run(y, a), b)
    decreases |a|
  {
    if a == [] {
      assert a + b == b;
    } else {
      assert (a + b)[1..] == a[1..] + b;
      RunConcat(Next(y, a[0]), a[1..], b);
    }
  }

  lemma Extend(run: seq<Step>, t: Step) returns (run': seq<Step>)
    requires Legal(Init(), run) && Enabled(Run(Init(), run), t)
    ensures Legal(Init(), run') && Run(Init(), run') == Next(Run(Init(), run), t)
  {
    RunOne(Run(Init(), run), t);
    RunConcat(Init(), run, [t]);
    run' := run + [t];
  }
}
