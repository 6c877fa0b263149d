/** The server's client registry: the state its mutex guards, changed by one lock section at a
    time from many threads, with the notifications those sections owe. */
module Registry {
  import opened Routing

  /** Ids are unsigned 32-bit. */
  const WRAP: nat := 0x1_0000_0000

  datatype Entry = Entry(session: nat, uri: string, isSsl: bool)

  /** How far Shutdown got: not called, past its flag, past the lock section of its Stop. */
  datatype Teardown = NotBegun | Flagged | Cleared

  /** History. */
  datatype Log = Log(
    registered: seq<nat>,     // ids registered as websocket clients, in order
    taken: seq<nat>,          // how many ids had been taken from the counter before each of them
    notified: seq<nat>,       // closed notifications given, in order
    lost: multiset<nat>,      // registrations overwritten while live
    stale: multiset<string>)  // the uris of those overwritten since the registry was last cleared

  /** What is not in a field: Start calls past their shutdown check, and what is owed. */
  datatype Outside = Outside(
    starting: nat,
    teardown: Teardown,
    issued: nat,              // ids taken from the counter, by clients and http requests
    pending: multiset<nat>,   // removed by a Stop or RemoveClient call, closed notification not yet given
    owing: multiset<nat>)     // the same for the Stop that Shutdown itself makes

  datatype State = State(
    shutdown: bool,                 // mShutdown
    acceptor: bool,                 // mAcceptor is set
    port: nat,                      // mPort
    nextId: nat,                    // mNextConnectionId
    clients: map<nat, Entry>,       // mClients
    uris: set<string>,              // the keys of mUris
    counts: map<string, nat>,       // mUriCounts
    env: Outside,
    log: Log)

  function Init(): State {
    State(false, false, 0, 1, map[], {}, map[], Outside(0, NotBegun, 0, multiset{}, multiset{}),
          Log([], [], [], multiset{}, multiset{}))
  }

  /** One lock section, or one of the steps outside the lock that matter. */
  datatype Event =
    | StartCheck | StartInstall(port: nat)
    | ShutdownFlag | ShutdownClear
    | StopClear
    | Remove(id: nat)
    | Register(session: nat, path: string, isSsl: bool)
    | WsClosed(id: nat)
    | Notify(id: nat)
    | NotifyByShutdown(id: nat)
    | AddUri(uri: string) | RemoveUri(uri: string)
    | TakeId

  predicate Enabled(s: State, e: Event) {
    match e
    case StartInstall(port) => s.env.starting > 0 && port > 0
    case ShutdownClear => s.env.teardown.Flagged?
    case Notify(id) => id in s.env.pending
    case NotifyByShutdown(id) => id in s.env.owing
    case _ => true
  }

  // ----- Lock sections -----

  function Count(counts: map<string, nat>, uri: string): nat {
    if uri in counts then counts[uri] else 0
  }

  function Decrement(counts: map<string, nat>, uri: string): map<string, nat> {
    if uri == "" || uri !in counts || counts[uri] == 0 then counts else counts[uri := counts[uri] - 1]
  }

  function Increment(counts: map<string, nat>, uri: string): map<string, nat> {
    if uri == "" then counts else counts[uri := Count(counts, uri) + 1]
  }

  function Emptied(s: State, env: Outside): State {
    s.(acceptor := false, port := 0, clients := map[], counts := map[], env := env,
       log := s.log.(stale := multiset{}))
  }

  function Clear(s: State): State {
    Emptied(s, s.env.(pending := s.env.pending + multiset(s.clients.Keys)))
  }

  /** The lock section of Shutdown's own Stop. */
  function LastClear(s: State): State {
    Emptied(s, s.env.(owing := s.env.owing + multiset(s.clients.Keys), teardown := Cleared))
  }

  function TakeOut(s: State, id: nat): State
    requires id in s.clients
  {
    s.(clients := s.clients - {id}, counts := Decrement(s.counts, s.clients[id].uri),
       env := s.env.(pending := s.env.pending + multiset{id}))
  }

  /** Whether a registration is turned away (the session then gets the id 0). */
  predicate Rejects(s: State) {
    s.shutdown || !s.acceptor
  }

  function NextId(id: nat): nat {
    (id + 1) % WRAP
  }

  /** The entry a registration under id overwrites, if any. */
  function Overwrites(clients: map<nat, Entry>, id: nat): multiset<nat> {
    if id in clients then multiset{id} else multiset{}
  }

  function OverwritesUri(clients: map<nat, Entry>, id: nat): multiset<string> {
    if id in clients then multiset{clients[id].uri} else multiset{}
  }

  function Registered(log: Log, clients: map<nat, Entry>, id: nat, issued: nat): Log {
    Log(log.registered + [id], log.taken + [issued], log.notified, log.lost + Overwrites(clients, id),
        log.stale + OverwritesUri(clients, id))
  }

  function Enter(s: State, entry: Entry): State {
    s.(nextId := NextId(s.nextId), clients := s.clients[s.nextId := entry], counts := Increment(s.counts, entry.uri),
       env := s.env.(issued := s.env.issued + 1), log := Registered(s.log, s.clients, s.nextId, s.env.issued))
  }

  function BeginStart(s: State): State {
    if s.shutdown then s else s.(env := s.env.(starting := s.env.starting + 1))
  }

  function Install(s: State, port: nat): State
    requires s.env.starting > 0
  {
    if s.acceptor then s.(env := s.env.(starting := s.env.starting - 1))
    else s.(acceptor := true, port := port, env := s.env.(starting := s.env.starting - 1))
  }

  function Flag(s: State): State {
    if s.shutdown then s else s.(shutdown := true, env := s.env.(teardown := Flagged))
  }

  function Notified(log: Log, id: nat): Log {
    log.(notified := log.notified + [id])
  }

  function GiveNotice(s: State, id: nat): State {
    s.(env := s.env.(pending := s.env.pending - multiset{id}), log := Notified(s.log, id))
  }

  function GiveLastNotice(s: State, id: nat): State {
    s.(env := s.env.(owing := s.env.owing - multiset{id}), log := Notified(s.log, id))
  }

  ghost function Step(s: State, e: Event): State
    requires Enabled(s, e)
  {
    match e
    case StartCheck => BeginStart(s)
    case StartInstall(port) => Install(s, port)
    case ShutdownFlag => Flag(s)
    case ShutdownClear => LastClear(s)
    case StopClear => Clear(s)
    case Remove(id) => if id in s.clients then TakeOut(s, id) else s
    case Register(session, path, isSsl) =>
      if Rejects(s) then s else Enter(s, Entry(session, Route(s.uris, path), isSsl))
    case WsClosed(id) => if id in s.clients then TakeOut(s, id) else s
    case Notify(id) => GiveNotice(s, id)
    case NotifyByShutdown(id) => GiveLastNotice(s, id)
    case AddUri(uri) => s.(uris := s.uris + {uri})
    case RemoveUri(uri) => s.(uris := s.uris - {uri})
    case TakeId => s.(nextId := NextId(s.nextId), env := s.env.(issued := s.env.issued + 1))
  }

  ghost predicate Legal(s: State, run: seq<Event>)
    decreases |run|
  {
    run == [] || (Enabled(s, run[0]) && Legal(Step(s, run[0]), run[1..]))
  }

  ghost function Run(s: State, run: seq<Event>): State
    requires Legal(s, run)
    decreases |run|
  {
    if run == [] then s else Run(Step(s, run[0]), run[1..])
  }

  // ----- What a registration files -----

  /** A registration files the session, under the counter's id, with the longest registered match of its
      path, and touches no other entry; one that is turned away files nothing. */
  lemma RegisterFilesTheRoute(s: State, session: nat, path: string, isSsl: bool)
    ensures var clients := Step(s, Register(session, path, isSsl)).clients;
            if Rejects(s) then clients == s.clients
            else
              && s.nextId in clients && clients[s.nextId].session == session && clients[s.nextId].isSsl == isSsl
              && IsRoute(s.uris, path, clients[s.nextId].uri)
              && clients.Keys == s.clients.Keys + {s.nextId}
              && forall c :: c in s.clients && c != s.nextId ==> clients[c] == s.clients[c]
  {
  }

  /** Whether uri is registered after some registrations and removals. */
  function StillAdded(run: seq<Event>, uri: string, before: bool): bool {
    if run == [] then before
    else StillAdded(run[1..], uri, run[0] == AddUri(uri) || (before && run[0] != RemoveUri(uri)))
  }

  /** In every run the registered uris are those added and not removed since. */
  lemma {:induction false} UrisAreThoseStillAdded(s: State, run: seq<Event>, uri: string)
    requires Legal(s, run)
    ensures uri in Run(s, run).uris <==> StillAdded(run, uri, uri in s.uris)
    decreases |run|
  {
    if run != [] {
      UrisAreThoseStillAdded(Step(s, run[0]), run[1..], uri);
    }
  }

  // ----- The uri counts -----

  function Members(clients: map<nat, Entry>, uri: string): set<nat> {
    set id | id in clients && clients[id].uri == uri
  }

  /** The count of uri is the number of its clients, and those overwritten while live since. */
  ghost predicate CountAt(s: State, uri: string) {
    uri != "" ==> Count(s.counts, uri) == |Members(s.clients, uri)| + s.log.stale[uri]
  }

  /** The derived index is right: each non-empty uri's count is the number of its clients. */
  ghost predicate CountsRight(s: State) {
    forall uri {:trigger Members(s.clients, uri)} :: uri != "" ==> Count(s.counts, uri) == |Members(s.clients, uri)|
  }

  lemma MemberCountAfterEnter(clients: map<nat, Entry>, id: nat, entry: Entry, uri: string)
    ensures |Members(clients[id := entry], uri)| + (if id in clients && clients[id].uri == uri then 1 else 0)
            == |Members(clients, uri)| + (if entry.uri == uri then 1 else 0)
  {
    var m := Members(clients, uri);
    assert Members(clients[id := entry], uri) == if entry.uri == uri then m + {id} else m - {id};
    if id in clients && clients[id].uri == uri {
      assert id in m;
      assert m + {id} == m;
    } else {
      assert id !in m;
      assert m - {id} == m;
    }
  }

  lemma MemberCountAfterTakeOut(clients: map<nat, Entry>, id: nat, uri: string)
    requires id in clients
    ensures |Members(clients - {id}, uri)| == |Members(clients, uri)| - (if clients[id].uri == uri then 1 else 0)
  {
    var m := Members(clients, uri);
    assert Members(clients - {id}, uri) == m - {id};
    assert clients[id].uri == uri <==> id in m;
  }

  /** Registering keeps the counts right exactly when the id taken from the counter is not still in
      use by a client with a registered uri, as it can be once the counter has wrapped around. */
  lemma EnterKeepsCountsExactlyOnFreshId(s: State, entry: Entry)
    requires CountsRight(s)
    ensures CountsRight(Enter(s, entry)) <==> s.nextId !in s.clients || s.clients[s.nextId].uri == ""
  {
    var s' := Enter(s, entry);
    forall uri | uri != ""
      ensures Count(s'.counts, uri)
              == |Members(s'.clients, uri)| + if s.nextId in s.clients && s.clients[s.nextId].uri == uri then 1 else 0
    {
      assert Count(s.counts, uri) == |Members(s.clients, uri)|;
      MemberCountAfterEnter(s.clients, s.nextId, entry, uri);
    }
    if s.nextId in s.clients && s.clients[s.nextId].uri != "" {
      assert |Members(s'.clients, s.clients[s.nextId].uri)| != Count(s'.counts, s.clients[s.nextId].uri);
    }
  }

  lemma StepKeepsCount(s: State, e: Event, uri: string)
    requires Enabled(s, e) && CountAt(s, uri)
    ensures CountAt(Step(s, e), uri)
  {
    match e
    case Register(session, path, isSsl) =>
      MemberCountAfterEnter(s.clients, s.nextId, Entry(session, Route(s.uris, path), isSsl), uri);
    case Remove(id) => if id in s.clients { TakeOutKeepsCount(s, id, uri); }
    case WsClosed(id) => if id in s.clients { TakeOutKeepsCount(s, id, uri); }
    case StopClear => assert Members(map[], uri) == {};
    case ShutdownClear => assert Members(map[], uri) == {};
    case _ =>
  }

  lemma TakeOutKeepsCount(s: State, id: nat, uri: string)
    requires id in s.clients && CountAt(s, uri)
    ensures CountAt(TakeOut(s, id), uri)
  {
    MemberCountAfterTakeOut(s.clients, id, uri);
    if s.clients[id].uri == uri {
      assert id in Members(s.clients, uri);
    }
  }

  // ----- Closed notifications -----

  /** How often c is owed a closed notification. */
  ghost function Owed(s: State, c: nat): nat {
    s.env.pending[c] + s.env.owing[c]
  }

  /** How often c is live, owed a notification, or notified. */
  ghost function Places(s: State, c: nat): nat {
    (if c in s.clients then 1 else 0) + Owed(s, c) + multiset(s.log.notified)[c]
  }

  /** The registrations under c are the live one, those owed a notification, those notified, and those
      overwritten while live. */
  ghost predicate PlacedAt(s: State, c: nat) {
    && multiset(s.log.registered)[c] == Places(s, c) + s.log.lost[c]
    && (s.log.lost[c] > 0 ==> Places(s, c) > 0)
  }

  /** Every registration is accounted for. */
  ghost predicate Balanced(s: State) {
    forall c {:trigger Places(s, c)} :: multiset(s.log.registered)[c] == Places(s, c)
  }

  lemma EnterPlaces(s: State, entry: Entry, c: nat)
    ensures var s' := Enter(s, entry);
            && multiset(s'.log.registered)[c] == multiset(s.log.registered)[c] + (if c == s.nextId then 1 else 0)
            && Places(s', c) == Places(s, c) + (if c == s.nextId && c !in s.clients then 1 else 0)
  {
    assert multiset(s.log.registered + [s.nextId]) == multiset(s.log.registered) + multiset{s.nextId};
  }

  lemma NoticePlaces(s: State, id: nat, c: nat)
    ensures id in s.env.pending ==> Places(GiveNotice(s, id), c) == Places(s, c)
    ensures id in s.env.owing ==> Places(GiveLastNotice(s, id), c) == Places(s, c)
  {
    assert multiset(s.log.notified + [id]) == multiset(s.log.notified) + multiset{id};
  }

  lemma TakeOutPlaces(s: State, id: nat, c: nat)
    requires id in s.clients
    ensures Places(TakeOut(s, id), c) == Places(s, c)
  {
  }

  lemma ClearPlaces(s: State, c: nat)
    ensures Places(Clear(s), c) == Places(s, c) && Places(LastClear(s), c) == Places(s, c)
  {
  }

  lemma OthersPlaces(s: State, e: Event, c: nat)
    requires Enabled(s, e) && (e.Register? ==> Rejects(s))
    ensures Places(Step(s, e), c) == Places(s, c)
  {
    match e
    case Notify(id) => NoticePlaces(s, id, c);
    case NotifyByShutdown(id) => NoticePlaces(s, id, c);
    case Remove(id) => if id in s.clients { TakeOutPlaces(s, id, c); }
    case WsClosed(id) => if id in s.clients { TakeOutPlaces(s, id, c); }
    case StopClear => ClearPlaces(s, c);
    case ShutdownClear => ClearPlaces(s, c);
    case _ =>
  }

  lemma StepKeepsPlaced(s: State, e: Event, c: nat)
    requires Enabled(s, e) && PlacedAt(s, c)
    ensures PlacedAt(Step(s, e), c)
  {
    if e.Register? && !Rejects(s) {
      EnterPlaces(s, Entry(e.session, Route(s.uris, e.path), e.isSsl), c);
    } else {
      OthersLog(s, e);
      OthersPlaces(s, e, c);
    }
  }

  /** Entering a client keeps the account balanced exactly when the id it is given is not in use. */
  lemma EnterBalancedExactlyOnFreshId(s: State, entry: Entry)
    requires Balanced(s)
    ensures Balanced(Enter(s, entry)) <==> s.nextId !in s.clients
  {
    var s' := Enter(s, entry);
    forall c
      ensures multiset(s'.log.registered)[c] - Places(s', c) == if c == s.nextId && c in s.clients then 1 else 0
    {
      assert multiset(s.log.registered)[c] == Places(s, c);
      EnterPlaces(s, entry, c);
    }
    if s.nextId in s.clients {
      assert multiset(s'.log.registered)[s.nextId] != Places(s', s.nextId);
    }
  }

  // ----- Ids -----

  /** What RegisterWsClient answers. */
  function AnsweredId(s: State): nat {
    if Rejects(s) then 0 else s.nextId
  }

  function IdAfter(taken: nat): nat {
    (1 + taken) % WRAP
  }

  /** The ids registered, in order, are those the counter stood at, each later than the one before. */
  ghost predicate IdsOk(log: Log, issued: nat) {
    && |log.taken| == |log.registered|
    && (forall i :: 0 <= i < |log.taken| ==> log.taken[i] < issued && log.registered[i] == IdAfter(log.taken[i]))
    && (forall i, j :: 0 <= i < j < |log.taken| ==> log.taken[i] < log.taken[j])
  }

  lemma SameIdExactly(a: nat, b: nat)
    requires a < b
    ensures IdAfter(a) == IdAfter(b) <==> (b - a) % WRAP == 0
  {
    var q, r := (1 + a) / WRAP, IdAfter(a);
    var d, m := (b - a) / WRAP, (b - a) % WRAP;
    assert 1 + a == WRAP * q + r && b - a == WRAP * d + m;
    assert 1 + b == WRAP * (q + d) + (r + m);
    if r + m < WRAP {
      assert IdAfter(b) == r + m;
    } else {
      assert 1 + b == WRAP * (q + d + 1) + (r + m - WRAP);
      assert IdAfter(b) == r + m - WRAP;
    }
  }

  lemma WrapsAt(issued: nat)
    ensures (1 + issued) % WRAP == 0 <==> issued % WRAP == WRAP - 1
  {
    var r := issued % WRAP;
    assert issued == WRAP * (issued / WRAP) + r;
    if r == WRAP - 1 {
      assert 1 + issued == WRAP * (issued / WRAP + 1);
    } else {
      assert 1 + issued == WRAP * (issued / WRAP) + (1 + r);
    }
  }

  // ----- What every step keeps -----

  ghost predicate Lifecycle(s: State) {
    && (!s.acceptor ==> s.clients == map[] && s.counts == map[] && s.port == 0)
    && (s.acceptor ==> s.port > 0)
    && "" !in s.counts
    && (s.shutdown <==> !s.env.teardown.NotBegun?)
    && (if s.env.teardown.Cleared? then s.clients == map[] else s.env.owing == multiset{})
    && s.nextId == IdAfter(s.env.issued)
  }

  ghost predicate Placed(s: State) {
    forall c :: PlacedAt(s, c)
  }

  ghost predicate Counted(s: State) {
    forall uri :: CountAt(s, uri)
  }

  ghost predicate Sound(s: State) {
    Lifecycle(s) && LogOk(s.log, s.env.issued) && Placed(s) && Counted(s)
  }

  lemma EnterKeepsLifecycle(s: State, entry: Entry)
    requires Lifecycle(s) && !Rejects(s)
    ensures Lifecycle(Enter(s, entry))
  {
  }

  lemma TakeOutKeepsLifecycle(s: State, id: nat)
    requires Lifecycle(s) && id in s.clients
    ensures Lifecycle(TakeOut(s, id))
  {
  }

  lemma StepKeepsLifecycle(s: State, e: Event)
    requires Lifecycle(s) && Enabled(s, e)
    ensures Lifecycle(Step(s, e))
    ensures s.env.issued <= Step(s, e).env.issued
    ensures s.env.teardown.Cleared? ==> Step(s, e).env.teardown.Cleared?
  {
    match e
    case Register(session, path, isSsl) =>
      if !Rejects(s) {
        EnterKeepsLifecycle(s, Entry(session, Route(s.uris, path), isSsl));
      }
    case Remove(id) => if id in s.clients { TakeOutKeepsLifecycle(s, id); }
    case WsClosed(id) => if id in s.clients { TakeOutKeepsLifecycle(s, id); }
    case _ =>
  }

  ghost predicate LogOk(log: Log, issued: nat) {
    IdsOk(log, issued) && (log.lost == multiset{} ==> log.stale == multiset{})
  }

  lemma RegisteredKeepsLog(log: Log, clients: map<nat, Entry>, id: nat, issued: nat)
    requires LogOk(log, issued) && id == IdAfter(issued)
    ensures LogOk(Registered(log, clients, id, issued), issued + 1)
  {
    if id in clients {
      assert id in log.lost + Overwrites(clients, id);
    }
  }

  lemma OthersKeepLog(log: Log, log': Log, issued: nat, issued': nat)
    requires LogOk(log, issued) && issued <= issued'
    requires log'.registered == log.registered && log'.taken == log.taken
    requires log'.lost == log.lost && (log'.stale == log.stale || log'.stale == multiset{})
    ensures LogOk(log', issued')
  {
  }

  /** A step that registers nobody. */
  lemma OthersLog(s: State, e: Event)
    requires Enabled(s, e) && (e.Register? ==> Rejects(s))
    ensures var s' := Step(s, e);
            && s'.log.registered == s.log.registered && s'.log.taken == s.log.taken && s'.log.lost == s.log.lost
            && (s'.log.stale == s.log.stale || s'.log.stale == multiset{})
            && s.env.issued <= s'.env.issued
  {
  }

  lemma StepKeepsLog(s: State, e: Event)
    requires s.nextId == IdAfter(s.env.issued) && LogOk(s.log, s.env.issued) && Enabled(s, e)
    ensures LogOk(Step(s, e).log, Step(s, e).env.issued)
  {
    if e.Register? && !Rejects(s) {
      RegisteredKeepsLog(s.log, s.clients, s.nextId, s.env.issued);
    } else {
      OthersLog(s, e);
      OthersKeepLog(s.log, Step(s, e).log, s.env.issued, Step(s, e).env.issued);
    }
  }

  lemma StepKeepsSound(s: State, e: Event)
    requires Sound(s) && Enabled(s, e)
    ensures Sound(Step(s, e))
  {
    StepKeepsLifecycle(s, e);
    StepKeepsLog(s, e);
    forall c ensures PlacedAt(Step(s, e), c) {
      assert PlacedAt(s, c);
      StepKeepsPlaced(s, e, c);
    }
    forall uri ensures CountAt(Step(s, e), uri) {
      assert CountAt(s, uri);
      StepKeepsCount(s, e, uri);
    }
  }

  lemma InitIsSound()
    ensures Sound(Init())
  {
    assert forall uri :: Members(Init().clients, uri) == {};
  }

  lemma {:induction false} RunKeepsSound(s: State, run: seq<Event>)
    requires Sound(s) && Legal(s, run)
    ensures Sound(Run(s, run))
    decreases |run|
  {
    if run != [] {
      StepKeepsSound(s, run[0]);
      RunKeepsSound(Step(s, run[0]), run[1..]);
    }
  }

  /** In every run: without an acceptor there are no clients, no counts and no port; and once
      Shutdown's Stop has cleared the registry it stays empty, whatever a racing Start installs. */
  lemma {:induction false} LifecycleHolds(s: State, run: seq<Event>)
    requires Lifecycle(s) && Legal(s, run)
    ensures Lifecycle(Run(s, run))
    ensures s.env.teardown.Cleared? ==> Run(s, run).env.teardown.Cleared? && Run(s, run).clients == map[]
    decreases |run|
  {
    if run != [] {
      StepKeepsLifecycle(s, run[0]);
      LifecycleHolds(Step(s, run[0]), run[1..]);
    }
  }

  // ----- Whole runs -----

  /** Conservation of closed notifications, at every point of every interleaving of registrations,
      closes, removals, stops, restarts and shutdown, with no bound on the ids taken: the registrations
      under an id are the live one, those owed a notification, those notified, and those overwritten
      while live. So no id is notified more often than it was registered, and a client whose id was given
      to no one else is in exactly one place. */
  lemma ExactlyOneClosedNotice(run: seq<Event>, c: nat)
    requires Legal(Init(), run)
    ensures var s := Run(Init(), run);
            var registered := multiset(s.log.registered)[c];
            && registered == Places(s, c) + s.log.lost[c]
            && Owed(s, c) + multiset(s.log.notified)[c] <= registered
            && (registered == 1 ==> Places(s, c) == 1)
            && (registered > 0 ==> Places(s, c) > 0)
  {
    InitIsSound();
    RunKeepsSound(Init(), run);
    assert PlacedAt(Run(Init(), run), c);
  }

  /** Some registration of the run is given the id of a client still live, whose entry it overwrites. */
  ghost predicate ReusesLiveId(s: State, run: seq<Event>)
    requires Legal(s, run)
    decreases |run|
  {
    run != [] && ((run[0].Register? && !Rejects(s) && s.nextId in s.clients) || ReusesLiveId(Step(s, run[0]), run[1..]))
  }

  lemma {:induction false} LosesExactlyOnReuse(s: State, run: seq<Event>)
    requires Legal(s, run)
    ensures s.log.lost <= Run(s, run).log.lost
    ensures Run(s, run).log.lost == s.log.lost <==> !ReusesLiveId(s, run)
    decreases |run|
  {
    if run != [] {
      var s' := Step(s, run[0]);
      LosesExactlyOnReuse(s', run[1..]);
      if run[0].Register? && !Rejects(s) && s.nextId in s.clients {
        assert s'.log.lost[s.nextId] == s.log.lost[s.nextId] + 1;
      } else {
        assert s'.log.lost == s.log.lost;
      }
    }
  }

  /** A run loses a closed notification exactly when one of its registrations takes a live id. */
  lemma NoticeLostExactlyOnReuse(run: seq<Event>)
    requires Legal(Init(), run)
    ensures !Balanced(Run(Init(), run)) <==> ReusesLiveId(Init(), run)
  {
    var s := Run(Init(), run);
    InitIsSound();
    RunKeepsSound(Init(), run);
    LosesExactlyOnReuse(Init(), run);
    assert s.log.lost == multiset{} <==> !ReusesLiveId(Init(), run);
    LostExactly(s);
  }

  lemma LostExactly(s: State)
    requires Placed(s)
    ensures Balanced(s) <==> s.log.lost == multiset{}
  {
    if s.log.lost != multiset{} {
      var c :| c in s.log.lost;
      assert PlacedAt(s, c);
      assert multiset(s.log.registered)[c] != Places(s, c);
    } else {
      forall c ensures multiset(s.log.registered)[c] == Places(s, c) {
        assert PlacedAt(s, c);
      }
    }
  }

  lemma IdsAreDistinct(log: Log, issued: nat)
    requires IdsOk(log, issued) && issued < WRAP
    ensures 0 !in log.registered
    ensures forall c :: multiset(log.registered)[c] <= 1
  {
    forall c ensures multiset(log.registered)[c] <= 1 {
      if multiset(log.registered)[c] > 1 {
        var i, j := CountedIsTwice(log.registered, c);
        SameIdExactly(log.taken[i], log.taken[j]);
      }
    }
  }

  /** A server whose counter has not come round: ids are distinct and never 0, nothing was overwritten,
      and every count is right. */
  lemma NothingIsLostBelowWrap(s: State)
    requires Sound(s) && s.env.issued < WRAP
    ensures s.log.lost == multiset{} && Balanced(s) && CountsRight(s)
    ensures 0 !in s.log.registered
    ensures forall c :: multiset(s.log.registered)[c] <= 1
  {
    IdsAreDistinct(s.log, s.env.issued);
    forall c ensures s.log.lost[c] == 0 {
      assert PlacedAt(s, c);
    }
    assert s.log.lost == multiset{};
    LostExactly(s);
    forall uri | uri != "" ensures Count(s.counts, uri) == |Members(s.clients, uri)| {
      assert CountAt(s, uri);
    }
  }

  /** Positions i and j of the ids registered hold c. */
  ghost predicate HeldTwice(ids: seq<nat>, c: nat, i: nat, j: nat) {
    i < j < |ids| && ids[i] == c && ids[j] == c
  }

  lemma {:induction false} CountedIsTwice(ids: seq<nat>, c: nat) returns (i: nat, j: nat)
    requires multiset(ids)[c] > 1
    ensures HeldTwice(ids, c, i, j)
    decreases |ids|
  {
    var front, last := ids[..|ids| - 1], ids[|ids| - 1];
    assert ids == front + [last];
    if last == c {
      assert c in multiset(front);
      i :| i < |front| && front[i] == c;
      j := |front|;
    } else {
      i, j := CountedIsTwice(front, c);
    }
  }

  lemma TwiceIsCounted(ids: seq<nat>, c: nat, i: nat, j: nat)
    requires HeldTwice(ids, c, i, j)
    ensures multiset(ids)[c] > 1
  {
    var a, b := ids[..j], ids[j..];
    assert ids == a + b;
    assert a[i] == c && b[0] == c;
  }

  /** A run that takes fewer than 2^32 ids meets every condition above: no live id is taken, ids are
      distinct and never 0, no notification is lost and every count is right. */
  lemma BelowWrapNothingIsLost(run: seq<Event>)
    requires Legal(Init(), run) && Run(Init(), run).env.issued < WRAP
    ensures var s := Run(Init(), run);
            && !ReusesLiveId(Init(), run)
            && Balanced(s) && CountsRight(s)
            && 0 !in s.log.registered
            && forall c :: multiset(s.log.registered)[c] <= 1
  {
    InitIsSound();
    RunKeepsSound(Init(), run);
    NothingIsLostBelowWrap(Run(Init(), run));
    LosesExactlyOnReuse(Init(), run);
  }

  /** The index against Broadcast's scan, in every run: the count of a non-empty uri is the number of
      its clients plus those overwritten while live since the last clear, so the index answers like the
      scan exactly when there are none of these, or a client to reach anyway. */
  lemma IndexAgreesWithScan(run: seq<Event>, uri: string)
    requires Legal(Init(), run) && uri != ""
    ensures var s := Run(Init(), run);
            var reached := exists id :: id in s.clients && s.clients[id].uri == uri;
            && Count(s.counts, uri) == |Members(s.clients, uri)| + s.log.stale[uri]
            && ((Count(s.counts, uri) > 0 <==> reached) <==> reached || s.log.stale[uri] == 0)
  {
    InitIsSound();
    RunKeepsSound(Init(), run);
    assert CountAt(Run(Init(), run), uri);
    SomeMember(Run(Init(), run).clients, uri);
  }

  lemma SomeMember(clients: map<nat, Entry>, uri: string)
    ensures |Members(clients, uri)| > 0 <==> exists id :: id in clients && clients[id].uri == uri
  {
    if id :| id in clients && clients[id].uri == uri {
      assert id in Members(clients, uri);
    }
    if |Members(clients, uri)| > 0 {
      var id :| id in Members(clients, uri);
      assert id in clients && clients[id].uri == uri;
    }
  }

  /** In every run, whatever the ids: a client's uri has a positive count, so the decrement's guard is
      never taken for a client being removed. */
  lemma CountedWhilePresent(run: seq<Event>, id: nat)
    requires Legal(Init(), run)
    requires var s := Run(Init(), run); id in s.clients && s.clients[id].uri != ""
    ensures var s := Run(Init(), run);
            var uri := s.clients[id].uri;
            && uri in s.counts && s.counts[uri] > 0
            && Count(Decrement(s.counts, uri), uri) == Count(s.counts, uri) - 1
  {
    IndexAgreesWithScan(run, Run(Init(), run).clients[id].uri);
    assert id in Members(Run(Init(), run).clients, Run(Init(), run).clients[id].uri);
  }

  /** In every run, two registrations get the same id exactly when a multiple of 2^32 ids was taken
      from the first to the second; so while fewer are taken every id is unique. */
  lemma IdsRepeatExactlyAcrossWraps(run: seq<Event>, i: nat, j: nat)
    requires Legal(Init(), run) && i < j < |Run(Init(), run).log.registered|
    ensures var ids, taken := Run(Init(), run).log.registered, Run(Init(), run).log.taken;
            && |taken| == |ids| && taken[i] < taken[j]
            && (ids[i] == ids[j] <==> (taken[j] - taken[i]) % WRAP == 0)
  {
    InitIsSound();
    RunKeepsSound(Init(), run);
    SameIdExactly(Run(Init(), run).log.taken[i], Run(Init(), run).log.taken[j]);
  }

  /** The id 0 tells a session that it was turned away. After every run it is answered exactly then and,
      the counter being unchecked, to a client entered when the ids taken are one short of a multiple of
      2^32: that client is in the registry, under 0. */
  lemma ZeroIsAnsweredExactly(run: seq<Event>, session: nat, path: string, isSsl: bool)
    requires Legal(Init(), run)
    ensures var s := Run(Init(), run);
            && (AnsweredId(s) == 0 <==> Rejects(s) || s.env.issued % WRAP == WRAP - 1)
            && (!Rejects(s) && AnsweredId(s) == 0 ==>
                  var s' := Step(s, Register(session, path, isSsl));
                  0 in s'.clients && s'.clients[0].session == session)
  {
    LifecycleHolds(Init(), run);
    WrapsAt(Run(Init(), run).env.issued);
  }

  // ----- Shutdown and Start -----

  /** Once Shutdown is flagged and no acceptor is there, one can appear again exactly when some Start
      call had already passed its shutdown check. */
  lemma AcceptorAfterShutdownExactlyOnRace(s: State)
    requires s.shutdown && !s.acceptor
    ensures (exists run :: Legal(s, run) && Run(s, run).acceptor) <==> s.env.starting > 0
  {
    if s.env.starting > 0 {
      RunOne(s, StartInstall(8080));
      assert Run(s, [StartInstall(8080)]).acceptor;
    } else {
      forall run | Legal(s, run) ensures !Run(s, run).acceptor {
        NoStartNoAcceptor(s, run);
      }
    }
  }

  lemma {:induction false} NoStartNoAcceptor(s: State, run: seq<Event>)
    requires s.shutdown && !s.acceptor && s.env.starting == 0 && Legal(s, run)
    ensures !Run(s, run).acceptor
    decreases |run|
  {
    if run != [] {
      NoStartNoAcceptor(Step(s, run[0]), run[1..]);
    }
  }

  /** Such a Start can leave an acceptor and a port behind on a server that has been shut down. */
  lemma RacingStartOutlivesShutdown() returns (run: seq<Event>)
    ensures Legal(Init(), run)
    ensures var s := Run(Init(), run); s.env.teardown.Cleared? && s.acceptor && s.port == 8080
  {
    run := Extend(Init(), [], StartCheck);
    run := Extend(Init(), run, ShutdownFlag);
    run := Extend(Init(), run, ShutdownClear);
    run := Extend(Init(), run, StartInstall(8080));
  }

  // ----- After the counter has wrapped -----

  function Repeat(n: nat): seq<Event> {
    if n == 0 then [] else [TakeId] + Repeat(n - 1)
  }

  function Bumped(s: State, n: nat): State
    requires s.nextId < WRAP
  {
    s.(nextId := (s.nextId + n) % WRAP, env := s.env.(issued := s.env.issued + n))
  }

  lemma WrapOnceMore(id: nat, n: nat)
    requires n > 0
    ensures (NextId(id) + (n - 1)) % WRAP == (id + n) % WRAP
  {
    var q := (id + 1) / WRAP;
    assert id + 1 == WRAP * q + NextId(id);
    var a := NextId(id) + (n - 1);
    assert id + n == WRAP * q + a;
    var t := a / WRAP;
    assert a == WRAP * t + a % WRAP;
    assert id + n == WRAP * (q + t) + a % WRAP;
  }

  lemma {:induction false} TakingIds(s: State, n: nat)
    requires s.nextId < WRAP
    ensures Legal(s, Repeat(n)) && Run(s, Repeat(n)) == Bumped(s, n)
    decreases n
  {
    if n > 0 {
      var s' := Step(s, TakeId);
      TakingIds(s', n - 1);
      assert Repeat(n)[1..] == Repeat(n - 1);
      WrapOnceMore(s.nextId, n);
      assert Bumped(s', n - 1) == Bumped(s, n);
    }
  }

  lemma {:induction false} RunConcat(s: State, a: seq<Event>, b: seq<Event>)
    requires Legal(s, a) && Legal(Run(s, a), b)
    ensures Legal(s, a + b) && Run(s, a + b) == Run(Run(s, a), b)
    decreases |a|
  {
    if a == [] {
      assert a + b == b;
    } else {
      assert (a + b)[1..] == a[1..] + b;
      RunConcat(Step(s, a[0]), a[1..], b);
    }
  }

  lemma RunOne(s: State, e: Event)
    requires Enabled(s, e)
    ensures Legal(s, [e]) && Run(s, [e]) == Step(s, e)
  {
    assert Legal(Step(s, e), [e][1..]);
  }

  lemma Extend(s: State, run: seq<Event>, e: Event) returns (run': seq<Event>)
    requires Legal(s, run) && Enabled(Run(s, run), e)
    ensures Legal(s, run') && Run(s, run') == Step(Run(s, run), e)
  {
    RunOne(Run(s, run), e);
    RunConcat(s, run, [e]);
    run' := run + [e];
  }

  /** A server listening with one registered uri. */
  lemma ListeningOnA() returns (run: seq<Event>)
    ensures Legal(Init(), run)
    ensures var s := Run(Init(), run);
            && !Rejects(s) && s.clients == map[] && s.counts == map[] && s.uris == {"/a"} && s.nextId == 1
            && s.env.issued == 0 && s.env.pending == s.env.owing == multiset{} && s.log == Init().log
  {
    run := Extend(Init(), [], AddUri("/a"));
    run := Extend(Init(), run, StartCheck);
    run := Extend(Init(), run, StartInstall(8080));
  }

  lemma RegisterOnA(s: State, session: nat)
    requires !Rejects(s) && s.uris == {"/a"}
    ensures Step(s, Register(session, "/a", false)) == Enter(s, Entry(session, "/a", false))
  {
    assert IsRoute({"/a"}, "/a", "/a");
    RouteIsUnique({"/a"}, "/a", "/a", Route({"/a"}, "/a"));
  }

  /** A server that registers a client, serves 2^32 - 1 http requests and registers another: both get the
      same id, and it counts two clients of the uri while it knows only one. */
  lemma WrappedCounterBreaksCounts() returns (run: seq<Event>)
    ensures Legal(Init(), run)
    ensures var s := Run(Init(), run);
            && s.clients == map[1 := Entry(1, "/a", false)] && Count(s.counts, "/a") == 2 && !CountsRight(s)
            && s.log.registered == [1, 1] && s.log.notified == [] && s.env.pending == s.env.owing == multiset{}
  {
    run := ListeningOnA();
    RegisterOnA(Run(Init(), run), 0);
    run := Extend(Init(), run, Register(0, "/a", false));
    var first := Run(Init(), run);
    assert first.nextId == 2 && first.clients == map[1 := Entry(0, "/a", false)] && Count(first.counts, "/a") == 1;
    TakingIds(first, WRAP - 1);
    RunConcat(Init(), run, Repeat(WRAP - 1));
    run := run + Repeat(WRAP - 1);
    SecondClientOnSameId(Bumped(first, WRAP - 1));
    run := Extend(Init(), run, Register(1, "/a", false));
  }

  lemma SecondClientOnSameId(s: State)
    requires !Rejects(s) && s.uris == {"/a"} && s.nextId == 1
    requires s.clients == map[1 := Entry(0, "/a", false)] && Count(s.counts, "/a") == 1
    ensures var s' := Step(s, Register(1, "/a", false));
            && s'.clients == map[1 := Entry(1, "/a", false)] && Count(s'.counts, "/a") == 2 && !CountsRight(s')
            && s'.env == s.env.(issued := s.env.issued + 1)
            && s'.log.registered == s.log.registered + [1] && s'.log.notified == s.log.notified
  {
    RegisterOnA(s, 1);
    var s' := Enter(s, Entry(1, "/a", false));
    assert s'.clients == map[1 := Entry(1, "/a", false)];
    assert Members(s'.clients, "/a") == {1};
  }

  /** And when that id is removed and notified once, one of the two clients is never reported closed. */
  lemma WrappedCounterLosesNotice() returns (run: seq<Event>)
    ensures Legal(Init(), run)
    ensures var s := Run(Init(), run);
            && s.clients == map[] && s.env.pending == s.env.owing == multiset{}
            && s.log.registered == [1, 1] && s.log.notified == [1]
  {
    run := WrappedCounterBreaksCounts();
    var s := Run(Init(), run);
    run := Extend(Init(), run, Remove(1));
    assert TakeOut(s, 1).clients == map[];
    run := Extend(Init(), run, Notify(1));
  }

  /** A server whose counter has come round to 0 enters a client under the id that says it was not. */
  lemma WrappedCounterAnswersZero() returns (run: seq<Event>)
    ensures Legal(Init(), run)
    ensures var s := Run(Init(), run);
            s.log.registered == [0] && 0 in s.clients && Count(s.counts, "/a") == 1
  {
    run := ListeningOnA();
    var listening := Run(Init(), run);
    TakingIds(listening, WRAP - 1);
    RunConcat(Init(), run, Repeat(WRAP - 1));
    run := run + Repeat(WRAP - 1);
    RegisterOnA(Bumped(listening, WRAP - 1), 0);
    run := Extend(Init(), run, Register(0, "/a", false));
  }
}
