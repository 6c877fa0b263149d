/** The server object: each method is one lock section (or one step outside the lock), proved
    against the registry state machine. Sessions are named by handles. */
module ServerImpl {
  import opened Targets
  import opened Routing
  import opened Registry

  datatype UriFilter = AllClients | ClientsOf(uri: string)

  /** The clients a broadcast reaches. */
  function Targeted(clients: map<nat, Entry>, filter: UriFilter): set<nat> {
    match filter
    case AllClients => clients.Keys
    case ClientsOf(uri) => Members(clients, uri)
  }

  class Server {
    const allowedUris: Allowed
    var mShutdown: bool
    var mAcceptor: bool
    var mPort: nat
    var mNextConnectionId: nat
    var mClients: map<nat, Entry>
    var mUris: set<string>
    var mUriCounts: map<string, nat>
    ghost var env: Outside
    ghost var log: Log

    ghost function View(): State
      reads this
    {
      State(mShutdown, mAcceptor, mPort, mNextConnectionId, mClients, mUris, mUriCounts, env, log)
    }

    ghost predicate Valid()
      reads this
    {
      Sound(View())
    }

    constructor (allowed: Allowed)
      ensures Valid() && View() == Init() && allowedUris == allowed
    {
      allowedUris := allowed;
      mShutdown, mAcceptor, mPort, mNextConnectionId := false, false, 0, 1;
      mClients, mUris, mUriCounts := map[], {}, map[];
      env := Outside(0, NotBegun, 0, multiset{}, multiset{});
      log := Log([], [], [], multiset{}, multiset{});
      InitIsSound();
    }

    // ----- Lifecycle -----

    /** Start's shutdown check, made before the lock. */
    method CheckStart() returns (ok: bool)
      requires Valid()
      modifies this`env
      ensures Valid() && View() == Step(old(View()), StartCheck)
      ensures ok <==> !mShutdown
    {
      StepKeepsSound(View(), StartCheck);
      if mShutdown {
        return false;
      }
      env := env.(starting := env.starting + 1);
      return true;
    }

    /** Start's lock section; ok is false when the server was already started. */
    method InstallAcceptor(port: nat) returns (ok: bool)
      requires Valid() && Enabled(View(), StartInstall(port))
      modifies this`mAcceptor, this`mPort, this`env
      ensures Valid() && View() == Step(old(View()), StartInstall(port))
      ensures ok <==> !old(mAcceptor)
      ensures mAcceptor && mPort == if ok then port else old(mPort)
    {
      StepKeepsSound(View(), StartInstall(port));
      env := env.(starting := env.starting - 1);
      if mAcceptor {
        return false;
      }
      mAcceptor := true;
      mPort := port;
      return true;
    }

    method FlagShutdown() returns (first: bool)
      requires Valid()
      modifies this`mShutdown, this`env
      ensures Valid() && View() == Step(old(View()), ShutdownFlag)
      ensures mShutdown && (first <==> !old(mShutdown))
    {
      StepKeepsSound(View(), ShutdownFlag);
      first := !mShutdown;
      if first {
        mShutdown := true;
        env := env.(teardown := Flagged);
      }
    }

    /** Stop's lock section: everything is swapped out; each entry is owed a close and a notice. */
    method Stop(byShutdown: bool) returns (entries: map<nat, Entry>)
      requires Valid() && (byShutdown ==> Enabled(View(), ShutdownClear))
      modifies this
      ensures Valid() && View() == Step(old(View()), if byShutdown then ShutdownClear else StopClear)
      ensures entries == old(mClients)
      ensures !mAcceptor && mPort == 0 && mClients == map[] && mUriCounts == map[]
    {
      StepKeepsSound(View(), if byShutdown then ShutdownClear else StopClear);
      entries := mClients;
      env := if byShutdown then env.(owing := env.owing + multiset(mClients.Keys), teardown := Cleared)
             else env.(pending := env.pending + multiset(mClients.Keys));
      log := log.(stale := multiset{});
      mAcceptor := false;
      mPort := 0;
      mClients := map[];
      mUriCounts := map[];
    }

    // ----- Clients -----

    /** The session's answer to an accepted upgrade: its id (0 when turned away) and the part of the
        target beyond the uri it was matched on. The client is filed under the longest match of its path. */
    method RegisterWsClient(session: nat, target: string, isSsl: bool)
      returns (clientId: nat, uriAppend: string)
      requires Valid()
      modifies this
      ensures Valid() && View() == Step(old(View()), Register(session, PathOf(target), isSsl))
      ensures clientId == if Rejects(old(View())) then 0 else old(mNextConnectionId)
      ensures Rejects(old(View())) ==> mClients == old(mClients)
      ensures !Rejects(old(View())) ==>
                && clientId in mClients
                && mClients == old(mClients)[clientId := Entry(session, mClients[clientId].uri, isSsl)]
                && IsRoute(mUris, PathOf(target), mClients[clientId].uri)
                && BaseOf(mClients[clientId].uri, allowedUris, PathOf(target)) + uriAppend == target
    {
      var path, _ := ParseTarget(target, map[]);
      var matchedUri;
      var rejected;
      rejected, clientId, matchedUri := RegisterLocked(session, path, isSsl);
      uriAppend := "";
      if !rejected {
        uriAppend := UriAppend(target, matchedUri, allowedUris);
      }
    }

    /** The lock section of a registration. */
    method RegisterLocked(session: nat, path: string, isSsl: bool)
      returns (rejected: bool, clientId: nat, matchedUri: string)
      requires Valid()
      modifies this
      ensures Valid() && View() == Step(old(View()), Register(session, path, isSsl))
      ensures clientId == if Rejects(old(View())) then 0 else old(mNextConnectionId)
      ensures rejected == Rejects(old(View()))
      ensures if rejected then mClients == old(mClients)
              else mClients == old(mClients)[clientId := Entry(session, matchedUri, isSsl)]
                   && IsRoute(mUris, path, matchedUri)
    {
      StepKeepsSound(View(), Register(session, path, isSsl));
      rejected, clientId, matchedUri := mShutdown || !mAcceptor, 0, "";
      if rejected {
        return;
      }
      clientId, matchedUri := AddClient(session, path, isSsl);
    }

    method AddClient(session: nat, path: string, isSsl: bool) returns (clientId: nat, matchedUri: string)
      modifies this
      ensures View() == Enter(old(View()), Entry(session, Route(mUris, path), isSsl))
      ensures clientId == old(mNextConnectionId) && matchedUri == Route(mUris, path)
    {
      log := Registered(log, mClients, mNextConnectionId, env.issued);
      clientId := TakeNextId();
      matchedUri := MatchedUri(path);
      mClients := mClients[clientId := Entry(session, matchedUri, isSsl)];
      CountUp(matchedUri);
    }

    /** The id, and the unsigned 32-bit increment. */
    method TakeNextId() returns (id: nat)
      modifies this`mNextConnectionId, this`env
      ensures id == old(mNextConnectionId) && View() == Step(old(View()), TakeId)
    {
      id := mNextConnectionId;
      mNextConnectionId := (mNextConnectionId + 1) % WRAP;
      env := env.(issued := env.issued + 1);
    }

    method MatchedUri(path: string) returns (uri: string)
      ensures uri == Route(mUris, path)
    {
      uri := LongestUriMatch(mUris, path);
      RouteIsUnique(mUris, path, uri, Route(mUris, path));
    }

    method CountUp(uri: string)
      modifies this`mUriCounts
      ensures mUriCounts == Increment(old(mUriCounts), uri)
    {
      if uri != "" {
        var n := if uri in mUriCounts then mUriCounts[uri] else 0;
        mUriCounts := mUriCounts[uri := n + 1];
      }
    }

    method RemoveClient(clientId: nat) returns (found: bool, session: nat)
      requires Valid()
      modifies this
      ensures Valid() && View() == Step(old(View()), Remove(clientId))
      ensures found <==> clientId in old(mClients)
      ensures found ==> session == old(mClients)[clientId].session
      ensures mClients == old(mClients) - {clientId}
    {
      found, session := clientId in mClients, 0;
      if found {
        session := mClients[clientId].session;
        var _ := Erase(clientId);
      }
    }

    /** The uri and the count are what the uri's callback is told: the clients left on it, and those
        overwritten while live, of which there are none while ids have not wrapped. */
    method OnWsClosed(clientId: nat) returns (found: bool, uri: string, uriCount: nat)
      requires Valid()
      modifies this
      ensures Valid() && View() == Step(old(View()), WsClosed(clientId))
      ensures found <==> clientId in old(mClients)
      ensures mClients == old(mClients) - {clientId}
      ensures found ==> uri == old(mClients)[clientId].uri
      ensures found && uri != "" ==> uriCount == |Members(mClients, uri)| + log.stale[uri]
      ensures env.issued < WRAP ==> log.stale == multiset{}
    {
      found, uri, uriCount := clientId in mClients, "", 0;
      if found {
        uri := mClients[clientId].uri;
        uriCount := Erase(clientId);
      }
      StaleOnlyAfterWrap();
      assert CountAt(View(), uri);
    }

    lemma StaleOnlyAfterWrap()
      requires Valid()
      ensures env.issued < WRAP ==> log.stale == multiset{}
    {
      if env.issued < WRAP {
        NothingIsLostBelowWrap(View());
      }
    }

    /** Takes a client out and returns the count left on its uri. */
    method Erase(clientId: nat) returns (uriCount: nat)
      requires Valid() && clientId in mClients
      modifies this
      ensures Valid() && View() == TakeOut(old(View()), clientId)
      ensures var uri := old(mClients)[clientId].uri; uriCount == if uri == "" then 0 else Count(mUriCounts, uri)
    {
      StepKeepsSound(View(), Remove(clientId));
      uriCount := EraseEntry(clientId);
    }

    method EraseEntry(clientId: nat) returns (uriCount: nat)
      requires clientId in mClients
      modifies this
      ensures View() == TakeOut(old(View()), clientId)
      ensures var uri := old(mClients)[clientId].uri; uriCount == if uri == "" then 0 else Count(mUriCounts, uri)
    {
      var uri := mClients[clientId].uri;
      mClients := mClients - {clientId};
      uriCount := CountDown(uri);
      env := env.(pending := env.pending + multiset{clientId});
    }

    method CountDown(uri: string) returns (uriCount: nat)
      modifies this`mUriCounts
      ensures mUriCounts == Decrement(old(mUriCounts), uri)
      ensures uriCount == if uri == "" then 0 else Count(mUriCounts, uri)
    {
      if uri == "" || uri !in mUriCounts || mUriCounts[uri] == 0 {
        return 0;
      }
      mUriCounts := mUriCounts[uri := mUriCounts[uri] - 1];
      return mUriCounts[uri];
    }

    /** The closed notification that Stop and RemoveClient give in the calling thread; the count reported
        with it is the current one. */
    method NotifyClosed(clientId: nat, uri: string, ghost byShutdown: bool) returns (uriCount: nat)
      requires Valid() && Enabled(View(), if byShutdown then NotifyByShutdown(clientId) else Notify(clientId))
      modifies this`env, this`log
      ensures Valid()
      ensures View() == Step(old(View()), if byShutdown then NotifyByShutdown(clientId) else Notify(clientId))
      ensures uriCount == if uri == "" then 0 else |Members(mClients, uri)| + log.stale[uri]
      ensures env.issued < WRAP ==> log.stale == multiset{}
    {
      StepKeepsSound(View(), if byShutdown then NotifyByShutdown(clientId) else Notify(clientId));
      assert CountAt(View(), uri);
      uriCount := 0;
      if uri != "" && uri in mUriCounts {
        uriCount := mUriCounts[uri];
      }
      env := if byShutdown then env.(owing := env.owing - multiset{clientId})
             else env.(pending := env.pending - multiset{clientId});
      log := log.(notified := log.notified + [clientId]);
      StaleOnlyAfterWrap();
    }

    method NextConnectionId() returns (id: nat)
      requires Valid()
      modifies this`mNextConnectionId, this`env
      ensures Valid() && View() == Step(old(View()), TakeId)
      ensures id == old(mNextConnectionId) < WRAP
    {
      StepKeepsSound(View(), TakeId);
      id := TakeNextId();
    }

    // ----- Queries -----

    /** The clients a broadcast reaches, collected by a scan. */
    method Broadcast(filter: UriFilter) returns (targets: set<nat>)
      ensures targets == Targeted(mClients, filter)
    {
      targets := {};
      var todo := mClients.Keys;
      while todo != {}
        invariant todo <= mClients.Keys
        invariant targets == Targeted(mClients, filter) - todo
      {
        var id :| id in todo;
        if filter.AllClients? || mClients[id].uri == filter.uri {
          targets := targets + {id};
        }
        todo := todo - {id};
      }
    }

    /** Whether a broadcast would reach anyone, answered from the index: it never misses a client of a
        non-empty uri, and is wrong exactly when all that is left of the uri are clients overwritten while
        live. Clients without a uri are not counted. */
    method AnyClients(filter: UriFilter) returns (any: bool)
      requires Valid()
      ensures filter == ClientsOf("") ==> !any
      ensures filter.AllClients? ==> (any <==> Targeted(mClients, filter) != {})
      ensures filter.ClientsOf? && filter.uri != "" ==>
                (any <==> Targeted(mClients, filter) != {} || log.stale[filter.uri] > 0)
      ensures env.issued < WRAP ==> log.stale == multiset{}
    {
      StaleOnlyAfterWrap();
      if filter.AllClients? {
        any := mClients != map[];
        assert mClients == map[] <==> mClients.Keys == {};
      } else {
        any := filter.uri in mUriCounts && mUriCounts[filter.uri] > 0;
        assert CountAt(View(), filter.uri);
      }
    }

    // ----- Uris -----

    method RegisterUri(uri: string)
      requires Valid()
      modifies this`mUris
      ensures Valid() && View() == Step(old(View()), AddUri(uri))
      ensures mUris == old(mUris) + {uri}
    {
      StepKeepsSound(View(), AddUri(uri));
      mUris := mUris + {uri};
    }

    method UnregisterUri(uri: string)
      requires Valid()
      modifies this`mUris
      ensures Valid() && View() == Step(old(View()), RemoveUri(uri))
      ensures mUris == old(mUris) - {uri}
    {
      StepKeepsSound(View(), RemoveUri(uri));
      mUris := mUris - {uri};
    }
  }
}
