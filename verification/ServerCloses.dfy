/** Where each client of the server is: in the registry, taken out to have Close called on its session, or
    displaced by another session that was given its id. */
module ServerCloses {
  import SessionSpec
  import opened Relay
  import opened ServerStrands
  import opened ServerMachine
  import Registry

  type ClientMap = map<nat, Registry.Entry>

  /** A client the server entered, whose session is open. */
  predicate OpenClient(sessions: SessionMap, sid: nat) {
    sid in sessions && SessionSpec.Entered(sessions[sid]) && sessions[sid].m.open
  }

  /** The session is in the registry under its own id. */
  predicate Live(sessions: SessionMap, clients: ClientMap, sid: nat) {
    sid in sessions && sessions[sid].m.clientId in clients && clients[sessions[sid].m.clientId].session == sid
  }

  /** A Stop or RemoveClient took the session out: it called Close on it, or is about to. */
  predicate TakenOut(c: Closing, sid: nat) {
    sid in c.taken || sid in c.takenLast || sid in c.called
  }

  /** Another session was given the same id. */
  ghost predicate Shared(sessions: SessionMap, sid: nat) {
    sid in sessions && exists j :: j in sessions && j != sid && HasId(sessions[j], sessions[sid].m.clientId)
  }

  predicate CameUp(sessions: SessionMap, sid: nat) {
    sid in sessions && sessions[sid].io.chain.Opened?
  }

  // ----- The invariant -----

  /** An entry's session was entered under the entry's id. */
  predicate EntryAt(sessions: SessionMap, clients: ClientMap, c: nat) {
    c in clients ==> clients[c].session in sessions && HasId(sessions[clients[c].session], c)
  }

  /** A session taken out or displaced is in no other place; a displaced one shares its id; and an open
      client is in one of the places. */
  ghost predicate PlaceAt(sessions: SessionMap, clients: ClientMap, c: Closing, displaced: set<nat>, sid: nat) {
    && (TakenOut(c, sid) ==> CameUp(sessions, sid) && !Live(sessions, clients, sid))
    && (sid in displaced ==>
          CameUp(sessions, sid) && Shared(sessions, sid) && !Live(sessions, clients, sid) && !TakenOut(c, sid))
    && (OpenClient(sessions, sid) ==> Live(sessions, clients, sid) || TakenOut(c, sid) || sid in displaced)
  }

  ghost predicate PlacesOk(sessions: SessionMap, clients: ClientMap, c: Closing, displaced: set<nat>) {
    && (forall id :: EntryAt(sessions, clients, id))
    && (forall sid :: PlaceAt(sessions, clients, c, displaced, sid))
  }

  // ----- Sessions move -----

  /** A session that keeps its id and is open only if it was, or comes up without being entered. */
  predicate KeepsPlace(sessions: SessionMap, sid: nat, s: SessionSpec.State) {
    if CameUp(sessions, sid) then
      && s.io.chain.Opened? && s.m.clientId == sessions[sid].m.clientId
      && (SessionSpec.Entered(s) <==> SessionSpec.Entered(sessions[sid]))
      && (s.m.open ==> sessions[sid].m.open)
    else
      !SessionSpec.Entered(s)
  }

  lemma SessionMoved(sessions: SessionMap, sid: nat, s: SessionSpec.State, clients: ClientMap, c: Closing,
                     displaced: set<nat>)
    requires PlacesOk(sessions, clients, c, displaced) && KeepsPlace(sessions, sid, s)
    ensures PlacesOk(sessions[sid := s], clients, c, displaced)
  {
    var sessions' := sessions[sid := s];
    forall id ensures EntryAt(sessions', clients, id) {
      assert EntryAt(sessions, clients, id);
    }
    forall j ensures PlaceAt(sessions', clients, c, displaced, j) {
      assert PlaceAt(sessions, clients, c, displaced, j);
      if j in displaced {
        SharedKept(sessions, sid, s, j);
      }
      if Live(sessions', clients, j) {
        assert EntryAt(sessions, clients, sessions'[j].m.clientId);
      }
    }
  }

  /** Whoever shared an id with j still does. */
  lemma SharedKept(sessions: SessionMap, sid: nat, s: SessionSpec.State, j: nat)
    requires Shared(sessions, j) && CameUp(sessions, j)
    requires CameUp(sessions, sid) ==> s.m.clientId == sessions[sid].m.clientId
    requires CameUp(sessions, sid) && SessionSpec.Entered(sessions[sid]) ==> SessionSpec.Entered(s)
    ensures Shared(sessions[sid := s], j)
  {
    var k :| k in sessions && k != j && HasId(sessions[k], sessions[j].m.clientId);
    var sessions' := sessions[sid := s];
    assert HasId(sessions'[k], sessions'[j].m.clientId);
  }

  /** A session that came up and was entered, perhaps over another one. */
  lemma SessionEntersPlace(sessions: SessionMap, sid: nat, s: SessionSpec.State, clients: ClientMap,
                           entry: Registry.Entry, c: Closing, displaced: set<nat>)
    requires PlacesOk(sessions, clients, c, displaced) && sid in sessions && !CameUp(sessions, sid)
    requires SessionSpec.Entered(s) && entry.session == sid
    ensures PlacesOk(sessions[sid := s], clients[s.m.clientId := entry], c,
                     displaced + EntryOf(clients, s.m.clientId))
  {
    var id := s.m.clientId;
    var sessions', clients' := sessions[sid := s], clients[id := entry];
    var displaced' := displaced + EntryOf(clients, id);
    forall d ensures EntryAt(sessions', clients', d) {
      assert EntryAt(sessions, clients, d);
    }
    assert PlaceAt(sessions, clients, c, displaced, sid);
    assert EntryAt(sessions, clients, id);
    forall j ensures PlaceAt(sessions', clients', c, displaced', j) {
      assert PlaceAt(sessions, clients, c, displaced, j);
      if j in displaced {
        SharedKept(sessions, sid, s, j);
      } else if j in EntryOf(clients, id) {
        assert HasId(sessions'[sid], sessions'[j].m.clientId);
      }
    }
  }

  // ----- Clients leave -----

  /** A strand takes the client of its id out, when its session is no longer open. */
  lemma OwnerLeaves(sessions: SessionMap, sid: nat, clients: ClientMap, c: Closing, displaced: set<nat>)
    requires PlacesOk(sessions, clients, c, displaced)
    requires sid in sessions && SessionSpec.Entered(sessions[sid]) && !sessions[sid].m.open
    ensures var id := sessions[sid].m.clientId;
            PlacesOk(sessions, clients - {id}, c, displaced + (EntryOf(clients, id) - {sid}))
  {
    var id := sessions[sid].m.clientId;
    var clients', displaced' := clients - {id}, displaced + (EntryOf(clients, id) - {sid});
    forall d ensures EntryAt(sessions, clients', d) {
      assert EntryAt(sessions, clients, d);
    }
    assert EntryAt(sessions, clients, id);
    forall j ensures PlaceAt(sessions, clients', c, displaced', j) {
      assert PlaceAt(sessions, clients, c, displaced, j);
      if j in EntryOf(clients, id) && j != sid {
        assert HasId(sessions[sid], sessions[j].m.clientId);
      }
    }
  }

  /** A lock section that takes clients out hands their sessions over to be closed. */
  lemma SectionTakes(sessions: SessionMap, clients: ClientMap, clients': ClientMap, c: Closing, c': Closing,
                     displaced: set<nat>)
    requires PlacesOk(sessions, clients, c, displaced)
    requires forall id :: id in clients' ==> id in clients && clients'[id] == clients[id]
    requires forall sid :: TakenOut(c', sid) <==> TakenOut(c, sid) || Left(clients, clients', sid)
    ensures PlacesOk(sessions, clients', c', displaced)
  {
    forall id ensures EntryAt(sessions, clients', id) {
      assert EntryAt(sessions, clients, id);
    }
    forall j ensures PlaceAt(sessions, clients', c', displaced, j) {
      assert PlaceAt(sessions, clients, c, displaced, j);
      if Left(clients, clients', j) {
        var id :| id in clients && id !in clients' && clients[id].session == j;
        assert EntryAt(sessions, clients, id);
      } else if Live(sessions, clients, j) {
        assert sessions[j].m.clientId in clients';
      }
    }
  }

  /** Some entry of the session was taken out. */
  ghost predicate Left(clients: ClientMap, clients': ClientMap, sid: nat) {
    exists id :: id in clients && id !in clients' && clients[id].session == sid
  }

  /** What a lock section of another thread does to the clients. */
  lemma SectionClients(r: Registry.State, e: Registry.Event, c: Closing, sid: nat)
    requires Registry.Enabled(r, e) && !e.Register? && !e.WsClosed?
    ensures var clients' := Registry.Step(r, e).clients;
            && (forall id :: id in clients' ==> id in r.clients && clients'[id] == r.clients[id])
            && (TakenOut(AfterSection(c, r.clients, e), sid) <==> TakenOut(c, sid) || Left(r.clients, clients', sid))
  {
    var clients' := Registry.Step(r, e).clients;
    if e.Remove? && e.id in r.clients {
      assert clients' == r.clients - {e.id} && e.id !in clients';
    } else if !e.StopClear? && !e.ShutdownClear? {
      assert clients' == r.clients;
    }
  }

  lemma SectionKeepsPlaces(sessions: SessionMap, r: Registry.State, c: Closing, e: Registry.Event, displaced: set<nat>)
    requires PlacesOk(sessions, r.clients, c, displaced)
    requires Registry.Enabled(r, e) && !e.Register? && !e.WsClosed?
    ensures PlacesOk(sessions, Registry.Step(r, e).clients, AfterSection(c, r.clients, e), displaced)
  {
    forall sid
      ensures TakenOut(AfterSection(c, r.clients, e), sid)
              <==> TakenOut(c, sid) || Left(r.clients, Registry.Step(r, e).clients, sid)
    {
      SectionClients(r, e, c, sid);
    }
    SectionClients(r, e, c, 0);
    SectionTakes(sessions, r.clients, Registry.Step(r, e).clients, c, AfterSection(c, r.clients, e), displaced);
  }

  /** Calling Close moves a session from one stage of being taken out to the next. */
  lemma CallKeepsPlaces(sessions: SessionMap, clients: ClientMap, c: Closing, sid: nat, byShutdown: bool,
                        displaced: set<nat>)
    requires PlacesOk(sessions, clients, c, displaced) && TakenOut(c, sid)
    ensures PlacesOk(sessions, clients, AfterCall(c, sid, byShutdown), displaced)
  {
    forall j ensures PlaceAt(sessions, clients, AfterCall(c, sid, byShutdown), displaced, j) {
      assert PlaceAt(sessions, clients, c, displaced, j);
    }
  }

  // ----- A strand's accept and call -----

  lemma RegisterEnters(r: Registry.State, sid: nat, path: string, isSsl: bool)
    requires !Registry.Rejects(r)
    ensures var clients := Registry.Step(r, Registry.Register(sid, path, isSsl)).clients;
            && r.nextId in clients && clients[r.nextId].session == sid
            && clients == r.clients[r.nextId := clients[r.nextId]]
  {
  }

  lemma AcceptKeepsPlaces(sessions: SessionMap, sid: nat, r: Registry.State, path: string, isSsl: bool, c: Closing,
                          displaced: set<nat>)
    requires PlacesOk(sessions, r.clients, c, displaced) && sid in sessions && SessionOk(sessions[sid])
    requires SessionSpec.Outstanding(sessions[sid], Answer(r))
    ensures var s := sessions[sid];
            PlacesOk(sessions[sid := Accepted(s, r)], AcceptedBy(r, s, sid, path, isSsl).clients, c,
                     displaced + Overwritten(s, r))
  {
    var s := sessions[sid];
    OpenSetsIdentity(s, Registry.AnsweredId(r), !Registry.Rejects(r));
    if s.io.sink && !Registry.Rejects(r) {
      RegisterEnters(r, sid, path, isSsl);
      SessionEntersPlace(sessions, sid, Accepted(s, r), r.clients,
                         AcceptedBy(r, s, sid, path, isSsl).clients[r.nextId], c, displaced);
    } else {
      SessionMoved(sessions, sid, Accepted(s, r), r.clients, c, displaced);
      assert displaced + {} == displaced;
    }
  }

  lemma LookupKeepsPlaces(sessions: SessionMap, strand: Strand, sid: nat, r: Registry.State, c: Closing,
                          displaced: set<nat>)
    requires PlacesOk(sessions, r.clients, c, displaced) && sid in sessions && !strand.pc.Idle?
    requires SessionOk(sessions[sid]) && StrandOk(sessions[sid], strand)
    ensures PlacesOk(sessions, LockSection(r, strand.pc.notice).clients, c,
                     displaced + (TakenWith(r, strand.pc.notice) - {sid}))
  {
    CallIsOwn(sessions[sid], strand);
    if TakesOut(r, strand.pc.notice) {
      OwnerLeaves(sessions, sid, r.clients, c, displaced);
    } else {
      assert displaced + ({} - {sid}) == displaced;
    }
  }

  // ----- The places of a session -----

  lemma PlaceOf(sessions: SessionMap, clients: ClientMap, c: Closing, displaced: set<nat>, sid: nat)
    requires PlacesOk(sessions, clients, c, displaced) && OpenClient(sessions, sid)
    ensures Live(sessions, clients, sid) || TakenOut(c, sid) || sid in displaced
    ensures TakenOut(c, sid) ==> !Live(sessions, clients, sid)
    ensures sid in displaced ==>
              && !Live(sessions, clients, sid) && !TakenOut(c, sid)
              && Holders(sessions, sessions[sid].m.clientId) != {sid}
  {
    assert PlaceAt(sessions, clients, c, displaced, sid);
    if sid in displaced {
      var j :| j in sessions && j != sid && HasId(sessions[j], sessions[sid].m.clientId);
      assert j in Holders(sessions, sessions[sid].m.clientId);
    }
  }
}
