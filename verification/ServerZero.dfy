/** What the application hears of a client that was entered when the counter stood at 0, the id that tells
    its session that it was turned away. */
module ServerZero {
  import SessionSpec
  import SessionRuns
  import opened Relay
  import opened ServerStrands
  import opened ServerMachine
  import opened ServerCloses
  import opened ServerSystem
  import Registry

  /** What a strand has reported to its server, and is reporting. */
  function Reported(strand: Strand): seq<SessionSpec.Notice> {
    Notices(strand.calls) + Due(strand.pc)
  }

  lemma PostedAreReported(strand: Strand, n: SessionSpec.Notice)
    requires Reported(strand) <= [n]
    ensures PostedNotices(strand.calls) <= [n]
  {
    if strand.calls != [] {
      var rest := strand.calls[..|strand.calls| - 1];
      assert |Notices(strand.calls)| == |Notices(rest)| + 1;
      assert Notices(rest) == [];
      assert rest == [] || |Notices(rest)| > 0;
      assert Notices(strand.calls) == [strand.calls[0].notice];
    }
  }

  lemma OnlyAdded(s: SessionSpec.State, strand: Strand)
    requires SessionOk(s) && StrandOk(s, strand) && HasId(s, 0)
    ensures Reported(strand) <= [SessionSpec.Up(0)] && (s.io.sink ==> Reported(strand) == [SessionSpec.Up(0)])
    ensures PostedNotices(strand.calls) <= [SessionSpec.Up(0)]
    ensures s.log.wire == [SessionSpec.CloseFrame] && s.io.pendingReads == 0 && s.log.received == []
  {
    assert SessionRuns.Messages(s.log.received) == [];
    assert SessionRuns.Story(s) == [SessionSpec.Up(0)];
    PostedAreReported(strand, SessionSpec.Up(0));
  }

  /** Every client in the registry under the id 0 is held by a session entered under it. It is announced
      as added, and that is all its strand ever reports, in any run: the session takes itself for rejected,
      reads nothing and only closes, so neither a message nor its closing is reported. */
  lemma UnderZeroExactlyAdded(run: seq<Step>, sid: nat)
    requires Legal(Init(), run)
    ensures var y := Run(Init(), run);
            0 in y.registry.clients && y.registry.clients[0].session == sid ==>
              sid in y.sessions && HasId(y.sessions[sid], 0)
    ensures var y := Run(Init(), run);
            sid in y.sessions && HasId(y.sessions[sid], 0) ==>
              var s := y.sessions[sid];
              && sid in y.strands
              && Reported(y.strands[sid]) <= [SessionSpec.Up(0)]
              && (s.io.sink ==> Reported(y.strands[sid]) == [SessionSpec.Up(0)])
              && Select(y.out.offered, From(sid)) <= [SessionSpec.Up(0)]
              && s.log.wire == [SessionSpec.CloseFrame] && s.io.pendingReads == 0 && s.log.received == []
  {
    Reached(run);
    var y := Run(Init(), run);
    assert EntryAt(y.sessions, y.registry.clients, 0);
    assert StrandAt(y.sessions, y.strands, sid) && LinkedAt(y.strands, y.out.offered, sid);
    if sid in y.sessions && HasId(y.sessions[sid], 0) {
      OnlyAdded(y.sessions[sid], y.strands[sid]);
    }
  }

  // ----- The closing -----

  /** An open client whose strand is between handlers and that is in the registry. */
  ghost predicate Connected(y: System, sid: nat) {
    && OpenClient(y.sessions, sid) && Live(y.sessions, y.registry.clients, sid) && StrandIdle(y, sid)
    && y.sessions[sid].io.sink
  }

  lemma ReadFails(y: System, sid: nat)
    requires Connected(y, sid) && y.sessions[sid].io.pendingReads > 0 && !y.sessions[sid].log.crashed
    ensures Enabled(y, Handle(sid, SessionSpec.ReadErr))
    ensures var id, y' := y.sessions[sid].m.clientId, Next(y, Handle(sid, SessionSpec.ReadErr));
            && StrandBusy(y', sid) && y'.strands[sid].pc == Calling(SessionSpec.Down(id))
            && id in y'.registry.clients && y'.sessions[sid].m.clientId == id
  {
  }

  lemma ClosingIsPosted(y: System, sid: nat, id: nat)
    requires StrandBusy(y, sid) && y.strands[sid].pc == Calling(SessionSpec.Down(id))
    requires id in y.registry.clients && y.sessions[sid].m.clientId == id
    ensures Enabled(y, Lookup(sid, true)) && Enabled(Next(y, Lookup(sid, true)), PostCall(sid))
    ensures var y' := Next(Next(y, Lookup(sid, true)), PostCall(sid));
            SessionSpec.Down(id) in Select(y'.out.offered, From(sid))
  {
    SelectSnoc(y.out.offered, About(sid, id, SessionSpec.Down(id)), From(sid));
  }

  lemma ClosingCanFollow(y: System, sid: nat) returns (run: seq<Step>)
    requires Connected(y, sid) && y.sessions[sid].io.pendingReads > 0 && !y.sessions[sid].log.crashed
    ensures Legal(y, run)
    ensures SessionSpec.Down(y.sessions[sid].m.clientId) in Select(Run(y, run).out.offered, From(sid))
  {
    var t := Handle(sid, SessionSpec.ReadErr);
    ReadFails(y, sid);
    var y1 := Next(y, t);
    ClosingIsPosted(y1, sid, y.sessions[sid].m.clientId);
    var y2 := Next(y1, Lookup(sid, true));
    RunOne(y2, PostCall(sid));
    RunOne(y1, Lookup(sid, true));
    RunConcat(y1, [Lookup(sid, true)], [PostCall(sid)]);
    RunOne(y, t);
    RunConcat(y, [t], [Lookup(sid, true)] + [PostCall(sid)]);
    run := [t] + ([Lookup(sid, true)] + [PostCall(sid)]);
  }

  ghost predicate CanReportClosing(y: System, sid: nat) {
    exists run :: Legal(y, run) && var y' := Run(y, run);
      && sid in y'.sessions
      && SessionSpec.Down(y'.sessions[sid].m.clientId) in Select(y'.out.offered, From(sid))
  }

  /** The closed callback of a connected client can still be posted by its strand exactly when its id is not
      0; for a client under 0 only Stop and RemoveClient can tell its closing. */
  lemma ClosingReportedExactlyUnlessZero(before: seq<Step>, sid: nat)
    requires Legal(Init(), before) && Connected(Run(Init(), before), sid)
    ensures var y := Run(Init(), before); CanReportClosing(y, sid) <==> y.sessions[sid].m.clientId != 0
  {
    var y := Run(Init(), before);
    Reached(before);
    assert StrandAt(y.sessions, y.strands, sid);
    if y.sessions[sid].m.clientId != 0 {
      var run := ClosingCanFollow(y, sid);
      RunGoes(y, run, sid);
    } else {
      forall run | Legal(y, run) && sid in Run(y, run).sessions
        ensures SessionSpec.Down(Run(y, run).sessions[sid].m.clientId) !in Select(Run(y, run).out.offered, From(sid))
      {
        NoClosingUnderZero(before, run, sid);
      }
    }
  }

  lemma NoClosingUnderZero(before: seq<Step>, run: seq<Step>, sid: nat)
    requires Legal(Init(), before) && Legal(Run(Init(), before), run)
    requires sid in Run(Init(), before).sessions && HasId(Run(Init(), before).sessions[sid], 0)
    ensures var y := Run(Run(Init(), before), run);
            sid in y.sessions && SessionSpec.Down(y.sessions[sid].m.clientId) !in Select(y.out.offered, From(sid))
  {
    RunGoes(Run(Init(), before), run, sid);
    RunConcat(Init(), before, run);
    UnderZeroExactlyAdded(before + run, sid);
  }
}
