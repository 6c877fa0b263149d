/** What holds over whole runs of a session. */
module SessionRuns {
  import opened SessionSpec

  // ----- The write queue is never popped while empty -----

  /** Some write completes successfully on a session that is no longer open. */
  ghost predicate LateWrite(s: State, run: seq<Event>)
    requires Legal(s, run)
    decreases |run|
  {
    run != [] && ((run[0].WriteOk? && !s.m.open) || LateWrite(Step(s, run[0]), run[1..]))
  }

  /** Whatever the stream reports: a run pops an empty queue exactly when some write succeeds
      after the session was closed under it, and until then every core property holds. */
  lemma {:induction false} CrashesExactlyOnLateWrite(s: State, run: seq<Event>)
    requires Core(s) && Legal(s, run)
    ensures Run(s, run).log.crashed <==> LateWrite(s, run)
    ensures !Run(s, run).log.crashed ==> Core(Run(s, run))
    decreases |run|
  {
    if run != [] {
      StepKeepsCore(s, run[0]);
      var s' := Step(s, run[0]);
      if s'.log.crashed {
        assert run[1..] == [];
      } else {
        CrashesExactlyOnLateWrite(s', run[1..]);
      }
    }
  }

  /** A stream that could fail a read and still complete a write would crash a session, of the server
      or of the client: open, send, failed read, successful write. */
  lemma ReadErrorThenWriteCrashes(role: Role, p: Payload) returns (run: seq<Event>)
    ensures Legal(Init(role), run) && Run(Init(role), run).log.crashed
    ensures !Sticky(Init(role), run)
  {
    var open := OpenOk(if role.Server? then 1 else 0, true);
    var s1 := Step(Init(role), open);
    var s2 := Step(s1, Send(p));
    var s3 := Step(s2, ReadErr);
    OpenSendFail(role, p);
    Prepend(s3, WriteOk, []);
    Prepend(s2, ReadErr, [WriteOk]);
    Prepend(s1, Send(p), [ReadErr] + [WriteOk]);
    Prepend(Init(role), open, [Send(p)] + ([ReadErr] + [WriteOk]));
    run := [open] + ([Send(p)] + ([ReadErr] + [WriteOk]));
  }

  lemma Prepend(s: State, e: Event, rest: seq<Event>)
    requires Outstanding(s, e) && Legal(Step(s, e), rest)
    ensures Legal(s, [e] + rest) && Run(s, [e] + rest) == Run(Step(s, e), rest)
    ensures Sticky(s, [e] + rest) <==> StickyStep(s, e) && Sticky(Step(s, e), rest)
  {
    assert ([e] + rest)[1..] == rest;
  }

  /** A write is outstanding on a session that a failed read has closed and emptied. */
  lemma OpenSendFail(role: Role, p: Payload)
    ensures var s1 := OnOpen(Init(role), if role.Server? then 1 else 0, true);
            && s1.io.pendingReads == 1 && s1.m.open && !s1.log.crashed
            && var s2 := OnSend(s1, p);
               && s2.io.pendingReads == 1 && s2.io.pendingWrites == 1 && !s2.log.crashed
               && var s3 := SessionSpec.HandleClosed(ReadFailed(s2));
                  s3.io.pendingWrites == 1 && s3.m.queue == [] && s3.io.failed && !s3.log.crashed
  {
  }

  // ----- The story a session tells its owner -----

  function Messages(ms: seq<Payload>): seq<Notice> {
    seq(|ms|, i requires 0 <= i < |ms| => Message(ms[i]))
  }

  function Opening(s: State): seq<Notice> {
    if s.io.chain.Refused? && s.role.Client? then [ConnectFailed] else if Entered(s) then [Up(s.m.clientId)] else []
  }

  function Ending(s: State): seq<Notice> {
    if s.io.chain.Opened? && !s.m.open then [Down(s.m.clientId)] else []
  }

  /** One opening notice, then every message read, in order, then one Down once closed. */
  function Story(s: State): seq<Notice> {
    Opening(s) + Messages(s.log.received) + Ending(s)
  }

  /** A read succeeds after the closing was reported. */
  predicate LateReadStep(s: State, e: Event) {
    e.ReadOk? && !s.m.open && s.log.raised != [] && s.log.raised[|s.log.raised| - 1].Down?
  }

  ghost predicate LateRead(s: State, run: seq<Event>)
    requires Legal(s, run)
    decreases |run|
  {
    run != [] && (LateReadStep(s, run[0]) || LateRead(Step(s, run[0]), run[1..]))
  }

  /** An owner that stays gets the whole story; one that goes away got a prefix of it. */
  ghost predicate TellsStory(s: State) {
    && s.log.raised <= Story(s)
    && (s.io.sink ==> s.log.raised == Story(s))
  }

  lemma StoryExtended(s: State, s': State, n: Notice)
    requires TellsStory(s) && s'.io.sink == s.io.sink && Story(s') == Story(s) + [n]
    requires s'.log.raised == if s.io.sink then s.log.raised + [n] else s.log.raised
    ensures TellsStory(s')
  {
  }

  /** What coming up changes: nothing on a session whose server is gone, else the id and the notice. */
  ghost predicate CameUp(s: State, s': State, id: nat, entered: bool) {
    && s'.role == s.role && s'.io.sink == s.io.sink && s'.log.received == s.log.received
    && (if s.role.Server? && !s.io.sink then
          s'.io.chain.Abandoned? && s'.log.raised == s.log.raised
        else
          && s'.io.chain.Opened? && s'.m.open && s'.io.entered == entered && s'.m.clientId == id
          && s'.log.raised == if entered && s.io.sink then s.log.raised + [Up(id)] else s.log.raised)
  }

  lemma OpenComesUp(s: State, id: nat, entered: bool)
    ensures CameUp(s, OnOpen(s, id, entered), id, entered)
  {
  }

  lemma ComingUpTellsStory(s: State, s': State, id: nat, entered: bool)
    requires TellsStory(s) && (s.io.chain.Opening? || s.io.chain.Abandoned?) && !s.m.open && s.log.received == []
    requires CameUp(s, s', id, entered)
    ensures TellsStory(s')
  {
    assert Messages(s.log.received) == [] && Story(s) == [];
    if s'.io.chain.Abandoned? || !entered {
      assert Story(s') == [];
    } else {
      assert Story(s') == [Up(id)];
      StoryExtended(s, s', Up(id));
    }
  }

  lemma OpenTellsStory(s: State, id: nat, entered: bool)
    requires TellsStory(s) && (s.io.chain.Opening? || s.io.chain.Abandoned?) && !s.m.open && s.log.received == []
    ensures TellsStory(OnOpen(s, id, entered))
  {
    OpenComesUp(s, id, entered);
    ComingUpTellsStory(s, OnOpen(s, id, entered), id, entered);
  }

  lemma ReceiveExtends(s: State, m: Payload)
    requires s.io.pendingReads > 0
    ensures Messages(OnRead(s, m).log.received) == Messages(s.log.received) + [Message(m)]
  {
  }

  lemma LiveReadTellsStory(s: State, m: Payload)
    requires Core(s) && TellsStory(s) && s.io.pendingReads > 0 && s.m.open
    ensures TellsStory(OnRead(s, m))
  {
    ReceiveExtends(s, m);
    assert Story(OnRead(s, m)) == Story(s) + [Message(m)];
    StoryExtended(s, OnRead(s, m), Message(m));
  }

  /** A read that succeeds on a closed session whose owner was gone before it closed goes unnoticed. */
  lemma QuietReadTellsStory(s: State, m: Payload)
    requires Core(s) && TellsStory(s) && s.io.pendingReads > 0 && !s.m.open && !LateReadStep(s, ReadOk(m))
    ensures TellsStory(OnRead(s, m))
  {
    var told := [Up(s.m.clientId)] + Messages(s.log.received);
    ReceiveExtends(s, m);
    assert Story(s) == told + [Down(s.m.clientId)];
    assert s.log.raised != Story(s);
    assert s.log.raised <= told;
    assert Story(OnRead(s, m)) == told + [Message(m)] + [Down(s.m.clientId)];
  }

  lemma ClosedTellsStory(s: State)
    requires TellsStory(s) && (s.m.open ==> s.io.chain.Opened?)
    ensures TellsStory(HandleClosed(s))
  {
    var s' := HandleClosed(s);
    if s.m.open {
      assert Story(s') == Story(s) + [Down(s.m.clientId)];
      StoryExtended(s, s', Down(s.m.clientId));
    } else {
      assert Story(s') == Story(s);
    }
  }

  lemma OpenErrTellsStory(s: State)
    requires TellsStory(s) && (s.io.chain.Opening? || s.io.chain.Abandoned?) && s.log.received == []
    ensures TellsStory(OnOpenFailed(s))
  {
    var s' := OnOpenFailed(s);
    assert Story(s) == [];
    if s.role.Client? {
      assert Story(s') == [ConnectFailed];
      StoryExtended(s, s', ConnectFailed);
    }
  }

  lemma WriteTellsStory(s: State)
    requires Core(s) && s.io.pendingWrites > 0 && s.m.open
    ensures var s' := OnWrite(s);
            && Story(s') == Story(s) && s'.log.raised == s.log.raised
            && s'.io.sink == s.io.sink && s'.m.open && s'.io.failed == s.io.failed
  {
    PopDrains(s);
  }

  /** Every handler goes on with the story but a late write or a late read. */
  lemma StepTellsStory(s: State, e: Event)
    requires Core(s) && TellsStory(s) && Outstanding(s, e)
    requires !LateReadStep(s, e) && !(e.WriteOk? && !s.m.open)
    ensures TellsStory(Step(s, e))
  {
    match e
    case OpenOk(id, entered) => OpenTellsStory(s, id, entered);
    case OpenErr => OpenErrTellsStory(s);
    case ReadOk(m) => if s.m.open { LiveReadTellsStory(s, m); } else { QuietReadTellsStory(s, m); }
    case ReadErr => ClosedTellsStory(ReadFailed(s));
    case WriteErr => ClosedTellsStory(WriteFailed(s));
    case WriteOk => WriteTellsStory(s);
    case Send(_) => assert Story(Step(s, e)) == Story(s);
    case Close => assert Story(Step(s, e)) == Story(s);
    case SinkGone => assert Story(Step(s, e)) == Story(s);
    case CloseDone => assert Story(Step(s, e)) == Story(s);
  }

  // ----- The story breaks exactly on a late read -----

  /** The closing was reported, and a message was read since: the closing is not the last word. */
  ghost predicate BrokenAt(s: State, i: nat) {
    Entered(s) && 1 <= i < |s.log.raised| && i <= |s.log.received| && s.log.raised[i].Down?
  }

  lemma BrokenIsNoStory(s: State, i: nat)
    requires BrokenAt(s, i)
    ensures !TellsStory(s)
  {
    assert Story(s)[i] == Messages(s.log.received)[i - 1];
  }

  lemma StepExtendsLogs(s: State, e: Event)
    requires Outstanding(s, e)
    ensures s.log.raised <= Step(s, e).log.raised && s.log.received <= Step(s, e).log.received
  {
  }

  lemma EnteredStays(s: State, e: Event)
    requires s.io.chain.Opened? && Outstanding(s, e)
    ensures Entered(Step(s, e)) == Entered(s)
  {
  }

  lemma {:induction false} BrokenStays(s: State, run: seq<Event>, i: nat)
    requires BrokenAt(s, i) && Legal(s, run)
    ensures BrokenAt(Run(s, run), i)
    decreases |run|
  {
    if run != [] {
      StepExtendsLogs(s, run[0]);
      EnteredStays(s, run[0]);
      BrokenStays(Step(s, run[0]), run[1..], i);
    }
  }

  lemma LateReadBreaks(s: State, m: Payload)
    requires Core(s) && TellsStory(s) && s.io.pendingReads > 0 && LateReadStep(s, ReadOk(m))
    ensures BrokenAt(OnRead(s, m), |s.log.raised| - 1)
  {
    var told := [Up(s.m.clientId)] + Messages(s.log.received);
    assert Story(s) == told + [Down(s.m.clientId)];
    assert s.log.raised[|s.log.raised| - 1] == Story(s)[|s.log.raised| - 1];
    assert forall k :: 0 <= k < |told| ==> !told[k].Down?;
    EnteredStays(s, ReadOk(m));
    StepExtendsLogs(s, ReadOk(m));
  }

  /** Whatever the stream reports: a run that does not pop an empty queue tells its owner the story in
      order exactly when no read succeeds after the closing was reported. */
  lemma {:induction false} StoryToldExactlyUnlessLateRead(s: State, run: seq<Event>)
    requires Core(s) && TellsStory(s) && Legal(s, run) && !Run(s, run).log.crashed
    ensures TellsStory(Run(s, run)) <==> !LateRead(s, run)
    decreases |run|
  {
    if run != [] {
      NoCrashYet(s, run);
      StepKeepsCore(s, run[0]);
      var s' := Step(s, run[0]);
      if LateReadStep(s, run[0]) {
        LateReadBreaks(s, run[0].message);
        BrokenStays(s', run[1..], |s.log.raised| - 1);
        BrokenIsNoStory(Run(s, run), |s.log.raised| - 1);
      } else {
        StepTellsStory(s, run[0]);
        StoryToldExactlyUnlessLateRead(s', run[1..]);
      }
    }
  }

  /** A stream that could fail a write and still complete a read would report a message after the
      closing: open, send, failed write, successful read. */
  lemma WriteErrorThenReadBreaksStory(role: Role, p: Payload, m: Payload) returns (run: seq<Event>)
    ensures Legal(Init(role), run) && !Run(Init(role), run).log.crashed && !TellsStory(Run(Init(role), run))
    ensures var id := if role.Server? then 1 else 0;
            Run(Init(role), run).log.raised == [Up(id), Down(id), Message(m)]
  {
    var open := OpenOk(if role.Server? then 1 else 0, true);
    var s1 := Step(Init(role), open);
    var s2 := Step(s1, Send(p));
    var s3 := Step(s2, WriteErr);
    OpenSendFailWrite(role, p);
    LateMessage(s3, m);
    Prepend(s3, ReadOk(m), []);
    Prepend(s2, WriteErr, [ReadOk(m)]);
    Prepend(s1, Send(p), [WriteErr] + [ReadOk(m)]);
    Prepend(Init(role), open, [Send(p)] + ([WriteErr] + [ReadOk(m)]));
    run := [open] + ([Send(p)] + ([WriteErr] + [ReadOk(m)]));
  }

  lemma LateMessage(s: State, m: Payload)
    requires s.io.pendingReads == 1 && s.io.sink && Entered(s)
    requires |s.log.raised| == 2 && s.log.raised[1].Down?
    ensures OnRead(s, m).log.raised == s.log.raised + [Message(m)] && !TellsStory(OnRead(s, m))
    ensures OnRead(s, m).log.crashed == s.log.crashed
  {
    assert |OnRead(s, m).log.received| > 0;
    BrokenIsNoStory(OnRead(s, m), 1);
  }

  /** A read is outstanding on a session that a failed write has closed. */
  lemma OpenSendFailWrite(role: Role, p: Payload)
    ensures var id := if role.Server? then 1 else 0;
            var s1 := OnOpen(Init(role), id, true);
            && s1.io.pendingReads == 1 && s1.m.open && !s1.log.crashed && s1.log.raised == [Up(id)]
            && var s2 := OnSend(s1, p);
               && s2.io.pendingWrites == 1 && !s2.log.crashed
               && var s3 := SessionSpec.HandleClosed(WriteFailed(s2));
                  && s3.io.pendingReads == 1 && !s3.log.crashed && Entered(s3) && s3.io.sink
                  && s3.log.raised == [Up(id), Down(id)] && s3.log.received == []
  {
  }

  // ----- Over a stream whose failures are sticky -----

  ghost predicate Inv(s: State) {
    && Core(s)
    && (s.io.chain.Opened? && !s.m.open ==> s.io.failed)
    && (s.io.chain.Refused? ==> s.io.failed)
    && TellsStory(s)
  }

  /** An error is reported before a session is closed or refused. */
  lemma ClosedOnlyAfterError(s: State, e: Event)
    requires Outstanding(s, e)
    requires (s.io.chain.Opened? && !s.m.open ==> s.io.failed) && (s.io.chain.Refused? ==> s.io.failed)
    ensures var s' := Step(s, e);
            (s'.io.chain.Opened? && !s'.m.open ==> s'.io.failed) && (s'.io.chain.Refused? ==> s'.io.failed)
  {
  }

  lemma StickyIsNeverLate(s: State, e: Event)
    requires Inv(s) && Outstanding(s, e) && StickyStep(s, e)
    ensures !LateReadStep(s, e) && !(e.WriteOk? && !s.m.open)
  {
  }

  lemma StepKeepsInv(s: State, e: Event)
    requires Inv(s) && Outstanding(s, e) && StickyStep(s, e)
    ensures Inv(Step(s, e))
  {
    StepKeepsCore(s, e);
    StickyIsNeverLate(s, e);
    StepTellsStory(s, e);
    ClosedOnlyAfterError(s, e);
  }

  lemma {:induction false} RunKeepsInv(s: State, run: seq<Event>)
    requires Inv(s) && Legal(s, run) && Sticky(s, run)
    ensures Inv(Run(s, run)) && !LateWrite(s, run) && !LateRead(s, run)
    decreases |run|
  {
    if run != [] {
      StickyIsNeverLate(s, run[0]);
      StepKeepsInv(s, run[0]);
      RunKeepsInv(Step(s, run[0]), run[1..]);
    }
  }

  lemma InitHolds(role: Role)
    ensures Inv(Init(role))
  {
  }

  /** Safety of every interleaving of a session's handlers, whatever the stream reports. A run pops an
      empty queue exactly when a write succeeds on a session no longer open. Otherwise one write-type
      operation is outstanding at a time, payloads go to the wire in the order they were accepted, never
      more than the cap unwritten, the close comes last; and the owner got its notices in order exactly
      when no read succeeds after the closing was reported. Over a stream whose failures are sticky
      neither late completion occurs. */
  lemma SessionSafety(role: Role, run: seq<Event>)
    requires Legal(Init(role), run)
    ensures var s := Run(Init(role), run);
            && (s.log.crashed <==> LateWrite(Init(role), run))
            && (!s.log.crashed ==>
                  && Core(s)
                  && s.io.pendingWrites + s.io.pendingCloses <= 1
                  && (s.m.open ==>
                        && (s.m.queue != [] <==> s.io.pendingWrites == 1)
                        && s.log.written + s.m.queue == s.log.accepted
                        && (role.Server? && role.maxBacklog > 0 ==>
                              |s.log.accepted| - |s.log.written| <= role.maxBacklog))
                  && (TellsStory(s) <==> !LateRead(Init(role), run)))
            && (Sticky(Init(role), run) ==> !LateWrite(Init(role), run) && !LateRead(Init(role), run) && Inv(s))
  {
    InitHolds(role);
    CrashesExactlyOnLateWrite(Init(role), run);
    StandsAsItsEventsSay(Init(role), run);
    if !Run(Init(role), run).log.crashed {
      StoryToldExactlyUnlessLateRead(Init(role), run);
    }
    if Sticky(Init(role), run) {
      RunKeepsInv(Init(role), run);
    }
  }

  // ----- The close -----

  /** A close frame is the last operation ever handed to the stream, it follows every accepted
      payload, and no continuation adds anything behind it. */
  lemma {:induction false} NothingFollowsClose(s: State, run: seq<Event>)
    requires Core(s) && s.m.closeSent && Legal(s, run)
    ensures var s' := Run(s, run);
            && s'.log.wire == s.log.wire && s'.log.accepted == s.log.accepted == s'.log.written && !s'.log.crashed
    ensures |s.log.wire| == |s.log.accepted| + 1 && s.log.wire[|s.log.accepted|] == CloseFrame
    ensures forall i :: 0 <= i < |s.log.accepted| ==> s.log.wire[i] == Data(s.log.accepted[i])
    decreases |run|
  {
    if run != [] {
      StepKeepsCore(s, run[0]);
      CloseFreezesWire(s, run[0]);
      NothingFollowsClose(Step(s, run[0]), run[1..]);
    }
  }

  lemma CloseFreezesWire(s: State, e: Event)
    requires Core(s) && s.m.closeSent && Outstanding(s, e)
    ensures var s' := Step(s, e);
            && s'.m.closeSent && s'.log.wire == s.log.wire
            && s'.log.accepted == s.log.accepted && s'.log.written == s.log.written
  {
  }

  function CountWrites(run: seq<Event>): nat {
    if run == [] then 0 else (if run[0].WriteOk? then 1 else 0) + CountWrites(run[1..])
  }

  lemma ClosedStaysClosed(s: State, e: Event)
    requires s.io.chain.Opened? && Outstanding(s, e)
    ensures Step(s, e).io.chain.Opened? && (!s.m.open ==> !Step(s, e).m.open)
  {
  }

  /** mOpen goes up at most once and down at most once: a session that was open and is not any
      more never opens again, and nothing is sent or accepted on it. */
  lemma {:induction false} NeverReopens(s: State, run: seq<Event>)
    requires Core(s) && s.io.chain.Opened? && !s.m.open && Legal(s, run)
    ensures var s' := Run(s, run);
            s'.io.chain.Opened? && !s'.m.open && s'.log.wire == s.log.wire && s'.log.accepted == s.log.accepted
    decreases |run|
  {
    if run != [] {
      StepKeepsCore(s, run[0]);
      ClosedStaysClosed(s, run[0]);
      ClosedSendsNothing(s, run[0]);
      var s' := Step(s, run[0]);
      if s'.log.crashed {
        assert run[1..] == [];
      } else {
        NeverReopens(s', run[1..]);
      }
    }
  }

  lemma ClosedSendsNothing(s: State, e: Event)
    requires !s.io.chain.Opening? && !s.m.open && s.m.queue == [] && Outstanding(s, e)
    ensures Step(s, e).log.wire == s.log.wire && Step(s, e).log.accepted == s.log.accepted
  {
  }

  lemma ClosingStep(s: State, e: Event)
    requires !s.io.chain.Opening? && s.m.open && s.m.closeRequested && Outstanding(s, e) && Step(s, e).m.open
    requires s.io.pendingWrites > 0 ==> s.m.queue != []
    ensures var s' := Step(s, e);
            && s'.m.closeRequested && s'.log.accepted == s.log.accepted
            && |s'.m.queue| == |s.m.queue| - (if e.WriteOk? then 1 else 0)
  {
  }

  /** No close is lost: on an open session with a close requested the queue only shrinks, by one for
      each successful write, and the close goes out exactly when the last payload is written. */
  lemma {:induction false} CloseFollowsDrain(s: State, run: seq<Event>)
    requires Core(s) && s.m.open && s.m.closeRequested && Legal(s, run) && Run(s, run).m.open
    ensures var s' := Run(s, run);
            && s'.log.accepted == s.log.accepted
            && |s'.m.queue| == |s.m.queue| - CountWrites(run)
            && (s'.m.closeSent <==> CountWrites(run) == |s.m.queue|)
            && (!s'.m.closeSent ==> s'.io.pendingWrites == 1)
    decreases |run|
  {
    if run != [] {
      StepKeepsCore(s, run[0]);
      var s' := Step(s, run[0]);
      if !s'.m.open {
        ClosedStaysClosed(s, run[0]);
        NeverReopens(s', run[1..]);
      }
      ClosingStep(s, run[0]);
      CloseFollowsDrain(s', run[1..]);
    }
  }

  /** A close was requested before the session came up. */
  ghost predicate ClosedEarly(s: State) {
    && Core(s) && s.m.closeRequested
    && (s.io.chain.Opened? ==> s.m.closeSent && s.log.wire == [CloseFrame] && s.log.accepted == [])
  }

  lemma StepKeepsClosedEarly(s: State, e: Event)
    requires ClosedEarly(s) && Outstanding(s, e)
    ensures ClosedEarly(Step(s, e))
  {
    StepKeepsCore(s, e);
    if s.m.closeSent {
      CloseFreezesWire(s, e);
    }
  }

  /** A close requested before the handshake finished is all the session ever sends, in every
      continuation: it goes out with the handshake, and no payload is accepted before or after. */
  lemma {:induction false} EarlyCloseIsAllThatIsSent(s: State, run: seq<Event>)
    requires ClosedEarly(s) && Legal(s, run)
    ensures var s' := Run(s, run);
            && !s'.log.crashed && s'.log.accepted == []
            && s'.log.wire == (if s'.io.chain.Opened? then [CloseFrame] else [])
    decreases |run|
  {
    if run != [] {
      StepKeepsClosedEarly(s, run[0]);
      EarlyCloseIsAllThatIsSent(Step(s, run[0]), run[1..]);
    }
  }

  /** The session came up only to be closed. */
  ghost predicate Rejected(s: State) {
    && Core(s) && s.io.chain.Opened? && !Registered(s) && s.log.wire == [CloseFrame]
  }

  lemma StepKeepsRejected(s: State, e: Event)
    requires Rejected(s) && Outstanding(s, e)
    ensures Rejected(Step(s, e)) && Step(s, e).log.raised == s.log.raised
  {
    StepKeepsCore(s, e);
    CloseFreezesWire(s, e);
  }

  /** A session its server answers with the id 0 sends its close and nothing else, in any continuation:
      it reads and accepts nothing, and has nothing more to report. */
  lemma {:induction false} RejectedOnlyCloses(s: State, run: seq<Event>)
    requires Rejected(s) && Legal(s, run)
    ensures var s' := Run(s, run);
            && Rejected(s') && !s'.log.crashed && s'.log.raised == s.log.raised
            && s'.io.pendingReads == 0 && s'.log.received == [] && s'.log.accepted == []
    decreases |run|
  {
    if run != [] {
      StepKeepsRejected(s, run[0]);
      RejectedOnlyCloses(Step(s, run[0]), run[1..]);
    }
  }

  // ----- Requests to close -----

  /** Once a close was requested nothing more is accepted. */
  lemma {:induction false} RequestedTakesNothing(s: State, run: seq<Event>)
    requires s.m.closeRequested && Legal(s, run)
    ensures Run(s, run).m.closeRequested && Run(s, run).log.accepted == s.log.accepted
    decreases |run|
  {
    if run != [] {
      StepTakesNothing(s, run[0]);
      RequestedTakesNothing(Step(s, run[0]), run[1..]);
    }
  }

  lemma StepTakesNothing(s: State, e: Event)
    requires s.m.closeRequested && Outstanding(s, e)
    ensures Step(s, e).m.closeRequested && Step(s, e).log.accepted == s.log.accepted
  {
    StepStands(s, e);
    if !e.Send? {
      OnlySendsAreAccepted(s, e);
    }
  }

  lemma OnlySendsAreAccepted(s: State, e: Event)
    requires Outstanding(s, e) && !e.Send?
    ensures Step(s, e).log.accepted == s.log.accepted
  {
  }

  /** A Close is honoured, in every run it occurs in: from it on nothing more is accepted. A session still
      open in the end has sent its close, behind every accepted payload, exactly when as many writes
      succeeded since as were waiting then. A session that had not come up sends nothing but the close,
      as soon as it comes up. */
  lemma CloseIsHonoured(role: Role, before: seq<Event>, after: seq<Event>)
    requires Legal(Init(role), before) && !Run(Init(role), before).log.crashed
    requires Legal(Run(Init(role), before), [Close] + after)
    requires !Run(Run(Init(role), before), [Close] + after).log.crashed
    ensures var s, s' := Run(Init(role), before), Run(Run(Init(role), before), [Close] + after);
            && s'.log.accepted == s.log.accepted
            && (s.m.open && s'.m.open ==>
                  if CountWrites(after) < |s.m.queue| then !s'.m.closeSent
                  else |s'.log.wire| == |s'.log.accepted| + 1 && s'.log.wire[|s'.log.accepted|] == CloseFrame)
            && (!s.io.chain.Opened? ==>
                  s'.log.accepted == [] && s'.log.wire == if s'.io.chain.Opened? then [CloseFrame] else [])
  {
    var s := Run(Init(role), before);
    InitHolds(role);
    CrashesExactlyOnLateWrite(Init(role), before);
    assert ([Close] + after)[1..] == after;
    CloseKeepsCore(s);
    CloseStarts(s);
    ClosingRuns(Step(s, Close), after);
  }

  /** What the handler of a Close leaves. */
  lemma CloseStarts(s: State)
    requires Core(s)
    ensures var s' := Step(s, Close);
            && s'.m.closeRequested && s'.log.accepted == s.log.accepted && s'.m.open == s.m.open
            && s'.m.queue == s.m.queue && s'.io.chain == s.io.chain
  {
  }

  lemma ClosingRuns(s: State, run: seq<Event>)
    requires Core(s) && s.m.closeRequested && Legal(s, run) && !Run(s, run).log.crashed
    ensures var s' := Run(s, run);
            && s'.log.accepted == s.log.accepted
            && (s.m.open && s'.m.open ==>
                  if CountWrites(run) < |s.m.queue| then !s'.m.closeSent
                  else |s'.log.wire| == |s'.log.accepted| + 1 && s'.log.wire[|s'.log.accepted|] == CloseFrame)
            && (!s.io.chain.Opened? ==>
                  s'.log.accepted == [] && s'.log.wire == if s'.io.chain.Opened? then [CloseFrame] else [])
  {
    RequestedTakesNothing(s, run);
    CrashesExactlyOnLateWrite(s, run);
    if s.m.open && Run(s, run).m.open {
      CloseFollowsDrain(s, run);
    }
    if !s.io.chain.Opened? {
      EarlyCloseIsAllThatIsSent(s, run);
    }
  }

  // ----- What the events make of a session -----

  /** How a session stands: its opening, whether its owner is there, whether it is open, and whether a close
      was requested. */
  datatype Standing = Standing(chain: Chain, sink: bool, open: bool, closing: bool)

  function StandingOf(s: State): Standing {
    Standing(s.io.chain, s.io.sink, s.m.open, s.m.closeRequested)
  }

  /** What each event means for it. */
  function After(role: Role, c: Standing, e: Event): Standing {
    match e
    case SinkGone => c.(sink := false)
    case Close => c.(closing := true)
    case OpenErr => c.(chain := Refused)
    case OpenOk(id, _) =>
      if role.Server? && !c.sink then c.(chain := Abandoned)
      else c.(chain := Opened, open := true, closing := c.closing || (role.Server? && id == 0))
    case ReadErr => c.(open := false)
    case WriteErr => c.(open := false)
    case _ => c
  }

  function AfterAll(role: Role, c: Standing, run: seq<Event>): Standing
    decreases |run|
  {
    if run == [] then c else AfterAll(role, After(role, c, run[0]), run[1..])
  }

  lemma StepStands(s: State, e: Event)
    requires Outstanding(s, e)
    ensures StandingOf(Step(s, e)) == After(s.role, StandingOf(s), e) && Step(s, e).role == s.role
  {
    if e.OpenOk? {
      OpenStands(s, e.id, e.entered);
    } else if e.WriteOk? {
      WriteStands(s);
    }
  }

  lemma OpenStands(s: State, id: nat, entered: bool)
    ensures var s' := OnOpen(s, id, entered);
            StandingOf(s') == After(s.role, StandingOf(s), OpenOk(id, entered)) && s'.role == s.role
  {
  }

  lemma WriteStands(s: State)
    requires s.io.pendingWrites > 0
    ensures StandingOf(OnWrite(s)) == StandingOf(s) && OnWrite(s).role == s.role
  {
  }

  lemma StepTellsNobody(s: State, e: Event)
    requires Outstanding(s, e) && !s.io.sink
    ensures Step(s, e).log.raised == s.log.raised
  {
  }

  /** In every run a session stands as its events say: it comes up by the opening alone, is open until a
      read or a write fails, and a close is requested by a Close, or by the server's answer 0. And an
      owner that is gone is told nothing more. */
  lemma {:induction false} StandsAsItsEventsSay(s: State, run: seq<Event>)
    requires Legal(s, run)
    ensures StandingOf(Run(s, run)) == AfterAll(s.role, StandingOf(s), run) && Run(s, run).role == s.role
    ensures !s.io.sink ==> Run(s, run).log.raised == s.log.raised
    decreases |run|
  {
    if run != [] {
      StepStands(s, run[0]);
      if !s.io.sink {
        StepTellsNobody(s, run[0]);
      }
      StandsAsItsEventsSay(Step(s, run[0]), run[1..]);
    }
  }

  // ----- The backlog -----

  /** Fewer than maxBacklog accepted payloads are unwritten. */
  predicate BelowCap(s: State) {
    s.role.Client? || s.role.maxBacklog == 0 || |s.log.accepted| - |s.log.written| < s.role.maxBacklog
  }

  /** The payload of a send on a session that still takes any. */
  function Sent(s: State, e: Event): seq<Payload> {
    if e.Send? && s.m.open && !s.m.closeRequested then [e.payload] else []
  }

  function Fits(s: State, e: Event): seq<Payload> {
    if BelowCap(s) then Sent(s, e) else []
  }

  function Misses(s: State, e: Event): nat {
    if BelowCap(s) then 0 else |Sent(s, e)|
  }

  /** The payloads sent while fewer than the cap were unwritten, and how many were sent at the cap. */
  ghost function SentBelowCap(s: State, run: seq<Event>): seq<Payload>
    requires Legal(s, run)
    decreases |run|
  {
    if run == [] then [] else Fits(s, run[0]) + SentBelowCap(Step(s, run[0]), run[1..])
  }

  ghost function SentAtCap(s: State, run: seq<Event>): nat
    requires Legal(s, run)
    decreases |run|
  {
    if run == [] then 0 else Misses(s, run[0]) + SentAtCap(Step(s, run[0]), run[1..])
  }

  lemma StepAcceptsBelowCap(s: State, e: Event)
    requires Core(s) && Outstanding(s, e)
    ensures Step(s, e).log.accepted == s.log.accepted + Fits(s, e)
    ensures Step(s, e).log.drops == s.log.drops + Misses(s, e)
  {
  }

  lemma CrashEnds(s: State, run: seq<Event>)
    requires Legal(s, run)
    ensures s.log.crashed ==> run == []
  {
  }

  lemma NoCrashYet(s: State, run: seq<Event>)
    requires Legal(s, run) && run != [] && !Run(s, run).log.crashed
    ensures !Step(s, run[0]).log.crashed
  {
    CrashEnds(Step(s, run[0]), run[1..]);
  }

  lemma StepKeepsCapCore(s: State, e: Event)
    requires Core(s) && Outstanding(s, e) && !Step(s, e).log.crashed
    ensures Core(Step(s, e))
    ensures Step(s, e).log.accepted == s.log.accepted + Fits(s, e)
    ensures Step(s, e).log.drops == s.log.drops + Misses(s, e)
  {
    StepKeepsCore(s, e);
    StepAcceptsBelowCap(s, e);
  }

  lemma {:induction false} AcceptsBelowCap(s: State, run: seq<Event>)
    requires Core(s) && Legal(s, run) && !Run(s, run).log.crashed
    ensures Run(s, run).log.accepted == s.log.accepted + SentBelowCap(s, run)
    decreases |run|
  {
    if run != [] {
      NoCrashYet(s, run);
      StepKeepsCapCore(s, run[0]);
      AcceptsBelowCap(Step(s, run[0]), run[1..]);
      Regroup(s.log.accepted, Fits(s, run[0]), SentBelowCap(Step(s, run[0]), run[1..]));
    }
  }

  lemma Regroup(a: seq<Payload>, b: seq<Payload>, c: seq<Payload>)
    ensures (a + b) + c == a + (b + c)
  {
  }

  lemma {:induction false} DropsAtCap(s: State, run: seq<Event>)
    requires Core(s) && Legal(s, run) && !Run(s, run).log.crashed
    ensures Run(s, run).log.drops == s.log.drops + SentAtCap(s, run)
    decreases |run|
  {
    if run != [] {
      NoCrashYet(s, run);
      StepKeepsCapCore(s, run[0]);
      DropsAtCap(Step(s, run[0]), run[1..]);
    }
  }

  /** Every send on an open session with no close requested is accepted or dropped, in every run that
      does not crash: accepted, in order, when fewer than maxBacklog accepted payloads are unwritten, and
      dropped otherwise. */
  lemma AcceptedExactlyBelowCap(role: Role, run: seq<Event>)
    requires Legal(Init(role), run) && !Run(Init(role), run).log.crashed
    ensures Run(Init(role), run).log.accepted == SentBelowCap(Init(role), run)
    ensures Run(Init(role), run).log.drops == SentAtCap(Init(role), run)
  {
    AcceptsBelowCap(Init(role), run);
    DropsAtCap(Init(role), run);
  }
}
