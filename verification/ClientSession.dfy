/** The client's session object: the connect chain in front of the session state machine. */
module ClientSession {
  import opened SessionSpec
  import SessionRuns

  /** The operation of the connect chain that is outstanding. */
  datatype Stage = NotStarted | Resolving | TcpConnecting | SslHandshaking | WsHandshaking | Finished

  datatype Connect = Connect(
    stage: Stage,
    handler: bool,            // mOnConnectComplete is set
    completions: seq<bool>,   // what the completion handler was called with
    core: State)

  datatype Event =
    | AsyncConnect
    | OnResolve(ok: bool)
    | OnTcpConnect(ok: bool, sniOk: bool)
    | OnSslHandshake(ok: bool)
    | OnWebsocketHandshake(ok: bool)
    | Handler(e: SessionSpec.Event)   // Send, Close and everything after the handshake

  function Fresh(): Connect {
    Connect(NotStarted, false, [], SessionSpec.Init(Client))
  }

  predicate Enabled(c: Connect, e: Event) {
    match e
    case AsyncConnect => c.stage.NotStarted?
    case OnResolve(_) => c.stage.Resolving?
    case OnTcpConnect(_, _) => c.stage.TcpConnecting?
    case OnSslHandshake(_) => c.stage.SslHandshaking?
    case OnWebsocketHandshake(_) => c.stage.WsHandshaking?
    case Handler(h) => !h.OpenOk? && !h.OpenErr? && Outstanding(c.core, h) && StickyStep(c.core, h)
  }

  function CompleteConnect(c: Connect, success: bool): Connect {
    if c.handler then c.(handler := false, completions := c.completions + [success]) else c
  }

  function Fail(c: Connect): Connect {
    CompleteConnect(c.(stage := Finished, core := OnOpenFailed(c.core)), false)
  }

  function Succeed(c: Connect): Connect {
    CompleteConnect(c.(stage := Finished, core := OnOpen(c.core, 0, true)), true)
  }

  function Advance(isSsl: bool, c: Connect, e: Event): Connect
    requires Enabled(c, e)
  {
    match e
    case AsyncConnect => c.(stage := Resolving, handler := true)
    case OnResolve(ok) => if ok then c.(stage := TcpConnecting) else Fail(c)
    case OnTcpConnect(ok, sniOk) =>
      if !ok || (isSsl && !sniOk) then Fail(c)
      else c.(stage := if isSsl then SslHandshaking else WsHandshaking)
    case OnSslHandshake(ok) => if ok then c.(stage := WsHandshaking) else Fail(c)
    case OnWebsocketHandshake(ok) => if ok then Succeed(c) else Fail(c)
    case Handler(h) => c.(core := SessionSpec.Step(c.core, h))
  }

  ghost predicate Legal(isSsl: bool, c: Connect, run: seq<Event>)
    decreases |run|
  {
    run == [] || (Enabled(c, run[0]) && Legal(isSsl, Advance(isSsl, c, run[0]), run[1..]))
  }

  ghost function Run(isSsl: bool, c: Connect, run: seq<Event>): Connect
    requires Legal(isSsl, c, run)
    decreases |run|
  {
    if run == [] then c else Run(isSsl, Advance(isSsl, c, run[0]), run[1..])
  }

  ghost predicate Inv(isSsl: bool, c: Connect) {
    && SessionRuns.Inv(c.core)
    && c.core.role.Client? && c.core.m.clientId == 0
    && (c.core.io.chain.Opening? <==> !c.stage.Finished?)
    && !c.core.io.chain.Abandoned?
    && (c.handler <==> !c.stage.NotStarted? && !c.stage.Finished?)
    && (!isSsl ==> !c.stage.SslHandshaking?)
    && c.completions == (if c.core.io.chain.Opened? then [true] else if c.core.io.chain.Refused? then [false] else [])
  }

  lemma ChainStays(s: State, h: SessionSpec.Event)
    requires Outstanding(s, h) && !h.OpenOk? && !h.OpenErr?
    ensures var s' := SessionSpec.Step(s, h);
            s'.io.chain == s.io.chain && s'.role == s.role && s'.m.clientId == s.m.clientId
  {
  }

  lemma StepKeepsInv(isSsl: bool, c: Connect, e: Event)
    requires Inv(isSsl, c) && Enabled(c, e)
    ensures Inv(isSsl, Advance(isSsl, c, e))
  {
    if e.Handler? {
      SessionRuns.StepKeepsInv(c.core, e.e);
      ChainStays(c.core, e.e);
    } else if c.core.io.chain.Opening? {
      if !c.stage.NotStarted? {
        FinishKeepsInv(isSsl, c);
      }
    }
  }

  lemma FinishKeepsInv(isSsl: bool, c: Connect)
    requires Inv(isSsl, c) && c.core.io.chain.Opening? && !c.stage.NotStarted?
    ensures Inv(isSsl, Fail(c)) && Inv(isSsl, Succeed(c))
  {
    SessionRuns.StepKeepsInv(c.core, OpenErr);
    SessionRuns.StepKeepsInv(c.core, OpenOk(0, true));
    OpeningEnds(c.core);
  }

  lemma OpeningEnds(s: State)
    requires s.role.Client?
    ensures var s' := OnOpen(s, 0, true);
            s'.io.chain.Opened? && s'.role == s.role && s'.m.clientId == 0
    ensures OnOpenFailed(s).io.chain.Refused? && OnOpenFailed(s).role == s.role
    ensures OnOpenFailed(s).m.clientId == s.m.clientId
  {
  }

  lemma FreshHolds(isSsl: bool)
    ensures Inv(isSsl, Fresh())
  {
    SessionRuns.InitHolds(Client);
  }

  lemma {:induction false} RunKeepsInv(isSsl: bool, c: Connect, run: seq<Event>)
    requires Inv(isSsl, c) && Legal(isSsl, c, run)
    ensures Inv(isSsl, Run(isSsl, c, run))
    decreases |run|
  {
    if run != [] {
      StepKeepsInv(isSsl, c, run[0]);
      RunKeepsInv(isSsl, Advance(isSsl, c, run[0]), run[1..]);
    }
  }

  /** One connect attempt, over every interleaving of the chain, closes, sends and stream
      completions: the completion handler runs at most once; a failed attempt tells a client that is
      still there exactly one disconnect and nothing else; a successful one tells it connect, then
      every message in order, then one disconnect once the session went down. */
  lemma AttemptReportsOnce(isSsl: bool, run: seq<Event>)
    requires Legal(isSsl, Fresh(), run)
    ensures var c := Run(isSsl, Fresh(), run);
            var s := c.core;
            && Inv(isSsl, c)
            && |c.completions| <= 1
            && (c.completions == [true] <==> s.io.chain.Opened?)
            && (c.completions == [false] ==> SessionRuns.Story(s) == [ConnectFailed])
            && (c.completions == [] ==> SessionRuns.Story(s) == [])
            && (c.completions == [true] ==>
                  SessionRuns.Story(s) == [Up(s.m.clientId)] + SessionRuns.Messages(s.log.received)
                                          + (if s.m.open then [] else [Down(s.m.clientId)]))
            && s.log.raised <= SessionRuns.Story(s)
            && (s.io.sink ==> s.log.raised == SessionRuns.Story(s))
  {
    FreshHolds(isSsl);
    RunKeepsInv(isSsl, Fresh(), run);
    var s := Run(isSsl, Fresh(), run).core;
    assert s.log.received == [] ==> SessionRuns.Messages(s.log.received) == [];
  }

  // ----- The connect chain, told from its events -----

  /** A stage failed: its operation did, or setting the server name for TLS. */
  predicate FailsBy(isSsl: bool, e: Event) {
    match e
    case OnResolve(ok) => !ok
    case OnTcpConnect(ok, sniOk) => !ok || (isSsl && !sniOk)
    case OnSslHandshake(ok) => !ok
    case OnWebsocketHandshake(ok) => !ok
    case _ => false
  }

  ghost predicate StageFailed(isSsl: bool, past: seq<Event>) {
    exists i :: 0 <= i < |past| && FailsBy(isSsl, past[i])
  }

  /** The TCP connection was made, under the server name for TLS. */
  ghost predicate Connected(isSsl: bool, past: seq<Event>) {
    OnTcpConnect(true, true) in past || (!isSsl && OnTcpConnect(true, false) in past)
  }

  /** The connection was made, and then the TLS handshake succeeded over it. */
  ghost predicate Secured(past: seq<Event>) {
    exists i :: 0 <= i < |past| && past[i] == OnSslHandshake(true) && OnTcpConnect(true, true) in past[..i]
  }

  ghost predicate Traced(isSsl: bool, c: Connect, past: seq<Event>) {
    && (c.core.io.chain.Opened? <==> OnWebsocketHandshake(true) in past)
    && (c.core.io.chain.Refused? <==> StageFailed(isSsl, past))
    && (c.stage.TcpConnecting? || c.stage.SslHandshaking? || c.stage.WsHandshaking? || c.core.io.chain.Opened? ==>
          OnResolve(true) in past)
    && (c.stage.SslHandshaking? || c.stage.WsHandshaking? || c.core.io.chain.Opened? ==> Connected(isSsl, past))
    && (isSsl && (c.stage.WsHandshaking? || c.core.io.chain.Opened?) ==> Secured(past))
  }

  lemma PastGrows(isSsl: bool, past: seq<Event>, e: Event)
    ensures StageFailed(isSsl, past + [e]) <==> StageFailed(isSsl, past) || FailsBy(isSsl, e)
    ensures Connected(isSsl, past) ==> Connected(isSsl, past + [e])
    ensures Secured(past) ==> Secured(past + [e])
    ensures e == OnSslHandshake(true) && OnTcpConnect(true, true) in past ==> Secured(past + [e])
  {
    if i :| 0 <= i < |past| && FailsBy(isSsl, past[i]) {
      assert FailsBy(isSsl, (past + [e])[i]);
    }
    if FailsBy(isSsl, e) {
      assert FailsBy(isSsl, (past + [e])[|past|]);
    }
    if i :| 0 <= i < |past| && past[i] == OnSslHandshake(true) && OnTcpConnect(true, true) in past[..i] {
      assert (past + [e])[..i] == past[..i] && (past + [e])[i] == past[i];
    }
    assert (past + [e])[..|past|] == past;
  }

  lemma StepIsTraced(isSsl: bool, c: Connect, past: seq<Event>, e: Event)
    requires Inv(isSsl, c) && Traced(isSsl, c, past) && Enabled(c, e)
    ensures Traced(isSsl, Advance(isSsl, c, e), past + [e])
  {
    PastGrows(isSsl, past, e);
    if e.Handler? {
      ChainStays(c.core, e.e);
    } else {
      OpeningEnds(c.core);
    }
  }

  lemma MovesOn(past: seq<Event>, run: seq<Event>)
    ensures run == [] ==> past + run == past
    ensures run != [] ==> past + [run[0]] + run[1..] == past + run
  {
  }

  lemma {:induction false} RunIsTraced(isSsl: bool, c: Connect, past: seq<Event>, run: seq<Event>, all: seq<Event>)
    requires Inv(isSsl, c) && Traced(isSsl, c, past) && Legal(isSsl, c, run) && all == past + run
    ensures Inv(isSsl, Run(isSsl, c, run)) && Traced(isSsl, Run(isSsl, c, run), all)
    decreases |run|
  {
    MovesOn(past, run);
    if run != [] {
      StepKeepsInv(isSsl, c, run[0]);
      StepIsTraced(isSsl, c, past, run[0]);
      RunIsTraced(isSsl, Advance(isSsl, c, run[0]), past + [run[0]], run[1..], all);
    }
  }

  /** A session opens only through its whole connect chain, in every interleaving: exactly when the
      websocket handshake succeeded, and then the resolve, the connect and, for TLS, the TLS handshake over
      that connection had succeeded before. The attempt is completed as failed exactly when a stage failed. */
  lemma OpensOnlyThroughItsChain(isSsl: bool, run: seq<Event>)
    requires Legal(isSsl, Fresh(), run)
    ensures var c := Run(isSsl, Fresh(), run);
            && (c.core.io.chain.Opened? <==> OnWebsocketHandshake(true) in run)
            && (c.completions == [true] <==> OnWebsocketHandshake(true) in run)
            && (c.completions == [false] <==> StageFailed(isSsl, run))
            && (c.core.io.chain.Opened? || c.stage.WsHandshaking? ==>
                  OnResolve(true) in run && Connected(isSsl, run) && (isSsl ==> Secured(run)))
  {
    FreshHolds(isSsl);
    assert [] + run == run;
    RunIsTraced(isSsl, Fresh(), [], run, run);
  }

  // ----- The session object -----

  class Session {
    const isSsl: bool
    var mWriteQueue: seq<Payload>
    var mOpen: bool
    var mCloseRequested: bool
    var mCloseSent: bool
    var mOnConnectComplete: bool      // whether the handler is set
    ghost var stage: Stage
    ghost var completions: seq<bool>
    ghost var io: Outside
    ghost var log: Log

    ghost function Core(): State
      reads this
    {
      State(Client, Fields(mWriteQueue, mOpen, mCloseRequested, mCloseSent, false, 0), io, log)
    }

    ghost function View(): Connect
      reads this
    {
      Connect(stage, mOnConnectComplete, completions, Core())
    }

    ghost predicate Valid()
      reads this
    {
      Inv(isSsl, View())
    }

    constructor (isSsl: bool)
      ensures Valid() && View() == Fresh()
      ensures this.isSsl == isSsl
    {
      this.isSsl := isSsl;
      mWriteQueue, mOpen, mCloseRequested, mCloseSent, mOnConnectComplete := [], false, false, false, false;
      stage, completions := NotStarted, [];
      io := Outside(Opening, false, 0, 0, 0, false, true);
      log := Log([], 0, [], [], [], [], false);
      new;
      SessionRuns.InitHolds(Client);
    }

    // ----- The connect chain -----

    method HandleAsyncConnect()
      requires Valid() && Enabled(View(), AsyncConnect)
      modifies this
      ensures Valid() && View() == Advance(isSsl, old(View()), AsyncConnect)
    {
      StepKeepsInv(isSsl, View(), AsyncConnect);
      mOnConnectComplete := true;
      stage := Resolving;
    }

    method HandleResolve(ok: bool)
      requires Valid() && Enabled(View(), OnResolve(ok))
      modifies this
      ensures Valid() && View() == Advance(isSsl, old(View()), OnResolve(ok))
    {
      StepKeepsInv(isSsl, View(), OnResolve(ok));
      if !ok {
        ConnectFails();
        return;
      }
      stage := TcpConnecting;
    }

    method HandleTcpConnect(ok: bool, sniOk: bool)
      requires Valid() && Enabled(View(), OnTcpConnect(ok, sniOk))
      modifies this
      ensures Valid() && View() == Advance(isSsl, old(View()), OnTcpConnect(ok, sniOk))
      ensures stage == if !ok || (isSsl && !sniOk) then Finished else if isSsl then SslHandshaking else WsHandshaking
    {
      StepKeepsInv(isSsl, View(), OnTcpConnect(ok, sniOk));
      if !ok {
        ConnectFails();
        return;
      }
      if isSsl {
        if !sniOk {
          ConnectFails();
          return;
        }
        stage := SslHandshaking;
      } else {
        stage := WsHandshaking;
      }
    }

    method HandleSslHandshake(ok: bool)
      requires Valid() && Enabled(View(), OnSslHandshake(ok))
      modifies this
      ensures Valid() && View() == Advance(isSsl, old(View()), OnSslHandshake(ok))
    {
      StepKeepsInv(isSsl, View(), OnSslHandshake(ok));
      if !ok {
        ConnectFails();
        return;
      }
      stage := WsHandshaking;
    }

    method HandleWebsocketHandshake(ok: bool)
      requires Valid() && Enabled(View(), OnWebsocketHandshake(ok))
      modifies this
      ensures Valid() && View() == Advance(isSsl, old(View()), OnWebsocketHandshake(ok))
    {
      StepKeepsInv(isSsl, View(), OnWebsocketHandshake(ok));
      if !ok {
        ConnectFails();
        return;
      }
      ConnectSucceeds();
    }

    method ConnectSucceeds()
      requires mOnConnectComplete
      modifies this
      ensures View() == Succeed(old(View()))
    {
      stage := Finished;
      io := io.(chain := Opened, entered := true);
      mOpen := true;
      CompleteConnect(true);
      if mCloseRequested {
        MaybeSendClose();
      }
      io := io.(pendingReads := io.pendingReads + 1);
    }

    method ConnectFails()
      requires mOnConnectComplete
      modifies this
      ensures View() == Fail(old(View()))
    {
      stage := Finished;
      io := io.(chain := Refused, failed := true);
      CompleteConnect(false);
    }

    /** Runs the handler DoConnect stored, which notifies the client if it is still there. */
    method CompleteConnect(success: bool)
      modifies this`mOnConnectComplete, this`completions, this`log
      ensures !mOnConnectComplete
      ensures completions == old(completions) + if old(mOnConnectComplete) then [success] else []
      ensures log == if old(mOnConnectComplete) && io.sink
                     then old(log).(raised := old(log).raised + [if success then Up(0) else ConnectFailed])
                     else old(log)
    {
      if mOnConnectComplete {
        mOnConnectComplete := false;
        completions := completions + [success];
        if io.sink {
          log := log.(raised := log.raised + [if success then Up(0) else ConnectFailed]);
        }
      }
    }

    // ----- The session's handlers -----

    method HandleSend(message: Payload)
      requires Valid()
      modifies this
      ensures Valid() && View() == Advance(isSsl, old(View()), Handler(Send(message)))
    {
      StepKeepsInv(isSsl, View(), Handler(Send(message)));
      if !mOpen || mCloseRequested {
        return;
      }
      mWriteQueue := mWriteQueue + [message];
      log := log.(accepted := log.accepted + [message]);
      if |mWriteQueue| == 1 {
        DoWrite();
      }
    }

    method HandleClose()
      requires Valid()
      modifies this
      ensures Valid() && View() == Advance(isSsl, old(View()), Handler(Close))
      ensures mCloseRequested && mOpen == old(mOpen) && mWriteQueue == old(mWriteQueue)
      ensures log.wire == old(log.wire)
                          + if mOpen && mWriteQueue == [] && !old(mCloseSent) then [CloseFrame] else []
    {
      StepKeepsInv(isSsl, View(), Handler(Close));
      mCloseRequested := true;
      if mOpen {
        MaybeSendClose();
      }
    }

    method OnRead(message: Payload)
      requires Valid() && Enabled(View(), Handler(ReadOk(message)))
      modifies this
      ensures Valid() && View() == Advance(isSsl, old(View()), Handler(ReadOk(message)))
    {
      StepKeepsInv(isSsl, View(), Handler(ReadOk(message)));
      io := io.(pendingReads := io.pendingReads - 1);
      log := log.(received := log.received + [message]);
      if io.sink {
        log := log.(raised := log.raised + [Message(message)]);
      }
      io := io.(pendingReads := io.pendingReads + 1);
    }

    method OnReadFailed()
      requires Valid() && Enabled(View(), Handler(ReadErr))
      modifies this
      ensures Valid() && View() == Advance(isSsl, old(View()), Handler(ReadErr))
    {
      StepKeepsInv(isSsl, View(), Handler(ReadErr));
      io := io.(pendingReads := io.pendingReads - 1, failed := true);
      HandleClosed();
    }

    method OnWrite()
      requires Valid() && Enabled(View(), Handler(WriteOk))
      modifies this
      ensures Valid() && View() == Advance(isSsl, old(View()), Handler(WriteOk))
    {
      StepKeepsInv(isSsl, View(), Handler(WriteOk));
      assert mOpen && mWriteQueue != [];
      io := io.(pendingWrites := io.pendingWrites - 1);
      log := log.(written := log.written + [mWriteQueue[0]]);
      mWriteQueue := mWriteQueue[1..];
      if mWriteQueue != [] {
        DoWrite();
      } else if mCloseRequested {
        MaybeSendClose();
      }
    }

    method OnWriteFailed()
      requires Valid() && Enabled(View(), Handler(WriteErr))
      modifies this
      ensures Valid() && View() == Advance(isSsl, old(View()), Handler(WriteErr))
    {
      StepKeepsInv(isSsl, View(), Handler(WriteErr));
      io := io.(pendingWrites := io.pendingWrites - 1, failed := true);
      HandleClosed();
    }

    method DoWrite()
      requires mWriteQueue != []
      modifies this`io, this`log
      ensures Core() == StartWrite(old(Core()))
    {
      io := io.(pendingWrites := io.pendingWrites + 1);
      log := log.(wire := log.wire + [Data(mWriteQueue[0])]);
    }

    method MaybeSendClose()
      modifies this`io, this`log, this`mCloseSent
      ensures Core() == SessionSpec.MaybeSendClose(old(Core()))
    {
      if mCloseSent || mWriteQueue != [] {
        return;
      }
      mCloseSent := true;
      io := io.(pendingCloses := io.pendingCloses + 1);
      log := log.(wire := log.wire + [CloseFrame]);
    }

    method HandleClosed()
      modifies this`mWriteQueue, this`mOpen, this`log
      ensures Core() == SessionSpec.HandleClosed(old(Core()))
    {
      mWriteQueue := [];
      if !mOpen {
        return;
      }
      mOpen := false;
      if io.sink {
        log := log.(raised := log.raised + [Down(0)]);
      }
    }
  }
}
