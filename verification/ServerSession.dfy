/** The server's session object. Each handler is proved against the session state machine. */
module ServerSession {
  import opened SessionSpec
  import SessionRuns

  class WsSession {
    const maxSessionBacklog: nat
    var mWriteQueue: seq<Payload>
    var mOpen: bool
    var mCloseRequested: bool
    var mCloseSent: bool
    var mDropLogged: bool
    var mClientId: nat
    ghost var io: Outside
    ghost var log: Log

    ghost function View(): State
      reads this
    {
      State(Server(maxSessionBacklog),
            Fields(mWriteQueue, mOpen, mCloseRequested, mCloseSent, mDropLogged, mClientId), io, log)
    }

    ghost predicate Valid()
      reads this
    {
      SessionRuns.Inv(View())
    }

    /** A session for an upgrade request, its accept under way. */
    constructor (maxBacklog: nat)
      ensures Valid() && View() == Init(Server(maxBacklog))
    {
      maxSessionBacklog := maxBacklog;
      mWriteQueue, mOpen, mCloseRequested, mCloseSent, mDropLogged, mClientId := [], false, false, false, false, 0;
      io := Outside(Opening, false, 0, 0, 0, false, true);
      log := Log([], 0, [], [], [], [], false);
      new;
      SessionRuns.InitHolds(Server(maxBacklog));
    }

    // ----- Handlers -----

    method HandleSend(payload: Payload)
      requires Valid()
      modifies this
      ensures Valid() && View() == Step(old(View()), Send(payload))
    {
      SessionRuns.StepKeepsInv(View(), Send(payload));
      if !mOpen || mCloseRequested {
        return;
      }
      if maxSessionBacklog > 0 && |mWriteQueue| >= maxSessionBacklog {
        mDropLogged := true;
        log := log.(drops := log.drops + 1);
        return;
      }
      mWriteQueue := mWriteQueue + [payload];
      log := log.(accepted := log.accepted + [payload]);
      if |mWriteQueue| == 1 {
        DoWrite();
      }
    }

    method HandleClose()
      requires Valid()
      modifies this
      ensures Valid() && View() == Step(old(View()), Close)
      ensures mCloseRequested && mOpen == old(mOpen) && mWriteQueue == old(mWriteQueue)
      ensures log.wire == old(log.wire)
                          + if mOpen && mWriteQueue == [] && !old(mCloseSent) then [CloseFrame] else []
    {
      SessionRuns.StepKeepsInv(View(), Close);
      mCloseRequested := true;
      if mOpen {
        MaybeSendClose();
      }
    }

    /** The accept succeeded. eventsAlive is whether the weak reference to the server could be locked, id
        what RegisterWsClient answers in that case, having announced the client if it entered it. */
    method OnAccept(eventsAlive: bool, id: nat, ghost entered: bool)
      requires Valid() && Outstanding(View(), OpenOk(id, entered)) && eventsAlive == io.sink
      modifies this
      ensures Valid() && View() == Step(old(View()), OpenOk(id, entered))
    {
      SessionRuns.StepKeepsInv(View(), OpenOk(id, entered));
      if !eventsAlive {
        io := io.(chain := Abandoned);
        return;
      }
      RegisterWsClient(id, entered);
      if mClientId == 0 {
        mCloseRequested := true;
        MaybeSendClose();
        return;
      }
      if mCloseRequested {
        MaybeSendClose();
      }
      DoRead();
    }

    /** The session is open, and the server answers. */
    method RegisterWsClient(id: nat, ghost entered: bool)
      requires io.sink
      modifies this`mOpen, this`mClientId, this`io, this`log
      ensures View() == TakeUp(old(View()), id, entered)
    {
      mOpen := true;
      io := io.(chain := Opened, entered := entered);
      if entered {
        log := log.(raised := log.raised + [Up(id)]);
      }
      mClientId := id;
    }

    method OnAcceptFailed()
      requires Valid() && Outstanding(View(), OpenErr)
      modifies this
      ensures Valid() && View() == Step(old(View()), OpenErr)
    {
      SessionRuns.StepKeepsInv(View(), OpenErr);
      io := io.(chain := Refused, failed := true);
    }

    method OnRead(message: Payload)
      requires Valid() && Outstanding(View(), ReadOk(message)) && StickyStep(View(), ReadOk(message))
      modifies this
      ensures Valid() && View() == Step(old(View()), ReadOk(message))
    {
      SessionRuns.StepKeepsInv(View(), ReadOk(message));
      io := io.(pendingReads := io.pendingReads - 1);
      log := log.(received := log.received + [message]);
      if io.sink {
        log := log.(raised := log.raised + [Message(message)]);
      }
      DoRead();
    }

    method OnReadFailed()
      requires Valid() && Outstanding(View(), ReadErr)
      modifies this
      ensures Valid() && View() == Step(old(View()), ReadErr)
    {
      SessionRuns.StepKeepsInv(View(), ReadErr);
      io := io.(pendingReads := io.pendingReads - 1, failed := true);
      HandleClosed();
    }

    /** The pop below is the reason for the assumption on the stream. */
    method OnWrite()
      requires Valid() && Outstanding(View(), WriteOk) && StickyStep(View(), WriteOk)
      modifies this
      ensures Valid() && View() == Step(old(View()), WriteOk)
    {
      SessionRuns.StepKeepsInv(View(), WriteOk);
      assert mOpen && mWriteQueue != [];
      io := io.(pendingWrites := io.pendingWrites - 1);
      log := log.(written := log.written + [mWriteQueue[0]]);
      mWriteQueue := mWriteQueue[1..];
      if mWriteQueue != [] {
        DoWrite();
      } else if mCloseRequested {
        MaybeSendClose();
      }
    }

    method OnWriteFailed()
      requires Valid() && Outstanding(View(), WriteErr)
      modifies this
      ensures Valid() && View() == Step(old(View()), WriteErr)
    {
      SessionRuns.StepKeepsInv(View(), WriteErr);
      io := io.(pendingWrites := io.pendingWrites - 1, failed := true);
      HandleClosed();
    }

    // ----- Helpers -----

    method DoRead()
      modifies this`io
      ensures io == old(io).(pendingReads := old(io).pendingReads + 1)
    {
      io := io.(pendingReads := io.pendingReads + 1);
    }

    method DoWrite()
      requires mWriteQueue != []
      modifies this`io, this`log
      ensures View() == StartWrite(old(View()))
    {
      var payload := mWriteQueue[0];
      io := io.(pendingWrites := io.pendingWrites + 1);
      log := log.(wire := log.wire + [Data(payload)]);
    }

    method MaybeSendClose()
      modifies this`io, this`log, this`mCloseSent
      ensures View() == SessionSpec.MaybeSendClose(old(View()))
    {
      if mCloseSent || mWriteQueue != [] {
        return;
      }
      mCloseSent := true;
      io := io.(pendingCloses := io.pendingCloses + 1);
      log := log.(wire := log.wire + [CloseFrame]);
    }

    method HandleClosed()
      modifies this`mWriteQueue, this`mOpen, this`log
      ensures View() == SessionSpec.HandleClosed(old(View()))
    {
      mWriteQueue := [];
      if !mOpen {
        return;
      }
      mOpen := false;
      if io.sink {
        log := log.(raised := log.raised + [Down(mClientId)]);
      }
    }
  }
}
