/** One websocket session as a state machine over its strand handlers, shared by the server's
    CWsSession and the client's CSession, with the operations it has handed to the stream. */
module SessionSpec {

  /** A server session caps its backlog (0 means no cap); a client session does not. */
  datatype Role = Server(maxBacklog: nat) | Client

  /** A websocket message: text or binary. */
  datatype Payload = Payload(isText: bool, bytes: string)

  datatype Frame = Data(payload: Payload) | CloseFrame

  /** What a session reports to its owner: it came up (under the id it was registered with, 0 on a
      client), a client's connect attempt failed, a message arrived, it went down. */
  datatype Notice = Up(id: nat) | ConnectFailed | Message(message: Payload) | Down(id: nat)

  /** The session's own fields. */
  datatype Fields = Fields(
    queue: seq<Payload>,      // mWriteQueue
    open: bool,               // mOpen
    closeRequested: bool,     // mCloseRequested
    closeSent: bool,          // mCloseSent
    dropLogged: bool,         // mDropLogged
    clientId: nat)            // mClientId

  /** The accept (server) or connect chain (client): running, failed, finished for a session whose
      owner was already gone, or finished with mOpen set. */
  datatype Chain = Opening | Refused | Abandoned | Opened

  /** The stream's operations outstanding, and the owner. */
  datatype Outside = Outside(
    chain: Chain,
    entered: bool,            // the owner took the session up: the server entered it as a client
    pendingReads: nat,
    pendingWrites: nat,
    pendingCloses: nat,
    failed: bool,             // the opening, a read or a write has reported an error
    sink: bool)               // the weak reference to the owner can still be locked

  /** History. */
  datatype Log = Log(
    accepted: seq<Payload>,   // payloads Send queued
    drops: nat,               // payloads dropped because the backlog was full
    written: seq<Payload>,    // payloads whose write completed
    wire: seq<Frame>,         // data writes and closes handed to the stream
    received: seq<Payload>,   // messages read
    raised: seq<Notice>,      // notices the owner got
    crashed: bool)            // the write queue was popped while empty

  datatype State = State(role: Role, m: Fields, io: Outside, log: Log)

  function Init(role: Role): State {
    State(role, Fields([], false, false, false, false, 0), Outside(Opening, false, 0, 0, 0, false, true),
          Log([], 0, [], [], [], [], false))
  }

  /** The handlers the strand runs: requests by the owner, completions of stream operations, and
      the owner going away. The close's own completion handler does nothing either way. */
  datatype Event =
    | Send(payload: Payload) | Close | SinkGone
    | OpenOk(id: nat, entered: bool) | OpenErr
    | ReadOk(message: Payload) | ReadErr
    | WriteOk | WriteErr
    | CloseDone

  // ----- The private helpers -----

  function StartWrite(s: State): State
    requires s.m.queue != []
  {
    s.(io := s.io.(pendingWrites := s.io.pendingWrites + 1), log := s.log.(wire := s.log.wire + [Data(s.m.queue[0])]))
  }

  function StartRead(s: State): State {
    s.(io := s.io.(pendingReads := s.io.pendingReads + 1))
  }

  function MaybeSendClose(s: State): State {
    if s.m.closeSent || s.m.queue != [] then s
    else s.(m := s.m.(closeSent := true), io := s.io.(pendingCloses := s.io.pendingCloses + 1),
            log := s.log.(wire := s.log.wire + [CloseFrame]))
  }

  function CloseIfRequested(s: State): State {
    if s.m.closeRequested then MaybeSendClose(s) else s
  }

  function Raise(s: State, n: Notice): State {
    if s.io.sink then s.(log := s.log.(raised := s.log.raised + [n])) else s
  }

  function ShutDown(s: State): State {
    s.(m := s.m.(queue := [], open := false))
  }

  function HandleClosed(s: State): State {
    if s.m.open then Raise(ShutDown(s), Down(s.m.clientId)) else ShutDown(s)
  }

  // ----- One handler -----

  /** What the owner answers a session that came up: its id, and whether it took the session up. The
      server answers 0 to sessions it turns away, but may enter a client under 0 as well. */
  predicate CanAnswer(role: Role, id: nat, entered: bool) {
    if role.Client? then id == 0 && entered else id != 0 ==> entered
  }

  /** The completion belongs to an operation that is outstanding. */
  predicate Outstanding(s: State, e: Event) {
    && !s.log.crashed
    && match e
       case Send(_) => true
       case Close => true
       case SinkGone => true
       case OpenOk(id, entered) => s.io.chain.Opening? && CanAnswer(s.role, id, entered)
       case OpenErr => s.io.chain.Opening?
       case ReadOk(_) => s.io.pendingReads > 0
       case ReadErr => s.io.pendingReads > 0
       case WriteOk => s.io.pendingWrites > 0
       case WriteErr => s.io.pendingWrites > 0
       case CloseDone => s.io.pendingCloses > 0
  }

  /** Once the opening, a read or a write has reported an error, no read or write succeeds. */
  predicate StickyStep(s: State, e: Event) {
    e.ReadOk? || e.WriteOk? ==> !s.io.failed
  }

  predicate BacklogFull(s: State) {
    s.role.Server? && s.role.maxBacklog > 0 && |s.m.queue| >= s.role.maxBacklog
  }

  function Enqueue(s: State, p: Payload): State {
    s.(m := s.m.(queue := s.m.queue + [p]), log := s.log.(accepted := s.log.accepted + [p]))
  }

  function OnSend(s: State, p: Payload): State {
    if !s.m.open || s.m.closeRequested then s
    else if BacklogFull(s) then s.(m := s.m.(dropLogged := true), log := s.log.(drops := s.log.drops + 1))
    else if s.m.queue == [] then StartWrite(Enqueue(s, p))
    else Enqueue(s, p)
  }

  function RequestClose(s: State): State {
    s.(m := s.m.(closeRequested := true))
  }

  function OnClose(s: State): State {
    if s.m.open then MaybeSendClose(RequestClose(s)) else RequestClose(s)
  }

  function SetOpen(s: State, id: nat, entered: bool): State {
    s.(m := s.m.(open := true, clientId := id), io := s.io.(chain := Opened, entered := entered))
  }

  /** The owner announces a session it took up, whatever the id. */
  function TakeUp(s: State, id: nat, entered: bool): State {
    if entered then Raise(SetOpen(s, id, entered), Up(id)) else SetOpen(s, id, entered)
  }

  function OnOpen(s: State, id: nat, entered: bool): State {
    if s.role.Server? && !s.io.sink then s.(io := s.io.(chain := Abandoned))
    else if s.role.Server? && id == 0 then MaybeSendClose(RequestClose(TakeUp(s, id, entered)))
    else StartRead(CloseIfRequested(TakeUp(s, id, entered)))
  }

  function OpenFailed(s: State): State {
    s.(io := s.io.(chain := Refused, failed := true))
  }

  function OnOpenFailed(s: State): State {
    if s.role.Client? then Raise(OpenFailed(s), ConnectFailed) else OpenFailed(s)
  }

  function Receive(s: State, m: Payload): State
    requires s.io.pendingReads > 0
  {
    s.(io := s.io.(pendingReads := s.io.pendingReads - 1), log := s.log.(received := s.log.received + [m]))
  }

  function OnRead(s: State, m: Payload): State
    requires s.io.pendingReads > 0
  {
    StartRead(Raise(Receive(s, m), Message(m)))
  }

  function ReadFailed(s: State): State
    requires s.io.pendingReads > 0
  {
    s.(io := s.io.(pendingReads := s.io.pendingReads - 1, failed := true))
  }

  /** The write of the queue's front completed. */
  function Popped(s: State): State
    requires s.io.pendingWrites > 0 && s.m.queue != []
  {
    s.(m := s.m.(queue := s.m.queue[1..]), io := s.io.(pendingWrites := s.io.pendingWrites - 1),
       log := s.log.(written := s.log.written + [s.m.queue[0]]))
  }

  function AfterPop(s: State): State {
    if s.m.queue != [] then StartWrite(s) else CloseIfRequested(s)
  }

  function OnWrite(s: State): State
    requires s.io.pendingWrites > 0
  {
    if s.m.queue == [] then s.(log := s.log.(crashed := true)) else AfterPop(Popped(s))
  }

  function WriteFailed(s: State): State
    requires s.io.pendingWrites > 0
  {
    s.(io := s.io.(pendingWrites := s.io.pendingWrites - 1, failed := true))
  }

  function Step(s: State, e: Event): State
    requires Outstanding(s, e)
  {
    match e
    case Send(p) => OnSend(s, p)
    case Close => OnClose(s)
    case SinkGone => s.(io := s.io.(sink := false))
    case OpenOk(id, entered) => OnOpen(s, id, entered)
    case OpenErr => OnOpenFailed(s)
    case ReadOk(m) => OnRead(s, m)
    case ReadErr => HandleClosed(ReadFailed(s))
    case WriteOk => OnWrite(s)
    case WriteErr => HandleClosed(WriteFailed(s))
    case CloseDone => s.(io := s.io.(pendingCloses := s.io.pendingCloses - 1))
  }

  // ----- Runs -----

  ghost predicate Legal(s: State, run: seq<Event>)
    decreases |run|
  {
    run == [] || (Outstanding(s, run[0]) && Legal(Step(s, run[0]), run[1..]))
  }

  ghost function Run(s: State, run: seq<Event>): State
    requires Legal(s, run)
    decreases |run|
  {
    if run == [] then s else Run(Step(s, run[0]), run[1..])
  }

  ghost predicate Sticky(s: State, run: seq<Event>)
    requires Legal(s, run)
    decreases |run|
  {
    run == [] || (StickyStep(s, run[0]) && Sticky(Step(s, run[0]), run[1..]))
  }

  // ----- What every interleaving keeps, whatever the stream reports -----

  /** The data frames on the wire: all of it but a final close. */
  function DataFrames(s: State): int {
    |s.log.wire| - if s.m.closeSent then 1 else 0
  }

  /** The owner took the session up. */
  predicate Entered(s: State) {
    s.io.chain.Opened? && s.io.entered
  }

  /** The session was told that it is registered; on a server the id 0 tells it that it is not. */
  predicate Registered(s: State) {
    s.io.chain.Opened? && (s.role.Client? || s.m.clientId != 0)
  }

  ghost predicate Untouched(s: State) {
    && !s.m.open && !s.m.closeSent && s.m.clientId == 0
    && s.io.pendingReads == 0 && s.io.pendingWrites == 0 && s.io.pendingCloses == 0
    && s.m.queue == [] && s.log.accepted == [] && s.log.written == [] && s.log.wire == [] && s.log.received == []
  }

  /** At most one write-type operation and one read are outstanding; while open, a data write is
      outstanding exactly when the queue is non-empty. */
  ghost predicate OneAtATime(s: State) {
    && s.io.pendingWrites + s.io.pendingCloses <= 1
    && s.io.pendingReads <= 1
    && (s.m.open ==> (s.io.pendingWrites == 1 <==> s.m.queue != []))
    && (!s.m.open ==> s.m.queue == [])
    && (s.m.open && Registered(s) ==> s.io.pendingReads == 1)
  }

  /** Payloads reach the wire in the order they were accepted, nothing else does, and a close comes
      only after all of them. */
  ghost predicate InOrder(s: State) {
    && s.log.written <= s.log.accepted
    && |s.log.written| <= DataFrames(s) <= |s.log.accepted|
    && DataFrames(s) <= |s.log.written| + 1
    && (forall i :: 0 <= i < DataFrames(s) ==> s.log.wire[i] == Data(s.log.accepted[i]))
  }

  /** While open, what is queued is what was accepted and not written yet. */
  ghost predicate Queued(s: State) {
    s.m.open ==> s.log.written + s.m.queue == s.log.accepted && DataFrames(s) == |s.log.written| + s.io.pendingWrites
  }

  /** A close is requested, comes last, and comes after every accepted payload was written. */
  ghost predicate CloseLast(s: State) {
    if s.m.closeSent then
      && s.m.closeRequested && s.log.written == s.log.accepted && s.m.queue == [] && s.io.pendingWrites == 0
      && s.log.wire != [] && s.log.wire[|s.log.wire| - 1] == CloseFrame
    else
      s.io.pendingCloses == 0
  }

  ghost predicate Core(s: State) {
    && !s.log.crashed
    && (!s.io.chain.Opened? ==> Untouched(s))
    && (if s.io.chain.Opened? then Registered(s) ==> s.io.entered else !s.io.entered)
    && OneAtATime(s)
    && InOrder(s)
    && Queued(s)
    && CloseLast(s)
    && (s.m.open && s.m.closeRequested && s.m.queue == [] ==> s.m.closeSent)
    && (s.io.chain.Opened? && !Registered(s) ==>
          s.m.open && s.m.closeSent && s.io.pendingReads == 0 && s.log.accepted == [] && s.log.received == [])
    && (s.role.Server? && s.role.maxBacklog > 0 ==> |s.m.queue| <= s.role.maxBacklog)
    && (s.m.dropLogged <==> s.log.drops > 0)
  }

  lemma SendKeepsCore(s: State, p: Payload)
    requires Core(s)
    ensures Core(OnSend(s, p))
  {
  }

  lemma CloseKeepsCore(s: State)
    requires Core(s)
    ensures Core(OnClose(s))
  {
  }

  lemma OpenKeepsCore(s: State, id: nat, entered: bool)
    requires Core(s) && s.io.chain.Opening? && CanAnswer(s.role, id, entered)
    ensures Core(OnOpen(s, id, entered))
  {
  }

  /** Between the pop of a written payload and the next operation. */
  ghost predicate Drained(s: State) {
    && !s.log.crashed && s.m.open && Registered(s) && Entered(s)
    && s.io.pendingReads == 1 && s.io.pendingWrites == 0 && s.io.pendingCloses == 0 && !s.m.closeSent
    && InOrder(s) && Queued(s)
    && (s.role.Server? && s.role.maxBacklog > 0 ==> |s.m.queue| <= s.role.maxBacklog)
    && (s.m.dropLogged <==> s.log.drops > 0)
  }

  lemma PopDrains(s: State)
    requires Core(s) && s.m.open && s.io.pendingWrites > 0
    ensures s.m.queue != [] && Drained(Popped(s))
  {
    PopMovesFront(s.log.written, s.m.queue);
  }

  lemma NextWriteKeepsCore(s: State)
    requires Drained(s) && s.m.queue != []
    ensures Core(StartWrite(s))
  {
    assert s.log.accepted[|s.log.written|] == s.m.queue[0];
  }

  lemma LastWriteKeepsCore(s: State)
    requires Drained(s) && s.m.queue == []
    ensures Core(CloseIfRequested(s))
  {
    assert s.log.written == s.log.accepted;
  }

  lemma WriteKeepsCore(s: State)
    requires Core(s) && s.m.open && s.io.pendingWrites > 0
    ensures !OnWrite(s).log.crashed && Core(OnWrite(s))
  {
    PopDrains(s);
    if Popped(s).m.queue != [] {
      NextWriteKeepsCore(Popped(s));
    } else {
      LastWriteKeepsCore(Popped(s));
    }
  }

  lemma PopMovesFront(a: seq<Payload>, b: seq<Payload>)
    requires b != []
    ensures (a + [b[0]]) + b[1..] == a + b
  {
  }

  lemma ReadKeepsCore(s: State, m: Payload)
    requires Core(s) && s.io.pendingReads > 0
    ensures Core(OnRead(s, m))
  {
  }

  lemma FailureKeepsCore(s: State, e: Event)
    requires Core(s) && Outstanding(s, e) && (e.ReadErr? || e.WriteErr?)
    ensures Core(Step(s, e))
  {
  }

  lemma RestKeepsCore(s: State, e: Event)
    requires Core(s) && Outstanding(s, e) && (e.SinkGone? || e.OpenErr? || e.CloseDone?)
    ensures Core(Step(s, e))
  {
  }

  /** A successful write on an open session is the only thing that pops the queue; on a closed one
      it pops an empty queue. */
  lemma StepKeepsCore(s: State, e: Event)
    requires Core(s) && Outstanding(s, e)
    ensures Step(s, e).log.crashed <==> e.WriteOk? && !s.m.open
    ensures !Step(s, e).log.crashed ==> Core(Step(s, e))
  {
    match e
    case Send(p) => SendKeepsCore(s, p);
    case Close => CloseKeepsCore(s);
    case OpenOk(id, entered) => OpenKeepsCore(s, id, entered);
    case WriteOk => if s.m.open { WriteKeepsCore(s); }
    case ReadOk(m) => ReadKeepsCore(s, m);
    case ReadErr => FailureKeepsCore(s, e);
    case WriteErr => FailureKeepsCore(s, e);
    case _ => RestKeepsCore(s, e);
  }
}
