/** The client object over many connect attempts: installing sessions, late completions, close and
    shutdown, each lock section one step. Every session is a full session state machine. */
module ClientImpl {
  import opened Options
  import SessionSpec
  import ClientSession

  /** An installed session, and whether Close was called on it (which posts to its strand). */
  datatype Slot = Slot(attempt: ClientSession.Connect, closePosted: bool)

  datatype State = State(
    isSsl: bool,
    session: Option<nat>,     // mSession, as a position in `slots`
    shutdown: bool,           // mShutdown
    slots: seq<Slot>,         // every session ever installed, in order
    connecting: nat,          // Connect and AsyncConnect calls past their shutdown check
    grabbed: seq<nat>,        // sessions taken under the lock by Close or Shutdown, Close not yet called
    tearingDown: bool)        // Shutdown is past its flag but not past its lock section

  function Init(isSsl: bool): State {
    State(isSsl, None, false, [], 0, [], false)
  }

  datatype Event =
    | CheckConnect                            // Connect's shutdown check
    | Install                                 // DoConnect's lock section
    | Strand(i: nat, e: ClientSession.Event)  // a handler of session i, with its completion handler
    | GrabToClose                             // Close's lock section
    | CallClose                               // session->Close() after unlocking
    | FlagShutdown
    | TakeSession                             // Shutdown's lock section

  predicate Enabled(s: State, e: Event) {
    match e
    case CheckConnect => true
    case Install => s.connecting > 0
    case Strand(i, h) =>
      && i < |s.slots|
      && ClientSession.Enabled(s.slots[i].attempt, h)
      && (h == ClientSession.Handler(SessionSpec.Close) ==> s.slots[i].closePosted)
    case GrabToClose => true
    case CallClose => s.grabbed != []
    case FlagShutdown => true
    case TakeSession => s.tearingDown
  }

  predicate Failed(slot: Slot) {
    slot.attempt.completions == [false]
  }

  function PostClose(slots: seq<Slot>, i: nat): seq<Slot> {
    if i < |slots| then slots[i := slots[i].(closePosted := true)] else slots
  }

  function PostCloseTo(slots: seq<Slot>, session: Option<nat>): seq<Slot> {
    if session.Some? then PostClose(slots, session.value) else slots
  }

  function Grab(session: Option<nat>): seq<nat> {
    if session.Some? then [session.value] else []
  }

  /** The completion handler of a failed attempt clears mSession only if it is that session. */
  function AfterCompletion(session: Option<nat>, i: nat, slot: Slot, slot': Slot): Option<nat> {
    if Failed(slot') && !Failed(slot) && session == Some(i) then None else session
  }

  function AfterHandler(isSsl: bool, slot: Slot, e: ClientSession.Event): Slot
    requires ClientSession.Enabled(slot.attempt, e)
  {
    Slot(ClientSession.Advance(isSsl, slot.attempt, e), slot.closePosted)
  }

  function Step(s: State, e: Event): State
    requires Enabled(s, e)
  {
    match e
    case CheckConnect => if s.shutdown then s else s.(connecting := s.connecting + 1)
    case Install =>
      s.(session := Some(|s.slots|), slots := PostCloseTo(s.slots, s.session) + [Slot(ClientSession.Fresh(), false)],
         connecting := s.connecting - 1)
    case Strand(i, h) =>
      s.(session := AfterCompletion(s.session, i, s.slots[i], AfterHandler(s.isSsl, s.slots[i], h)),
         slots := s.slots[i := AfterHandler(s.isSsl, s.slots[i], h)])
    case GrabToClose => s.(grabbed := s.grabbed + Grab(s.session))
    case CallClose => s.(slots := PostClose(s.slots, s.grabbed[0]), grabbed := s.grabbed[1..])
    case FlagShutdown => if s.shutdown then s else s.(shutdown := true, tearingDown := true)
    case TakeSession => s.(session := None, grabbed := s.grabbed + Grab(s.session), tearingDown := false)
  }

  ghost predicate Legal(s: State, run: seq<Event>)
    decreases |run|
  {
    run == [] || (Enabled(s, run[0]) && Legal(Step(s, run[0]), run[1..]))
  }

  ghost function Run(s: State, run: seq<Event>): State
    requires Legal(s, run)
    decreases |run|
  {
    if run == [] then s else Run(Step(s, run[0]), run[1..])
  }

  // ----- Invariant -----

  /** Session i is current, being the newest and not failed, or dealt with: failed, Close called, or about
      to be called. */
  ghost predicate SlotAt(s: State, i: nat) {
    i < |s.slots| ==>
      && ClientSession.Inv(s.isSsl, s.slots[i].attempt)
      && (if s.session == Some(i) then i + 1 == |s.slots| && !Failed(s.slots[i])
          else Failed(s.slots[i]) || s.slots[i].closePosted || i in s.grabbed)
  }

  ghost predicate Inv(s: State) {
    && (forall i: nat :: SlotAt(s, i))
    && (s.session.Some? ==> s.session.value < |s.slots|)
    && (s.tearingDown ==> s.shutdown)
  }

  /** A completion handler that has run never runs again. */
  lemma FailureIsFinal(isSsl: bool, slot: Slot, e: ClientSession.Event)
    requires ClientSession.Inv(isSsl, slot.attempt) && ClientSession.Enabled(slot.attempt, e)
    ensures ClientSession.Inv(isSsl, AfterHandler(isSsl, slot, e).attempt)
    ensures Failed(slot) ==> Failed(AfterHandler(isSsl, slot, e))
  {
    ClientSession.StepKeepsInv(isSsl, slot.attempt, e);
    if Failed(slot) && e.Handler? {
      assert ClientSession.Advance(isSsl, slot.attempt, e).completions == slot.attempt.completions;
    }
  }

  /** What session i has behind it stays behind it: it does not become current again, and it stays failed
      or closed. */
  ghost predicate Behind(s: State, s': State, i: nat) {
    i < |s.slots| ==>
      && i < |s'.slots|
      && (s.session != Some(i) ==> s'.session != Some(i))
      && (Failed(s.slots[i]) ==> Failed(s'.slots[i]))
      && (s.slots[i].closePosted ==> s'.slots[i].closePosted)
      && (i in s.grabbed ==> i in s'.grabbed || s'.slots[i].closePosted)
  }

  lemma StepKeepsSlot(s: State, e: Event, i: nat)
    requires Enabled(s, e) && SlotAt(s, i) && (s.session.Some? ==> s.session.value < |s.slots|)
    ensures SlotAt(Step(s, e), i) && Behind(s, Step(s, e), i)
  {
    match e
    case Strand(k, h) => StrandKeepsSlot(s, k, h, i);
    case Install => InstallKeepsSlot(s, i);
    case CallClose => assert s.grabbed == [s.grabbed[0]] + s.grabbed[1..];
    case _ =>
  }

  lemma StrandKeepsSlot(s: State, k: nat, h: ClientSession.Event, i: nat)
    requires Enabled(s, Strand(k, h)) && SlotAt(s, i)
    ensures SlotAt(Step(s, Strand(k, h)), i) && Behind(s, Step(s, Strand(k, h)), i)
  {
    if k == i {
      FailureIsFinal(s.isSsl, s.slots[i], h);
    }
  }

  lemma InstallKeepsSlot(s: State, i: nat)
    requires s.connecting > 0 && SlotAt(s, i) && (s.session.Some? ==> s.session.value < |s.slots|)
    ensures SlotAt(Step(s, Install), i) && Behind(s, Step(s, Install), i)
  {
    ClientSession.FreshHolds(s.isSsl);
  }

  lemma StepKeepsInv(s: State, e: Event)
    requires Inv(s) && Enabled(s, e)
    ensures Inv(Step(s, e))
  {
    forall i: nat ensures SlotAt(Step(s, e), i) {
      assert SlotAt(s, i);
      StepKeepsSlot(s, e, i);
    }
  }

  lemma {:induction false} RunKeepsInv(s: State, run: seq<Event>)
    requires Inv(s) && Legal(s, run)
    ensures Inv(Run(s, run))
    decreases |run|
  {
    if run != [] {
      StepKeepsInv(s, run[0]);
      RunKeepsInv(Step(s, run[0]), run[1..]);
    }
  }

  /** Over every interleaving of connects, handlers of old and new sessions, Close and Shutdown:
      mSession is null or the most recently installed session, which has not failed; every other
      session ever installed has failed to connect, has had Close called, or is in the hands of a Close
      or Shutdown call about to do so; and each session's own attempt is in order. */
  lemma OnlyTheNewestSessionIsCurrent(isSsl: bool, run: seq<Event>, i: nat)
    requires Legal(Init(isSsl), run) && i < |Run(Init(isSsl), run).slots|
    ensures var s := Run(Init(isSsl), run);
            && (s.session == Some(i) ==> i + 1 == |s.slots| && !Failed(s.slots[i]))
            && (s.session != Some(i) ==> Failed(s.slots[i]) || s.slots[i].closePosted || i in s.grabbed)
            && ClientSession.Inv(s.isSsl, s.slots[i].attempt)
  {
    RunKeepsInv(Init(isSsl), run);
    assert SlotAt(Run(Init(isSsl), run), i);
  }

  /** A session that is not current never becomes current again, whatever handlers of old sessions, late
      failures included, still run; nor does a failed or closed one come back; and one that a Close or
      Shutdown call took in hand has Close called, or is still in hand. */
  lemma {:induction false} ReplacedStaysReplaced(s: State, run: seq<Event>, i: nat)
    requires Inv(s) && Legal(s, run)
    ensures Behind(s, Run(s, run), i)
    decreases |run|
  {
    if run != [] {
      assert SlotAt(s, i);
      StepKeepsSlot(s, run[0], i);
      StepKeepsInv(s, run[0]);
      ReplacedStaysReplaced(Step(s, run[0]), run[1..], i);
    }
  }

  /** A Close or Shutdown call reaches the session that was current at its lock section: in every
      continuation it has had Close called, or the call still has it in hand. */
  lemma CloseReachesTheCurrentSession(s: State, e: Event, run: seq<Event>)
    requires Inv(s) && s.session.Some? && Enabled(s, e) && (e.GrabToClose? || e.TakeSession?)
    requires Legal(Step(s, e), run)
    ensures var i, s' := s.session.value, Run(Step(s, e), run);
            i < |s'.slots| && (s'.slots[i].closePosted || i in s'.grabbed)
  {
    var i := s.session.value;
    StepKeepsInv(s, e);
    assert Step(s, e).grabbed[|s.grabbed|] == i;
    ReplacedStaysReplaced(Step(s, e), run, i);
  }

  // ----- Shutdown -----

  lemma {:induction false} NoConnectNoSession(s: State, run: seq<Event>)
    requires s.shutdown && s.session.None? && s.connecting == 0 && Legal(s, run)
    ensures Run(s, run).session.None?
    decreases |run|
  {
    if run != [] {
      NoConnectNoSession(Step(s, run[0]), run[1..]);
    }
  }

  ghost predicate CanEndWithSession(s: State) {
    exists run :: Legal(s, run) && Run(s, run).session.Some?
  }

  /** Once Shutdown has taken the session, a session can appear again exactly when some connect call
      had already passed its shutdown check. */
  lemma SessionAfterShutdownExactlyOnRace(s: State)
    requires s.shutdown && s.session.None?
    ensures CanEndWithSession(s) <==> s.connecting > 0
  {
    if s.connecting > 0 {
      var run := [Install];
      assert Legal(Step(s, Install), run[1..]);
      assert Legal(s, run) && Run(s, run).session.Some?;
    } else {
      forall run | Legal(s, run) ensures !Run(s, run).session.Some? {
        NoConnectNoSession(s, run);
      }
    }
  }

  // ----- The client object -----

  class Client {
    const isSsl: bool
    var mSession: Option<nat>
    var mShutdown: bool
    ghost var slots: seq<Slot>
    ghost var connecting: nat
    ghost var grabbed: seq<nat>
    ghost var tearingDown: bool

    ghost function View(): State
      reads this
    {
      State(isSsl, mSession, mShutdown, slots, connecting, grabbed, tearingDown)
    }

    ghost predicate Valid()
      reads this
    {
      Inv(View())
    }

    constructor (isSsl: bool)
      ensures Valid() && View() == Init(isSsl)
    {
      this.isSsl := isSsl;
      mSession, mShutdown := None, false;
      slots, connecting, grabbed, tearingDown := [], 0, [], false;
    }

    method MayConnect() returns (ok: bool)
      requires Valid()
      modifies this
      ensures Valid() && View() == Step(old(View()), CheckConnect)
      ensures ok <==> !mShutdown
    {
      StepKeepsInv(View(), CheckConnect);
      ok := !mShutdown;
      if ok {
        connecting := connecting + 1;
      }
    }

    /** DoConnect's lock section for a session just created; closed is the session it replaced. */
    method DoConnect(session: nat) returns (closed: Option<nat>)
      requires Valid() && Enabled(View(), Install) && session == |slots|
      modifies this
      ensures Valid() && View() == Step(old(View()), Install)
      ensures closed == old(mSession) && mSession == Some(session)
    {
      StepKeepsInv(View(), Install);
      closed := mSession;
      slots := PostCloseTo(slots, mSession) + [Slot(ClientSession.Fresh(), false)];
      mSession := Some(session);
      connecting := connecting - 1;
    }

    /** A failed attempt's completion handler, run by the handler that failed it. */
    method OnConnectFailed(session: nat, ghost h: ClientSession.Event)
      requires Valid() && Enabled(View(), Strand(session, h))
      requires !Failed(slots[session]) && Failed(AfterHandler(isSsl, slots[session], h))
      modifies this
      ensures Valid() && View() == Step(old(View()), Strand(session, h))
      ensures mSession == if old(mSession) == Some(session) then None else old(mSession)
    {
      StepKeepsInv(View(), Strand(session, h));
      if mSession == Some(session) {
        mSession := None;
      }
      slots := slots[session := AfterHandler(isSsl, slots[session], h)];
    }

    /** Any other handler of a session, current or not: it leaves the client's own fields alone. */
    ghost method RunHandler(i: nat, h: ClientSession.Event)
      requires Valid() && Enabled(View(), Strand(i, h))
      requires Failed(AfterHandler(isSsl, slots[i], h)) ==> Failed(slots[i])
      modifies this`slots
      ensures Valid() && View() == Step(old(View()), Strand(i, h))
    {
      StepKeepsInv(View(), Strand(i, h));
      slots := slots[i := AfterHandler(isSsl, slots[i], h)];
    }

    /** The Close that a Close or Shutdown call makes on the session it took, after unlocking. */
    ghost method CloseGrabbed()
      requires Valid() && Enabled(View(), CallClose)
      modifies this`slots, this`grabbed
      ensures Valid() && View() == Step(old(View()), CallClose)
    {
      StepKeepsInv(View(), CallClose);
      slots := PostClose(slots, grabbed[0]);
      grabbed := grabbed[1..];
    }

    /** Close's and, with clear, Shutdown's lock section: the session to call Close on. */
    method GrabSession(clear: bool) returns (session: Option<nat>)
      requires Valid() && (clear ==> Enabled(View(), TakeSession))
      modifies this
      ensures Valid() && View() == Step(old(View()), if clear then TakeSession else GrabToClose)
      ensures session == old(mSession) && mSession == if clear then None else old(mSession)
    {
      StepKeepsInv(View(), if clear then TakeSession else GrabToClose);
      session := mSession;
      grabbed := grabbed + Grab(mSession);
      if clear {
        mSession := None;
        tearingDown := false;
      }
    }

    method BeginShutdown() returns (first: bool)
      requires Valid()
      modifies this
      ensures Valid() && View() == Step(old(View()), FlagShutdown)
      ensures mShutdown && (first <==> !old(mShutdown))
    {
      StepKeepsInv(View(), FlagShutdown);
      first := !mShutdown;
      if first {
        mShutdown := true;
        tearingDown := true;
      }
    }
  }
}
