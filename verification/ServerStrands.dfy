/** The server's sessions and their strands: who was given which id, what each strand has reported, and
    how closed callbacks are accounted for. */
module ServerStrands {
  import opened SessionSpec
  import opened Relay
  import SessionRuns

  type SessionMap = map<nat, State>

  type StrandMap = map<nat, Strand>

  predicate HasId(s: State, c: nat) {
    Entered(s) && s.m.clientId == c
  }

  /** The sessions entered under an id. */
  ghost function Holders(sessions: SessionMap, c: nat): set<nat> {
    set sid | sid in sessions && HasId(sessions[sid], c)
  }

  /** Those among them whose strand posted the closed callback, or is about to. */
  ghost function Closers(sessions: SessionMap, strands: StrandMap, c: nat): set<nat> {
    set sid | sid in sessions && sid in strands && HasId(sessions[sid], c) && Closes(strands[sid]) > 0
  }

  ghost predicate SessionOk(s: State) {
    SessionRuns.Inv(s) && s.role.Server?
  }

  // ----- The invariant -----

  /** What a strand has reported, and is reporting, is what its session raised. */
  ghost predicate StrandAt(sessions: SessionMap, strands: StrandMap, sid: nat) {
    && (sid in sessions <==> sid in strands)
    && (sid in sessions ==> SessionOk(sessions[sid]) && StrandOk(sessions[sid], strands[sid]))
  }

  /** A job about a client carries the id its session was entered under. */
  ghost predicate JobOwn(sessions: SessionMap, job: Job) {
    job.About? ==> job.source in sessions && HasId(sessions[job.source], job.id)
  }

  ghost predicate JobsOwn(sessions: SessionMap, offered: seq<Job>) {
    forall i :: 0 <= i < |offered| ==> JobOwn(sessions, offered[i])
  }

  /** Every registration has its own session; and closed notifications, posted and told, are among those
      the registry accounts for. */
  ghost predicate IdAt(sessions: SessionMap, strands: StrandMap, b: Books, c: nat) {
    && |Holders(sessions, c)| == b.registered[c]
    && |Closers(sessions, strands, c)| + b.told[c] <= b.notified[c]
  }

  /** What the registry and the callers know of each id. */
  datatype Books = Books(registered: multiset<nat>, notified: multiset<nat>, told: multiset<nat>)

  ghost predicate StrandsOk(sessions: SessionMap, strands: StrandMap, offered: seq<Job>, b: Books) {
    && (forall sid :: StrandAt(sessions, strands, sid))
    && (forall c :: IdAt(sessions, strands, b, c))
    && JobsOwn(sessions, offered)
    && Linked(strands, offered)
  }

  // ----- One session and its strand replaced -----

  /** A session that keeps its identity, or had none and gets none. */
  predicate SameIdentity(sessions: SessionMap, sid: nat, s: State) {
    if sid in sessions && Entered(sessions[sid]) then HasId(s, sessions[sid].m.clientId) else !Entered(s)
  }

  lemma FewerMembers(a: set<nat>, b: set<nat>)
    requires a <= b
    ensures |a| <= |b|
  {
    assert b == a + (b - a);
  }

  lemma IdStays(sessions: SessionMap, strands: StrandMap, sid: nat, s: State, strand: Strand, b: Books, c: nat)
    requires IdAt(sessions, strands, b, c) && SameIdentity(sessions, sid, s)
    requires Closes(strand) > 0 ==> sid in sessions && sid in strands && Closes(strands[sid]) > 0
    ensures IdAt(sessions[sid := s], strands[sid := strand], b, c)
  {
    var sessions', strands' := sessions[sid := s], strands[sid := strand];
    assert Holders(sessions', c) == Holders(sessions, c);
    FewerMembers(Closers(sessions', strands', c), Closers(sessions, strands, c));
  }

  lemma JobsStay(sessions: SessionMap, sid: nat, s: State, offered: seq<Job>)
    requires JobsOwn(sessions, offered)
    requires sid in sessions && Entered(sessions[sid]) ==> HasId(s, sessions[sid].m.clientId)
    ensures JobsOwn(sessions[sid := s], offered)
  {
    forall i | 0 <= i < |offered| ensures JobOwn(sessions[sid := s], offered[i]) {
      assert JobOwn(sessions, offered[i]);
    }
  }

  /** Its strand has finished no further call and posts no further close. */
  lemma SessionReplaced(sessions: SessionMap, strands: StrandMap, sid: nat, s: State, strand: Strand,
                        offered: seq<Job>, b: Books)
    requires StrandsOk(sessions, strands, offered, b)
    requires SessionOk(s) && StrandOk(s, strand) && SameIdentity(sessions, sid, s)
    requires strand.calls == if sid in strands then strands[sid].calls else []
    requires Closes(strand) > 0 ==> sid in sessions && sid in strands && Closes(strands[sid]) > 0
    ensures StrandsOk(sessions[sid := s], strands[sid := strand], offered, b)
  {
    var sessions', strands' := sessions[sid := s], strands[sid := strand];
    forall j ensures StrandAt(sessions', strands', j) {
      assert StrandAt(sessions, strands, j);
    }
    forall c ensures IdAt(sessions', strands', b, c) {
      assert IdAt(sessions, strands, b, c);
      IdStays(sessions, strands, sid, s, strand, b, c);
    }
    JobsStay(sessions, sid, s, offered);
    SameCallsLinked(strands, sid, strand, offered);
  }

  // ----- Handlers -----

  lemma NewStrand(sessions: SessionMap, strands: StrandMap, sid: nat, maxBacklog: nat, offered: seq<Job>, b: Books)
    requires StrandsOk(sessions, strands, offered, b) && sid !in sessions && sid !in strands
    ensures StrandsOk(sessions[sid := Init(Server(maxBacklog))], strands[sid := Strand(Idle, [])], offered, b)
  {
    SessionRuns.InitHolds(Server(maxBacklog));
    SessionReplaced(sessions, strands, sid, Init(Server(maxBacklog)), Strand(Idle, []), offered, b);
  }

  lemma IdentityIsFixed(s: State, e: Event)
    requires Outstanding(s, e) && !e.OpenOk?
    ensures var s' := Step(s, e);
            s'.role == s.role && s'.m.clientId == s.m.clientId && Entered(s') == Entered(s)
  {
  }

  lemma HandlerKeepsSession(s: State, strand: Strand, e: Event)
    requires SessionOk(s) && StrandOk(s, strand) && strand.pc.Idle?
    requires Outstanding(s, e) && StickyStep(s, e) && !e.OpenOk?
    ensures var s' := Step(s, e);
            && SessionOk(s') && StrandOk(s', AfterHandler(strand, s, s'))
            && Closes(AfterHandler(strand, s, s')) == ClosesIn(strand.calls)
            && s'.m.clientId == s.m.clientId && Entered(s') == Entered(s)
  {
    SessionRuns.StepKeepsInv(s, e);
    IdentityIsFixed(s, e);
    HandlerKeepsStrand(strand, s, e);
  }

  lemma HandleStrand(sessions: SessionMap, strands: StrandMap, sid: nat, e: Event, offered: seq<Job>, b: Books)
    requires StrandsOk(sessions, strands, offered, b) && sid in sessions && sid in strands && strands[sid].pc.Idle?
    requires Outstanding(sessions[sid], e) && StickyStep(sessions[sid], e) && !e.OpenOk?
    ensures var s' := Step(sessions[sid], e);
            StrandsOk(sessions[sid := s'], strands[sid := AfterHandler(strands[sid], sessions[sid], s')], offered, b)
  {
    var s' := Step(sessions[sid], e);
    assert StrandAt(sessions, strands, sid);
    HandlerKeepsSession(sessions[sid], strands[sid], e);
    SessionReplaced(sessions, strands, sid, s', AfterHandler(strands[sid], sessions[sid], s'), offered, b);
  }

  // ----- Accept -----

  /** An accept's call has already been through its lock section. The rest of the accept handler runs
      after that call returns, but nothing outside the strand can see the session in between. */
  function AfterAccept(strand: Strand, s: State, s': State, bound: bool): Strand {
    if CallDue(s, s').Idle? then Strand(Idle, strand.calls) else Strand(Posting(Up(s'.m.clientId), bound), strand.calls)
  }

  lemma OpenSetsIdentity(s: State, id: nat, entered: bool)
    requires s.role.Server? && s.io.chain.Opening? && CanAnswer(s.role, id, entered)
    ensures var s' := OnOpen(s, id, entered);
            && s'.role == s.role && !s'.io.chain.Opening?
            && (s.io.sink ==> s'.m.clientId == id && s'.io.chain.Opened?)
            && s'.log.raised == if s.io.sink && entered then s.log.raised + [Up(id)] else s.log.raised
    ensures !s.io.entered ==> (Entered(OnOpen(s, id, entered)) <==> s.io.sink && entered)
  {
  }

  /** A session that its server did not enter raised nothing. */
  lemma SilentUntilEntered(s: State, strand: Strand)
    requires SessionOk(s) && StrandOk(s, strand) && !Entered(s)
    ensures strand.pc.Idle? && strand.calls == []
  {
    assert s.log.received == [];
    assert SessionRuns.Messages(s.log.received) == [];
    assert SessionRuns.Story(s) == [];
    assert Notices(strand.calls) == [];
    assert |Notices(strand.calls)| == 0 ==> strand.calls == [];
  }

  lemma AcceptKeepsSession(s: State, strand: Strand, id: nat, entered: bool, bound: bool)
    requires SessionOk(s) && StrandOk(s, strand) && strand.pc.Idle? && Outstanding(s, OpenOk(id, entered))
    ensures var s' := OnOpen(s, id, entered);
            var strand' := AfterAccept(strand, s, s', bound);
            && SessionOk(s') && StrandOk(s', strand') && !Entered(s)
            && strand.calls == [] && strand'.calls == [] && Closes(strand') == 0
            && (if s.io.sink && entered then HasId(s', id) else !Entered(s'))
  {
    SessionRuns.StepKeepsInv(s, OpenOk(id, entered));
    OpenSetsIdentity(s, id, entered);
    SilentUntilEntered(s, strand);
    assert s.log.raised == [];
  }

  function Entering(b: Books, id: nat): Books {
    b.(registered := b.registered + multiset{id})
  }

  lemma IdGiven(sessions: SessionMap, strands: StrandMap, sid: nat, s: State, strand: Strand, b: Books, c: nat)
    requires IdAt(sessions, strands, b, c) && Entered(s) && (sid in sessions ==> !Entered(sessions[sid]))
    requires Closes(strand) == 0
    ensures IdAt(sessions[sid := s], strands[sid := strand], Entering(b, s.m.clientId), c)
  {
    var sessions', strands' := sessions[sid := s], strands[sid := strand];
    assert Holders(sessions', c) == Holders(sessions, c) + (if s.m.clientId == c then {sid} else {});
    assert sid !in Holders(sessions, c);
    FewerMembers(Closers(sessions', strands', c), Closers(sessions, strands, c));
  }

  lemma SessionEntered(sessions: SessionMap, strands: StrandMap, sid: nat, s: State, strand: Strand,
                       offered: seq<Job>, b: Books)
    requires StrandsOk(sessions, strands, offered, b) && sid in sessions && sid in strands && !Entered(sessions[sid])
    requires SessionOk(s) && StrandOk(s, strand) && Entered(s)
    requires strand.calls == strands[sid].calls && Closes(strand) == 0
    ensures StrandsOk(sessions[sid := s], strands[sid := strand], offered, Entering(b, s.m.clientId))
  {
    var sessions', strands' := sessions[sid := s], strands[sid := strand];
    forall j ensures StrandAt(sessions', strands', j) {
      assert StrandAt(sessions, strands, j);
    }
    var b' := Entering(b, s.m.clientId);
    forall c ensures IdAt(sessions', strands', b', c) {
      assert IdAt(sessions, strands, b, c);
      IdGiven(sessions, strands, sid, s, strand, b, c);
    }
    JobsStay(sessions, sid, s, offered);
    SameCallsLinked(strands, sid, strand, offered);
  }

  lemma AcceptStrand(sessions: SessionMap, strands: StrandMap, sid: nat, id: nat, entered: bool, bound: bool,
                     offered: seq<Job>, b: Books)
    requires StrandsOk(sessions, strands, offered, b) && sid in sessions && sid in strands && strands[sid].pc.Idle?
    requires Outstanding(sessions[sid], OpenOk(id, entered))
    ensures var s := sessions[sid];
            var s' := OnOpen(s, id, entered);
            StrandsOk(sessions[sid := s'], strands[sid := AfterAccept(strands[sid], s, s', bound)], offered,
                      if s.io.sink && entered then Entering(b, id) else b)
  {
    var s' := OnOpen(sessions[sid], id, entered);
    var strand := AfterAccept(strands[sid], sessions[sid], s', bound);
    assert StrandAt(sessions, strands, sid);
    AcceptKeepsSession(sessions[sid], strands[sid], id, entered, bound);
    if Entered(s') {
      SessionEntered(sessions, strands, sid, s', strand, offered, b);
    } else {
      SessionReplaced(sessions, strands, sid, s', strand, offered, b);
    }
  }

  // ----- Calls -----

  /** A session reports the closing of its own client only, and only once, last. */
  lemma DownIsOwnAndLast(s: State)
    requires SessionOk(s)
    ensures forall i :: 0 <= i < |s.log.raised| - 1 ==> !s.log.raised[i].Down?
    ensures s.log.raised != [] && s.log.raised[|s.log.raised| - 1].Down? ==>
              HasId(s, s.log.raised[|s.log.raised| - 1].id) && !s.m.open
  {
    var story := SessionRuns.Story(s);
    if !Registered(s) {
      assert SessionRuns.Messages(s.log.received) == [];
      assert story == if Entered(s) then [Up(s.m.clientId)] else [];
    } else {
      assert forall i :: 0 <= i < |s.log.raised| ==> s.log.raised[i] == story[i];
      assert forall i :: 0 <= i < |story| && story[i].Down? ==> i == |story| - 1 && story[i].id == s.m.clientId;
    }
  }

  lemma CallIsOwn(s: State, strand: Strand)
    requires SessionOk(s) && StrandOk(s, strand) && !strand.pc.Idle?
    ensures Entered(s)
    ensures strand.pc.notice.Down? ==> strand.pc.notice.id == s.m.clientId && !s.m.open
  {
    if !Entered(s) {
      SilentUntilEntered(s, strand);
    }
    DownIsOwnAndLast(s);
    assert s.log.raised[|s.log.raised| - 1] == strand.pc.notice;
  }

  function Noticing(b: Books, ids: multiset<nat>): Books {
    b.(notified := b.notified + ids)
  }

  /** A strand taking its own client out, whether or not it posts that. */
  lemma CloseCounted(sessions: SessionMap, strands: StrandMap, sid: nat, strand: Strand, b: Books, c: nat)
    requires IdAt(sessions, strands, b, c) && sid in sessions && Entered(sessions[sid])
    ensures IdAt(sessions, strands[sid := strand], Noticing(b, multiset{sessions[sid].m.clientId}), c)
  {
    var before, after := Closers(sessions, strands, c), Closers(sessions, strands[sid := strand], c);
    FewerMembers(after, if c == sessions[sid].m.clientId then before + {sid} else before);
  }

  lemma ClosingTaken(sessions: SessionMap, strands: StrandMap, sid: nat, bound: bool, offered: seq<Job>, b: Books)
    requires StrandsOk(sessions, strands, offered, b) && sid in sessions && sid in strands && strands[sid].pc.Calling?
    requires Entered(sessions[sid])
    ensures StrandsOk(sessions, strands[sid := LookedUp(strands[sid], bound)], offered,
                      Noticing(b, multiset{sessions[sid].m.clientId}))
  {
    var strand := LookedUp(strands[sid], bound);
    var strands', b' := strands[sid := strand], Noticing(b, multiset{sessions[sid].m.clientId});
    assert StrandAt(sessions, strands, sid);
    LookedUpKeepsStrand(strands[sid], sessions[sid], bound);
    forall j ensures StrandAt(sessions, strands', j) {
      assert StrandAt(sessions, strands, j);
    }
    forall c ensures IdAt(sessions, strands', b', c) {
      assert IdAt(sessions, strands, b, c);
      CloseCounted(sessions, strands, sid, strand, b, c);
    }
    SameCallsLinked(strands, sid, strand, offered);
  }

  /** The lock section of a call; `out` is whether it took its client out. */
  lemma LookupStrand(sessions: SessionMap, strands: StrandMap, sid: nat, bound: bool, out: bool, offered: seq<Job>,
                     b: Books)
    requires StrandsOk(sessions, strands, offered, b) && sid in sessions && sid in strands && strands[sid].pc.Calling?
    requires bound && strands[sid].pc.notice.Down? ==> out
    ensures StrandsOk(sessions, strands[sid := LookedUp(strands[sid], bound)], offered,
                      Noticing(b, if out then multiset{sessions[sid].m.clientId} else multiset{}))
  {
    assert StrandAt(sessions, strands, sid);
    CallIsOwn(sessions[sid], strands[sid]);
    if out {
      ClosingTaken(sessions, strands, sid, bound, offered, b);
    } else {
      LookedUpKeepsStrand(strands[sid], sessions[sid], bound);
      SessionReplaced(sessions, strands, sid, sessions[sid], LookedUp(strands[sid], bound), offered, b);
      assert sessions[sid := sessions[sid]] == sessions;
      assert b.notified + multiset{} == b.notified;
    }
  }

  lemma PostStrand(sessions: SessionMap, strands: StrandMap, sid: nat, o: Outbox, b: Books)
    requires StrandsOk(sessions, strands, o.offered, b)
    requires sid in sessions && sid in strands && strands[sid].pc.Posting?
    ensures StrandsOk(sessions, strands[sid := Posted(strands[sid])],
                      PostFor(o, strands[sid], sid, sessions[sid].m.clientId).offered, b)
  {
    var strands', o' := strands[sid := Posted(strands[sid])], PostFor(o, strands[sid], sid, sessions[sid].m.clientId);
    assert StrandAt(sessions, strands, sid);
    CallIsOwn(sessions[sid], strands[sid]);
    PostedKeepsStrand(strands[sid], sessions[sid]);
    PostedCloses(strands[sid]);
    forall j ensures StrandAt(sessions, strands', j) {
      assert StrandAt(sessions, strands, j);
    }
    forall c ensures IdAt(sessions, strands', b, c) {
      assert IdAt(sessions, strands, b, c);
      assert Closers(sessions, strands', c) == Closers(sessions, strands, c);
    }
    PostLinked(strands, sid, o, sessions[sid].m.clientId);
  }

  // ----- Other threads -----

  function Telling(b: Books, ids: multiset<nat>): Books {
    b.(notified := b.notified + ids, told := b.told + ids)
  }

  lemma ToldStrands(sessions: SessionMap, strands: StrandMap, offered: seq<Job>, b: Books, ids: multiset<nat>)
    requires StrandsOk(sessions, strands, offered, b)
    ensures StrandsOk(sessions, strands, offered, Telling(b, ids))
  {
    forall c ensures IdAt(sessions, strands, Telling(b, ids), c) {
      assert IdAt(sessions, strands, b, c);
    }
  }

  lemma OtherPosted(sessions: SessionMap, strands: StrandMap, offered: seq<Job>, b: Books)
    requires StrandsOk(sessions, strands, offered, b)
    ensures StrandsOk(sessions, strands, offered + [Other], b)
  {
    OtherLinked(strands, offered);
  }

  // ----- What there is to tell of a client -----

  /** That it was added, its messages, and that it closed; of one entered under the id 0, which its session
      takes for a rejection, only that it was added. */
  function ClientStory(s: State): seq<Notice> {
    if Registered(s) then
      [Up(s.m.clientId)] + SessionRuns.Messages(s.log.received) + (if s.m.open then [] else [Down(s.m.clientId)])
    else if Entered(s) then [Up(0)]
    else []
  }

  lemma StoryOfClient(s: State)
    requires SessionOk(s)
    ensures SessionRuns.Story(s) == ClientStory(s)
    ensures ClientStory(s) <= [Up(s.m.clientId)] + SessionRuns.Messages(s.log.received) + [Down(s.m.clientId)]
  {
    assert s.log.received == [] ==> SessionRuns.Messages(s.log.received) == [];
  }

  /** The calls of a strand against the story of its client. */
  lemma StrandTells(s: State, strand: Strand)
    requires SessionOk(s) && StrandOk(s, strand)
    ensures Notices(strand.calls) <= ClientStory(s)
    ensures strand.pc.Idle? && s.io.sink ==> Notices(strand.calls) == ClientStory(s)
    ensures !Entered(s) ==> strand.calls == []
    ensures Closes(strand) <= 1
    ensures (forall i :: 0 <= i < |strand.calls| ==> strand.calls[i].posted) ==>
              PostedNotices(strand.calls)
              <= [Up(s.m.clientId)] + SessionRuns.Messages(s.log.received) + [Down(s.m.clientId)]
  {
    StoryOfClient(s);
    CallsTellStory(s, strand);
    if !Entered(s) {
      SilentUntilEntered(s, strand);
    }
    DownIsOwnAndLast(s);
    ClosesAtMostOnce(s, strand);
    if forall i :: 0 <= i < |strand.calls| ==> strand.calls[i].posted {
      AllPosted(strand.calls);
    }
  }

  // ----- By id -----

  /** What the jobs say under the id c is what session sid's jobs say. */
  ghost predicate OwnById(jobs: seq<Job>, c: nat, sid: nat) {
    Select(jobs, On(c)) == Select(jobs, From(sid))
  }

  lemma OwnJob(sessions: SessionMap, jobs: seq<Job>, i: nat, j: nat)
    requires JobsOwn(sessions, jobs) && i < |jobs| && j in sessions
    ensures Is(jobs[i], From(j)) ==> Is(jobs[i], On(sessions[j].m.clientId))
  {
    assert JobOwn(sessions, jobs[i]);
  }

  lemma SharedExactly(sessions: SessionMap, jobs: seq<Job>, sid: nat)
    requires JobsOwn(sessions, jobs) && sid in sessions && Entered(sessions[sid])
    ensures var c := sessions[sid].m.clientId;
            OwnById(jobs, c, sid)
            <==> forall j :: j in Holders(sessions, c) && j != sid ==> Select(jobs, From(j)) == []
  {
    var c := sessions[sid].m.clientId;
    forall i | 0 <= i < |jobs| ensures Is(jobs[i], From(sid)) ==> Is(jobs[i], On(c)) {
      OwnJob(sessions, jobs, i, sid);
    }
    SelectSame(jobs, From(sid), On(c));
    forall j ensures Select(jobs, From(j)) == [] <==> forall i :: 0 <= i < |jobs| ==> !Is(jobs[i], From(j)) {
      SelectNothing(jobs, From(j));
    }
    if OwnById(jobs, c, sid) {
      forall j | j in Holders(sessions, c) && j != sid ensures Select(jobs, From(j)) == [] {
        forall i | 0 <= i < |jobs| ensures !Is(jobs[i], From(j)) {
          OwnJob(sessions, jobs, i, j);
        }
      }
    } else {
      var i :| 0 <= i < |jobs| && Is(jobs[i], On(c)) && !Is(jobs[i], From(sid));
      assert JobOwn(sessions, jobs[i]);
      assert Is(jobs[i], From(jobs[i].source)) && jobs[i].source in Holders(sessions, c);
    }
  }
}
