/** How the notices sessions raise become callbacks. A handler that calls its owner looks the callback
    up in a lock section and then posts it to the work queue; other threads may move in between. The
    server and the client relay in the same way. */
module Relay {
  import opened SessionSpec
  import SessionRuns
  import WorkQueue

  /** A posted callback: a notice that session `source` raised, about client `id` (0 on a client
      object, which has no ids), or anything else (uri counts, http requests). */
  datatype Job = About(source: nat, id: nat, notice: Notice) | Other

  /** A finished call by a handler: whether it posted a callback. It posts nothing when no callback was
      set, nor for a close of a client already removed. */
  datatype Call = Call(notice: Notice, posted: bool)

  /** Where a strand is: between handlers, before the lock section of a call, or after it. */
  datatype Pc = Idle | Calling(notice: Notice) | Posting(notice: Notice, bound: bool)

  datatype Strand = Strand(pc: Pc, calls: seq<Call>)

  /** The work queue, and every job handed to Post, accepted or not. */
  datatype Outbox = Outbox(queue: WorkQueue.State<Job>, offered: seq<Job>)

  // ----- Steps -----

  /** A call is due exactly when the handler raised a notice. */
  function CallDue(s: State, s': State): Pc {
    if |s'.log.raised| > |s.log.raised| then Calling(s'.log.raised[|s'.log.raised| - 1]) else Idle
  }

  function AfterHandler(strand: Strand, s: State, s': State): Strand {
    Strand(CallDue(s, s'), strand.calls)
  }

  function LookedUp(strand: Strand, bound: bool): Strand
    requires strand.pc.Calling?
  {
    Strand(Posting(strand.pc.notice, bound), strand.calls)
  }

  function Posted(strand: Strand): Strand
    requires strand.pc.Posting?
  {
    Strand(Idle, strand.calls + [Call(strand.pc.notice, strand.pc.bound)])
  }

  function PostTo(o: Outbox, job: Job): Outbox {
    Outbox(WorkQueue.Step(o.queue, WorkQueue.Post(job)), o.offered + [job])
  }

  /** The post of a call, if it found a callback. */
  function PostFor(o: Outbox, strand: Strand, source: nat, id: nat): Outbox
    requires strand.pc.Posting?
  {
    if strand.pc.bound then PostTo(o, About(source, id, strand.pc.notice)) else o
  }

  predicate CanMove(o: Outbox, q: WorkQueue.Event<Job>) {
    (q.Post? ==> q.job.Other?) && WorkQueue.Enabled(o.queue, q)
  }

  /** Any other thread's post, Stop, or the worker. */
  function Move(o: Outbox, q: WorkQueue.Event<Job>): Outbox
    requires CanMove(o, q)
  {
    if q.Post? then PostTo(o, q.job) else Outbox(WorkQueue.Step(o.queue, q), o.offered)
  }

  // ----- Projections -----

  /** Which jobs: those a session posted, or those about a client id. */
  datatype Key = From(source: nat) | On(id: nat)

  predicate Is(job: Job, key: Key) {
    job.About? && match key case From(source) => job.source == source case On(id) => job.id == id
  }

  /** The notices of the jobs with the key, in order. */
  function Select(jobs: seq<Job>, key: Key): seq<Notice> {
    if jobs == [] then []
    else Select(jobs[..|jobs| - 1], key)
         + (if Is(jobs[|jobs| - 1], key) then [jobs[|jobs| - 1].notice] else [])
  }

  function Notices(calls: seq<Call>): seq<Notice> {
    if calls == [] then [] else Notices(calls[..|calls| - 1]) + [calls[|calls| - 1].notice]
  }

  /** The notices of the calls that posted a callback. */
  function PostedNotices(calls: seq<Call>): seq<Notice> {
    if calls == [] then []
    else PostedNotices(calls[..|calls| - 1])
         + (if calls[|calls| - 1].posted then [calls[|calls| - 1].notice] else [])
  }

  function Due(pc: Pc): seq<Notice> {
    if pc.Idle? then [] else [pc.notice]
  }

  lemma SelectSnoc(jobs: seq<Job>, job: Job, key: Key)
    ensures Select(jobs + [job], key) == Select(jobs, key) + (if Is(job, key) then [job.notice] else [])
  {
    assert (jobs + [job])[..|jobs|] == jobs;
  }

  lemma {:induction false} SelectPrefix(a: seq<Job>, b: seq<Job>, key: Key)
    requires a <= b
    ensures Select(a, key) <= Select(b, key)
    decreases |b|
  {
    if a != b {
      SelectPrefix(a, b[..|b| - 1], key);
    }
  }

  lemma {:induction false} SelectNothing(jobs: seq<Job>, key: Key)
    ensures Select(jobs, key) == [] <==> forall i :: 0 <= i < |jobs| ==> !Is(jobs[i], key)
    decreases |jobs|
  {
    if jobs != [] {
      SelectNothing(jobs[..|jobs| - 1], key);
    }
  }

  /** Of two keys, one wider than the other, the jobs are the same exactly when none has only the wider. */
  lemma {:induction false} SelectSame(jobs: seq<Job>, a: Key, b: Key)
    requires forall i :: 0 <= i < |jobs| && Is(jobs[i], a) ==> Is(jobs[i], b)
    ensures |Select(jobs, a)| <= |Select(jobs, b)|
    ensures Select(jobs, a) == Select(jobs, b) <==> forall i :: 0 <= i < |jobs| && Is(jobs[i], b) ==> Is(jobs[i], a)
    decreases |jobs|
  {
    if jobs != [] {
      var rest, last := jobs[..|jobs| - 1], jobs[|jobs| - 1];
      SelectSame(rest, a, b);
      assert forall i :: 0 <= i < |rest| ==> jobs[i] == rest[i];
      if Is(last, a) {
        assert Select(jobs, a)[..|Select(rest, a)|] == Select(rest, a);
        assert Select(jobs, b)[..|Select(rest, b)|] == Select(rest, b);
      } else if Is(last, b) {
        assert |Select(jobs, a)| < |Select(jobs, b)|;
        assert !(Is(jobs[|rest|], b) ==> Is(jobs[|rest|], a));
      } else {
        assert Select(jobs, a) == Select(rest, a) && Select(jobs, b) == Select(rest, b);
        assert jobs[|rest|] == last;
      }
    }
  }

  lemma {:induction false} AllPosted(calls: seq<Call>)
    requires forall i :: 0 <= i < |calls| ==> calls[i].posted
    ensures PostedNotices(calls) == Notices(calls)
    decreases |calls|
  {
    if calls != [] {
      AllPosted(calls[..|calls| - 1]);
    }
  }

  // ----- A strand reports what its session raised -----

  ghost predicate StrandOk(s: State, strand: Strand) {
    Notices(strand.calls) + Due(strand.pc) == s.log.raised
  }

  lemma RaisesAtMostOne(s: State, e: Event)
    requires Outstanding(s, e)
    ensures var raised, raised' := s.log.raised, SessionSpec.Step(s, e).log.raised;
            raised' == raised || (|raised'| == |raised| + 1 && raised' == raised + [raised'[|raised|]])
  {
  }

  lemma HandlerKeepsStrand(strand: Strand, s: State, e: Event)
    requires StrandOk(s, strand) && strand.pc.Idle? && Outstanding(s, e)
    ensures StrandOk(SessionSpec.Step(s, e), AfterHandler(strand, s, SessionSpec.Step(s, e)))
  {
    RaisesAtMostOne(s, e);
    assert Notices(strand.calls) == s.log.raised;
  }

  lemma LookedUpKeepsStrand(strand: Strand, s: State, bound: bool)
    requires StrandOk(s, strand) && strand.pc.Calling?
    ensures StrandOk(s, LookedUp(strand, bound))
  {
  }

  lemma PostedKeepsStrand(strand: Strand, s: State)
    requires StrandOk(s, strand) && strand.pc.Posting?
    ensures StrandOk(s, Posted(strand))
    ensures PostedNotices(Posted(strand).calls)
            == PostedNotices(strand.calls) + (if strand.pc.bound then [strand.pc.notice] else [])
  {
    assert Posted(strand).calls[..|strand.calls|] == strand.calls;
  }

  /** So its finished calls are, in order, the session's story, and between handlers the whole of it. */
  lemma CallsTellStory(s: State, strand: Strand)
    requires SessionRuns.TellsStory(s) && StrandOk(s, strand)
    ensures Notices(strand.calls) <= SessionRuns.Story(s)
    ensures strand.pc.Idle? && s.io.sink ==> Notices(strand.calls) == SessionRuns.Story(s)
  {
    assert Notices(strand.calls) <= s.log.raised;
    if strand.pc.Idle? {
      assert Notices(strand.calls) == s.log.raised;
    }
  }

  // ----- The jobs of a session are those its strand posted -----

  ghost predicate LinkedAt(strands: map<nat, Strand>, offered: seq<Job>, i: nat) {
    Select(offered, From(i)) == if i in strands then PostedNotices(strands[i].calls) else []
  }

  ghost predicate Linked(strands: map<nat, Strand>, offered: seq<Job>) {
    forall i :: LinkedAt(strands, offered, i)
  }

  /** A strand replaced by one with the same finished calls, or a new one. */
  lemma SameCallsLinked(strands: map<nat, Strand>, i: nat, strand: Strand, offered: seq<Job>)
    requires Linked(strands, offered)
    requires strand.calls == if i in strands then strands[i].calls else []
    ensures Linked(strands[i := strand], offered)
  {
    var strands' := strands[i := strand];
    forall j ensures LinkedAt(strands', offered, j) {
      assert LinkedAt(strands, offered, j);
    }
  }

  lemma PostLinked(strands: map<nat, Strand>, i: nat, o: Outbox, id: nat)
    requires Linked(strands, o.offered) && i in strands && strands[i].pc.Posting?
    ensures Linked(strands[i := Posted(strands[i])], PostFor(o, strands[i], i, id).offered)
  {
    var strand := strands[i];
    assert Posted(strand).calls[..|strand.calls|] == strand.calls;
    var strands', o' := strands[i := Posted(strand)], PostFor(o, strand, i, id);
    forall j ensures LinkedAt(strands', o'.offered, j) {
      assert LinkedAt(strands, o.offered, j);
      SelectSnoc(o.offered, About(i, id, strand.pc.notice), From(j));
    }
  }

  lemma OtherLinked(strands: map<nat, Strand>, offered: seq<Job>)
    requires Linked(strands, offered)
    ensures Linked(strands, offered + [Other])
  {
    forall j ensures LinkedAt(strands, offered + [Other], j) {
      assert LinkedAt(strands, offered, j);
      SelectSnoc(offered, Other, From(j));
    }
  }

  // ----- The outbox -----

  ghost predicate OutboxOk(o: Outbox) {
    && WorkQueue.Inv(o.queue)
    && o.queue.accepted <= o.offered
    && (!o.queue.stopped ==> o.queue.accepted == o.offered)
  }

  lemma PostKeepsOutbox(o: Outbox, job: Job)
    requires OutboxOk(o)
    ensures OutboxOk(PostTo(o, job))
  {
    WorkQueue.StepKeepsInv(o.queue, WorkQueue.Post(job));
  }

  lemma MoveKeepsOutbox(o: Outbox, q: WorkQueue.Event<Job>)
    requires OutboxOk(o) && CanMove(o, q)
    ensures OutboxOk(Move(o, q))
    ensures Move(o, q).offered == o.offered || Move(o, q).offered == o.offered + [Other]
  {
    if q.Post? {
      PostKeepsOutbox(o, q.job);
    } else {
      WorkQueue.StepKeepsInv(o.queue, q);
    }
  }

  /** The jobs the worker has entered are, in order, the first of those offered. */
  lemma EnteredAreOffered(o: Outbox)
    requires OutboxOk(o)
    ensures WorkQueue.Started(o.queue) <= o.offered
    ensures !o.queue.stopped && o.queue.queue == [] ==> WorkQueue.Started(o.queue) == o.offered
  {
  }

  /** What the worker has entered for a session, against what its strand posted. */
  lemma DeliveredFromOutbox(o: Outbox, strands: map<nat, Strand>, i: nat)
    requires OutboxOk(o) && Linked(strands, o.offered) && i in strands
    ensures Select(WorkQueue.Started(o.queue), From(i)) <= PostedNotices(strands[i].calls)
    ensures !o.queue.stopped && o.queue.queue == [] ==>
              Select(WorkQueue.Started(o.queue), From(i)) == PostedNotices(strands[i].calls)
  {
    EnteredAreOffered(o);
    assert LinkedAt(strands, o.offered, i);
    SelectPrefix(WorkQueue.Started(o.queue), o.offered, From(i));
  }

  // ----- After the queue was stopped -----

  /** The queue is stopped, with what it had entered by then; `joined` says the stopping call returned. */
  ghost predicate Silent(o: Outbox, entered: seq<Job>, joined: bool) {
    && WorkQueue.Inv(o.queue)
    && o.queue.stopped
    && WorkQueue.Started(o.queue) == entered
    && (joined ==> o.queue.stopper.Returned?)
  }

  lemma PostStaysSilent(o: Outbox, job: Job, entered: seq<Job>, joined: bool)
    requires Silent(o, entered, joined)
    ensures Silent(PostTo(o, job), entered, joined)
  {
  }

  lemma MoveStaysSilent(o: Outbox, q: WorkQueue.Event<Job>, entered: seq<Job>, joined: bool)
    requires Silent(o, entered, joined) && CanMove(o, q)
    ensures Silent(Move(o, q), entered, joined)
  {
    WorkQueue.StepKeepsInv(o.queue, q);
  }

  // ----- Closed callbacks -----

  /** The closed callbacks a strand posted, or is about to. */
  function ClosesIn(calls: seq<Call>): nat {
    if calls == [] then 0
    else ClosesIn(calls[..|calls| - 1])
         + (if calls[|calls| - 1].posted && calls[|calls| - 1].notice.Down? then 1 else 0)
  }

  function Closes(strand: Strand): nat {
    ClosesIn(strand.calls) + (if strand.pc.Posting? && strand.pc.bound && strand.pc.notice.Down? then 1 else 0)
  }

  lemma PostedCloses(strand: Strand)
    requires strand.pc.Posting?
    ensures Closes(Posted(strand)) == Closes(strand)
  {
    assert Posted(strand).calls[..|strand.calls|] == strand.calls;
  }

  /** How many notices say a client went down. */
  function Downs(notices: seq<Notice>): nat {
    if notices == [] then 0
    else Downs(notices[..|notices| - 1]) + (if notices[|notices| - 1].Down? then 1 else 0)
  }

  lemma {:induction false} ClosesAreDowns(calls: seq<Call>)
    ensures ClosesIn(calls) <= Downs(Notices(calls))
    decreases |calls|
  {
    if calls != [] {
      ClosesAreDowns(calls[..|calls| - 1]);
      var front := Notices(calls[..|calls| - 1]);
      assert (front + [calls[|calls| - 1].notice])[..|front|] == front;
    }
  }

  lemma {:induction false} OneDown(notices: seq<Notice>)
    requires forall i :: 0 <= i < |notices| - 1 ==> !notices[i].Down?
    ensures Downs(notices) <= 1
    ensures |notices| == 0 || !notices[|notices| - 1].Down? ==> Downs(notices) == 0
    decreases |notices|
  {
    if notices != [] {
      OneDown(notices[..|notices| - 1]);
    }
  }

  /** Of notices of which only the last may be a Down, at most one close comes. */
  lemma ClosesAtMostOnce(s: State, strand: Strand)
    requires StrandOk(s, strand) && forall i :: 0 <= i < |s.log.raised| - 1 ==> !s.log.raised[i].Down?
    ensures Closes(strand) <= 1
  {
    ClosesAreDowns(strand.calls);
    OneDown(s.log.raised);
    if strand.pc.Idle? {
      assert Notices(strand.calls) == s.log.raised;
    } else {
      assert s.log.raised[..|s.log.raised| - 1] == Notices(strand.calls);
    }
  }
}
