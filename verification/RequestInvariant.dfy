/** The inductive invariant of the request protocol, and the exact condition
    under which one step keeps it. */
module RequestInvariant {
  import opened Sequences
  import opened RequestModel

  // ----- one request -----

  predicate CallerHolds(q: Req) { q.caller != Released }
  predicate QueueHolds(q: Req) { q.qref.Listed? || q.qref.InHands? || q.qref.Tail? }

  /** A pending request that its caller took off the list again. */
  predicate Withdrawn(q: Req) {
    q.state == Pending && q.qref == Gone
  }

  ghost predicate Placement(q: Req, inPending: bool, inProcessing: bool, inIo: bool, inInterrupts: bool) {
    && (inPending <==> q.state == Pending && !Withdrawn(q))
    && (inProcessing <==> q.state == Sent)
    && (inIo <==> q.state == Reading || q.state == Writing)
    && (inInterrupts ==>
       q.interrupted && q.ended == 0 && (q.state == Sent || q.state == Writing || q.state == Finished))
    && (q.intrUnique != 0 ==> q.interrupted)
  }

  ghost predicate CallerOk(q: Req) {
    match q.caller
    case Prepared => q.qref == NotSent && !q.interrupted
    case WaitSignal => !q.interrupted && !q.async && q.qref != NotSent && !Withdrawn(q)
    case WaitFatal => !q.async && q.qref != NotSent && !Withdrawn(q)
    case WaitForced => !q.async && q.qref != NotSent && !Withdrawn(q)
    case WaitUnlocked => !q.async && q.aborted && (q.state == Reading || q.state == Writing || q.state == Finished)
    case WaitFinished => !q.async && !q.locked && q.aborted && (q.state == Sent || q.state == Finished)
    case Returned => !q.async && !q.locked && HandedBack(q)
    case Released => (q.async ==> q.qref != NotSent) && (!q.async ==> !q.locked && HandedBack(q))
  }

  /** Nobody will copy from or to the request again. */
  ghost predicate HandedBack(q: Req) {
    q.qref == NotSent || ((q.aborted || q.ended == 1) && q.state != Sent && (q.state == Pending ==> Withdrawn(q)))
  }

  ghost predicate OutcomeOk(q: Req) {
    && (q.aborted ==> q.error < 0)
    && (q.outcome.Accepted? ==>
       q.ended == 1 && !q.aborted && q.unique == q.outcome.msg.unique
       && q.hdr == Some(q.outcome.msg) && q.error == q.outcome.msg.error
       && q.data == q.outcome.msg.payload && FitsRequest(q, q.outcome.msg))
    && (q.outcome.Rejected? ==> q.ended == 1 && q.error < 0)
    && (q.ended == 1 && q.isreply && !q.outcome.Accepted? ==> q.error < 0)
  }

  /** What always holds of a request: its place on the lists, its reference
      count, its end function. */
  ghost predicate Common(q: Req, inPending: bool, inProcessing: bool, inIo: bool, inInterrupts: bool) {
    && Placement(q, inPending, inProcessing, inIo, inInterrupts)
    && CallerOk(q) && OutcomeOk(q)
    && q.count == B(CallerHolds(q)) + B(QueueHolds(q)) + B(q.cbRef.Some?)
    && (q.freed <==> q.count == 0)
    && (q.hasEnd ==> q.async) && (!q.async ==> q.isreply) && (q.background ==> q.async)
    && (q.async ==> q.caller == Prepared || q.caller == Released)
    && q.callbacks + B(q.endFn) + B(q.cbRef.Some?) + B(q.qref.Tail? && q.qref.owes) == B(q.hasEnd)
    && (q.endFn ==> q.ended == 0)
    && (q.callbacks > 0 ==> (q.ended == 1 || q.aborted) && q.state == Finished && !q.locked)
    && (q.cbRef.Some? ==> q.aborted && q.state == Finished)
    && (q.window.Some? ==> q.state == Sent && q.aborted)
  }

  /** What holds of a request, by who has the queue's reference to it. */
  ghost predicate ReqOk(q: Req, inPending: bool, inProcessing: bool, inIo: bool, inInterrupts: bool) {
    match q.qref
    case NotSent =>
      && Common(q, inPending, inProcessing, inIo, inInterrupts) && !q.locked
      && q.state == Init && q.ended == 0 && !q.aborted && !q.background
      && (q.caller == Prepared || (!q.async && q.error < 0))
    case Listed =>
      && Common(q, inPending, inProcessing, inIo, inInterrupts) && !q.locked
      && (q.state == Pending || q.state == Sent) && q.ended == 0
    case InHands(_) =>
      && Common(q, inPending, inProcessing, inIo, inInterrupts)
      && (q.state == Reading || q.state == Writing || (q.state == Finished && q.aborted)) && q.ended == 0
    case Tail(_, _) =>
      && Common(q, inPending, inProcessing, inIo, inInterrupts) && !q.locked
      && q.ended == 1 && q.state == Finished
    case Gone =>
      && Common(q, inPending, inProcessing, inIo, inInterrupts) && !q.locked
      && ((q.ended == 1 && q.state == Finished)
          || (q.ended == 0 && q.state == Pending && q.aborted && !q.async
            && (q.caller == Returned || q.caller == Released)))
  }

  // ----- one thread -----

  ghost predicate DevOk(d: Dev, t: Tid, q: Req) {
    match d
    case Idle => true
    case ReadUnlocked(_) => q.qref == InHands(t) && !q.locked && q.state != Writing
    case ReadLocked(_) => q.qref == InHands(t) && q.locked && q.state != Writing
    case ReadDone(_, _) => q.qref == InHands(t) && q.state != Writing
    case WriteLocked(_, m, k) => q.qref == InHands(t) && q.locked && WritingOk(q, m, k) && FitsRequest(q, m)
    case WriteUnlocked(_, m, k) => q.qref == InHands(t) && !q.locked && WritingOk(q, m, k) && FitsRequest(q, m)
    case WriteDone(_, m, err) => q.qref == InHands(t) && HeaderOk(q, m)
      && (!err ==> q.data == m.payload && FitsRequest(q, m))
    case WriteWindow(_) => q.window == Some(t)
    case Ending(_, owes) => q.qref == Tail(Device(t), owes)
  }

  ghost predicate HeaderOk(q: Req, m: Message) {
    q.state != Reading && q.unique == m.unique && q.hdr == Some(m) && (!q.aborted ==> q.error == m.error)
  }

  ghost predicate WritingOk(q: Req, m: Message, k: int) {
    HeaderOk(q, m) && 0 <= k <= |m.payload| && q.data == m.payload[..k]
  }

  ghost predicate AbortOk(a: Abort, t: Tid, q: Req) {
    match a
    case AwaitUnlock(_) => q.cbRef == Some(t)
    case EndTail(_, owes, _) => q.qref == Tail(Aborter(t), owes)
    case _ => true
  }

  predicate Concerns(a: Abort) { a.AwaitUnlock? || a.EndTail? }

  ghost predicate Threads(s: State) {
    && (forall t: Tid :: !DevOf(s, t).Idle? ==> DevOf(s, t).r in s.reqs && DevOk(DevOf(s, t), t, s.reqs[DevOf(s, t).r]))
    && (forall t: Tid :: Concerns(AbortOf(s, t)) ==>
       AbortOf(s, t).r in s.reqs && AbortOk(AbortOf(s, t), t, s.reqs[AbortOf(s, t).r]))
    && (forall r: Rid, t: Tid | r in s.reqs && s.reqs[r].qref == InHands(t) :: HandsOf(DevOf(s, t)) == Some(r))
  }

  // ----- the lists -----

  ghost predicate Lists(s: State) {
    && NoDup(s.pending) && NoDup(s.processing) && NoDup(s.io) && NoDup(s.interrupts)
    && (forall r <- s.pending :: r in s.reqs) && (forall r <- s.processing :: r in s.reqs)
    && (forall r <- s.io :: r in s.reqs) && (forall r <- s.interrupts :: r in s.reqs)
  }

  ghost predicate ReqAt(s: State, r: Rid)
    requires r in s.reqs
  {
    ReqOk(s.reqs[r], r in s.pending, r in s.processing, r in s.io, r in s.interrupts)
  }

  // ----- aborting -----

  /** How far an aborting thread has come: 1 the io list, 2 the pending list,
      3 the processing list, 4 done. */
  function Stage(a: Abort): int {
    match a
    case Resting => 0
    case AwaitUnlock(_) => 1
    case Holding(p) => PhaseStage(p)
    case EndTail(_, _, p) => PhaseStage(p)
    case Relock(p) => PhaseStage(p)
    case Completed => 4
  }

  function PhaseStage(p: Phase): int {
    match p case IoPhase => 1 case PendingPhase => 2 case ProcessingPhase => 3
  }

  /** What is over once a thread has reached a stage. */
  ghost predicate Cleared(s: State, stage: int) {
    && (stage >= 1 ==> !s.connected)
    && (stage >= 2 ==> s.io == [])
    && (stage >= 3 ==> s.pending == [])
    && (stage >= 4 ==> s.processing == [])
  }

  ghost predicate Aborting(s: State) {
    forall t: Tid :: Cleared(s, Stage(AbortOf(s, t)))
  }

  // ----- background requests -----

  predicate Outstanding(q: Req) { q.background && q.ended == 0 }

  function OutstandingSet(reqs: map<Rid, Req>): set<Rid> {
    set r | r in reqs && Outstanding(reqs[r])
  }

  ghost predicate Background(s: State) {
    && s.numBackground == |OutstandingSet(s.reqs)|
    && (s.connected ==> (s.blocked <==> s.numBackground >= FUSE_MAX_BACKGROUND))
    && (s.blocked ==> s.numBackground >= FUSE_MAX_BACKGROUND)
  }

  ghost predicate Core(s: State) {
    && !s.bug && Lists(s) && Threads(s) && Aborting(s) && Background(s)
    && forall r <- s.reqs :: ReqAt(s, r)
  }

  /** The thread that walks the lists to abort them is the one with the lock. */
  ghost predicate Held(s: State) {
    forall t: Tid :: AbortOf(s, t).Holding? <==> s.lock == Some(t)
  }

  ghost predicate Inv(s: State) {
    match s.lock
    case None => Core(s) && Held(s)
    case Some(holder) => Core(s) && Held(s) && AbortOf(s, holder).Holding?
  }

  // ----- the condition -----

  /** No writer has dropped the lock in the middle of finishing `r`. */
  ghost predicate NoWindow(s: State, r: Rid) {
    forall t: Tid :: DevOf(s, t) != WriteWindow(r)
  }

  /** What the code needs and does not enforce: while a writer that matched an
      aborted request has the lock dropped, nobody else ends or matches that
      request, and an interrupt is answered with EAGAIN only while it is not
      queued. */
  ghost predicate Disciplined(s: State, a: Step) {
    match a
    case EndRequests(t) =>
      AbortOf(s, t) == Holding(ProcessingPhase) && s.processing != [] ==> NoWindow(s, s.processing[0])
    case BeginWrite(t, m) =>
      var found := Find(s.processing, s.reqs, m.unique);
      found.Some? ==>
        && NoWindow(s, found.value)
        && (s.reqs[found.value].intrUnique == m.unique && m.error == -EAGAIN && m.Bytes() == OUT_HEADER
            && !s.reqs[found.value].aborted
            ==> found.value !in s.interrupts)
    case _ => true
  }

  // ----- shared steps of the proofs -----

  lemma OutstandingUpdate(reqs: map<Rid, Req>, r: Rid, q: Req)
    ensures |OutstandingSet(reqs[r := q])| == |OutstandingSet(reqs)| - B(r in reqs && Outstanding(reqs[r]))
            + B(Outstanding(q))
  {
    var before, after := OutstandingSet(reqs), OutstandingSet(reqs[r := q]);
    assert before - {r} == after - {r};
    assert |before| == |before - {r}| + B(r in before);
    assert |after| == |after - {r}| + B(r in after);
  }

  lemma InitialInv(s: State)
    requires Initial(s)
    ensures Inv(s)
  {
  }

  /** A step that touches one request only, and moves only that request on the
      lists. */
  ghost predicate Touches(s: State, s': State, r: Rid) {
    && r in s.reqs && r in s'.reqs && s'.reqs == s.reqs[r := s'.reqs[r]]
    && (forall x | x in s.reqs && x != r ::
          && (x in s'.pending <==> x in s.pending) && (x in s'.processing <==> x in s.processing)
          && (x in s'.io <==> x in s.io) && (x in s'.interrupts <==> x in s.interrupts))
  }

  lemma TouchKeepsOthers(s: State, s': State, r: Rid)
    requires Touches(s, s', r)
    requires forall x <- s.reqs :: ReqAt(s, x)
    requires ReqAt(s', r)
    ensures forall x <- s'.reqs :: ReqAt(s', x)
  {
    hide ReqOk;
    forall x | x in s'.reqs && x != r ensures ReqAt(s', x) {
      assert s'.reqs[x] == s.reqs[x] && ReqAt(s, x);
    }
  }

  /** Threads other than device thread `td` and aborter `ta` stand still, and
      every thread that deals with `r` agrees with what became of it. */
  ghost predicate ThreadsAgree(s: State, s': State, r: Rid, td: Option<Tid>, ta: Option<Tid>)
    requires r in s'.reqs
  {
    && (forall t: Tid | Some(t) != td :: DevOf(s', t) == DevOf(s, t))
    && (forall t: Tid | Some(t) != ta :: AbortOf(s', t) == AbortOf(s, t))
    && (forall t: Tid | Some(t) != td && HandsOf(DevOf(s, t)) == Some(r) :: DevOk(DevOf(s, t), t, s'.reqs[r]))
    && (forall t: Tid | Some(t) != ta && Concerns(AbortOf(s, t)) && AbortOf(s, t).r == r ::
       AbortOk(AbortOf(s, t), t, s'.reqs[r]))
    && (td.Some? ==> DevOf(s, td.value).Idle? || DevOf(s, td.value).r == r)
    && (td.Some? && !DevOf(s', td.value).Idle? ==>
       DevOf(s', td.value).r == r && DevOk(DevOf(s', td.value), td.value, s'.reqs[r]))
    && (ta.Some? && Concerns(AbortOf(s', ta.value)) ==>
       AbortOf(s', ta.value).r == r && AbortOk(AbortOf(s', ta.value), ta.value, s'.reqs[r]))
    && (forall t: Tid | s'.reqs[r].qref == InHands(t) :: HandsOf(DevOf(s', t)) == Some(r))
  }

  /** No thread moves, and those that deal with `r` agree with it. */
  lemma StillAgree(s: State, s': State, r: Rid)
    requires r in s'.reqs && s'.devs == s.devs && s'.aborts == s.aborts
    requires forall t: Tid | HandsOf(DevOf(s, t)) == Some(r) :: DevOk(DevOf(s, t), t, s'.reqs[r])
    requires forall t: Tid | Concerns(AbortOf(s, t)) && AbortOf(s, t).r == r :: AbortOk(AbortOf(s, t), t, s'.reqs[r])
    requires forall t: Tid | s'.reqs[r].qref == InHands(t) :: HandsOf(DevOf(s, t)) == Some(r)
    ensures ThreadsAgree(s, s', r, None, None)
  {
    hide DevOk, AbortOk;
  }

  lemma ThreadsKeep(s: State, s': State, r: Rid, td: Option<Tid>, ta: Option<Tid>)
    requires Threads(s) && r in s'.reqs && s'.reqs == s.reqs[r := s'.reqs[r]]
    requires ThreadsAgree(s, s', r, td, ta)
    ensures Threads(s')
  {
    hide DevOk, AbortOk;
    forall t: Tid | !DevOf(s', t).Idle?
      ensures DevOf(s', t).r in s'.reqs && DevOk(DevOf(s', t), t, s'.reqs[DevOf(s', t).r]) {
      if Some(t) != td { assert DevOf(s', t) == DevOf(s, t); }
    }
    forall t: Tid | Concerns(AbortOf(s', t))
      ensures AbortOf(s', t).r in s'.reqs && AbortOk(AbortOf(s', t), t, s'.reqs[AbortOf(s', t).r]) {
      if Some(t) != ta { assert AbortOf(s', t) == AbortOf(s, t); }
    }
    forall x: Rid, t: Tid | x in s'.reqs && s'.reqs[x].qref == InHands(t) ensures HandsOf(DevOf(s', t)) == Some(x) {
      if x != r { assert s'.reqs[x] == s.reqs[x]; }
    }
  }

  lemma Parts(s: State)
    requires Inv(s)
    ensures !s.bug && Lists(s) && Threads(s) && Aborting(s) && Background(s) && Held(s)
    ensures forall r <- s.reqs :: ReqAt(s, r)
  {
    hide Lists, Threads, Aborting, Background, Held, ReqAt;
  }

  lemma Assemble(s: State)
    requires !s.bug && Lists(s) && Threads(s) && Aborting(s) && Background(s) && Held(s)
    requires forall r <- s.reqs :: ReqAt(s, r)
    ensures Inv(s)
  {
    hide Lists, Threads, Aborting, Background, ReqAt;
  }

  /** A step that touches one request keeps the invariant when it does so locally. */
  lemma Keeps(s: State, s': State, r: Rid, td: Option<Tid>, ta: Option<Tid>)
    requires Inv(s) && Touches(s, s', r)
    requires !s'.bug && Lists(s') && ReqAt(s', r) && ThreadsAgree(s, s', r, td, ta)
    requires Aborting(s') && Background(s') && Held(s')
    ensures Inv(s')
  {
    hide Inv, Lists, Aborting, Background, Held, ReqAt, ThreadsAgree, Threads;
    Parts(s);
    ThreadsKeep(s, s', r, td, ta);
    TouchKeepsOthers(s, s', r);
    Assemble(s');
  }

  lemma ReqFacts(s: State, r: Rid)
    requires Inv(s) && r in s.reqs
    ensures ReqAt(s, r)
  {
    hide Inv, Lists, Aborting, Background, Held, ReqAt, Threads;
    Parts(s);
  }

  lemma ThreadFacts(s: State, r: Rid)
    requires Inv(s) && r in s.reqs
    ensures forall t: Tid | HandsOf(DevOf(s, t)) == Some(r) :: DevOk(DevOf(s, t), t, s.reqs[r])
    ensures forall t: Tid | Concerns(AbortOf(s, t)) && AbortOf(s, t).r == r :: AbortOk(AbortOf(s, t), t, s.reqs[r])
    ensures forall t: Tid | s.reqs[r].qref == InHands(t) :: HandsOf(DevOf(s, t)) == Some(r)
  {
    hide Inv, Lists, Aborting, Background, Held, ReqAt, DevOk, AbortOk;
    Parts(s);
  }

  // ----- fields of one request -----

  /** Two versions of a request that no thread tells apart. */
  predicate SameToThreads(q: Req, q': Req) {
    && q'.qref == q.qref && q'.cbRef == q.cbRef && q'.window == q.window
    && q'.locked == q.locked && q'.state == q.state && q'.aborted == q.aborted
    && q'.unique == q.unique && q'.hdr == q.hdr && q'.error == q.error && q'.data == q.data
    && q'.argvar == q.argvar && q'.outSize == q.outSize && q'.lastSize == q.lastSize
  }

  lemma ThreadsBlind(s: State, r: Rid, q: Req)
    requires r in s.reqs && SameToThreads(s.reqs[r], q)
    requires forall t: Tid | HandsOf(DevOf(s, t)) == Some(r) :: DevOk(DevOf(s, t), t, s.reqs[r])
    requires forall t: Tid | Concerns(AbortOf(s, t)) && AbortOf(s, t).r == r :: AbortOk(AbortOf(s, t), t, s.reqs[r])
    ensures forall t: Tid | HandsOf(DevOf(s, t)) == Some(r) :: DevOk(DevOf(s, t), t, q)
    ensures forall t: Tid | Concerns(AbortOf(s, t)) && AbortOf(s, t).r == r :: AbortOk(AbortOf(s, t), t, q)
  {
  }

  /** Aborting threads other than `ta` stand still and no list they cleared fills up. */
  lemma AbortingKeeps(s: State, s': State, ta: Option<Tid>)
    requires Aborting(s) && (!s.connected ==> !s'.connected)
    requires forall t: Tid | Some(t) != ta :: AbortOf(s', t) == AbortOf(s, t)
    requires forall stage: int :: Cleared(s, stage) ==> Cleared(s', stage)
    requires ta.Some? ==> Cleared(s', Stage(AbortOf(s', ta.value)))
    ensures Aborting(s')
  {
  }

  /** No list, thread or lock moves and nothing starts or ends. */
  lemma StillKeeps(s: State, s': State, r: Rid)
    requires Lists(s) && Aborting(s) && Held(s) && Background(s) && r in s.reqs && r in s'.reqs
    requires s' == SetReq(s, r, s'.reqs[r]) && Outstanding(s'.reqs[r]) == Outstanding(s.reqs[r])
    ensures Lists(s') && Aborting(s') && Held(s') && Background(s')
  {
    OutstandingUpdate(s.reqs, r, s'.reqs[r]);
    AbortingKeeps(s, s', None);
  }

  /** Changing fields of one request in place. */
  lemma SetReqKeeps(s: State, r: Rid, q: Req)
    requires Inv(s) && r in s.reqs
    requires ReqOk(q, r in s.pending, r in s.processing, r in s.io, r in s.interrupts)
    requires q.qref == s.reqs[r].qref && Outstanding(q) == Outstanding(s.reqs[r])
    requires forall t: Tid | HandsOf(DevOf(s, t)) == Some(r) :: DevOk(DevOf(s, t), t, q)
    requires forall t: Tid | Concerns(AbortOf(s, t)) && AbortOf(s, t).r == r :: AbortOk(AbortOf(s, t), t, q)
    ensures Inv(SetReq(s, r, q))
  {
    hide Inv, Threads, DevOk, AbortOk, ReqOk, Background, Aborting, Held, Lists;
    var s' := SetReq(s, r, q);
    Parts(s);
    ThreadFacts(s, r);
    StillKeeps(s, s', r);
    Keeps(s, s', r, None, None);
  }

  /** Changing fields that no thread looks at. */
  lemma BlindReqKeeps(s: State, r: Rid, q: Req)
    requires Inv(s) && r in s.reqs
    requires ReqOk(q, r in s.pending, r in s.processing, r in s.io, r in s.interrupts)
    requires SameToThreads(s.reqs[r], q) && Outstanding(q) == Outstanding(s.reqs[r])
    ensures Inv(SetReq(s, r, q))
  {
    hide Inv, DevOk, AbortOk, ReqOk;
    ThreadFacts(s, r);
    ThreadsBlind(s, r, q);
    SetReqKeeps(s, r, q);
  }
}
