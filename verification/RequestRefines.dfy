/** Every step of the device protocol is what RequestMail says it is: a table
    gives the events of a step by what the state looks like before it, and the
    view of the state after the step is what these events make of the view before
    it. What holds of the two sides over whole runs then holds of the device. */
module RequestRefines {
  import opened Sequences
  import opened RequestModel
  import opened RequestInvariant
  import opened RequestSteps
  import opened RequestTheorems
  import M = RequestMail

  // ----- the view -----

  function StageOf(q: Req): M.Stage {
    match q.state
    case Init => M.Fresh
    case Pending => if Withdrawn(q) then M.Left else M.Waiting
    case Reading => M.Reading
    case Sent => M.Sent
    case Writing => M.Writing
    case Finished => M.Done
  }

  function WaitsOf(q: Req): M.Waits { WaitsAt(q.caller) }

  function WaitsAt(c: Caller): M.Waits {
    match c
    case Prepared => M.Before
    case WaitSignal => M.First
    case WaitFatal => M.Second
    case _ => M.Over
  }

  function MarkOf(q: Req): M.Mark {
    M.Mark(StageOf(q), WaitsOf(q), q.async, q.force, q.isreply, q.unique, q.intrUnique, q.interrupted, q.aborted,
           q.error)
  }

  function Marks(reqs: map<Rid, Req>): map<Rid, M.Mark> { map r | r in reqs :: MarkOf(reqs[r]) }

  function View(s: State): M.Mail {
    M.Mail(s.connected, s.connError, s.noInterrupt, Marks(s.reqs), s.pending, s.processing, s.io, s.interrupts,
           s.reqctr)
  }

  // ----- what happens in a step -----

  function FatalEvents(s: State, r: Rid): seq<M.Event>
    requires r in s.reqs
  {
    if s.reqs[r].aborted || s.reqs[r].state == Finished then [M.Back(r)] else [M.GiveUp(r)]
  }

  function SignalEvents(s: State, r: Rid, fatal: bool): seq<M.Event>
    requires r in s.reqs
  {
    if s.reqs[r].aborted || s.reqs[r].state == Finished then [M.Back(r)]
    else [M.Signal(r)] + if fatal && !s.reqs[r].force then [M.GiveUp(r)] else []
  }

  function SendEvents(s: State, r: Rid, signalled: bool, fatal: bool): seq<M.Event>
    requires r in s.reqs
  {
    if !s.connected then [M.Refuse(r, -ENOTCONN)]
    else if s.connError then [M.Refuse(r, -ECONNREFUSED)]
    else
      [M.Queue(r)] + (if signalled && !s.noInterrupt then [M.Signal(r)] else [])
      + if fatal && !s.reqs[r].force && (signalled || s.noInterrupt) then [M.GiveUp(r)] else []
  }

  function ReplyEvents(s: State, m: Message): seq<M.Event> {
    var found := Find(s.processing, s.reqs, m.unique);
    if found.None? || s.reqs[found.value].aborted then []
    else if s.reqs[found.value].intrUnique != m.unique then [M.Answer(found.value, m.error)]
    else if m.Bytes() != OUT_HEADER then []
    else if m.error == -ENOSYS then [M.Deaf]
    else if m.error == -EAGAIN then [M.Again(found.value)]
    else []
  }

  /** How fuse_dev_readv is done with a request. */
  function ReadEvents(q: Req, r: Rid, err: bool): seq<M.Event> {
    if q.aborted then [M.Finish(r, q.error)]
    else if err then [M.Finish(r, -EIO)]
    else if q.isreply then [M.Deliver(r)]
    else [M.Finish(r, 0)]
  }

  function CallerEvents(s: State, a: Step): seq<M.Event>
    requires Enabled(s, a) && !DeviceStepKind(a) && !AbortStepKind(a)
  {
    match a
    case Prepare(r, async, isreply, force, _, _, _, _) => [M.New(r, async, force, isreply)]
    case SetConnError => [M.Refusing]
    case Send(r, signalled, fatal) => SendEvents(s, r, signalled, fatal)
    case WakeSignal(r, fatal) => SignalEvents(s, r, fatal)
    case WakeFatal(r) => FatalEvents(s, r)
    case SendNoWait(r) => if s.connected then [M.Queue(r)] else [M.Fail(r)]
    case _ => []
  }

  function DeviceEvents(s: State, a: Step): seq<M.Event>
    requires Enabled(s, a) && DeviceStepKind(a)
  {
    match a
    case ReadInterrupt(_) => [M.TakeInterrupt(s.interrupts[0])]
    case BeginRead(_, tooLarge, setxattr) =>
      [M.Take(s.pending[0])] + if tooLarge then [M.Finish(s.pending[0], if setxattr then -E2BIG else -EIO)] else []
    case ReadFinal(t) => ReadEvents(s.reqs[DevOf(s, t).r], DevOf(s, t).r, DevOf(s, t).err)
    case BeginWrite(_, m) => ReplyEvents(s, m)
    case WriteFinal(t) =>
      var q := s.reqs[DevOf(s, t).r];
      [M.Finish(DevOf(s, t).r, if DevOf(s, t).err && !q.aborted then -EIO else q.error)]
    case WindowEnd(t) => [M.Finish(DevOf(s, t).r, s.reqs[DevOf(s, t).r].error)]
    case _ => []
  }

  function AbortEvents(s: State, a: Step): seq<M.Event>
    requires Enabled(s, a) && AbortStepKind(a)
  {
    match a
    case AbortStart(_) => [M.Down]
    case ReleaseStart(_) => [M.Down]
    case AbortIo(_) => if s.io == [] then [] else [M.Abandon(s.io[0])]
    case EndRequests(t) =>
      var list := if AbortOf(s, t) == Holding(PendingPhase) then s.pending else s.processing;
      if list == [] then [] else [M.Finish(list[0], -ECONNABORTED)]
    case _ => []
  }

  function Events(s: State, a: Step): seq<M.Event>
    requires Enabled(s, a)
  {
    if DeviceStepKind(a) then DeviceEvents(s, a)
    else if AbortStepKind(a) then AbortEvents(s, a)
    else CallerEvents(s, a)
  }

  /** What the two sides see of a step. */
  ghost predicate Shows(s: State, es: seq<M.Event>, s': State) {
    M.Follows(View(s), es) && M.DoAll(View(s), es) == View(s')
  }

  lemma ShowsTrans(s: State, a: seq<M.Event>, s1: State, b: seq<M.Event>, s': State)
    requires Shows(s, a, s1) && Shows(s1, b, s')
    ensures Shows(s, a + b, s')
  {
    hide View;
    M.FollowsConcat(View(s), a, b);
  }

  lemma ShowsNothing(s: State, s': State)
    requires View(s') == View(s)
    ensures Shows(s, [], s')
  {
    hide View;
  }

  lemma ShowsOne(s: State, e: M.Event, s': State)
    requires M.Allowed(View(s), e) && M.Do(View(s), e) == View(s')
    ensures Shows(s, [e], s')
  {
    hide View;
    M.FollowsOne(View(s), e);
  }

  lemma ShowsTwo(s: State, e: M.Event, f: M.Event, s': State)
    requires M.Allowed(View(s), e) && M.Allowed(M.Do(View(s), e), f) && M.Do(M.Do(View(s), e), f) == View(s')
    ensures Shows(s, [e] + [f], s')
  {
    hide View, M.Allowed, M.Do;
    M.FollowsOne(View(s), e);
    M.FollowsOne(M.Do(View(s), e), f);
    M.FollowsConcat(View(s), [e], [f]);
  }

  function WithMark(v: M.Mail, r: Rid, m: M.Mark): M.Mail { v.(marks := v.marks[r := m]) }

  lemma MarkTwice(v: M.Mail, r: Rid, a: M.Mark, b: M.Mark)
    ensures WithMark(WithMark(v, r, a), r, b) == WithMark(v, r, b)
  {
    assert v.marks[r := a][r := b] == v.marks[r := b];
  }

  lemma MarkAgain(v: M.Mail, r: Rid, m: M.Mark)
    requires r in v.marks && v.marks[r] == m
    ensures WithMark(v, r, m) == v
  {
    assert v.marks[r := m] == v.marks;
  }

  lemma ViewAt(s: State, r: Rid)
    requires r in s.reqs
    ensures r in View(s).marks && View(s).marks[r] == MarkOf(s.reqs[r])
  {
    hide MarkOf;
  }

  lemma ViewSet(s: State, s': State, r: Rid, q: Req)
    requires s'.reqs == s.reqs[r := q]
    ensures View(s') == M.Mail(s'.connected, s'.connError, s'.noInterrupt, View(s).marks[r := MarkOf(q)],
                               s'.pending, s'.processing, s'.io, s'.interrupts, s'.reqctr)
  {
    hide MarkOf;
    MarksSet(s.reqs, r, q);
  }

  lemma MarksSet(reqs: map<Rid, Req>, r: Rid, q: Req)
    ensures Marks(reqs[r := q]) == Marks(reqs)[r := MarkOf(q)]
  {
    hide MarkOf;
  }

  // ----- callers -----

  lemma MoveView(s: State, r: Rid, c: Caller)
    requires r in s.reqs
    ensures View(MoveCaller(s, r, c)) == WithMark(View(s), r, MarkOf(s.reqs[r]).(waits := WaitsAt(c)))
  {
    hide View, Marks;
    var q := s.reqs[r].(caller := c);
    ViewSet(s, MoveCaller(s, r, c), r, q);
    ViewFields(s);
  }

  lemma ViewFields(s: State)
    ensures var v := View(s);
            v == M.Mail(s.connected, s.connError, s.noInterrupt, v.marks, s.pending, s.processing, s.io, s.interrupts,
                        s.reqctr)
  {
    hide Marks;
  }

  lemma LeaveView(s: State, r: Rid)
    requires r in s.reqs && s.reqs[r].state == Pending
    ensures View(WithdrawOrWait(s, r)) ==
            WithMark(View(s), r, MarkOf(s.reqs[r]).(waits := M.Over, stage := M.Left)).(pending := Remove(s.pending, r))
  {
    LeftMark(s.reqs[r]);
    hide View, Marks, MarkOf, Put;
    var q := Put(s.reqs[r]).(caller := Returned, qref := Gone);
    ViewSet(s, WithdrawOrWait(s, r), r, q);
    ViewFields(s);
  }

  lemma LeftMark(q: Req)
    requires q.state == Pending
    ensures MarkOf(Put(q).(caller := Returned, qref := Gone)) == MarkOf(q).(waits := M.Over, stage := M.Left)
  {
  }

  /** The caller of an aborted request that somebody has read. */
  lemma TailView(s: State, r: Rid)
    requires r in s.reqs && s.reqs[r].state != Pending
    ensures View(AbortedTail(s, r)) == WithMark(View(s), r, MarkOf(s.reqs[r]).(waits := M.Over))
  {
    hide View, MarkOf, Put;
    MoveView(s, r, WaitUnlocked);
    MoveView(s, r, WaitFinished);
    MoveView(s, r, Returned);
  }

  lemma TailUnseen(s: State, r: Rid)
    requires r in s.reqs && s.reqs[r].state != Pending && WaitsOf(s.reqs[r]) == M.Over
    ensures Shows(s, [], AbortedTail(s, r))
  {
    TailView(s, r);
    ViewAt(s, r);
    OverMark(s.reqs[r]);
    hide Shows, View, AbortedTail, MarkOf;
    MarkAgain(View(s), r, MarkOf(s.reqs[r]));
    ShowsNothing(s, AbortedTail(s, r));
  }

  lemma OverMark(q: Req)
    ensures MarkOf(q).waits == WaitsOf(q) && MarkOf(q).aborted == q.aborted
    ensures q.state == Finished ==> MarkOf(q).stage == M.Done
  {
  }

  /** The caller stops to wait for signals. */
  lemma BackShows(s: State, r: Rid, s': State)
    requires r in s.reqs && WaitsOf(s.reqs[r]) in {M.First, M.Second}
             && (s.reqs[r].aborted || s.reqs[r].state == Finished)
    requires View(s') == WithMark(View(s), r, MarkOf(s.reqs[r]).(waits := M.Over))
    ensures Shows(s, [M.Back(r)], s')
  {
    ViewAt(s, r);
    OverMark(s.reqs[r]);
    hide Shows, View, MarkOf;
    ShowsOne(s, M.Back(r), s');
  }

  lemma AbortedView(s: State, r: Rid)
    requires r in s.reqs
    ensures View(MarkAborted(s, r)) == WithMark(View(s), r, MarkOf(s.reqs[r]).(aborted := true, error := -EINTR))
    ensures MarkAborted(s, r).reqs[r] == s.reqs[r].(error := -EINTR, aborted := true)
  {
    hide View, Marks;
    ViewSet(s, MarkAborted(s, r), r, s.reqs[r].(error := -EINTR, aborted := true));
    ViewFields(s);
  }

  lemma GiveUpShows(s: State, r: Rid)
    requires r in s.reqs && !s.reqs[r].aborted && M.UnderWay(MarkOf(s.reqs[r])) && WaitsOf(s.reqs[r]) == M.Second
    requires s.reqs[r].state == Pending ==> !s.reqs[r].locked
    ensures Shows(s, [M.GiveUp(r)], AbortedTail(MarkAborted(s, r), r))
  {
    AbortedView(s, r);
    ViewAt(s, r);
    ViewFields(s);
    GivenUpMark(s.reqs[r]);
    hide Shows, View, AbortedTail, MarkAborted, MarkOf;
    var s1 := MarkAborted(s, r);
    var m := MarkOf(s.reqs[r]).(aborted := true, error := -EINTR);
    MarkTwice(View(s), r, m, m.(waits := M.Over));
    MarkTwice(View(s), r, m, m.(waits := M.Over, stage := M.Left));
    if s.reqs[r].state == Pending {
      LeaveView(s1, r);
      NotLocked(s1, r);
      ViewFields(s1);
    } else {
      TailView(s1, r);
    }
    ShowsOne(s, M.GiveUp(r), AbortedTail(s1, r));
  }

  lemma GivenUpMark(q: Req)
    ensures MarkOf(q.(error := -EINTR, aborted := true)) == MarkOf(q).(aborted := true, error := -EINTR)
    ensures MarkOf(q).stage == M.Waiting <==> q.state == Pending && !Withdrawn(q)
    ensures M.UnderWay(MarkOf(q)) && q.state == Pending ==> !Withdrawn(q)
    ensures MarkOf(q).waits == WaitsOf(q) && MarkOf(q).aborted == q.aborted
  {
  }

  /** A caller that waits, or is about to. */
  predicate Attending(q: Req) {
    q.state != Init && !Withdrawn(q) && (q.state == Pending ==> !q.aborted && !q.locked)
  }

  lemma FatalShows(s: State, r: Rid)
    requires r in s.reqs && WaitsOf(s.reqs[r]) == M.Second && Attending(s.reqs[r])
    ensures Shows(s, FatalEvents(s, r), AfterFatalWait(s, r))
  {
    hide Shows, AbortedTail, MarkAborted, MoveCaller, View;
    if s.reqs[r].aborted {
      TailView(s, r);
      BackShows(s, r, AbortedTail(s, r));
    } else if s.reqs[r].state == Finished {
      MoveView(s, r, Returned);
      BackShows(s, r, MoveCaller(s, r, Returned));
    } else {
      GiveUpShows(s, r);
    }
  }

  lemma InterruptedView(s: State, r: Rid)
    requires r in s.reqs
    ensures View(MarkInterrupted(s, r)) ==
            WithMark(View(s), r, MarkOf(s.reqs[r]).(interrupted := true, waits := M.Second))
              .(interrupts := if s.reqs[r].state == Sent then View(s).interrupts + [r] else View(s).interrupts)
    ensures MarkInterrupted(s, r).reqs[r] == s.reqs[r].(interrupted := true, caller := WaitFatal)
  {
    hide View, Marks, MarkOf;
    InterruptedMark(s.reqs[r]);
    ViewSet(s, MarkInterrupted(s, r), r, s.reqs[r].(interrupted := true, caller := WaitFatal));
    ViewFields(s);
  }

  lemma InterruptedMark(q: Req)
    ensures MarkOf(q.(interrupted := true, caller := WaitFatal)) == MarkOf(q).(interrupted := true, waits := M.Second)
  {
  }

  lemma SignalledMark(q: Req)
    ensures MarkOf(q).waits == WaitsOf(q) && MarkOf(q).aborted == q.aborted && MarkOf(q).force == q.force
    ensures MarkOf(q).stage == M.Sent <==> q.state == Sent
  {
  }

  /** A signal marks the request and ends the first wait. */
  lemma SignalShows(s: State, r: Rid)
    requires r in s.reqs && !s.reqs[r].aborted && M.UnderWay(MarkOf(s.reqs[r])) && WaitsOf(s.reqs[r]) == M.First
    ensures Shows(s, [M.Signal(r)], SecondWait(MarkInterrupted(s, r), r, false))
    ensures !s.reqs[r].force ==> Shows(s, [M.Signal(r)], MarkInterrupted(s, r))
  {
    SignalledMark(s.reqs[r]);
    hide Shows, View, MarkInterrupted, MoveCaller, MarkOf, M.UnderWay;
    InterruptedView(s, r);
    ViewAt(s, r);
    var s1 := MarkInterrupted(s, r);
    InterruptedMark(s.reqs[r]);
    MoveView(s1, r, WaitForced);
    MoveView(s1, r, WaitFatal);
    var m := MarkOf(s.reqs[r]).(interrupted := true, waits := M.Second);
    MarkTwice(View(s), r, m, m);
    MarkTwice(View(s), r, m, m.(waits := M.Over));
    ShowsOne(s, M.Signal(r), SecondWait(s1, r, false));
    if !s.reqs[r].force { ShowsOne(s, M.Signal(r), s1); }
  }

  lemma WakeSignalShows(s: State, r: Rid, fatal: bool)
    requires r in s.reqs && WaitsOf(s.reqs[r]) == M.First && Attending(s.reqs[r])
    ensures Shows(s, SignalEvents(s, r, fatal), AfterSignalWait(s, r, fatal))
  {
    InterruptedView(s, r);
    hide Shows, AbortedTail, MarkInterrupted, AfterFatalWait, View, MoveCaller;
    if s.reqs[r].aborted {
      TailView(s, r);
      BackShows(s, r, AbortedTail(s, r));
    } else if s.reqs[r].state == Finished {
      MoveView(s, r, Returned);
      BackShows(s, r, MoveCaller(s, r, Returned));
    } else {
      SignalShows(s, r);
      if fatal && !s.reqs[r].force {
        var s1 := MarkInterrupted(s, r);
        FatalShows(s1, r);
        ShowsTrans(s, [M.Signal(r)], s1, [M.GiveUp(r)], AfterFatalWait(s1, r));
      } else {
        assert SignalEvents(s, r, fatal) == [M.Signal(r)];
      }
    }
  }

  // ----- sending -----

  lemma QueueShows(s: State, r: Rid, q: Req)
    requires r in s.reqs && s.connected && 0 <= s.reqctr <= M.LAST && s.reqs[r].caller == Prepared
    requires s.reqs[r].async || !s.connError
    requires q == s.reqs[r].(count := q.count, background := q.background, caller := q.caller)
    requires WaitsOf(q) == M.FirstWait(View(s), MarkOf(s.reqs[r]))
    ensures Shows(s, [M.Queue(r)], QueueRequest(s, r, q))
  {
    ViewAt(s, r);
    ViewFields(s);
    hide Shows, View, Marks;
    ViewSet(s, QueueRequest(s, r, q), r, q.(unique := NextUnique(s.reqctr), state := Pending, qref := Listed));
    ShowsOne(s, M.Queue(r), QueueRequest(s, r, q));
  }

  lemma QueuedView(s: State, r: Rid, q: Req)
    requires r in s.reqs && 0 <= s.reqctr <= M.LAST && !Withdrawn(s.reqs[r])
    requires q == s.reqs[r].(count := q.count, background := q.background, caller := q.caller)
    ensures var v, n := View(s), M.Next(s.reqctr);
            var m := MarkOf(s.reqs[r]).(stage := M.Waiting, number := n, waits := WaitsOf(q));
            View(QueueRequest(s, r, q)) == WithMark(v, r, m).(pending := s.pending + [r], last := n)
    ensures r in QueueRequest(s, r, q).reqs
    ensures QueueRequest(s, r, q).reqs[r] == q.(unique := M.Next(s.reqctr), state := Pending, qref := Listed)
  {
    hide View, Marks, MarkOf;
    var q' := q.(unique := NextUnique(s.reqctr), state := Pending, qref := Listed);
    ViewSet(s, QueueRequest(s, r, q), r, q');
    ViewFields(s);
    QueuedIsWaiting(s.reqs[r], q, NextUnique(s.reqctr));
  }

  lemma QueuedIsWaiting(q: Req, q1: Req, n: int)
    requires q1 == q.(count := q1.count, background := q1.background, caller := q1.caller)
    ensures MarkOf(q1.(unique := n, state := Pending, qref := Listed)) ==
            MarkOf(q).(stage := M.Waiting, number := n, waits := WaitsOf(q1))
  {
  }

  /** A request of which the daemon does not want to know the interrupt. */
  lemma DeafSendShows(s: State, r: Rid, q: Req, fatal: bool)
    requires r in s.reqs && s.connected && !s.connError && s.noInterrupt && 0 <= s.reqctr <= M.LAST
    requires Unsent(s.reqs[r]) && !s.reqs[r].async
    requires q == s.reqs[r].(count := q.count, caller := WaitSignal)
    ensures Shows(s, [M.Queue(r)] + if fatal && !q.force then [M.GiveUp(r)] else [],
                  SecondWait(QueueRequest(s, r, q), r, fatal))
  {
    hide Shows, View, QueueRequest, MoveCaller, MarkOf, AfterFatalWait, Unsent;
    var s1 := QueueRequest(s, r, q);
    UnsentMark(s.reqs[r]);
    QueuedView(s, r, q);
    if fatal && !q.force {
      DeafGiveUpShows(s, r, q);
    } else {
      DeafWaitShows(s, r, q, if q.force then WaitForced else WaitFatal);
      assert [M.Queue(r)] + [] == [M.Queue(r)];
    }
  }

  lemma DeafWaitShows(s: State, r: Rid, q: Req, c: Caller)
    requires r in s.reqs && s.connected && !s.connError && s.noInterrupt && 0 <= s.reqctr <= M.LAST
    requires Unsent(s.reqs[r]) && !s.reqs[r].async && c == if q.force then WaitForced else WaitFatal
    requires q == s.reqs[r].(count := q.count, caller := WaitSignal)
    ensures r in QueueRequest(s, r, q).reqs && Shows(s, [M.Queue(r)], MoveCaller(QueueRequest(s, r, q), r, c))
  {
    hide Shows, View, QueueRequest, MoveCaller, MarkOf, Unsent;
    UnsentMark(s.reqs[r]);
    QueuedView(s, r, q);
    QueuedMark(s.reqs[r], q, M.Next(s.reqctr));
    ViewFields(s);
    ViewAt(s, r);
    var m := MarkOf(s.reqs[r]).(stage := M.Waiting, number := M.Next(s.reqctr), waits := M.First);
    MoveView(QueueRequest(s, r, q), r, c);
    MarkTwice(View(s), r, m, m.(waits := M.NextWait(m)));
    ShowsOne(s, M.Queue(r), MoveCaller(QueueRequest(s, r, q), r, c));
  }

  lemma DeafGiveUpShows(s: State, r: Rid, q: Req)
    requires r in s.reqs && s.connected && !s.connError && s.noInterrupt && 0 <= s.reqctr <= M.LAST
    requires Unsent(s.reqs[r]) && !s.reqs[r].async && !q.force
    requires q == s.reqs[r].(count := q.count, caller := WaitSignal)
    ensures r in QueueRequest(s, r, q).reqs
    ensures Shows(s, [M.Queue(r)] + [M.GiveUp(r)], AfterFatalWait(QueueRequest(s, r, q), r))
  {
    hide Shows, View, QueueRequest, MarkOf, AfterFatalWait, Unsent, Remove;
    UnsentMark(s.reqs[r]);
    QueuedView(s, r, q);
    ViewFields(s);
    ViewAt(s, r);
    var m := MarkOf(s.reqs[r]).(stage := M.Waiting, number := M.Next(s.reqctr), waits := M.Second);
    DeafGiveUpView(s, r, q);
    MarkTwice(View(s), r, m, LeftAt(m));
    ShowsTwo(s, M.Queue(r), M.GiveUp(r), AfterFatalWait(QueueRequest(s, r, q), r));
  }

  function LeftAt(m: M.Mark): M.Mark {
    m.(aborted := true, error := -EINTR, waits := M.Over, stage := M.Left)
  }

  lemma FatalPending(s: State, r: Rid)
    requires r in s.reqs && !s.reqs[r].aborted && s.reqs[r].state == Pending && !s.reqs[r].locked
    ensures AfterFatalWait(s, r) == WithdrawOrWait(MarkAborted(s, r), r)
  {
    hide WithdrawOrWait;
  }

  lemma DeafGiveUpView(s: State, r: Rid, q: Req)
    requires r in s.reqs && 0 <= s.reqctr <= M.LAST && Unsent(s.reqs[r])
    requires q == s.reqs[r].(count := q.count, caller := WaitSignal)
    ensures r in QueueRequest(s, r, q).reqs
    ensures var m := MarkOf(s.reqs[r]).(stage := M.Waiting, number := M.Next(s.reqctr), waits := M.Second);
            View(AfterFatalWait(QueueRequest(s, r, q), r)) ==
            WithMark(View(s), r, LeftAt(m)).(pending := Remove(s.pending + [r], r), last := M.Next(s.reqctr))
  {
    hide View, QueueRequest, MarkAborted, AbortedTail, AfterFatalWait, WithdrawOrWait, MarkOf, Unsent, Remove;
    var s1 := QueueRequest(s, r, q);
    UnsentMark(s.reqs[r]);
    QueuedView(s, r, q);
    QueuedMark(s.reqs[r], q, M.Next(s.reqctr));
    AbortedView(s1, r);
    LeaveView(MarkAborted(s1, r), r);
    FatalPending(s1, r);
    ViewFields(MarkAborted(s1, r));
    var m := MarkOf(s.reqs[r]).(stage := M.Waiting, number := M.Next(s.reqctr), waits := M.First);
    GivenUpMark(q.(unique := M.Next(s.reqctr), state := Pending, qref := Listed));
    MarkTwice(View(s), r, m, m.(aborted := true, error := -EINTR));
    MarkTwice(View(s), r, m.(aborted := true, error := -EINTR), LeftAt(m));
  }

  lemma UnsentMark(q: Req)
    requires Unsent(q)
    ensures MarkOf(q).waits == M.Before && MarkOf(q).async == q.async && MarkOf(q).force == q.force
    ensures !MarkOf(q).aborted && !q.aborted && !q.locked && !Withdrawn(q)
  {
  }

  predicate Unsent(q: Req) {
    q.caller == Prepared && q.state == Init && !q.locked && !q.aborted && !q.interrupted
  }

  lemma QueuedMark(q: Req, q1: Req, n: int)
    requires Unsent(q) && q1 == q.(count := q1.count, caller := WaitSignal)
    ensures MarkOf(q1.(unique := n, state := Pending, qref := Listed)) ==
            MarkOf(q).(stage := M.Waiting, number := n, waits := M.First)
  {
  }

  lemma RefuseShows(s: State, r: Rid, error: int)
    requires r in s.reqs && s.reqs[r].caller == Prepared && !s.reqs[r].async
    requires if s.connected then s.connError && error == -ECONNREFUSED else error == -ENOTCONN
    ensures Shows(s, [M.Refuse(r, error)], SetReq(s, r, s.reqs[r].(error := error, caller := Returned)))
  {
    ViewAt(s, r);
    ViewFields(s);
    hide Shows, View, Marks;
    var q := s.reqs[r].(error := error, caller := Returned);
    ViewSet(s, SetReq(s, r, q), r, q);
    ShowsOne(s, M.Refuse(r, error), SetReq(s, r, q));
  }

  lemma SendShows(s: State, r: Rid, signalled: bool, fatal: bool)
    requires r in s.reqs && Unsent(s.reqs[r]) && !s.reqs[r].async && 0 <= s.reqctr <= M.LAST
    ensures Shows(s, SendEvents(s, r, signalled, fatal), DoSend(s, r, signalled, fatal))
  {
    hide Shows, View, QueueRequest, AfterSignalWait, SecondWait;
    var q := s.reqs[r].(count := s.reqs[r].count + 1, caller := WaitSignal);
    if !s.connected || s.connError {
      RefuseShows(s, r, if s.connected then -ECONNREFUSED else -ENOTCONN);
    } else if s.noInterrupt {
      DeafSendShows(s, r, q, fatal);
      assert [M.Queue(r)] + [] == [M.Queue(r)];
    } else {
      ViewFields(s);
      QueuedView(s, r, q);
      QueueShows(s, r, q);
      assert [M.Queue(r)] + [] + [] == [M.Queue(r)];
      if signalled {
        var s1 := QueueRequest(s, r, q);
        WakeSignalShows(s1, r, fatal);
        ShowsTrans(s, [M.Queue(r)], s1, SignalEvents(s1, r, fatal), AfterSignalWait(s1, r, fatal));
        assert SendEvents(s, r, signalled, fatal) == [M.Queue(r)] + SignalEvents(s1, r, fatal);
      }
    }
  }

  // ----- steps that nobody sees, and request_end -----

  lemma Unseen(s: State, s': State, r: Rid, q: Req)
    requires r in s.reqs && s'.reqs == s.reqs[r := q] && MarkOf(q) == MarkOf(s.reqs[r])
    requires s'.connected == s.connected && s'.connError == s.connError && s'.noInterrupt == s.noInterrupt
    requires s'.pending == s.pending && s'.interrupts == s.interrupts && s'.reqctr == s.reqctr
    requires s'.processing == s.processing && s'.io == s.io
    ensures Shows(s, [], s')
  {
    ViewAt(s, r);
    ViewFields(s);
    hide Shows, View, MarkOf;
    ViewSet(s, s', r, q);
    MarkAgain(View(s), r, MarkOf(q));
    ShowsNothing(s, s');
  }

  lemma SameView(s: State, s': State)
    requires s'.reqs == s.reqs && s'.connected == s.connected && s'.connError == s.connError
    requires s'.noInterrupt == s.noInterrupt
    requires s'.pending == s.pending && s'.interrupts == s.interrupts && s'.reqctr == s.reqctr
    requires s'.processing == s.processing && s'.io == s.io
    ensures View(s') == View(s) && Shows(s, [], s')
  {
    hide Shows;
    ShowsNothing(s, s');
  }

  lemma EndShows(s: State, s': State, r: Rid, q: Req, owner: Owner)
    requires r in s.reqs && s'.reqs == EndLocked(s, r, q, owner).reqs && s'.pending == Remove(s.pending, r)
    requires s'.processing == Remove(s.processing, r) && s'.io == Remove(s.io, r)
    requires s'.interrupts == Remove(s.interrupts, r) && s'.reqctr == s.reqctr
    requires s'.connected == s.connected && s'.connError == s.connError && s'.noInterrupt == s.noInterrupt
    requires MarkOf(q) == MarkOf(s.reqs[r]).(error := q.error) && s.reqs[r].state != Init
    requires M.EndsWith(View(s), MarkOf(s.reqs[r]), q.error)
    ensures Shows(s, [M.Finish(r, q.error)], s')
  {
    ViewAt(s, r);
    ViewFields(s);
    EndedMark(q, owner);
    hide Shows, View, MarkOf, M.EndsWith, Ended;
    ViewSet(s, s', r, Ended(q, owner));
    ShowsOne(s, M.Finish(r, q.error), s');
  }

  lemma EndedMark(q: Req, owner: Owner)
    ensures MarkOf(Ended(q, owner)) == MarkOf(q).(stage := M.Done)
  {
  }

  // ----- devices -----

  lemma ReadInterruptShows(s: State, r: Rid)
    requires s.connected && s.interrupts != [] && r == s.interrupts[0] && r in s.reqs && 0 <= s.reqctr <= M.LAST
    ensures Shows(s, [M.TakeInterrupt(r)], DoReadInterrupt(s, r))
  {
    ViewAt(s, r);
    ViewFields(s);
    var q := s.reqs[r].(intrUnique := NextUnique(s.reqctr));
    NumberedMark(s.reqs[r], NextUnique(s.reqctr));
    assert MarkOf(q) == MarkOf(s.reqs[r]).(intr := M.Next(s.reqctr));
    hide Shows, View, MarkOf;
    ViewSet(s, DoReadInterrupt(s, r), r, q);
    ShowsOne(s, M.TakeInterrupt(r), DoReadInterrupt(s, r));
  }

  lemma NumberedMark(q: Req, n: int)
    ensures MarkOf(q.(intrUnique := n)) == MarkOf(q).(intr := n)
  {
  }

  lemma TakeShows(s: State, t: Tid, r: Rid)
    requires s.connected && s.interrupts == [] && s.pending != [] && r == s.pending[0] && r in s.reqs
    ensures Shows(s, [M.Take(r)], TakeForReading(s, t, r))
    ensures r in TakeForReading(s, t, r).reqs && MarkOf(TakeForReading(s, t, r).reqs[r]).stage == M.Reading
    ensures MarkOf(TakeForReading(s, t, r).reqs[r]).aborted == s.reqs[r].aborted
  {
    hide Shows, View, MarkOf;
    ViewAt(s, r);
    ViewFields(s);
    var q := s.reqs[r].(state := Reading, qref := InHands(t));
    ReadMark(s.reqs[r], t);
    ViewSet(s, TakeForReading(s, t, r), r, q);
    ShowsOne(s, M.Take(r), TakeForReading(s, t, r));
  }

  lemma ReadMark(q: Req, t: Tid)
    ensures MarkOf(q.(state := Reading, qref := InHands(t))) == MarkOf(q).(stage := M.Reading)
    ensures MarkOf(q).aborted == q.aborted
  {
  }

  lemma DeviceEndShows(s: State, t: Tid, r: Rid, q: Req)
    requires r in s.reqs && MarkOf(q) == MarkOf(s.reqs[r]).(error := q.error) && s.reqs[r].state != Init
    requires M.EndsWith(View(s), MarkOf(s.reqs[r]), q.error)
    ensures Shows(s, [M.Finish(r, q.error)], DeviceEnd(s, t, r, q))
  {
    hide Shows, View, MarkOf, M.EndsWith, Ended;
    EndShows(s, DeviceEnd(s, t, r, q), r, q, Device(t));
  }

  lemma BeginReadShows(s: State, t: Tid, tooLarge: bool, setxattr: bool)
    requires s.connected && s.interrupts == [] && s.pending != [] && s.pending[0] in s.reqs
    requires !s.reqs[s.pending[0]].aborted
    ensures var r := s.pending[0];
            var more := if tooLarge then [M.Finish(r, if setxattr then -E2BIG else -EIO)] else [];
            Shows(s, [M.Take(r)] + more, DoBeginRead(s, t, tooLarge, setxattr))
  {
    hide Shows, View, DeviceEnd, TakeForReading;
    var r := s.pending[0];
    var s1 := TakeForReading(s, t, r);
    TakeShows(s, t, r);
    if tooLarge {
      var q := s1.reqs[r].(error := if setxattr then -E2BIG else -EIO);
      DeviceEndShows(s1, t, r, q);
      ShowsTrans(s, [M.Take(r)], s1, [M.Finish(r, q.error)], DeviceEnd(s1, t, r, q));
    } else {
      assert [M.Take(r)] + [] == [M.Take(r)];
    }
  }

  lemma DeliverShows(s: State, t: Tid, r: Rid)
    requires r in s.reqs && s.reqs[r].state == Reading && !s.reqs[r].aborted && s.reqs[r].isreply
    ensures Shows(s, [M.Deliver(r)], if s.reqs[r].interrupted then QueueInterrupt(MoveToProcessing(s, t, r), r)
                                     else MoveToProcessing(s, t, r))
  {
    hide Shows, View, MarkOf;
    ViewAt(s, r);
    ViewFields(s);
    var q := s.reqs[r].(locked := false, state := Sent, qref := Listed);
    SentMark(s.reqs[r]);
    var s' := if s.reqs[r].interrupted then QueueInterrupt(MoveToProcessing(s, t, r), r) else MoveToProcessing(s, t, r);
    DeliverAllowed(s.reqs[r]);
    ViewSet(s, s', r, q);
    ShowsOne(s, M.Deliver(r), s');
  }

  lemma SentMark(q: Req)
    ensures MarkOf(q.(locked := false, state := Sent, qref := Listed)) == MarkOf(q).(stage := M.Sent)
  {
  }

  lemma DeliverAllowed(q: Req)
    requires q.state == Reading
    ensures MarkOf(q).stage == M.Reading && MarkOf(q).aborted == q.aborted && MarkOf(q).isreply == q.isreply
    ensures MarkOf(q).interrupted == q.interrupted && MarkOf(q).error == q.error
  {
  }

  lemma UnlockedMark(q: Req, error: int)
    ensures MarkOf(q.(locked := false)) == MarkOf(q)
            && MarkOf(q.(locked := false, error := error)) == MarkOf(q).(error := error)
  {
  }

  lemma ReadFinalShows(s: State, t: Tid, r: Rid, err: bool)
    requires r in s.reqs && (s.reqs[r].state == Reading || (s.reqs[r].state == Finished && s.reqs[r].aborted))
    requires !s.reqs[r].aborted ==> s.reqs[r].error == 0
    ensures Shows(s, ReadEvents(s.reqs[r], r, err), DoReadFinal(s, t, r, err))
  {
    var q := s.reqs[r].(locked := false);
    UnlockedMark(s.reqs[r], -EIO);
    if s.reqs[r].state == Reading { DeliverAllowed(s.reqs[r]); } else { DoneMark(s.reqs[r]); }
    hide Shows, View, MarkOf, DeviceEnd, MoveToProcessing;
    if q.aborted {
      DeviceEndShows(s, t, r, q);
    } else if err {
      DeviceEndShows(s, t, r, q.(error := -EIO));
    } else if !q.isreply {
      DeviceEndShows(s, t, r, q);
    } else {
      DeliverShows(s, t, r);
    }
  }

  lemma DoneMark(q: Req)
    requires q.state == Finished
    ensures MarkOf(q).stage == M.Done && MarkOf(q).aborted == q.aborted && MarkOf(q).error == q.error
  {
  }

  lemma AnswerShows(s: State, t: Tid, r: Rid, m: Message)
    requires r in s.reqs && s.reqs[r].state == Sent && !s.reqs[r].aborted && s.connected && WellFormedReply(m)
    ensures Shows(s, [M.Answer(r, m.error)], TakeForWriting(s, t, r, m))
  {
    ViewAt(s, r);
    ViewFields(s);
    TakenMark(s.reqs[r], t, m);
    hide Shows, View, MarkOf, FitsRequest, Taken;
    ViewSet(s, TakeForWriting(s, t, r, m), r, Taken(s.reqs[r], t, m));
    ShowsOne(s, M.Answer(r, m.error), TakeForWriting(s, t, r, m));
  }

  lemma TakenMark(q: Req, t: Tid, m: Message)
    requires q.state == Sent
    ensures MarkOf(Taken(q, t, m)) == MarkOf(q).(stage := M.Writing, error := m.error)
    ensures MarkOf(q).stage == M.Sent && MarkOf(q).aborted == q.aborted && MarkOf(q).intr == q.intrUnique
  {
  }

  lemma AgainShows(s: State, r: Rid)
    requires r in s.reqs && s.reqs[r].state == Sent && !s.reqs[r].aborted && s.connected
    requires s.reqs[r].intrUnique != 0 && r !in s.interrupts
    ensures Shows(s, [M.Again(r)], QueueInterrupt(s, r))
  {
    ViewAt(s, r);
    ViewFields(s);
    ViewFields(QueueInterrupt(s, r));
    SameMarks(s, QueueInterrupt(s, r));
    TakenMark(s.reqs[r], 0, Message(0, 0, 0, []));
    hide Shows, View, MarkOf;
    ShowsOne(s, M.Again(r), QueueInterrupt(s, r));
  }

  lemma SameMarks(s: State, s': State)
    requires s'.reqs == s.reqs
    ensures View(s').marks == View(s).marks
  {
    hide Marks;
  }

  lemma DeafShows(s: State)
    requires s.connected
    ensures Shows(s, [M.Deaf], s.(noInterrupt := true))
  {
    hide Shows, Marks;
    ShowsOne(s, M.Deaf, s.(noInterrupt := true));
  }

  lemma WindowShows(s: State, t: Tid, r: Rid)
    requires r in s.reqs && s.reqs[r].state == Sent
    ensures Shows(s, [], EnterWindow(s, t, r))
  {
    hide Shows;
    Unseen(s, EnterWindow(s, t, r), r, s.reqs[r].(window := Some(t)));
  }

  lemma BeginWriteShows(s: State, t: Tid, m: Message)
    requires s.connected && WellFormedReply(m) && Disciplined(s, BeginWrite(t, m))
    requires var found := Find(s.processing, s.reqs, m.unique); found.Some? ==> s.reqs[found.value].state == Sent
    ensures Shows(s, ReplyEvents(s, m), DoBeginWrite(s, t, m))
  {
    hide Shows, View, Find, EnterWindow, TakeForWriting, NoWindow;
    ShowsNothing(s, s);
    var found := Find(s.processing, s.reqs, m.unique);
    if found.Some? {
      var r := found.value;
      if s.reqs[r].aborted {
        WindowShows(s, t, r);
      } else if s.reqs[r].intrUnique != m.unique {
        AnswerShows(s, t, r, m);
      } else if m.Bytes() == OUT_HEADER {
        DeafShows(s);
        if m.error == -EAGAIN { AgainShows(s, r); }
      }
    }
  }

  lemma WriteFinalShows(s: State, t: Tid, r: Rid, m: Message, err: bool)
    requires r in s.reqs && (s.reqs[r].state == Writing || (s.reqs[r].state == Finished && s.reqs[r].aborted))
    ensures Shows(s, [M.Finish(r, if err && !s.reqs[r].aborted then -EIO else s.reqs[r].error)],
                  DoWriteFinal(s, t, r, m, err))
  {
    ResultMark(s.reqs[r], m, err);
    if s.reqs[r].state == Finished { DoneMark(s.reqs[r]); }
    hide Shows, View, MarkOf, DeviceEnd, WriteResult;
    DeviceEndShows(s, t, r, WriteResult(s.reqs[r], m, err));
  }

  lemma ResultMark(q: Req, m: Message, err: bool)
    ensures var q1 := WriteResult(q, m, err);
            && q1.error == (if err && !q.aborted then -EIO else q.error)
            && MarkOf(q1) == MarkOf(q).(error := q1.error)
    ensures q.state == Writing ==> MarkOf(q).stage == M.Writing
    ensures MarkOf(q).error == q.error && MarkOf(q).aborted == q.aborted
  {
    hide MarkOf;
    var e := if err && !q.aborted then -EIO else q.error;
    OutcomeMark(q, e, Accepted(m));
    OutcomeMark(q, e, Rejected);
    WritingMark(q);
  }

  lemma WritingMark(q: Req)
    ensures q.state == Writing ==> MarkOf(q).stage == M.Writing
    ensures MarkOf(q).error == q.error && MarkOf(q).aborted == q.aborted
  {
  }

  lemma OutcomeMark(q: Req, error: int, outcome: Outcome)
    ensures MarkOf(q.(locked := false, error := error, outcome := outcome)) == MarkOf(q).(error := error)
    ensures error == q.error ==> MarkOf(q.(locked := false, outcome := outcome)) == MarkOf(q).(error := error)
  {
  }

  lemma WindowEndShows(s: State, t: Tid, r: Rid)
    requires r in s.reqs && s.reqs[r].state == Sent && s.reqs[r].aborted
    ensures Shows(s, [M.Finish(r, s.reqs[r].error)], DeviceEnd(s, t, r, s.reqs[r].(outcome := Rejected)))
  {
    var q := s.reqs[r].(outcome := Rejected);
    assert MarkOf(q) == MarkOf(s.reqs[r]).(error := q.error);
    TakenMark(s.reqs[r], t, Message(0, 0, 0, []));
    hide Shows, View, DeviceEnd, MarkOf;
    DeviceEndShows(s, t, r, q);
  }

  lemma TailShows(s: State, s': State, r: Rid, owes: bool)
    requires r in s.reqs && s.reqs[r].state != Pending && s'.reqs == s.reqs[r := EndTailed(s.reqs[r], owes)]
    requires s'.connected == s.connected && s'.connError == s.connError && s'.noInterrupt == s.noInterrupt
    requires s'.pending == s.pending && s'.interrupts == s.interrupts && s'.reqctr == s.reqctr
    requires s'.processing == s.processing && s'.io == s.io
    ensures Shows(s, [], s')
  {
    TailedMark(s.reqs[r], owes);
    hide Shows, MarkOf, EndTailed;
    Unseen(s, s', r, EndTailed(s.reqs[r], owes));
  }

  lemma TailedMark(q: Req, owes: bool)
    requires q.state != Pending
    ensures MarkOf(EndTailed(q, owes)) == MarkOf(q)
  {
  }

  /** A page is locked, copied or unlocked. */
  lemma PageShows(s: State, a: Step)
    requires Enabled(s, a)
    requires a.ReadLockPage? || a.ReadUnlockPage? || a.ReadCopied? || a.WriteCopy? || a.WriteUnlockPage?
             || a.WriteLockPage? || a.WriteCopied?
    ensures Shows(s, [], ApplyDevice(s, a))
  {
    hide Shows, DoReadLockPage, DoWriteLockPage, DoWriteCopy, DeviceStep, SetDev, MarkOf, View;
    var d := DevOf(s, a.t);
    match a
    case ReadLockPage(t, fault) => ReadLockShows(s, t, d.r, fault);
    case ReadUnlockPage(t) => UnlockShows(s, t, d.r, ReadUnlocked(d.r));
    case ReadCopied(t) => CopiedShows(s, t, ReadDone(d.r, false));
    case WriteCopy(t, n) => CopyShows(s, t, d.r, d.m, d.copied, n);
    case WriteUnlockPage(t) => UnlockShows(s, t, d.r, WriteUnlocked(d.r, d.m, d.copied));
    case WriteLockPage(t, fault) => WriteLockShows(s, t, d.r, d.m, d.copied, fault);
    case WriteCopied(t) => CopiedShows(s, t, WriteDone(d.r, d.m, false));
  }

  lemma CopiedShows(s: State, t: Tid, d: Dev)
    ensures Shows(s, [], SetDev(s, t, d))
  {
    hide Shows;
    SameView(s, SetDev(s, t, d));
  }

  lemma UnlockShows(s: State, t: Tid, r: Rid, d: Dev)
    requires r in s.reqs && !d.Idle? && d.r == r
    ensures Shows(s, [], DeviceStep(s, t, s.reqs[r].(locked := false), d))
  {
    PageMark(s.reqs[r], false);
    hide Shows, MarkOf;
    Unseen(s, DeviceStep(s, t, s.reqs[r].(locked := false), d), r, s.reqs[r].(locked := false));
  }

  lemma PageMark(q: Req, locked: bool)
    ensures MarkOf(q.(locked := locked)) == MarkOf(q)
  {
  }

  lemma DataMark(q: Req, data: seq<int>)
    ensures MarkOf(q.(data := data)) == MarkOf(q)
  {
  }

  lemma LockShows(s: State, t: Tid, r: Rid, fault: bool, s': State)
    requires r in s.reqs && s' == s.(reqs := s'.reqs, devs := s'.devs)
    requires s'.reqs == if fault || s.reqs[r].aborted then s.reqs else s.reqs[r := s.reqs[r].(locked := true)]
    ensures Shows(s, [], s')
  {
    PageMark(s.reqs[r], true);
    hide Shows, MarkOf;
    if fault || s.reqs[r].aborted { SameView(s, s'); } else { Unseen(s, s', r, s.reqs[r].(locked := true)); }
  }

  lemma ReadLockShows(s: State, t: Tid, r: Rid, fault: bool)
    requires r in s.reqs
    ensures Shows(s, [], DoReadLockPage(s, t, r, fault))
  {
    hide Shows;
    LockShows(s, t, r, fault, DoReadLockPage(s, t, r, fault));
  }

  lemma WriteLockShows(s: State, t: Tid, r: Rid, m: Message, copied: int, fault: bool)
    requires r in s.reqs
    ensures Shows(s, [], DoWriteLockPage(s, t, r, m, copied, fault))
  {
    hide Shows;
    LockShows(s, t, r, fault, DoWriteLockPage(s, t, r, m, copied, fault));
  }

  lemma CopyShows(s: State, t: Tid, r: Rid, m: Message, copied: int, n: int)
    requires r in s.reqs && 0 <= copied <= copied + n <= |m.payload|
    ensures Shows(s, [], DoWriteCopy(s, t, r, m, copied, n))
  {
    var data := s.reqs[r].data + m.payload[copied..copied + n];
    DataMark(s.reqs[r], data);
    hide Shows, MarkOf;
    Unseen(s, DoWriteCopy(s, t, r, m, copied, n), r, s.reqs[r].(data := data));
  }

  // ----- aborts -----

  lemma DownShows(s: State, s': State)
    requires s'.reqs == s.reqs && !s'.connected && s'.connError == s.connError && s'.noInterrupt == s.noInterrupt
    requires s'.pending == s.pending && s'.interrupts == s.interrupts && s'.reqctr == s.reqctr
    requires s'.processing == s.processing && s'.io == s.io
    ensures Shows(s, [M.Down], s')
  {
    SameMarks(s, s');
    ViewFields(s);
    ViewFields(s');
    hide Shows, View;
    ShowsOne(s, M.Down, s');
  }

  lemma AbandonShows(s: State, t: Tid, r: Rid)
    requires s.io != [] && r == s.io[0] && r in s.reqs && !s.connected
    requires s.reqs[r].state == Reading || s.reqs[r].state == Writing
    ensures Shows(s, [M.Abandon(r)], DoAbortIo(s, t))
  {
    ViewAt(s, r);
    ViewFields(s);
    AbandonedMark(s.reqs[r], t);
    hide Shows, View, MarkOf, AbortedIo;
    ViewSet(s, DoAbortIo(s, t), r, AbortedIo(s.reqs[r], t));
    ShowsOne(s, M.Abandon(r), DoAbortIo(s, t));
  }

  lemma AbandonedMark(q: Req, t: Tid)
    requires q.state == Reading || q.state == Writing
    ensures MarkOf(AbortedIo(q, t)) == MarkOf(q).(stage := M.Done, aborted := true, error := -ECONNABORTED)
    ensures MarkOf(q).stage == M.Reading || MarkOf(q).stage == M.Writing
  {
  }

  lemma ListEndShows(s: State, t: Tid, list: seq<Rid>, phase: Phase)
    requires list != [] && list[0] in s.reqs && !s.connected
    requires (s.reqs[list[0]].state == Pending && !Withdrawn(s.reqs[list[0]])) || s.reqs[list[0]].state == Sent
    ensures Shows(s, [M.Finish(list[0], -ECONNABORTED)], DoEndRequests(s, t, list, phase))
  {
    var r := list[0];
    var q := s.reqs[r].(error := -ECONNABORTED);
    ListedMark(s.reqs[r]);
    ViewFields(s);
    hide Shows, View, MarkOf, Withdrawn, Ended;
    ListEnded(s, t, list, phase);
    EndShows(s, DoEndRequests(s, t, list, phase), r, q, Aborter(t));
  }

  lemma ListEnded(s: State, t: Tid, list: seq<Rid>, phase: Phase)
    requires list != [] && list[0] in s.reqs
    ensures var r, s' := list[0], DoEndRequests(s, t, list, phase);
            && s'.reqs == EndLocked(s, r, s.reqs[r].(error := -ECONNABORTED), Aborter(t)).reqs
            && s'.pending == Remove(s.pending, r) && s'.processing == Remove(s.processing, r)
            && s'.io == Remove(s.io, r) && s'.interrupts == Remove(s.interrupts, r) && s'.reqctr == s.reqctr
            && s'.connected == s.connected && s'.connError == s.connError && s'.noInterrupt == s.noInterrupt
  {
    hide Remove, Ended;
  }

  lemma ListedMark(q: Req)
    requires (q.state == Pending && !Withdrawn(q)) || q.state == Sent
    ensures MarkOf(q.(error := -ECONNABORTED)) == MarkOf(q).(error := -ECONNABORTED)
    ensures MarkOf(q).stage == M.Waiting || MarkOf(q).stage == M.Sent
  {
  }

  lemma AbortCallbackShows(s: State, t: Tid, r: Rid)
    requires r in s.reqs
    ensures Shows(s, [], DoAbortCallback(s, t, r))
  {
    var q := Put(s.reqs[r].(callbacks := s.reqs[r].callbacks + 1, cbRef := None));
    assert MarkOf(q) == MarkOf(s.reqs[r]);
    hide Shows, MarkOf, Put;
    Unseen(s, DoAbortCallback(s, t, r), r, q);
  }

  // ----- every step -----

  lemma NewShows(s: State, r: Rid, q: Req)
    requires r !in s.reqs && MarkOf(q) == M.Mark(M.Fresh, M.Before, q.async, q.force, q.isreply, 0, 0, false, false, 0)
    ensures Shows(s, [M.New(r, q.async, q.force, q.isreply)], SetReq(s, r, q))
  {
    ViewFields(s);
    assert r !in View(s).marks;
    hide Shows, View, MarkOf;
    ViewSet(s, SetReq(s, r, q), r, q);
    ShowsOne(s, M.New(r, q.async, q.force, q.isreply), SetReq(s, r, q));
  }

  lemma FailShows(s: State, r: Rid, q: Req)
    requires r in s.reqs && !s.connected && s.reqs[r].caller == Prepared && s.reqs[r].async
    requires q == s.reqs[r].(error := -ENOTCONN, caller := Released)
    ensures Shows(s, [M.Fail(r)], EndLocked(s, r, q, Sender))
  {
    ViewAt(s, r);
    ViewFields(s);
    FailedMark(s.reqs[r], q);
    hide Shows, View, MarkOf, Ended;
    ViewSet(s, EndLocked(s, r, q, Sender), r, Ended(q, Sender));
    ShowsOne(s, M.Fail(r), EndLocked(s, r, q, Sender));
  }

  lemma FailedMark(q: Req, q1: Req)
    requires q.caller == Prepared && q1 == q.(error := -ENOTCONN, caller := Released)
    ensures MarkOf(Ended(q1, Sender)) == MarkOf(q).(stage := M.Done, waits := M.Over, error := -ENOTCONN)
    ensures MarkOf(q).waits == M.Before && MarkOf(q).async == q.async
  {
  }

  lemma SendNoWaitShows(s: State, r: Rid)
    requires r in s.reqs && s.reqs[r].caller == Prepared && s.reqs[r].async && 0 <= s.reqctr <= M.LAST
    ensures Shows(s, if s.connected then [M.Queue(r)] else [M.Fail(r)], DoSendNoWait(s, r))
  {
    hide Shows, View, QueueRequest, EndLocked, WaitsOf, M.FirstWait, MarkOf;
    if s.connected {
      var s1 := s.(numBackground := s.numBackground + 1,
                   blocked := if s.numBackground + 1 == FUSE_MAX_BACKGROUND then true else s.blocked);
      SameView(s, s1);
      var q := s.reqs[r].(background := true, caller := Released);
      BackgroundWaits(s1, s.reqs[r], q);
      QueueShows(s1, r, q);
      ShowsFrom(s, s1, [M.Queue(r)], DoSendNoWait(s, r));
    } else {
      FailShows(s, r, s.reqs[r].(error := -ENOTCONN, caller := Released));
    }
  }

  lemma BackgroundWaits(s: State, q: Req, q1: Req)
    requires q.async && q1 == q.(background := true, caller := Released)
    ensures WaitsOf(q1) == M.FirstWait(View(s), MarkOf(q))
    ensures q1 == q.(count := q1.count, background := q1.background, caller := q1.caller)
  {
    hide Marks;
  }

  lemma ShowsFrom(s: State, s1: State, es: seq<M.Event>, s': State)
    requires View(s1) == View(s) && Shows(s1, es, s')
    ensures Shows(s, es, s')
  {
    hide View;
  }

  lemma CallerFacts(s: State, r: Rid)
    requires Inv(s) && r in s.reqs
    ensures var q := s.reqs[r];
            && (q.caller == Prepared ==> Unsent(q))
            && (q.caller in {WaitSignal, WaitFatal, WaitForced, WaitUnlocked} ==> q.state != Init && !Withdrawn(q))
            && (q.caller == WaitUnlocked ==> q.state != Pending)
            && (q.state == Pending ==> !q.locked)
            && (q.qref.Tail? ==> q.state == Finished)
  {
    hide Inv;
    ReqFacts(s, r);
  }

  lemma WaitingFacts(s: State, r: Rid)
    requires Inv(s) && M.Placed(View(s)) && r in s.reqs && s.reqs[r].caller in {WaitSignal, WaitFatal}
    ensures Attending(s.reqs[r])
  {
    ViewAt(s, r);
    hide Inv, View;
    CallerFacts(s, r);
    M.PlacedFacts(View(s), r);
    hide M.Placed;
  }

  lemma PutShows(s: State, r: Rid)
    requires r in s.reqs && s.reqs[r].caller == Returned
    ensures Shows(s, [], DoCallerPut(s, r))
  {
    var q := Put(s.reqs[r]).(caller := Released);
    assert MarkOf(q) == MarkOf(s.reqs[r]);
    hide Shows, MarkOf, Put;
    Unseen(s, DoCallerPut(s, r), r, q);
  }

  lemma OverShows(s: State, r: Rid, c: Caller)
    requires r in s.reqs && WaitsOf(s.reqs[r]) == M.Over && WaitsAt(c) == M.Over
    ensures Shows(s, [], MoveCaller(s, r, c))
  {
    var q := s.reqs[r].(caller := c);
    assert MarkOf(q) == MarkOf(s.reqs[r]);
    hide Shows, MarkOf;
    Unseen(s, MoveCaller(s, r, c), r, q);
  }

  lemma ForcedShows(s: State, r: Rid)
    requires r in s.reqs && s.reqs[r].caller == WaitForced && s.reqs[r].state == Finished
    ensures Shows(s, [], AfterFatalWait(s, r))
  {
    hide Shows, AbortedTail;
    if s.reqs[r].aborted { TailUnseen(s, r); } else { OverShows(s, r, Returned); }
  }

  lemma CallerShows(s: State, a: Step)
    requires Inv(s) && M.Placed(View(s)) && Enabled(s, a) && !DeviceStepKind(a) && !AbortStepKind(a)
    ensures Shows(s, CallerEvents(s, a), ApplyCaller(s, a))
  {
    hide Inv, Shows, View, DoSend, DoSendNoWait, DoUnsentTail, DoCallerPut, AfterSignalWait, AfterFatalWait,
         AbortedTail, WithdrawOrWait, MoveCaller, NewRequest, Unsent, Withdrawn, SignalEvents, FatalEvents, SendEvents,
         M.Placed, Attending;
    CounterInRange(s);
    match a
    case Prepare(r, async, isreply, force, hasEnd, argvar, outSize, lastSize) =>
      var q := NewRequest(async, isreply, force, hasEnd, argvar, outSize, lastSize);
      NewMark(async, isreply, force, hasEnd, argvar, outSize, lastSize);
      NewShows(s, r, q);
    case SetConnError => RefusingShows(s);
    case Send(r, signalled, fatal) => CallerFacts(s, r); SendShows(s, r, signalled, fatal);
    case WakeSignal(r, fatal) => WaitingFacts(s, r); WakeSignalShows(s, r, fatal);
    case WakeFatal(r) => WaitingFacts(s, r); FatalShows(s, r);
    case WakeForced(r) => ForcedShows(s, r);
    case WakeUnlocked(r) => CallerFacts(s, r); TailUnseen(s, r); NotLocked(s, r);
    case WakeFinished(r) => OverShows(s, r, Returned);
    case CallerPut(r) => PutShows(s, r);
    case SendNoWait(r) => SendNoWaitShows(s, r);
    case UnsentTail(r) => CallerFacts(s, r); UnsentShows(s, r, s.reqs[r].qref.owes);
  }

  lemma NotLocked(s: State, r: Rid)
    requires r in s.reqs && !s.reqs[r].locked
    ensures AbortedTail(s, r) == WithdrawOrWait(s, r)
  {
  }

  lemma NewMark(async: bool, isreply: bool, force: bool, hasEnd: bool, argvar: bool, outSize: int, lastSize: int)
    ensures var q := NewRequest(async, isreply, force, hasEnd, argvar, outSize, lastSize);
            && MarkOf(q) == M.Mark(M.Fresh, M.Before, async, force, isreply, 0, 0, false, false, 0)
            && q.async == async && q.force == force && q.isreply == isreply
  {
  }

  lemma RefusingShows(s: State)
    ensures Shows(s, [M.Refusing], s.(connError := true))
  {
    hide Shows, Marks;
    ShowsOne(s, M.Refusing, s.(connError := true));
  }

  lemma UnsentShows(s: State, r: Rid, owes: bool)
    requires r in s.reqs && s.reqs[r].state == Finished
    ensures Shows(s, [], DoUnsentTail(s, r, owes))
  {
    hide Shows, EndTailed;
    TailShows(s, DoUnsentTail(s, r, owes), r, owes);
  }

  lemma DeviceTailShows(s: State, t: Tid, r: Rid, owes: bool)
    requires r in s.reqs && s.reqs[r].state == Finished
    ensures Shows(s, [], DoDeviceTail(s, t, r, owes))
  {
    hide Shows, EndTailed;
    TailShows(s, DoDeviceTail(s, t, r, owes), r, owes);
  }

  lemma AfterTailShows(s: State, t: Tid, r: Rid, owes: bool, p: Phase)
    requires r in s.reqs && s.reqs[r].state == Finished
    ensures Shows(s, [], AfterTail(s, t, r, owes, p))
  {
    hide Shows, EndTailed;
    TailShows(s, AfterTail(s, t, r, owes, p), r, owes);
  }

  /** What a device thread has in its hands. */
  lemma HandsFacts(s: State, t: Tid)
    requires Inv(s) && !DevOf(s, t).Idle?
    ensures var d := DevOf(s, t);
            && d.r in s.reqs
            && var q := s.reqs[d.r];
            && (d.ReadDone? ==> q.state == Reading || (q.state == Finished && q.aborted))
            && (d.WriteDone? ==> q.state == Writing || (q.state == Finished && q.aborted))
            && (d.WriteWindow? ==> q.state == Sent && q.aborted)
            && (d.Ending? ==> q.state == Finished)
  {
    hide Inv, WritingOk, FitsRequest;
    DeviceFacts(s, t);
    ReqFacts(s, DevOf(s, t).r);
  }

  /** fuse_dev_readv. */
  lemma ReadStepShows(s: State, a: Step)
    requires Inv(s) && M.Placed(View(s)) && Enabled(s, a) && (a.ReadInterrupt? || a.BeginRead? || a.ReadFinal?)
    ensures Shows(s, DeviceEvents(s, a), ApplyDevice(s, a))
  {
    hide Inv, Shows, View, M.Placed, DoReadInterrupt, DoBeginRead, DoReadFinal, ReadEvents;
    match a
    case ReadInterrupt(t) => CounterInRange(s); ReadInterruptShows(s, s.interrupts[0]);
    case BeginRead(t, tooLarge, setxattr) =>
      PendingFacts(s, s.pending[0]);
      BeginReadShows(s, t, tooLarge, setxattr);
    case ReadFinal(t) =>
      HandsFacts(s, t);
      NoErrorYet(s, DevOf(s, t).r);
      ReadFinalShows(s, t, DevOf(s, t).r, DevOf(s, t).err);
  }

  /** fuse_dev_writev, and the rest of request_end. */
  lemma WriteStepShows(s: State, a: Step)
    requires Inv(s) && Enabled(s, a) && (a.BeginWrite? || a.WriteFinal? || a.WindowEnd? || a.DeviceTail?)
    requires Disciplined(s, a)
    ensures Shows(s, DeviceEvents(s, a), ApplyDevice(s, a))
  {
    hide Inv, Shows, View, Disciplined, DoBeginWrite, DoWriteFinal, DeviceEnd, DoDeviceTail, ReplyEvents;
    match a
    case BeginWrite(t, m) => FoundFacts(s, m); BeginWriteShows(s, t, m);
    case WriteFinal(t) => HandsFacts(s, t); WriteFinalShows(s, t, DevOf(s, t).r, DevOf(s, t).m, DevOf(s, t).err);
    case WindowEnd(t) => HandsFacts(s, t); WindowEndShows(s, t, DevOf(s, t).r);
    case DeviceTail(t) => HandsFacts(s, t); DeviceTailShows(s, t, DevOf(s, t).r, DevOf(s, t).owes);
  }

  lemma DeviceShows(s: State, a: Step)
    requires Inv(s) && M.Placed(View(s)) && Enabled(s, a) && DeviceStepKind(a) && Disciplined(s, a)
    ensures Shows(s, DeviceEvents(s, a), ApplyDevice(s, a))
  {
    hide Inv, Shows, View, M.Placed, Disciplined, Enabled, ApplyDevice, ReadEvents, ReplyEvents;
    if a.ReadInterrupt? || a.BeginRead? || a.ReadFinal? {
      ReadStepShows(s, a);
    } else if a.BeginWrite? || a.WriteFinal? || a.WindowEnd? || a.DeviceTail? {
      WriteStepShows(s, a);
    } else {
      PageShows(s, a);
    }
  }

  lemma CounterInRange(s: State)
    requires M.Placed(View(s))
    ensures 0 <= s.reqctr <= M.LAST
  {
    hide Marks, M.MarkOk;
  }

  lemma PendingFacts(s: State, r: Rid)
    requires M.Placed(View(s)) && r in s.reqs && r in s.pending
    ensures !s.reqs[r].aborted
  {
    ViewAt(s, r);
    ViewFields(s);
    hide View;
    M.PlacedFacts(View(s), r);
    hide M.Placed;
  }

  lemma FoundFacts(s: State, m: Message)
    requires Inv(s)
    ensures var found := Find(s.processing, s.reqs, m.unique); found.Some? ==> s.reqs[found.value].state == Sent
  {
    hide Inv;
    var found := Find(s.processing, s.reqs, m.unique);
    if found.Some? { SentFacts(s, found.value); }
  }

  lemma NoErrorYet(s: State, r: Rid)
    requires M.Placed(View(s)) && r in s.reqs
    ensures s.reqs[r].state == Reading && !s.reqs[r].aborted ==> s.reqs[r].error == 0
  {
    ViewAt(s, r);
    hide View;
    M.PlacedFacts(View(s), r);
    hide M.Placed;
  }

  /** What an aborting thread finds. */
  lemma WalkFacts(s: State, t: Tid, r: Rid)
    requires Inv(s) && AbortOf(s, t).Holding? && r in s.reqs
    ensures !s.connected
    ensures r in s.io ==> s.reqs[r].state == Reading || s.reqs[r].state == Writing
    ensures r in s.pending ==> s.reqs[r].state == Pending && !Withdrawn(s.reqs[r])
    ensures r in s.processing ==> s.reqs[r].state == Sent
  {
    hide Inv, ReqOk, Lists, Threads, Background, Held, Withdrawn;
    Parts(s);
    assert Cleared(s, Stage(AbortOf(s, t)));
    PlacementOf(s.reqs[r], r in s.pending, r in s.processing, r in s.io, r in s.interrupts);
  }

  lemma TailFinished(s: State, t: Tid)
    requires Inv(s) && AbortOf(s, t).EndTail?
    ensures AbortOf(s, t).r in s.reqs && s.reqs[AbortOf(s, t).r].state == Finished
  {
    hide Inv, ReqOk, Lists, Background, Held, DevOk;
    Parts(s);
    CallerFacts(s, AbortOf(s, t).r);
  }

  lemma IoShows(s: State, t: Tid)
    requires Inv(s) && Enabled(s, AbortIo(t))
    ensures Shows(s, if s.io == [] then [] else [M.Abandon(s.io[0])], DoAbortIo(s, t))
  {
    hide Inv, Shows, Withdrawn, AbortedIo;
    if s.io == [] {
      SameView(s, DoAbortIo(s, t));
    } else {
      WalkFacts(s, t, s.io[0]);
      AbandonShows(s, t, s.io[0]);
    }
  }

  lemma WalkShows(s: State, t: Tid, list: seq<Rid>, phase: Phase)
    requires Inv(s) && AbortOf(s, t) == Holding(phase) && (list == [] || list[0] in s.reqs)
    requires list == s.pending || list == s.processing
    ensures Shows(s, if list == [] then [] else [M.Finish(list[0], -ECONNABORTED)], DoEndRequests(s, t, list, phase))
  {
    hide Inv, Shows, Withdrawn, EndLocked;
    if list == [] {
      SameView(s, DoEndRequests(s, t, list, phase));
    } else {
      assert list[0] in s.pending || list[0] in s.processing;
      WalkFacts(s, t, list[0]);
      ListEndShows(s, t, list, phase);
    }
  }

  lemma WalkStepShows(s: State, a: Step)
    requires Inv(s) && Enabled(s, a) && (a.AbortIo? || a.AbortCallback? || a.EndRequests? || a.AbortTail?)
    ensures Shows(s, AbortEvents(s, a), ApplyAbort(s, a))
  {
    hide Inv, Shows, View, DoAbortIo, DoAbortCallback, DoEndRequests, AfterTail;
    match a
    case AbortIo(t) => IoShows(s, t);
    case AbortCallback(t) => AbortCallbackShows(s, t, AbortOf(s, t).r);
    case EndRequests(t) =>
      var phase := AbortOf(s, t).phase;
      WalkShows(s, t, if phase == PendingPhase then s.pending else s.processing, phase);
    case AbortTail(t) =>
      TailFinished(s, t);
      AfterTailShows(s, t, AbortOf(s, t).r, AbortOf(s, t).owes, AbortOf(s, t).phase);
  }

  lemma AbortShows(s: State, a: Step)
    requires Inv(s) && Enabled(s, a) && AbortStepKind(a)
    ensures Shows(s, AbortEvents(s, a), ApplyAbort(s, a))
  {
    hide Inv, Shows, View;
    match a
    case AbortStart(t) => DownShows(s, DoAbortStart(s, t));
    case ReleaseStart(t) => DownShows(s, DoReleaseStart(s, t));
    case AbortRelock(t) => SameView(s, DoRelock(s, t, AbortOf(s, t).phase));
    case LateAbort(t) => ShowsNothing(s, s);
    case _ => WalkStepShows(s, a);
  }

  lemma StepShows(s: State, a: Step)
    requires Inv(s) && M.Placed(View(s)) && Enabled(s, a) && Disciplined(s, a)
    ensures Shows(s, Events(s, a), Apply(s, a))
  {
    hide Inv, Shows, View, M.Placed, Enabled, Disciplined, CallerEvents, DeviceEvents, AbortEvents, ApplyCaller,
         ApplyDevice, ApplyAbort;
    if DeviceStepKind(a) {
      DeviceShows(s, a);
    } else if AbortStepKind(a) {
      AbortShows(s, a);
    } else {
      CallerShows(s, a);
    }
  }

  /** What the two sides see of a run. */
  ghost function Trace(s: State, steps: seq<Step>): seq<M.Event>
    requires DisciplinedRun(s, steps)
    decreases |steps|
  {
    if steps == [] then [] else Events(s, steps[0]) + Trace(Apply(s, steps[0]), steps[1..])
  }

  lemma {:induction false} TraceShows(s: State, steps: seq<Step>)
    requires Inv(s) && M.Placed(View(s)) && DisciplinedRun(s, steps)
    ensures Shows(s, Trace(s, steps), Reach(s, steps)) && M.Placed(View(Reach(s, steps)))
    decreases |steps|
  {
    hide Inv, Shows, View, M.Placed, Enabled, Disciplined, Apply, Events;
    if steps == [] {
      ShowsNothing(s, s);
    } else {
      var s1 := Apply(s, steps[0]);
      StepKeeps(s, steps[0]);
      StepShows(s, steps[0]);
      ShowsPlaced(s, Events(s, steps[0]), s1);
      TraceShows(s1, steps[1..]);
      ShowsTrans(s, Events(s, steps[0]), s1, Trace(s1, steps[1..]), Reach(s1, steps[1..]));
    }
  }

  lemma ShowsPlaced(s: State, es: seq<M.Event>, s': State)
    requires Shows(s, es, s') && M.Placed(View(s))
    ensures M.Placed(View(s'))
  {
    hide View, M.Placed;
    M.RunPlaced(View(s), es);
  }

  lemma InitialView(s: State)
    requires Initial(s)
    ensures Inv(s) && M.Empty(View(s)) && M.Placed(View(s)) && M.Distinct(View(s), 0)
  {
    InitialInv(s);
    M.EmptyPlaced(View(s));
    hide Inv;
  }

  // ----- what follows for the device -----

  /** A run of the device is a run of the two sides, event for event. */
  lemma Refines(s: State, steps: seq<Step>)
    requires Initial(s) && DisciplinedRun(s, steps)
    ensures M.Empty(View(s)) && M.Follows(View(s), Trace(s, steps))
    ensures M.DoAll(View(s), Trace(s, steps)) == View(Reach(s, steps)) && M.Placed(View(Reach(s, steps)))
  {
    InitialView(s);
    hide Inv, View, M.Placed, M.Empty, M.Distinct, Trace, Reach, DisciplinedRun;
    TraceShows(s, steps);
  }

  lemma ReachMark(s: State, steps: seq<Step>, r: Rid)
    requires Initial(s) && DisciplinedRun(s, steps) && r in Reach(s, steps).reqs
    ensures var z := Reach(s, steps);
            r in View(z).marks && View(z).marks[r] == MarkOf(z.reqs[r]) && M.MarkOk(View(z), r)
  {
    hide View, MarkOf, M.Placed, M.MarkOk, Reach, DisciplinedRun;
    Refines(s, steps);
    ViewAt(Reach(s, steps), r);
    M.PlacedFacts(View(Reach(s, steps)), r);
  }

  /** The interrupt of a request that the daemon has is queued, or the daemon has
      taken it, whether the signal came before or after the request was read. */
  lemma InterruptsReachDaemon(s: State, steps: seq<Step>, r: Rid)
    requires Initial(s) && DisciplinedRun(s, steps) && r in Reach(s, steps).reqs
    ensures var z := Reach(s, steps);
            z.reqs[r].state == Sent && z.reqs[r].interrupted ==> r in z.interrupts || z.reqs[r].intrUnique != 0
  {
    ReachMark(s, steps, r);
    ViewFields(Reach(s, steps));
    hide View, Reach, DisciplinedRun;
  }

  /** Every request on a list has a number. */
  lemma NumbersGiven(s: State, steps: seq<Step>, r: Rid)
    requires Initial(s) && DisciplinedRun(s, steps) && r in Reach(s, steps).reqs
    ensures var z := Reach(s, steps);
            r in z.pending || r in z.processing || r in z.io ==> 1 <= z.reqs[r].unique <= M.LAST
  {
    ReachMark(s, steps, r);
    hide View, Reach, DisciplinedRun;
    PlacementHolds(s, steps, r);
  }

  /** How many numbers a run takes. */
  ghost function NumbersTaken(s: State, steps: seq<Step>): int
    requires DisciplinedRun(s, steps)
  {
    M.Taken(Trace(s, steps))
  }

  /** No number of the one request or its interrupt is one of the other. */
  predicate NumbersApart(a: Req, b: Req) {
    && (a.unique != 0 ==> a.unique != b.unique && a.unique != b.intrUnique)
    && (a.intrUnique != 0 ==> a.intrUnique != b.unique && a.intrUnique != b.intrUnique)
  }

  /** While the counter has not come around, no two numbers agree, and those who
      wait longer have the older. */
  lemma NumbersDiffer(s: State, steps: seq<Step>, r: Rid, x: Rid)
    requires Initial(s) && DisciplinedRun(s, steps) && NumbersTaken(s, steps) <= M.LAST
    requires r in Reach(s, steps).reqs && x in Reach(s, steps).reqs && r != x
    ensures var z := Reach(s, steps);
            && NumbersApart(z.reqs[r], z.reqs[x])
            && (z.reqs[r].unique != 0 ==> z.reqs[r].unique != z.reqs[r].intrUnique)
  {
    var z := Reach(s, steps);
    DistinctView(s, steps);
    ViewAt(z, r);
    ViewAt(z, x);
    hide View, Reach, DisciplinedRun, Trace, M.InTurn, M.Age;
    assert M.Apart(View(z).marks[r], View(z).marks[x]);
  }

  lemma TakenIs(s: State, steps: seq<Step>)
    requires DisciplinedRun(s, steps)
    ensures NumbersTaken(s, steps) == M.Taken(Trace(s, steps))
  {
    hide DisciplinedRun, Trace;
  }

  lemma DistinctView(s: State, steps: seq<Step>)
    requires Initial(s) && DisciplinedRun(s, steps) && NumbersTaken(s, steps) <= M.LAST
    ensures M.Distinct(View(Reach(s, steps)), NumbersTaken(s, steps))
  {
    hide *;
    InitialView(s);
    Refines(s, steps);
    TakenIs(s, steps);
    M.RunDistinct(View(s), Trace(s, steps), 0);
  }

  /** Requests are read in the order in which they were queued. */
  lemma OldestFirst(s: State, steps: seq<Step>, i: nat, j: nat)
    requires Initial(s) && DisciplinedRun(s, steps) && NumbersTaken(s, steps) <= M.LAST
    requires i < j < |Reach(s, steps).pending|
    ensures var z := Reach(s, steps);
            && z.pending[i] in z.reqs && z.pending[j] in z.reqs
            && M.Age(z.reqctr, z.reqs[z.pending[i]].unique) > M.Age(z.reqctr, z.reqs[z.pending[j]].unique)
  {
    var z := Reach(s, steps);
    DistinctView(s, steps);
    ViewFields(z);
    hide View, Reach, DisciplinedRun, Trace, M.Age;
    PendingKnown(z, z.pending[i]);
    PendingKnown(z, z.pending[j]);
    assert M.AgeOf(View(z), z.pending[i]) > M.AgeOf(View(z), z.pending[j]);
  }

  lemma PendingKnown(s: State, r: Rid)
    requires r in View(s).marks
    ensures r in s.reqs && View(s).marks[r].number == s.reqs[r].unique
  {
  }

  lemma {:induction false} FindListed(list: seq<Rid>, reqs: map<Rid, Req>, u: int, r: Rid)
    requires r in list && r in reqs && (reqs[r].unique == u || reqs[r].intrUnique == u)
    ensures Find(list, reqs, u).Some?
  {
    if list[0] != r { FindListed(list[1..], reqs, u, r); }
  }

  /** A number that the daemon was told stands for that one request: a later reply
      to it can meet no other, and meets that one as long as the daemon has it. */
  lemma ReplyMeets(s: State, steps: seq<Step>, more: seq<Step>, r: Rid, u: int)
    requires Initial(s) && DisciplinedRun(s, steps) && DisciplinedRun(Reach(s, steps), more)
    requires NumbersTaken(s, steps) + NumbersTaken(Reach(s, steps), more) <= M.LAST
    requires var y := Reach(s, steps); r in y.reqs && u != 0 && (y.reqs[r].unique == u || y.reqs[r].intrUnique == u)
    ensures var z := Reach(Reach(s, steps), more);
            && (Find(z.processing, z.reqs, u).Some? ==> Find(z.processing, z.reqs, u) == Some(r))
            && (Reach(s, steps).reqs[r].unique == u && r in z.processing ==> Find(z.processing, z.reqs, u) == Some(r))
  {
    var y := Reach(s, steps);
    DistinctView(s, steps);
    ViewAt(y, r);
    InitialView(s);
    hide View, Reach, DisciplinedRun, NumbersTaken, M.Distinct, M.Placed, M.Belongs, Inv, Find;
    Refines(s, steps);
    RunKeeps(s, steps);
    M.NumberBelongs(View(y), r, u, NumbersTaken(s, steps));
    MeetsFrom(y, more, r, u, NumbersTaken(s, steps));
  }

  lemma MeetsFrom(s: State, more: seq<Step>, r: Rid, u: int, n: int)
    requires Inv(s) && M.Placed(View(s)) && M.Belongs(View(s), u, r, n) && DisciplinedRun(s, more) && r in s.reqs
    requires n + NumbersTaken(s, more) <= M.LAST && u != 0
    ensures var z := Reach(s, more);
            && (Find(z.processing, z.reqs, u).Some? ==> Find(z.processing, z.reqs, u) == Some(r))
            && (s.reqs[r].unique == u && r in z.processing ==> Find(z.processing, z.reqs, u) == Some(r))
  {
    hide *;
    var z, es := Reach(s, more), Trace(s, more);
    ViewAt(s, r);
    TakenIs(s, more);
    TraceShows(s, more);
    ShowsMeans(s, es, z);
    M.RunBelongs(View(s), es, u, r, n);
    M.NumberStays(View(s), es, r);
    OnlyOwner(z, u, r, n + M.Taken(es));
    RunEvolves(s, more, r);
    ViewAt(z, r);
    MarkNumber(s.reqs[r]);
    MarkNumber(z.reqs[r]);
    if s.reqs[r].unique == u && r in z.processing { FindListed(z.processing, z.reqs, u, r); }
  }

  lemma ShowsMeans(s: State, es: seq<M.Event>, s': State)
    requires Shows(s, es, s')
    ensures M.Follows(View(s), es) && M.DoAll(View(s), es) == View(s')
  {
    hide View;
  }

  lemma MarkNumber(q: Req)
    ensures MarkOf(q).number == q.unique
  {
  }

  lemma OnlyOwner(s: State, u: int, r: Rid, n: int)
    requires M.Belongs(View(s), u, r, n)
    ensures Find(s.processing, s.reqs, u).Some? ==> Find(s.processing, s.reqs, u) == Some(r)
  {
    hide M.Age, Find;
    var found := Find(s.processing, s.reqs, u);
    if found.Some? { ViewAt(s, found.value); }
  }

  /** What the error of a request tells its caller. */
  lemma ErrorsTell(s: State, steps: seq<Step>, r: Rid)
    requires Initial(s) && DisciplinedRun(s, steps) && r in Reach(s, steps).reqs
    ensures var z := Reach(s, steps);
            var q := z.reqs[r];
            && -1000 < q.error <= 0
            && (q.state == Init && q.caller != Prepared ==>
                  (q.error == -ENOTCONN && !z.connected) || (q.error == -ECONNREFUSED && z.connError))
            && (q.aborted ==> (q.error == -EINTR && !q.force) || (q.error == -ECONNABORTED && !z.connected))
            && (q.state in {Pending, Reading, Sent} && !q.aborted ==> q.error == 0)
  {
    ReachMark(s, steps, r);
    hide View, Reach, DisciplinedRun;
    ErrorFields(Reach(s, steps), r);
  }

  lemma ErrorFields(s: State, r: Rid)
    requires r in s.reqs && M.ErrorOk(View(s), MarkOf(s.reqs[r]))
    ensures var q := s.reqs[r];
            && -1000 < q.error <= 0
            && (q.state == Init && q.caller != Prepared ==>
                  (q.error == -ENOTCONN && !s.connected) || (q.error == -ECONNREFUSED && s.connError))
            && (q.aborted ==> (q.error == -EINTR && !q.force) || (q.error == -ECONNABORTED && !s.connected))
            && (q.state in {Pending, Reading, Sent} && !q.aborted ==> q.error == 0)
  {
    hide Marks;
  }

  /** ENOSYS in answer to an interrupt turns interrupts off. */
  lemma EnosysHeard(s: State, t: Tid, m: Message, r: Rid)
    requires Enabled(s, BeginWrite(t, m)) && Find(s.processing, s.reqs, m.unique) == Some(r) && !s.reqs[r].aborted
    requires s.reqs[r].intrUnique == m.unique && m.error == -ENOSYS && m.payload == []
    ensures Apply(s, BeginWrite(t, m)).noInterrupt
  {
    hide Find, ApplyCaller, ApplyAbort, EnterWindow, TakeForWriting;
  }

  /** No request that is sent with interrupts turned off is ever marked. */
  lemma DeafHolds(s: State, steps: seq<Step>, mid: seq<Step>, r: Rid, signalled: bool, fatal: bool, more: seq<Step>)
    requires Initial(s) && DisciplinedRun(s, steps) && Reach(s, steps).noInterrupt
    requires DisciplinedRun(Reach(s, steps), mid)
    requires var y, a := Reach(Reach(s, steps), mid), Send(r, signalled, fatal);
             Enabled(y, a) && Disciplined(y, a) && DisciplinedRun(Apply(y, a), more)
    ensures var y := Reach(Reach(s, steps), mid);
            var z := Reach(Apply(y, Send(r, signalled, fatal)), more);
            y.noInterrupt && r in z.reqs && !z.reqs[r].interrupted
  {
    InitialView(s);
    var x, a := Reach(s, steps), Send(r, signalled, fatal);
    var y := Reach(x, mid);
    ViewFields(x);
    ViewFields(y);
    hide View, Reach, DisciplinedRun, Trace, M.Placed, Inv, Enabled, Disciplined, Apply, Events, CallerEvents;
    Refines(s, steps);
    RunKeeps(s, steps);
    TraceShows(x, mid);
    RunKeeps(x, mid);
    M.DeafStays(View(x), Trace(x, mid));
    StepShows(y, a);
    StepKeeps(y, a);
    ShowsPlaced(y, Events(y, a), Apply(y, a));
    TraceShows(Apply(y, a), more);
    DeafEvents(y, r, signalled, fatal);
    M.DeafQueue(View(y), Events(y, a), r);
    M.RunQuiet(View(Apply(y, a)), Trace(Apply(y, a), more), r);
    MarkedInView(Reach(Apply(y, a), more), r);
  }

  lemma DeafEvents(s: State, r: Rid, signalled: bool, fatal: bool)
    requires Enabled(s, Send(r, signalled, fatal))
    ensures var es := Events(s, Send(r, signalled, fatal));
            es != [] && (es[0] == M.Queue(r) || (es[0].Refuse? && es[0].r == r))
  {
  }

  lemma MarkedInView(s: State, r: Rid)
    requires r in View(s).marks
    ensures r in s.reqs && View(s).marks[r].interrupted == s.reqs[r].interrupted
  {
  }
}
