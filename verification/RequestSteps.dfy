/** Every step of the request protocol keeps the invariant, as long as the step
    is disciplined. Most of the work is about a single request: each lemma whose
    name ends in Req says that the request it is about stays well placed and
    well counted, and the lemma ending in Keeps puts that together with the
    lists, the other requests and the threads, which keep what they had. */
module RequestSteps {
  import opened Sequences
  import opened RequestModel
  import opened RequestInvariant

  // ----- callers -----

  lemma NewReqOk(a: Step)
    requires a.Prepare? && (a.hasEnd ==> a.async) && (!a.async ==> a.isreply)
    ensures var q := NewRequest(a.async, a.isreply, a.force, a.hasEnd, a.argvar, a.outSize, a.lastSize);
            ReqOk(q, false, false, false, false) && q.qref == NotSent && !Outstanding(q)
  {
  }

  /** A request that does not exist yet is on no list and in no thread's hands. */
  lemma NewNowhere(s: State, r: Rid)
    requires Inv(s) && r !in s.reqs
    ensures r !in s.pending && r !in s.processing && r !in s.io && r !in s.interrupts
    ensures forall t: Tid :: HandsOf(DevOf(s, t)) != Some(r) && !(Concerns(AbortOf(s, t)) && AbortOf(s, t).r == r)
  {
    hide Inv, DevOk, AbortOk, Aborting, Background, Held, ReqAt;
    Parts(s);
  }

  lemma PrepareKeeps(s: State, r: Rid, q: Req)
    requires Inv(s) && r !in s.reqs && ReqOk(q, false, false, false, false) && q.qref == NotSent && !Outstanding(q)
    ensures Inv(SetReq(s, r, q))
  {
    hide Inv, ReqOk, DevOk, AbortOk, Threads, Outstanding, ThreadsAgree;
    var s' := SetReq(s, r, q);
    Parts(s);
    NewNowhere(s, r);
    OutstandingUpdate(s.reqs, r, q);
    AbortingKeeps(s, s', None);
    StillAgree(s, s', r);
    ThreadsKeep(s, s', r, None, None);
    forall x <- s'.reqs ensures ReqAt(s', x) {
      if x != r { assert ReqAt(s, x); }
    }
    Assemble(s');
  }

  ghost predicate Waiting(c: Caller) {
    c == WaitSignal || c == WaitFatal || c == WaitForced || c == WaitUnlocked || c == WaitFinished
  }

  lemma WaitingFacts(s: State, r: Rid)
    requires Inv(s) && r in s.reqs && Waiting(s.reqs[r].caller)
    ensures var q := s.reqs[r];
            && !q.async && q.state != Init && CallerOk(q) && q.qref != NotSent && !Withdrawn(q)
            && (q.state == Finished && !q.aborted ==> q.ended == 1)
            && (q.locked ==> q.state == Reading || q.state == Writing || q.state == Finished)
            && (q.ended == 1 ==> !q.locked && q.state == Finished)
  {
    hide Inv;
    ReqFacts(s, r);
  }

  lemma CallerReq(q: Req, c: Caller, p: bool, u: bool, i: bool, x: bool)
    requires ReqOk(q, p, u, i, x) && Waiting(q.caller) && (Waiting(c) || c == Returned)
    requires CallerOk(q.(caller := c)) && !Withdrawn(q)
    ensures ReqOk(q.(caller := c), p, u, i, x)
  {
    CallerCommon(q, c, p, u, i, x);
    hide Common;
    match q.qref
    case NotSent =>
    case Listed =>
    case InHands(_) =>
    case Tail(_, _) =>
    case Gone =>
  }

  lemma CallerCommon(q: Req, c: Caller, p: bool, u: bool, i: bool, x: bool)
    requires Common(q, p, u, i, x) && Waiting(q.caller) && (Waiting(c) || c == Returned)
    requires CallerOk(q.(caller := c))
    ensures Common(q.(caller := c), p, u, i, x)
  {
    hide CallerOk;
  }

  /** No thread looks at where the caller stands. */
  lemma CallerMoves(s: State, r: Rid, c: Caller)
    requires Inv(s) && r in s.reqs && Waiting(s.reqs[r].caller) && (Waiting(c) || c == Returned)
    requires CallerOk(s.reqs[r].(caller := c)) && !Withdrawn(s.reqs[r])
    ensures Inv(MoveCaller(s, r, c))
  {
    hide Inv, ReqOk, CallerOk;
    ReqFacts(s, r);
    var q := s.reqs[r].(caller := c);
    CallerReq(s.reqs[r], c, r in s.pending, r in s.processing, r in s.io, r in s.interrupts);
    BlindReqKeeps(s, r, q);
  }

  lemma WithdrawReq(q: Req, x: bool)
    requires ReqOk(q, true, false, false, x) && Waiting(q.caller) && q.aborted
    ensures q.qref == Listed && q.count >= 2 && !x
    ensures ReqOk(Put(q).(caller := Returned, qref := Gone), false, false, false, x)
  {
  }

  lemma WithdrawPendingKeeps(s: State, r: Rid)
    requires Inv(s)
    requires r in s.reqs && s.reqs[r].aborted && Waiting(s.reqs[r].caller)
    requires s.reqs[r].state == Pending && !Withdrawn(s.reqs[r])
    ensures Inv(WithdrawOrWait(s, r))
  {
    hide Inv, ReqAt, ReqOk, Lists, Aborting, Held, Background, Threads, Touches, ThreadsAgree, WithdrawOrWait;
    Parts(s);
    PendingOnly(s, r);
    WithdrawReq(s.reqs[r], r in s.interrupts);
    WithdrawParts(s, r);
    WithdrawAt(s, r);
    Keeps(s, WithdrawOrWait(s, r), r, None, None);
  }

  lemma WithdrawAt(s: State, r: Rid)
    requires Inv(s) && r in s.reqs && s.reqs[r].state == Pending && r !in s.processing && r !in s.io
    requires ReqOk(Put(s.reqs[r]).(caller := Returned, qref := Gone), false, false, false, r in s.interrupts)
    requires s.reqs[r].qref == Listed
    ensures var s' := WithdrawOrWait(s, r); r in s'.reqs && ReqAt(s', r) && ThreadsAgree(s, s', r, None, None)
  {
    hide Inv, ReqOk;
    ThreadFacts(s, r);
  }

  lemma PendingOnly(s: State, r: Rid)
    requires Inv(s) && r in s.reqs && s.reqs[r].state == Pending && !Withdrawn(s.reqs[r])
    ensures r in s.pending && r !in s.processing && r !in s.io && r !in s.interrupts
    ensures ReqOk(s.reqs[r], true, false, false, false) && s.reqs[r].qref == Listed && s.reqs[r].ended == 0
  {
    hide Inv;
    ReqFacts(s, r);
  }

  lemma WithdrawParts(s: State, r: Rid)
    requires Lists(s) && Aborting(s) && Held(s) && Background(s)
    requires r in s.reqs && s.reqs[r].state == Pending && s.reqs[r].count >= 2
    ensures var s' := WithdrawOrWait(s, r);
            Lists(s') && Aborting(s') && Held(s') && Background(s') && Touches(s, s', r) && s'.bug == s.bug
  {
    var s' := WithdrawOrWait(s, r);
    NoDupRemove(s.pending, r);
    OutstandingUpdate(s.reqs, r, s'.reqs[r]);
    AbortingKeeps(s, s', None);
  }

  lemma WithdrawFits(q: Req)
    requires !q.async && q.aborted && !q.locked && q.state != Init && q.state != Pending && q.qref != NotSent
    ensures CallerOk(q.(caller := if q.state == Sent then WaitFinished else Returned)) && !Withdrawn(q)
  {
  }

  lemma WithdrawCases(s: State, r: Rid)
    requires r in s.reqs && s.reqs[r].state != Pending
    ensures WithdrawOrWait(s, r) == MoveCaller(s, r, if s.reqs[r].state == Sent then WaitFinished else Returned)
  {
  }

  lemma WithdrawKeeps(s: State, r: Rid)
    requires Inv(s)
    requires r in s.reqs && s.reqs[r].aborted && !s.reqs[r].locked && Waiting(s.reqs[r].caller)
    ensures Inv(WithdrawOrWait(s, r))
  {
    hide Inv, WithdrawOrWait, MoveCaller, CallerOk, Withdrawn;
    WaitingFacts(s, r);
    if s.reqs[r].state == Pending {
      WithdrawPendingKeeps(s, r);
    } else {
      WithdrawCases(s, r);
      WithdrawFits(s.reqs[r]);
      CallerMoves(s, r, if s.reqs[r].state == Sent then WaitFinished else Returned);
    }
  }

  lemma AbortedTailKeeps(s: State, r: Rid)
    requires Inv(s)
    requires r in s.reqs && s.reqs[r].aborted && Waiting(s.reqs[r].caller)
    ensures Inv(AbortedTail(s, r))
  {
    hide Inv, WithdrawOrWait, MoveCaller;
    WaitingFacts(s, r);
    if s.reqs[r].locked {
      CallerMoves(s, r, WaitUnlocked);
    } else {
      WithdrawKeeps(s, r);
    }
  }

  lemma AbortedReq(q: Req, p: bool, u: bool, i: bool, x: bool)
    requires ReqOk(q, p, u, i, x) && Waiting(q.caller) && !q.aborted && q.state != Finished
    ensures ReqOk(q.(error := -EINTR, aborted := true), p, u, i, x)
  {
  }

  lemma MarkAbortedKeeps(s: State, r: Rid)
    requires Inv(s)
    requires r in s.reqs && Waiting(s.reqs[r].caller) && !s.reqs[r].aborted && s.reqs[r].state != Finished
    ensures Inv(MarkAborted(s, r)) && Waiting(MarkAborted(s, r).reqs[r].caller) && MarkAborted(s, r).reqs[r].aborted
  {
    hide Inv, ReqOk;
    ReqFacts(s, r);
    ThreadFacts(s, r);
    AbortedReq(s.reqs[r], r in s.pending, r in s.processing, r in s.io, r in s.interrupts);
    SetReqKeeps(s, r, s.reqs[r].(error := -EINTR, aborted := true));
  }

  lemma AfterFatalWaitKeeps(s: State, r: Rid)
    requires Inv(s)
    requires r in s.reqs && Waiting(s.reqs[r].caller)
    ensures Inv(AfterFatalWait(s, r))
  {
    hide Inv, AbortedTail, MarkAborted, MoveCaller;
    WaitingFacts(s, r);
    if s.reqs[r].aborted {
      AbortedTailKeeps(s, r);
    } else if s.reqs[r].state == Finished {
      CallerMoves(s, r, Returned);
    } else {
      MarkAbortedKeeps(s, r);
      AbortedTailKeeps(MarkAborted(s, r), r);
    }
  }

  lemma MovesOn(s: State, r: Rid, c: Caller)
    requires Inv(s) && r in s.reqs && Waiting(s.reqs[r].caller) && (c == WaitFatal || c == WaitForced)
    ensures Inv(MoveCaller(s, r, c))
  {
    hide Inv;
    WaitingFacts(s, r);
    CallerMoves(s, r, c);
  }

  lemma SecondWaitKeeps(s: State, r: Rid, fatal: bool)
    requires Inv(s) && r in s.reqs && Waiting(s.reqs[r].caller)
    ensures Inv(SecondWait(s, r, fatal))
  {
    hide Inv, AfterFatalWait, MoveCaller;
    if s.reqs[r].force {
      MovesOn(s, r, WaitForced);
    } else if fatal {
      AfterFatalWaitKeeps(s, r);
    } else {
      MovesOn(s, r, WaitFatal);
    }
  }

  lemma QueuedReq(q: Req, p: bool, u: bool, i: bool)
    requires ReqOk(q, p, u, i, false) && q.state == Sent && q.interrupted
    ensures ReqOk(q, p, u, i, true)
  {
  }

  lemma SameBackground(s: State, s': State)
    requires Background(s) && s'.reqs == s.reqs && s'.numBackground == s.numBackground
    requires s'.connected == s.connected && s'.blocked == s.blocked
    ensures Background(s')
  {
  }

  lemma QueueInterruptKeeps(s: State, r: Rid)
    requires Inv(s) && r in s.reqs && s.reqs[r].state == Sent && s.reqs[r].interrupted && r !in s.interrupts
    ensures Inv(QueueInterrupt(s, r))
  {
    hide Inv, DevOk, AbortOk, Background, ThreadsAgree, ReqOk;
    var s' := QueueInterrupt(s, r);
    Parts(s);
    ThreadFacts(s, r);
    ReqFacts(s, r);
    QueuedReq(s.reqs[r], r in s.pending, r in s.processing, r in s.io);
    NoDupPrepend(r, s.interrupts);
    AbortingKeeps(s, s', None);
    assert s'.reqs == s.reqs && s.reqs[r := s.reqs[r]] == s.reqs;
    StillAgree(s, s', r);
    SameBackground(s, s');
    Keeps(s, s', r, None, None);
  }

  lemma InterruptedReq(q: Req, p: bool, u: bool, i: bool, x: bool)
    requires ReqOk(q, p, u, i, x) && q.caller == WaitSignal
    ensures !x && ReqOk(q.(interrupted := true, caller := WaitFatal), p, u, i, x)
  {
    InterruptedCommon(q, p, u, i, x);
    hide Common;
    match q.qref
    case NotSent =>
    case Listed =>
    case InHands(_) =>
    case Tail(_, _) =>
    case Gone =>
  }

  lemma InterruptedCommon(q: Req, p: bool, u: bool, i: bool, x: bool)
    requires Common(q, p, u, i, x) && q.caller == WaitSignal
    ensures !x && Common(q.(interrupted := true, caller := WaitFatal), p, u, i, x)
  {
  }

  lemma MarkInterruptedKeeps(s: State, r: Rid)
    requires Inv(s) && r in s.reqs && s.reqs[r].caller == WaitSignal
    ensures Inv(MarkInterrupted(s, r)) && MarkInterrupted(s, r).reqs[r].caller == WaitFatal
  {
    hide Inv, ReqOk;
    ReqFacts(s, r);
    InterruptedReq(s.reqs[r], r in s.pending, r in s.processing, r in s.io, r in s.interrupts);
    var q := s.reqs[r].(interrupted := true, caller := WaitFatal);
    BlindReqKeeps(s, r, q);
    if q.state == Sent {
      QueueInterruptKeeps(SetReq(s, r, q), r);
    }
  }

  lemma AfterSignalWaitKeeps(s: State, r: Rid, fatal: bool)
    requires Inv(s) && r in s.reqs && s.reqs[r].caller == WaitSignal
    ensures Inv(AfterSignalWait(s, r, fatal))
  {
    hide Inv, SecondWait, AbortedTail, MarkInterrupted, MoveCaller;
    WaitingFacts(s, r);
    if s.reqs[r].aborted {
      AbortedTailKeeps(s, r);
    } else if s.reqs[r].state == Finished {
      CallerMoves(s, r, Returned);
    } else {
      MarkInterruptedKeeps(s, r);
      SecondWaitKeeps(MarkInterrupted(s, r), r, fatal);
    }
  }

  lemma QueueReq(q: Req, u: int)
    requires ReqOk(q, false, false, false, false) && q.caller == Prepared && !q.async
    ensures ReqOk(q.(count := q.count + 1, caller := WaitSignal, unique := u, state := Pending, qref := Listed),
                  true, false, false, false)
  {
  }

  lemma QueueAsyncReq(q: Req, u: int)
    requires ReqOk(q, false, false, false, false) && q.caller == Prepared && q.async
    ensures ReqOk(q.(background := true, caller := Released, unique := u, state := Pending, qref := Listed),
                  true, false, false, false)
  {
  }

  lemma RefusedReq(q: Req, e: int)
    requires ReqOk(q, false, false, false, false) && q.caller == Prepared && e < 0
    ensures !q.async ==> ReqOk(q.(error := e, caller := Returned), false, false, false, false)
    ensures q.async ==> ReqOk(Ended(q.(error := e, caller := Released), Sender), false, false, false, false)
  {
  }

  lemma PreparedNowhere(s: State, r: Rid)
    requires Inv(s) && r in s.reqs && s.reqs[r].caller == Prepared
    ensures r !in s.pending && r !in s.processing && r !in s.io && r !in s.interrupts
    ensures ReqOk(s.reqs[r], false, false, false, false)
    ensures s.reqs[r].qref == NotSent && s.reqs[r].ended == 0 && !s.reqs[r].background
    ensures forall t: Tid :: HandsOf(DevOf(s, t)) != Some(r)
    ensures forall t: Tid :: !(Concerns(AbortOf(s, t)) && AbortOf(s, t).r == r)
  {
    hide Inv;
    ReqFacts(s, r);
    ThreadFacts(s, r);
  }

  lemma QueueKeeps(s: State, s': State, r: Rid)
    requires Inv(s) && r in s.reqs && s.reqs[r].caller == Prepared && s.connected
    requires s'.pending == s.pending + [r] && s'.processing == s.processing && s'.io == s.io
             && s'.interrupts == s.interrupts
    requires s'.devs == s.devs && s'.aborts == s.aborts && s'.lock == s.lock && s'.connected && s'.bug == s.bug
    requires r in s'.reqs && s'.reqs == s.reqs[r := s'.reqs[r]]
    requires s'.reqs[r].qref == Listed && ReqOk(s'.reqs[r], true, false, false, false)
    requires Background(s')
    ensures Inv(s')
  {
    hide Inv, ReqOk, Background, DevOk, AbortOk, ThreadsAgree, Threads;
    Parts(s);
    PreparedNowhere(s, r);
    NoDupPrepend(r, s.pending);
    ConnectedResting(s);
    assert forall t: Tid :: Stage(AbortOf(s', t)) == Stage(AbortOf(s, t));
    StillAgree(s, s', r);
    Keeps(s, s', r, None, None);
  }

  lemma RefusedKeeps(s: State, r: Rid, error: int)
    requires Inv(s) && r in s.reqs && s.reqs[r].caller == Prepared && !s.reqs[r].async && error < 0
    ensures Inv(SetReq(s, r, s.reqs[r].(error := error, caller := Returned)))
  {
    hide Inv, ReqOk;
    PreparedNowhere(s, r);
    RefusedReq(s.reqs[r], error);
    SetReqKeeps(s, r, s.reqs[r].(error := error, caller := Returned));
  }

  lemma QueuedKeeps(s: State, r: Rid)
    requires Inv(s) && r in s.reqs && s.reqs[r].caller == Prepared && !s.reqs[r].async && s.connected
    ensures var s1 := QueueRequest(s, r, s.reqs[r].(count := s.reqs[r].count + 1, caller := WaitSignal));
            Inv(s1) && r in s1.reqs && s1.reqs[r].caller == WaitSignal
  {
    hide Inv, ReqOk, Threads, Aborting, Lists, Held, NextUnique;
    Parts(s);
    PreparedNowhere(s, r);
    QueueReq(s.reqs[r], NextUnique(s.reqctr));
    var s1 := QueueRequest(s, r, s.reqs[r].(count := s.reqs[r].count + 1, caller := WaitSignal));
    OutstandingUpdate(s.reqs, r, s1.reqs[r]);
    QueueKeeps(s, s1, r);
  }

  lemma SendKeeps(s: State, r: Rid, signalled: bool, fatal: bool)
    requires Inv(s) && r in s.reqs && s.reqs[r].caller == Prepared && !s.reqs[r].async
    ensures Inv(DoSend(s, r, signalled, fatal))
  {
    hide Inv, SecondWait, AfterSignalWait, QueueRequest;
    if !s.connected {
      RefusedKeeps(s, r, -ENOTCONN);
    } else if s.connError {
      RefusedKeeps(s, r, -ECONNREFUSED);
    } else {
      QueuedKeeps(s, r);
      var s1 := QueueRequest(s, r, s.reqs[r].(count := s.reqs[r].count + 1, caller := WaitSignal));
      if s.noInterrupt {
        SecondWaitKeeps(s1, r, fatal);
      } else if signalled {
        AfterSignalWaitKeeps(s1, r, fatal);
      }
    }
  }

  lemma EndUnsentKeeps(s: State, r: Rid, q: Req)
    requires Inv(s) && r in s.reqs && s.reqs[r].caller == Prepared
    requires q == s.reqs[r].(error := -ENOTCONN, caller := Released)
             && ReqOk(Ended(q, Sender), false, false, false, false)
    ensures Inv(EndLocked(s, r, q, Sender))
  {
    hide Inv, ReqOk, DevOk, AbortOk, ThreadsAgree, Threads, Remove;
    Parts(s);
    PreparedNowhere(s, r);
    var s' := EndLocked(s, r, q, Sender);
    OutstandingUpdate(s.reqs, r, s'.reqs[r]);
    AbortingKeeps(s, s', None);
    assert s'.pending == s.pending && s'.processing == s.processing && s'.io == s.io && s'.interrupts == s.interrupts;
    StillAgree(s, s', r);
    Keeps(s, s', r, None, None);
  }

  lemma SendNoWaitKeeps(s: State, r: Rid)
    requires Inv(s) && r in s.reqs && s.reqs[r].caller == Prepared && s.reqs[r].async
    ensures Inv(DoSendNoWait(s, r))
  {
    hide Inv, ReqOk, Threads, Aborting, Lists, Held, NextUnique, Ended;
    Parts(s);
    PreparedNowhere(s, r);
    if s.connected {
      QueueAsyncReq(s.reqs[r], NextUnique(s.reqctr));
      var s' := DoSendNoWait(s, r);
      OutstandingUpdate(s.reqs, r, s'.reqs[r]);
      QueueKeeps(s, s', r);
    } else {
      RefusedReq(s.reqs[r], -ENOTCONN);
      EndUnsentKeeps(s, r, s.reqs[r].(error := -ENOTCONN, caller := Released));
    }
  }

  // ----- the reading and writing device threads -----

  /** A request in a thread's hands concerns no other device thread. */
  lemma OnlyHands(s: State, t: Tid, r: Rid)
    requires Inv(s) && r in s.reqs && s.reqs[r].qref == InHands(t)
    ensures forall u: Tid | u != t :: HandsOf(DevOf(s, u)) != Some(r)
    ensures s.reqs[r].ended == 0 && s.reqs[r].window == None
    ensures r !in s.pending && r !in s.processing
    ensures ReqOk(s.reqs[r], false, false, r in s.io, r in s.interrupts)
  {
    hide Inv;
    ReqFacts(s, r);
    ThreadFacts(s, r);
  }

  /** A listed request outside every writer's window concerns no device thread. */
  lemma OnNobodysHands(s: State, r: Rid)
    requires Inv(s) && r in s.reqs && s.reqs[r].qref == Listed && NoWindow(s, r)
    ensures forall u: Tid :: HandsOf(DevOf(s, u)) != Some(r)
    ensures s.reqs[r].ended == 0
    ensures forall u: Tid :: !(AbortOf(s, u).EndTail? && AbortOf(s, u).r == r)
  {
    hide Inv;
    ReqFacts(s, r);
    ThreadFacts(s, r);
  }

  /** Device thread `t` deals with `r` before or after the step, and no other
      device thread does. */
  ghost predicate DeviceAlone(s: State, s': State, t: Tid, r: Rid)
    requires r in s.reqs && r in s'.reqs
  {
    && s'.devs == s.devs[t := DevOf(s', t)] && s'.aborts == s.aborts
    && (forall u: Tid | u != t :: HandsOf(DevOf(s, u)) != Some(r))
    && (DevOf(s, t).Idle? || DevOf(s, t).r == r)
    && (DevOf(s', t).Idle? || DevOf(s', t).r == r)
    && (forall u: Tid, owes: bool :: s.reqs[r].qref != Tail(Aborter(u), owes))
    && (forall u: Tid | s'.reqs[r].qref == InHands(u) :: u == t && !DevOf(s', t).Idle?)
    && s'.reqs[r].cbRef == s.reqs[r].cbRef
  }

  lemma DeviceAgrees(s: State, s': State, t: Tid, r: Rid)
    requires r in s.reqs && r in s'.reqs && DeviceAlone(s, s', t, r)
    requires DevOf(s', t).Idle? || DevOk(DevOf(s', t), t, s'.reqs[r])
    requires forall u: Tid | Concerns(AbortOf(s, u)) && AbortOf(s, u).r == r :: AbortOk(AbortOf(s, u), u, s.reqs[r])
    ensures ThreadsAgree(s, s', r, Some(t), None)
  {
    hide DevOk;
  }

  /** A step of device thread `t` about `r` keeps the invariant when it does so locally. */
  lemma DeviceKeeps(s: State, s': State, t: Tid, r: Rid)
    requires Inv(s) && r in s.reqs && r in s'.reqs && DeviceAlone(s, s', t, r)
    requires DevOf(s', t).Idle? || DevOk(DevOf(s', t), t, s'.reqs[r])
    requires Touches(s, s', r) && !s'.bug && Lists(s') && ReqAt(s', r)
    requires Aborting(s') && Background(s') && Held(s')
    ensures Inv(s')
  {
    hide Inv, DevOk, AbortOk, Touches, Lists, ReqAt, Aborting, Background, Held, ThreadsAgree, DeviceAlone;
    ThreadFacts(s, r);
    DeviceAgrees(s, s', t, r);
    Keeps(s, s', r, Some(t), None);
  }

  /** A device thread steps from one of its own states to another without
      moving any list: `q` is its request afterwards. */
  lemma DeviceMoves(s: State, t: Tid, r: Rid, q: Req, d: Dev)
    requires Inv(s) && r in s.reqs && s.reqs[r].qref == InHands(t) && HandsOf(d) == Some(r)
    requires q.qref == InHands(t) && Outstanding(q) == Outstanding(s.reqs[r]) && q.cbRef == s.reqs[r].cbRef
    requires ReqOk(q, false, false, r in s.io, r in s.interrupts) && DevOk(d, t, q)
    ensures Inv(DeviceStep(s, t, q, d))
  {
    hide Inv, Lists, Aborting, Background, Held, ReqOk, DevOk, Touches;
    Parts(s);
    OnlyHands(s, t, r);
    HandsBusy(s, t, r);
    var s' := DeviceStep(s, t, q, d);
    DeviceMovesParts(s, s', t, r, q);
    DeviceKeeps(s, s', t, r);
  }

  lemma HandsBusy(s: State, t: Tid, r: Rid)
    requires Inv(s) && r in s.reqs && s.reqs[r].qref == InHands(t)
    ensures HandsOf(DevOf(s, t)) == Some(r)
  {
    hide Inv;
    ThreadFacts(s, r);
  }

  lemma DeviceMovesParts(s: State, s': State, t: Tid, r: Rid, q: Req)
    requires Lists(s) && Aborting(s) && Held(s) && Background(s) && r in s.reqs
    requires s' == s.(reqs := s.reqs[r := q], devs := s.devs[t := DevOf(s', t)])
             && Outstanding(q) == Outstanding(s.reqs[r])
    ensures Lists(s') && Aborting(s') && Held(s') && Background(s') && Touches(s, s', r)
  {
    OutstandingUpdate(s.reqs, r, q);
    AbortingKeeps(s, s', None);
  }

  lemma CopyReq(q: Req, t: Tid, i: bool, x: bool)
    requires ReqOk(q, false, false, i, x) && q.qref == InHands(t)
    ensures ReqOk(q.(locked := false), false, false, i, x)
    ensures !q.aborted ==> ReqOk(q.(locked := true), false, false, i, x)
  {
  }

  lemma DataReq(q: Req, data: seq<int>, t: Tid, i: bool, x: bool)
    requires ReqOk(q, false, false, i, x) && q.qref == InHands(t)
    ensures ReqOk(q.(data := data), false, false, i, x)
  {
  }

  lemma ReadLockPageKeeps(s: State, t: Tid, r: Rid, fault: bool)
    requires Inv(s) && DevOf(s, t) == ReadUnlocked(r) && r in s.reqs
    ensures Inv(DoReadLockPage(s, t, r, fault))
  {
    hide Inv, ReqOk, DeviceStep;
    DeviceFacts(s, t);
    OnlyHands(s, t, r);
    CopyReq(s.reqs[r], t, r in s.io, r in s.interrupts);
    if fault || s.reqs[r].aborted {
      DeviceTurns(s, t, r, ReadDone(r, true));
    } else {
      DeviceMoves(s, t, r, s.reqs[r].(locked := true), ReadLocked(r));
    }
  }

  lemma WriteLockPageKeeps(s: State, t: Tid, r: Rid, m: Message, k: int, fault: bool)
    requires Inv(s) && DevOf(s, t) == WriteUnlocked(r, m, k) && r in s.reqs
    ensures Inv(DoWriteLockPage(s, t, r, m, k, fault))
  {
    hide Inv, ReqOk, DeviceStep;
    DeviceFacts(s, t);
    OnlyHands(s, t, r);
    CopyReq(s.reqs[r], t, r in s.io, r in s.interrupts);
    if fault || s.reqs[r].aborted {
      DeviceTurns(s, t, r, WriteDone(r, m, true));
    } else {
      DeviceMoves(s, t, r, s.reqs[r].(locked := true), WriteLocked(r, m, k));
    }
  }

  lemma WriteCopyKeeps(s: State, t: Tid, r: Rid, m: Message, k: int, n: int)
    requires Inv(s) && DevOf(s, t) == WriteLocked(r, m, k) && r in s.reqs && 0 <= k <= k + n <= |m.payload|
    ensures Inv(DoWriteCopy(s, t, r, m, k, n))
  {
    hide Inv, ReqOk, DeviceStep, DevOk;
    WriteCopyFacts(s, t, r, m, k);
    OnlyHands(s, t, r);
    DataReq(s.reqs[r], s.reqs[r].data + m.payload[k..k + n], t, r in s.io, r in s.interrupts);
    var q := s.reqs[r].(data := s.reqs[r].data + m.payload[k..k + n]);
    WriteCopyParts(s.reqs[r], q, t, r, m, k, n);
    DeviceMoves(s, t, r, q, WriteLocked(r, m, k + n));
  }

  lemma WriteCopyFacts(s: State, t: Tid, r: Rid, m: Message, k: int)
    requires Inv(s) && DevOf(s, t) == WriteLocked(r, m, k) && r in s.reqs
    ensures s.reqs[r].qref == InHands(t) && DevOk(WriteLocked(r, m, k), t, s.reqs[r])
  {
    hide Inv;
    DeviceFacts(s, t);
  }

  lemma WriteCopyParts(q: Req, q': Req, t: Tid, r: Rid, m: Message, k: int, n: int)
    requires 0 <= k <= k + n <= |m.payload| && DevOk(WriteLocked(r, m, k), t, q)
    requires q' == q.(data := q.data + m.payload[k..k + n])
    ensures DevOk(WriteLocked(r, m, k + n), t, q')
  {
    assert m.payload[..k] + m.payload[k..k + n] == m.payload[..k + n];
  }

  lemma UnlockPageKeeps(s: State, t: Tid, r: Rid, d: Dev)
    requires Inv(s) && r in s.reqs
    requires (DevOf(s, t) == ReadLocked(r) && d == ReadUnlocked(r))
             || (DevOf(s, t).WriteLocked? && d == WriteUnlocked(r, DevOf(s, t).m, DevOf(s, t).copied)
               && DevOf(s, t).r == r)
    ensures Inv(DeviceStep(s, t, s.reqs[r].(locked := false), d))
  {
    hide Inv, ReqOk, DeviceStep;
    DeviceFacts(s, t);
    OnlyHands(s, t, r);
    CopyReq(s.reqs[r], t, r in s.io, r in s.interrupts);
    DeviceMoves(s, t, r, s.reqs[r].(locked := false), d);
  }

  lemma CopiedKeeps(s: State, t: Tid, r: Rid)
    requires Inv(s) && r in s.reqs && !DevOf(s, t).Idle? && DevOf(s, t).r == r
    ensures DevOf(s, t).ReadLocked? ==> Inv(SetDev(s, t, ReadDone(r, false)))
    ensures DevOf(s, t).WriteLocked? && DevOf(s, t).copied == |DevOf(s, t).m.payload|
            ==> Inv(SetDev(s, t, WriteDone(r, DevOf(s, t).m, false)))
  {
    hide Inv, ReqOk;
    DeviceFacts(s, t);
    if DevOf(s, t).ReadLocked? {
      DeviceTurns(s, t, r, ReadDone(r, false));
    } else if DevOf(s, t).WriteLocked? && DevOf(s, t).copied == |DevOf(s, t).m.payload| {
      assert DevOf(s, t).m.payload[..DevOf(s, t).copied] == DevOf(s, t).m.payload;
      DeviceTurns(s, t, r, WriteDone(r, DevOf(s, t).m, false));
    }
  }

  /** A device thread moves on without touching its request. */
  lemma DeviceTurns(s: State, t: Tid, r: Rid, d: Dev)
    requires Inv(s) && r in s.reqs && s.reqs[r].qref == InHands(t)
    requires HandsOf(d) == Some(r) && DevOk(d, t, s.reqs[r])
    ensures Inv(SetDev(s, t, d))
  {
    hide Inv, ReqOk, DevOk;
    OnlyHands(s, t, r);
    assert s.reqs[r := s.reqs[r]] == s.reqs;
    DeviceMoves(s, t, r, s.reqs[r], d);
  }

  lemma DeviceFacts(s: State, t: Tid)
    requires Inv(s) && !DevOf(s, t).Idle?
    ensures DevOf(s, t).r in s.reqs && DevOk(DevOf(s, t), t, s.reqs[DevOf(s, t).r])
  {
    hide Inv, DevOk, Lists, Aborting, Background, Held, ReqAt;
    Parts(s);
  }

  lemma EndReq(q: Req, q1: Req, t: Tid, owner: Owner, u: bool, i: bool, x: bool)
    requires ReqOk(q, false, u, i, x) && (q.qref == InHands(t) || q.qref == Listed)
    requires q1 == q.(locked := false, error := q1.error, outcome := q1.outcome) && OutcomeOk(Ended(q1, owner))
    ensures ReqOk(Ended(q1, owner), false, false, false, false)
  {
  }

  /** The locked part of request_end by the device thread that has the request. */
  lemma DeviceEnds(s: State, t: Tid, r: Rid, q: Req)
    requires Inv(s) && r in s.reqs && s.reqs[r].qref == InHands(t)
    requires q == s.reqs[r].(locked := false, error := q.error, outcome := q.outcome) && OutcomeOk(Ended(q, Device(t)))
    ensures Inv(DeviceEnd(s, t, r, q))
  {
    hide Inv, Lists, Aborting, Background, Held, ReqOk, Touches, OutcomeOk, DeviceEnd, DeviceAlone, DevOk, Ended;
    Parts(s);
    OnlyHands(s, t, r);
    HandsBusy(s, t, r);
    EndReq(s.reqs[r], q, t, Device(t), false, r in s.io, r in s.interrupts);
    DeviceEndParts(s, t, r, q);
    DeviceKeeps(s, DeviceEnd(s, t, r, q), t, r);
  }

  lemma DeviceEndParts(s: State, t: Tid, r: Rid, q: Req)
    requires Lists(s) && Aborting(s) && Held(s) && Background(s) && r in s.reqs
    requires q.background == s.reqs[r].background && q.ended == s.reqs[r].ended == 0 && q.cbRef == s.reqs[r].cbRef
    requires HandsOf(DevOf(s, t)) == Some(r) && !s.reqs[r].qref.Tail?
    requires forall u: Tid | u != t :: HandsOf(DevOf(s, u)) != Some(r)
    ensures var s' := DeviceEnd(s, t, r, q);
            && Lists(s') && Aborting(s') && Held(s') && Background(s') && Touches(s, s', r) && s'.bug == s.bug
            && r !in s'.pending && r !in s'.processing && r !in s'.io && r !in s'.interrupts
            && r in s'.reqs && s'.reqs[r] == Ended(q, Device(t)) && DeviceAlone(s, s', t, r)
            && DevOk(DevOf(s', t), t, s'.reqs[r])
  {
    hide Lists, Aborting, Background, Held, Touches;
    var s' := DeviceEnd(s, t, r, q);
    EndParts(s, s', r, q, Device(t));
  }

  lemma EndParts(s: State, s': State, r: Rid, q: Req, owner: Owner)
    requires Lists(s) && Aborting(s) && Held(s) && Background(s) && r in s.reqs
    requires q.background == s.reqs[r].background && q.ended == s.reqs[r].ended == 0
    requires s' == EndLocked(s, r, q, owner).(devs := s'.devs) && s'.aborts == s.aborts
    ensures Lists(s') && Aborting(s') && Held(s') && Background(s') && Touches(s, s', r)
    ensures r !in s'.pending && r !in s'.processing && r !in s'.io && r !in s'.interrupts
    ensures s'.reqs[r] == Ended(q, owner) && s'.bug == s.bug
  {
    hide Lists, Touches;
    EndLists(s, s', r, q, owner);
    OutstandingUpdate(s.reqs, r, s'.reqs[r]);
    assert forall t: Tid :: AbortOf(s', t) == AbortOf(s, t);
    AbortingKeeps(s, s', None);
  }

  lemma EndLists(s: State, s': State, r: Rid, q: Req, owner: Owner)
    requires Lists(s) && r in s.reqs
    requires s' == EndLocked(s, r, q, owner).(devs := s'.devs, aborts := s'.aborts, lock := s'.lock)
    ensures Lists(s') && Touches(s, s', r) && s'.reqs[r] == Ended(q, owner)
    ensures r !in s'.pending && r !in s'.processing && r !in s'.io && r !in s'.interrupts
    ensures forall stage: int :: Cleared(s, stage) ==> Cleared(s', stage)
  {
    NoDupRemove(s.pending, r);
    NoDupRemove(s.processing, r);
    NoDupRemove(s.io, r);
    NoDupRemove(s.interrupts, r);
  }

  /** The request as fuse_dev_readv leaves it to request_end. */
  function ReadResult(q: Req, err: bool): Req {
    if q.aborted || !err then q.(locked := false) else q.(locked := false, error := -EIO)
  }

  lemma ReadOutcome(q: Req, t: Tid, err: bool, i: bool, x: bool)
    requires ReqOk(q, false, false, i, x) && q.qref == InHands(t) && (err || q.aborted || !q.isreply)
    ensures OutcomeOk(Ended(ReadResult(q, err), Device(t)))
    ensures ReadResult(q, err) == q.(locked := false, error := ReadResult(q, err).error)
  {
  }

  lemma ReadEnds(s: State, t: Tid, r: Rid, err: bool)
    requires r in s.reqs && (err || s.reqs[r].aborted || !s.reqs[r].isreply)
    ensures DoReadFinal(s, t, r, err) == DeviceEnd(s, t, r, ReadResult(s.reqs[r], err))
  {
    hide DeviceEnd;
  }

  lemma ReadFinalKeeps(s: State, t: Tid, r: Rid, err: bool)
    requires Inv(s) && DevOf(s, t) == ReadDone(r, err) && r in s.reqs
    ensures Inv(DoReadFinal(s, t, r, err))
  {
    hide Inv, ReqOk, DeviceEnd, MoveToProcessing, QueueInterrupt, OutcomeOk, Ended, ReadResult, DevOk;
    InHandsFact(s, t);
    OnlyHands(s, t, r);
    var q := s.reqs[r];
    if err || q.aborted || !q.isreply {
      ReadOutcome(q, t, err, r in s.io, r in s.interrupts);
      ReadEnds(s, t, r, err);
      DeviceEnds(s, t, r, ReadResult(q, err));
    } else {
      MoveToProcessingKeeps(s, t, r);
      if q.interrupted {
        QueueInterruptKeeps(MoveToProcessing(s, t, r), r);
      }
    }
  }

  lemma ProcessingReq(q: Req, t: Tid, i: bool, x: bool)
    requires ReqOk(q, false, false, i, x) && q.qref == InHands(t) && !q.aborted && q.state != Writing && q.isreply
    ensures i && !x && ReqOk(q.(locked := false, state := Sent, qref := Listed), false, true, false, false)
  {
  }

  lemma MoveToProcessingKeeps(s: State, t: Tid, r: Rid)
    requires Inv(s) && DevOf(s, t).ReadDone? && DevOf(s, t).r == r && r in s.reqs && !s.reqs[r].aborted
             && s.reqs[r].isreply
    ensures var s' := MoveToProcessing(s, t, r);
            Inv(s') && r in s'.reqs && s'.reqs[r].state == Sent && s'.reqs[r].interrupted == s.reqs[r].interrupted
              && r !in s'.interrupts
  {
    hide Inv, Lists, Aborting, Background, Held, ReqOk, Touches;
    Parts(s);
    DeviceFacts(s, t);
    OnlyHands(s, t, r);
    ProcessingReq(s.reqs[r], t, r in s.io, r in s.interrupts);
    MoveToProcessingParts(s, t, r);
    DeviceKeeps(s, MoveToProcessing(s, t, r), t, r);
  }

  lemma MoveToProcessingParts(s: State, t: Tid, r: Rid)
    requires Lists(s) && Aborting(s) && Held(s) && Background(s) && r in s.reqs && r in s.io && r !in s.processing
    ensures var s' := MoveToProcessing(s, t, r);
            Lists(s') && Aborting(s') && Held(s') && Background(s') && Touches(s, s', r)
  {
    var s' := MoveToProcessing(s, t, r);
    NoDupRemove(s.io, r);
    NoDupPrepend(r, s.processing);
    OutstandingUpdate(s.reqs, r, s'.reqs[r]);
    assert forall t: Tid :: Stage(AbortOf(s, t)) < 2 by { assert forall t: Tid :: Cleared(s, Stage(AbortOf(s, t))); }
    assert forall t: Tid :: Stage(AbortOf(s', t)) == Stage(AbortOf(s, t));
  }

  /** A connected connection has no thread aborting it. */
  lemma ConnectedResting(s: State)
    requires Aborting(s) && s.connected
    ensures forall t: Tid :: Stage(AbortOf(s, t)) <= 0
  {
    assert forall t: Tid :: Cleared(s, Stage(AbortOf(s, t)));
  }

  lemma ReadingReq(q: Req, t: Tid)
    requires ReqOk(q, true, false, false, false)
    ensures ReqOk(q.(state := Reading, qref := InHands(t)), false, false, true, false) && !q.locked
            && q.outcome == NoReply
  {
  }

  lemma TakeForReadingKeeps(s: State, t: Tid, r: Rid)
    requires Inv(s) && s.pending != [] && r == s.pending[0] && r in s.reqs && DevOf(s, t) == Idle && s.connected
    ensures Inv(TakeForReading(s, t, r))
    ensures s.reqs[r].outcome == NoReply && !s.reqs[r].locked
    ensures r in TakeForReading(s, t, r).reqs
    ensures TakeForReading(s, t, r).reqs[r] == s.reqs[r].(state := Reading, qref := InHands(t))
  {
    hide Inv, Lists, Aborting, Background, Held, ReqOk, Touches;
    Parts(s);
    HeadOfPending(s, r);
    OnNobodysHands(s, r);
    ReadingReq(s.reqs[r], t);
    TakeForReadingParts(s, t, r);
    DeviceKeeps(s, TakeForReading(s, t, r), t, r);
  }

  lemma HeadOfPending(s: State, r: Rid)
    requires Inv(s) && s.pending != [] && r == s.pending[0] && r in s.reqs
    ensures ReqOk(s.reqs[r], true, false, false, false) && s.reqs[r].qref == Listed && NoWindow(s, r)
    ensures r !in s.io && r !in s.processing && r !in s.interrupts
  {
    hide Inv;
    ReqFacts(s, r);
    ThreadFacts(s, r);
  }

  lemma TakeForReadingParts(s: State, t: Tid, r: Rid)
    requires Lists(s) && Aborting(s) && Held(s) && Background(s) && s.connected
    requires s.pending != [] && r == s.pending[0] && r in s.reqs && r !in s.io
    ensures var s' := TakeForReading(s, t, r);
            Lists(s') && Aborting(s') && Held(s') && Background(s') && Touches(s, s', r) && r !in s'.pending
  {
    var s' := TakeForReading(s, t, r);
    NoDupTail(s.pending);
    NoDupPrepend(r, s.io);
    OutstandingUpdate(s.reqs, r, s'.reqs[r]);
    ConnectedResting(s);
    assert forall t: Tid :: Stage(AbortOf(s', t)) == Stage(AbortOf(s, t));
  }

  lemma BeginReadKeeps(s: State, t: Tid, tooLarge: bool, setxattr: bool)
    requires Inv(s) && s.pending != [] && s.pending[0] in s.reqs && DevOf(s, t) == Idle && s.connected
    ensures Inv(DoBeginRead(s, t, tooLarge, setxattr))
  {
    hide Inv, DeviceEnd;
    var r := s.pending[0];
    TakeForReadingKeeps(s, t, r);
    if tooLarge {
      var error := if setxattr then -E2BIG else -EIO;
      RefuseKeeps(TakeForReading(s, t, r), t, r, error);
    }
  }

  lemma RefuseKeeps(s: State, t: Tid, r: Rid, error: int)
    requires Inv(s) && r in s.reqs && s.reqs[r].qref == InHands(t) && s.reqs[r].outcome == NoReply && !s.reqs[r].locked
             && error < 0
    ensures Inv(DeviceEnd(s, t, r, s.reqs[r].(error := error)))
  {
    hide Inv, ReqOk, DeviceEnd;
    OnlyHands(s, t, r);
    DeviceEnds(s, t, r, s.reqs[r].(error := error));
  }

  lemma ReadInterruptKeeps(s: State, r: Rid)
    requires Inv(s) && s.interrupts != [] && r == s.interrupts[0] && r in s.reqs
    ensures Inv(DoReadInterrupt(s, r))
  {
    hide Inv, ReqOk, Lists, Aborting, Background, Held, Touches, ThreadsAgree, DevOk, AbortOk, DoReadInterrupt;
    Parts(s);
    ReqFacts(s, r);
    IntrUniqueReq(s.reqs[r], NextUnique(s.reqctr), r in s.pending, r in s.processing, r in s.io);
    ThreadFacts(s, r);
    ReadInterruptParts(s, r);
    ReadInterruptAgrees(s, r);
    Keeps(s, DoReadInterrupt(s, r), r, None, None);
  }

  lemma ReadInterruptAgrees(s: State, r: Rid)
    requires r in s.reqs && s.interrupts != []
    requires forall t: Tid | HandsOf(DevOf(s, t)) == Some(r) :: DevOk(DevOf(s, t), t, s.reqs[r])
    requires forall t: Tid | Concerns(AbortOf(s, t)) && AbortOf(s, t).r == r :: AbortOk(AbortOf(s, t), t, s.reqs[r])
    requires forall t: Tid | s.reqs[r].qref == InHands(t) :: HandsOf(DevOf(s, t)) == Some(r)
    ensures ThreadsAgree(s, DoReadInterrupt(s, r), r, None, None)
  {
    hide NextUnique, DevOk, AbortOk;
    ThreadsBlind(s, r, s.reqs[r].(intrUnique := NextUnique(s.reqctr)));
    StillAgree(s, DoReadInterrupt(s, r), r);
  }

  lemma IntrUniqueReq(q: Req, u: int, p: bool, n: bool, i: bool)
    requires ReqOk(q, p, n, i, true)
    ensures ReqOk(q.(intrUnique := u), p, n, i, false)
  {
    IntrUniqueCommon(q, u, p, n, i);
    hide Common;
    match q.qref
    case NotSent =>
    case Listed =>
    case InHands(_) =>
    case Tail(_, _) =>
    case Gone =>
  }

  lemma IntrUniqueCommon(q: Req, u: int, p: bool, n: bool, i: bool)
    requires Common(q, p, n, i, true)
    ensures Common(q.(intrUnique := u), p, n, i, false)
  {
  }

  lemma ReadInterruptParts(s: State, r: Rid)
    requires Lists(s) && Aborting(s) && Held(s) && Background(s) && s.interrupts != [] && r == s.interrupts[0]
             && r in s.reqs
    ensures var s' := DoReadInterrupt(s, r);
            Lists(s') && Aborting(s') && Held(s') && Background(s') && Touches(s, s', r) && r !in s'.interrupts
            && s'.bug == s.bug && s'.pending == s.pending && s'.processing == s.processing && s'.io == s.io
            && r in s'.reqs && s'.reqs[r] == s.reqs[r].(intrUnique := NextUnique(s.reqctr))
  {
    var s' := DoReadInterrupt(s, r);
    NoDupTail(s.interrupts);
    OutstandingUpdate(s.reqs, r, s'.reqs[r]);
    AbortingKeeps(s, s', None);
  }

  lemma WritingReq(q: Req, t: Tid, m: Message, x: bool)
    requires ReqOk(q, false, true, false, x) && !q.aborted
    ensures ReqOk(Taken(q, t, m), false, false, true, x)
  {
  }

  /** A sent request. */
  lemma SentFacts(s: State, r: Rid)
    requires Inv(s) && r in s.processing && r in s.reqs
    ensures ReqOk(s.reqs[r], false, true, false, r in s.interrupts) && s.reqs[r].qref == Listed
            && s.reqs[r].state == Sent
    ensures r !in s.pending && r !in s.io && s.reqs[r].ended == 0 && s.reqs[r].outcome == NoReply && !s.reqs[r].locked
    ensures s.reqs[r].intrUnique != 0 ==> s.reqs[r].interrupted
    ensures s.reqs[r].aborted ==> s.reqs[r].error < 0
  {
    hide Inv;
    ReqFacts(s, r);
  }

  lemma TakeForWritingKeeps(s: State, t: Tid, r: Rid, m: Message)
    requires Inv(s) && r in s.processing && r in s.reqs && DevOf(s, t) == Idle && s.connected
    requires NoWindow(s, r) && !s.reqs[r].aborted && s.reqs[r].unique == m.unique
    ensures Inv(TakeForWriting(s, t, r, m))
  {
    hide Inv, Lists, Aborting, Background, Held, ReqOk, Touches, TakeForWriting, DeviceAlone, DevOk, NoWindow;
    Parts(s);
    SentFacts(s, r);
    OnNobodysHands(s, r);
    WritingReq(s.reqs[r], t, m, r in s.interrupts);
    TakeForWritingParts(s, t, r, m);
    TakeForWritingThreads(s, t, r, m);
    DeviceKeeps(s, TakeForWriting(s, t, r, m), t, r);
  }

  lemma TakeForWritingThreads(s: State, t: Tid, r: Rid, m: Message)
    requires r in s.reqs && DevOf(s, t) == Idle && s.reqs[r].qref == Listed && forall u: Tid ::
             HandsOf(DevOf(s, u)) != Some(r)
    requires s.reqs[r].unique == m.unique
    ensures var s' := TakeForWriting(s, t, r, m);
            && r in s'.reqs && DeviceAlone(s, s', t, r) && DevOk(DevOf(s', t), t, s'.reqs[r])
            && s'.pending == s.pending && s'.interrupts == s.interrupts && r in s'.io && s'.bug == s.bug
            && s'.reqs[r] == Taken(s.reqs[r], t, m)
  {
    hide Remove;
  }

  lemma TakeForWritingParts(s: State, t: Tid, r: Rid, m: Message)
    requires Lists(s) && Aborting(s) && Held(s) && Background(s) && s.connected
    requires r in s.processing && r in s.reqs && r !in s.io
    ensures var s' := TakeForWriting(s, t, r, m);
            Lists(s') && Aborting(s') && Held(s') && Background(s') && Touches(s, s', r)
            && r !in s'.processing
  {
    var s' := TakeForWriting(s, t, r, m);
    NoDupRemove(s.processing, r);
    NoDupPrepend(r, s.io);
    OutstandingUpdate(s.reqs, r, s'.reqs[r]);
    ConnectedResting(s);
    assert forall t: Tid :: Stage(AbortOf(s', t)) == Stage(AbortOf(s, t));
  }

  lemma WindowReq(q: Req, t: Tid, x: bool)
    requires ReqOk(q, false, true, false, x) && q.aborted
    ensures ReqOk(q.(window := Some(t)), false, true, false, x)
  {
  }

  lemma EnterWindowKeeps(s: State, t: Tid, r: Rid)
    requires Inv(s) && r in s.processing && r in s.reqs && DevOf(s, t) == Idle && NoWindow(s, r) && s.reqs[r].aborted
    ensures Inv(EnterWindow(s, t, r))
  {
    Parts(s);
    SentFacts(s, r);
    OnNobodysHands(s, r);
    WindowReq(s.reqs[r], t, r in s.interrupts);
    hide Inv, Lists, Aborting, Background, Held, ReqOk, Touches, EnterWindow, DeviceAlone, DevOk, NoWindow;
    EnterWindowParts(s, t, r);
    DeviceKeeps(s, EnterWindow(s, t, r), t, r);
  }

  lemma EnterWindowParts(s: State, t: Tid, r: Rid)
    requires Lists(s) && Aborting(s) && Held(s) && Background(s) && r in s.reqs
    requires DevOf(s, t) == Idle && s.reqs[r].qref == Listed && forall u: Tid :: HandsOf(DevOf(s, u)) != Some(r)
    ensures var s' := EnterWindow(s, t, r);
            && Lists(s') && Aborting(s') && Held(s') && Background(s') && Touches(s, s', r) && s'.bug == s.bug
            && s'.pending == s.pending && s'.processing == s.processing && s'.io == s.io
            && s'.interrupts == s.interrupts
            && s'.reqs[r] == s.reqs[r].(window := Some(t)) && DeviceAlone(s, s', t, r)
            && DevOk(DevOf(s', t), t, s'.reqs[r])
  {
    hide Lists, Aborting, Background, Held, Touches;
    var s' := EnterWindow(s, t, r);
    DeviceMovesParts(s, s', t, r, s'.reqs[r]);
  }

  lemma BeginWriteKeeps(s: State, t: Tid, m: Message)
    requires Inv(s) && DevOf(s, t) == Idle && s.connected && m.unique != 0
    requires Disciplined(s, BeginWrite(t, m))
    ensures Inv(DoBeginWrite(s, t, m))
  {
    var found := Find(s.processing, s.reqs, m.unique);
    if found.Some? {
      var r := found.value;
      SentFacts(s, r);
      hide Inv, ReqOk, TakeForWriting, QueueInterrupt, NoWindow;
      if s.reqs[r].aborted {
        EnterWindowKeeps(s, t, r);
      } else if s.reqs[r].intrUnique == m.unique {
        InterruptReplyKeeps(s, r);
      } else {
        TakeForWritingKeeps(s, t, r, m);
      }
    }
  }

  lemma InterruptReplyKeeps(s: State, r: Rid)
    requires Inv(s) && r in s.processing && r in s.reqs && s.reqs[r].interrupted
    ensures Inv(s.(noInterrupt := true))
    ensures r !in s.interrupts ==> Inv(QueueInterrupt(s, r))
  {
    hide Inv, ReqOk;
    NoInterruptKeeps(s);
    SentFacts(s, r);
    if r !in s.interrupts {
      QueueInterruptKeeps(s, r);
    }
  }

  lemma NoInterruptKeeps(s: State)
    requires Inv(s)
    ensures Inv(s.(noInterrupt := true)) && Inv(s.(connError := true))
  {
    hide Inv;
    Parts(s);
    FlagsDoNotMatter(s, s.(noInterrupt := true));
    FlagsDoNotMatter(s, s.(connError := true));
    Assemble(s.(noInterrupt := true));
    Assemble(s.(connError := true));
  }

  lemma FlagsDoNotMatter(s: State, s': State)
    requires s' == s.(noInterrupt := s'.noInterrupt, connError := s'.connError)
    requires !s.bug && Lists(s) && Threads(s) && Aborting(s) && Background(s) && Held(s)
    requires forall r <- s.reqs :: ReqAt(s, r)
    ensures !s'.bug && Lists(s') && Threads(s') && Aborting(s') && Background(s') && Held(s')
    ensures forall r <- s'.reqs :: ReqAt(s', r)
  {
    hide DevOk, AbortOk, ReqOk;
    assert forall t: Tid :: DevOf(s', t) == DevOf(s, t) && AbortOf(s', t) == AbortOf(s, t);
    assert forall r <- s'.reqs :: ReqAt(s, r);
  }

  lemma WriteOutcome(q: Req, q1: Req, t: Tid, r: Rid, m: Message, err: bool, i: bool, x: bool)
    requires ReqOk(q, false, false, i, x) && DevOk(WriteDone(r, m, err), t, q)
    requires q1 == WriteResult(q, m, err)
    ensures q1 == q.(locked := false, error := q1.error, outcome := q1.outcome) && OutcomeOk(Ended(q1, Device(t)))
  {
    hide Placement, CallerOk, FitsRequest, Ended;
    if err || q.aborted {
      RejectedOk(q, q1, t);
    } else {
      AcceptedOk(q, q1, t, m);
    }
  }

  lemma RejectedOk(q: Req, q1: Req, t: Tid)
    requires q.ended == 0 && q1 == q.(locked := false, error := q1.error, outcome := Rejected) && q1.error < 0
    ensures OutcomeOk(Ended(q1, Device(t)))
  {
  }

  lemma AcceptedOk(q: Req, q1: Req, t: Tid, m: Message)
    requires HeaderOk(q, m) && q.data == m.payload && FitsRequest(q, m)
    requires q.ended == 0 && !q.aborted && q1 == q.(locked := false, outcome := Accepted(m))
    ensures OutcomeOk(Ended(q1, Device(t)))
  {
  }

  lemma WriteFinalKeeps(s: State, t: Tid, r: Rid, m: Message, err: bool)
    requires Inv(s) && DevOf(s, t) == WriteDone(r, m, err) && r in s.reqs
    ensures Inv(DoWriteFinal(s, t, r, m, err))
  {
    hide Inv, ReqOk, DeviceEnd, DevOk, OutcomeOk, Ended, WriteResult;
    DeviceFacts(s, t);
    InHandsFact(s, t);
    OnlyHands(s, t, r);
    WriteOutcome(s.reqs[r], WriteResult(s.reqs[r], m, err), t, r, m, err, r in s.io, r in s.interrupts);
    DeviceEnds(s, t, r, WriteResult(s.reqs[r], m, err));
  }

  lemma InHandsFact(s: State, t: Tid)
    requires Inv(s) && !DevOf(s, t).Idle? && !DevOf(s, t).WriteWindow? && !DevOf(s, t).Ending?
    ensures DevOf(s, t).r in s.reqs && s.reqs[DevOf(s, t).r].qref == InHands(t)
  {
    hide Inv;
    DeviceFacts(s, t);
  }

  lemma WindowEndKeeps(s: State, t: Tid, r: Rid)
    requires Inv(s) && DevOf(s, t) == WriteWindow(r) && r in s.reqs
    ensures Inv(DeviceEnd(s, t, r, s.reqs[r].(outcome := Rejected)))
  {
    hide Inv, Lists, Aborting, Background, Held, ReqOk, Touches, OutcomeOk, DeviceEnd, DeviceAlone, Ended, Threads,
         DevOk;
    Parts(s);
    WindowFacts(s, t, r);
    SentFacts(s, r);
    var q := s.reqs[r].(outcome := Rejected);
    WindowOutcome(s.reqs[r], q, t, r in s.interrupts);
    EndReq(s.reqs[r], q, t, Device(t), true, false, r in s.interrupts);
    DeviceEndParts(s, t, r, q);
    DeviceKeeps(s, DeviceEnd(s, t, r, q), t, r);
  }

  lemma WindowOutcome(q: Req, q1: Req, t: Tid, x: bool)
    requires ReqOk(q, false, true, false, x) && q.aborted && q1 == q.(outcome := Rejected)
    ensures OutcomeOk(Ended(q1, Device(t)))
  {
  }

  lemma WindowFacts(s: State, t: Tid, r: Rid)
    requires Inv(s) && DevOf(s, t) == WriteWindow(r) && r in s.reqs
    ensures r in s.processing && s.reqs[r].aborted
    ensures forall u: Tid | u != t :: HandsOf(DevOf(s, u)) != Some(r)
  {
    hide Inv;
    DeviceFacts(s, t);
    ReqFacts(s, r);
    ThreadFacts(s, r);
  }

  lemma TailReq(q: Req, owner: Owner, owes: bool)
    requires ReqOk(q, false, false, false, false) && q.qref == Tail(owner, owes)
    ensures ReqOk(EndTailed(q, owes), false, false, false, false)
    ensures EndTailed(q, owes).cbRef == q.cbRef && Outstanding(EndTailed(q, owes)) == Outstanding(q)
            && EndTailed(q, owes).qref == Gone
  {
  }

  lemma TailNowhere(s: State, r: Rid)
    requires Inv(s) && r in s.reqs && s.reqs[r].qref.Tail?
    ensures ReqOk(s.reqs[r], false, false, false, false)
    ensures r !in s.pending && r !in s.processing && r !in s.io && r !in s.interrupts
  {
    hide Inv;
    ReqFacts(s, r);
  }

  lemma DeviceTailKeeps(s: State, t: Tid, r: Rid, owes: bool)
    requires Inv(s) && DevOf(s, t) == Ending(r, owes) && r in s.reqs
    ensures Inv(DoDeviceTail(s, t, r, owes))
  {
    hide Inv, Lists, Aborting, Background, Held, ReqOk, Touches, EndTailed, DeviceAlone, DevOk, Threads, Outstanding;
    Parts(s);
    EndingFact(s, t, r, owes);
    TailNowhere(s, r);
    TailAlone(s, t, r, owes);
    TailReq(s.reqs[r], Device(t), owes);
    var s' := DoDeviceTail(s, t, r, owes);
    DeviceMovesParts(s, s', t, r, EndTailed(s.reqs[r], owes));
    DeviceTailAlone(s, t, r, owes);
    DeviceKeeps(s, s', t, r);
  }

  lemma EndingFact(s: State, t: Tid, r: Rid, owes: bool)
    requires Inv(s) && DevOf(s, t) == Ending(r, owes) && r in s.reqs
    ensures s.reqs[r].qref == Tail(Device(t), owes)
  {
    hide Inv;
    DeviceFacts(s, t);
  }

  lemma DeviceTailAlone(s: State, t: Tid, r: Rid, owes: bool)
    requires r in s.reqs && DevOf(s, t) == Ending(r, owes) && s.reqs[r].qref == Tail(Device(t), owes)
    requires forall u: Tid | u != t :: HandsOf(DevOf(s, u)) != Some(r)
    ensures DeviceAlone(s, DoDeviceTail(s, t, r, owes), t, r)
  {
  }

  lemma TailAlone(s: State, t: Tid, r: Rid, owes: bool)
    requires Inv(s) && r in s.reqs && s.reqs[r].qref == Tail(Device(t), owes)
    ensures forall u: Tid | u != t :: HandsOf(DevOf(s, u)) != Some(r)
  {
    hide Inv;
    ThreadFacts(s, r);
    ReqFacts(s, r);
  }

  // ----- dropping references -----

  lemma PutReq(q: Req, p: bool, u: bool, i: bool, x: bool)
    requires ReqOk(q, p, u, i, x) && q.caller == Returned
    ensures ReqOk(Put(q).(caller := Released), p, u, i, x)
  {
    var q' := Put(q).(caller := Released);
    ReleasedCommon(q, p, u, i, x);
    hide Common;
    match q.qref
    case NotSent =>
    case Listed =>
    case InHands(_) =>
    case Tail(_, _) =>
    case Gone =>
  }

  lemma ReleasedCommon(q: Req, p: bool, u: bool, i: bool, x: bool)
    requires Common(q, p, u, i, x) && q.caller == Returned
    ensures Common(Put(q).(caller := Released), p, u, i, x)
  {
  }

  lemma CallerPutKeeps(s: State, r: Rid)
    requires Inv(s) && r in s.reqs && s.reqs[r].caller == Returned
    ensures Inv(DoCallerPut(s, r))
  {
    hide Inv, ReqOk;
    ReqFacts(s, r);
    var q := Put(s.reqs[r]).(caller := Released);
    PutReq(s.reqs[r], r in s.pending, r in s.processing, r in s.io, r in s.interrupts);
    BlindReqKeeps(s, r, q);
  }

  lemma UnsentTailKeeps(s: State, r: Rid, owes: bool)
    requires Inv(s) && r in s.reqs && s.reqs[r].qref == Tail(Sender, owes)
    ensures Inv(DoUnsentTail(s, r, owes))
  {
    hide Inv, ReqOk, Lists, Aborting, Background, Held, EndTailed, ThreadsAgree, DevOk, AbortOk;
    Parts(s);
    TailNowhere(s, r);
    TailReq(s.reqs[r], Sender, owes);
    ThreadFacts(s, r);
    var s' := DoUnsentTail(s, r, owes);
    StillKeeps(s, s', r);
    UnsentTailAgrees(s, r, owes);
    Keeps(s, s', r, None, None);
  }

  lemma UnsentTailAgrees(s: State, r: Rid, owes: bool)
    requires r in s.reqs && s.reqs[r].qref == Tail(Sender, owes)
    requires forall t: Tid | HandsOf(DevOf(s, t)) == Some(r) :: DevOk(DevOf(s, t), t, s.reqs[r])
    requires forall t: Tid | Concerns(AbortOf(s, t)) && AbortOf(s, t).r == r :: AbortOk(AbortOf(s, t), t, s.reqs[r])
    ensures ThreadsAgree(s, DoUnsentTail(s, r, owes), r, None, None)
  {
  }

  // ----- aborting and releasing -----

  /** The lock and the aborting threads move; no request does. */
  lemma AbortThreadKeeps(s: State, s': State, t: Tid)
    requires Inv(s) && s'.reqs == s.reqs && s'.devs == s.devs && s'.bug == s.bug
    requires s'.pending == s.pending && s'.processing == s.processing && s'.io == s.io && s'.interrupts == s.interrupts
    requires s'.aborts == s.aborts[t := AbortOf(s', t)] && !Concerns(AbortOf(s', t))
    requires Aborting(s') && Background(s') && Held(s')
    ensures Inv(s')
  {
    hide Inv, Lists, Threads, Aborting, Background, Held, ReqAt;
    Parts(s);
    AbortThreadParts(s, s', t);
    Assemble(s');
  }

  lemma AbortThreadParts(s: State, s': State, t: Tid)
    requires s'.reqs == s.reqs && s'.devs == s.devs
    requires s'.pending == s.pending && s'.processing == s.processing && s'.io == s.io && s'.interrupts == s.interrupts
    requires s'.aborts == s.aborts[t := AbortOf(s', t)] && !Concerns(AbortOf(s', t))
    requires Lists(s) && Threads(s) && forall r <- s.reqs :: ReqAt(s, r)
    ensures Lists(s') && Threads(s') && forall r <- s'.reqs :: ReqAt(s', r)
  {
    hide DevOk, AbortOk, ReqOk;
    assert forall u: Tid :: DevOf(s', u) == DevOf(s, u);
    assert forall u: Tid | u != t :: AbortOf(s', u) == AbortOf(s, u);
    assert forall r <- s'.reqs :: ReqAt(s, r);
  }

  lemma AbortStartKeeps(s: State, t: Tid)
    requires Inv(s) && s.lock == None && AbortOf(s, t) == Resting && s.connected
    ensures Inv(DoAbortStart(s, t))
  {
    hide Inv, Aborting;
    var s' := DoAbortStart(s, t);
    Parts(s);
    assert forall u: Tid | u != t :: AbortOf(s', u) == AbortOf(s, u);
    AbortingKeeps(s, s', Some(t));
    AbortThreadKeeps(s, s', t);
  }

  lemma ReleaseStartKeeps(s: State, t: Tid)
    requires Inv(s) && s.lock == None && AbortOf(s, t) == Resting && forall u: Tid :: DevOf(s, u) == Idle
    ensures Inv(DoReleaseStart(s, t))
  {
    hide Inv, Aborting;
    var s' := DoReleaseStart(s, t);
    Parts(s);
    NoIoWhenIdle(s);
    assert forall u: Tid | u != t :: AbortOf(s', u) == AbortOf(s, u);
    AbortingKeeps(s, s', Some(t));
    AbortThreadKeeps(s, s', t);
  }

  lemma NoIoWhenIdle(s: State)
    requires Inv(s) && forall u: Tid :: DevOf(s, u) == Idle
    ensures s.io == []
  {
    hide Inv;
    if s.io != [] {
      IoIsBusy(s, s.io[0]);
    }
  }

  lemma IoIsBusy(s: State, r: Rid)
    requires Inv(s) && r in s.io
    ensures exists u: Tid :: DevOf(s, u) != Idle
  {
    hide Inv;
    Parts(s);
    ReqFacts(s, r);
    ThreadFacts(s, r);
    var u :| s.reqs[r].qref == InHands(u);
    assert HandsOf(DevOf(s, u)) == Some(r);
  }

  lemma RelockKeeps(s: State, t: Tid, p: Phase)
    requires Inv(s) && s.lock == None && AbortOf(s, t) == Relock(p)
    ensures Inv(DoRelock(s, t, p))
  {
    var s' := DoRelock(s, t, p);
    Parts(s);
    assert forall u: Tid | u != t :: AbortOf(s', u) == AbortOf(s, u);
    assert Cleared(s, Stage(AbortOf(s, t)));
    AbortingKeeps(s, s', Some(t));
    hide Inv, Aborting;
    AbortThreadKeeps(s, s', t);
  }

  /** The list of the thread's phase is empty: on to the next, or done. */
  lemma NextPhaseKeeps(s: State, t: Tid)
    requires Inv(s) && s.lock == Some(t)
    ensures AbortOf(s, t) == Holding(IoPhase) && s.io == [] ==> Inv(SetAbort(s, t, Holding(PendingPhase)))
    ensures AbortOf(s, t) == Holding(PendingPhase) && s.pending == [] ==> Inv(SetAbort(s, t, Holding(ProcessingPhase)))
    ensures AbortOf(s, t) == Holding(ProcessingPhase) && s.processing == []
            ==> Inv(s.(aborts := s.aborts[t := Completed], lock := None))
  {
    hide Inv;
    if AbortOf(s, t) == Holding(IoPhase) && s.io == [] {
      AbortTurns(s, SetAbort(s, t, Holding(PendingPhase)), t);
    } else if AbortOf(s, t) == Holding(PendingPhase) && s.pending == [] {
      AbortTurns(s, SetAbort(s, t, Holding(ProcessingPhase)), t);
    } else if AbortOf(s, t) == Holding(ProcessingPhase) && s.processing == [] {
      AbortTurns(s, s.(aborts := s.aborts[t := Completed], lock := None), t);
    }
  }

  lemma AbortTurns(s: State, s': State, t: Tid)
    requires Inv(s) && s.lock == Some(t) && AbortOf(s, t).Holding?
             && s' == s.(aborts := s.aborts[t := AbortOf(s', t)], lock := s'.lock)
    requires (s'.lock == Some(t) && AbortOf(s', t).Holding?) || (s'.lock == None && AbortOf(s', t) == Completed)
    requires Cleared(s, Stage(AbortOf(s, t))) ==> Cleared(s', Stage(AbortOf(s', t)))
    ensures Inv(s')
  {
    Parts(s);
    assert forall u: Tid | u != t :: AbortOf(s', u) == AbortOf(s, u);
    AbortingKeeps(s, s', Some(t));
    hide Inv, Aborting;
    AbortThreadKeeps(s, s', t);
  }

  /** Abort thread `t` deals with `r` in the step; the devices stand still. */
  ghost predicate AbortAlone(s: State, s': State, t: Tid, r: Rid)
    requires r in s.reqs && r in s'.reqs
  {
    && s'.devs == s.devs && s'.aborts == s.aborts[t := AbortOf(s', t)]
    && (Concerns(AbortOf(s', t)) ==> AbortOf(s', t).r == r && AbortOk(AbortOf(s', t), t, s'.reqs[r]))
  }

  lemma AbortKeeps(s: State, s': State, t: Tid, r: Rid)
    requires Inv(s) && r in s.reqs && r in s'.reqs && AbortAlone(s, s', t, r)
    requires forall u: Tid | HandsOf(DevOf(s, u)) == Some(r) :: DevOk(DevOf(s, u), u, s'.reqs[r])
    requires forall u: Tid | u != t && Concerns(AbortOf(s, u)) && AbortOf(s, u).r == r ::
             AbortOk(AbortOf(s, u), u, s'.reqs[r])
    requires forall u: Tid | s'.reqs[r].qref == InHands(u) :: s.reqs[r].qref == InHands(u)
    requires Touches(s, s', r) && !s'.bug && Lists(s') && ReqAt(s', r)
    requires Aborting(s') && Background(s') && Held(s')
    ensures Inv(s')
  {
    hide Inv, DevOk, AbortOk, Touches, Lists, ReqAt, Aborting, Background, Held, ThreadsAgree, AbortAlone;
    ThreadFacts(s, r);
    AbortAgrees(s, s', t, r);
    Keeps(s, s', r, None, Some(t));
  }

  lemma AbortAgrees(s: State, s': State, t: Tid, r: Rid)
    requires r in s.reqs && r in s'.reqs && AbortAlone(s, s', t, r)
    requires forall u: Tid | HandsOf(DevOf(s, u)) == Some(r) :: DevOk(DevOf(s, u), u, s'.reqs[r])
    requires forall u: Tid | u != t && Concerns(AbortOf(s, u)) && AbortOf(s, u).r == r ::
             AbortOk(AbortOf(s, u), u, s'.reqs[r])
    requires forall u: Tid | s'.reqs[r].qref == InHands(u) :: s.reqs[r].qref == InHands(u)
    requires forall u: Tid | s.reqs[r].qref == InHands(u) :: HandsOf(DevOf(s, u)) == Some(r)
    ensures ThreadsAgree(s, s', r, None, Some(t))
  {
    hide DevOk, AbortOk;
    assert forall u: Tid :: DevOf(s', u) == DevOf(s, u);
    assert forall u: Tid | u != t :: AbortOf(s', u) == AbortOf(s, u);
  }

  lemma IoReq(q: Req, t: Tid, x: bool)
    requires ReqOk(q, false, false, true, x)
    ensures q.qref.InHands? && q.cbRef == None && q.ended == 0
    ensures ReqOk(AbortedIo(q, t), false, false, false, x)
  {
  }

  lemma AbortIoKeeps(s: State, t: Tid)
    requires Inv(s) && s.lock == Some(t) && AbortOf(s, t) == Holding(IoPhase) && (s.io == [] || s.io[0] in s.reqs)
    ensures Inv(DoAbortIo(s, t))
  {
    hide Inv, Lists, Aborting, Background, Held, ReqOk, Touches, DevOk, AbortOk, AbortAlone, AbortedIo, DoAbortIo;
    if s.io == [] {
      NextPhaseKeeps(s, t);
      assert DoAbortIo(s, t) == SetAbort(s, t, Holding(PendingPhase)) by { EmptyIo(s, t); }
    } else {
      var r := s.io[0];
      Parts(s);
      ReqFacts(s, r);
      ThreadFacts(s, r);
      IoHead(s, r);
      IoReq(s.reqs[r], t, r in s.interrupts);
      AbortIoParts(s, t);
      AbortIoThreads(s, t, r);
      AbortKeeps(s, DoAbortIo(s, t), t, r);
    }
  }

  lemma EmptyIo(s: State, t: Tid)
    requires s.io == []
    ensures DoAbortIo(s, t) == SetAbort(s, t, Holding(PendingPhase))
  {
  }

  lemma IoHead(s: State, r: Rid)
    requires Inv(s) && s.io != [] && r == s.io[0] && r in s.reqs
    ensures ReqOk(s.reqs[r], false, false, true, r in s.interrupts) && r !in s.pending && r !in s.processing
  {
    hide Inv;
    ReqFacts(s, r);
  }

  lemma AbortIoParts(s: State, t: Tid)
    requires Lists(s) && Aborting(s) && Background(s) && Held(s)
    requires s.lock == Some(t) && AbortOf(s, t) == Holding(IoPhase) && s.io != [] && s.io[0] in s.reqs
    ensures var s' := DoAbortIo(s, t);
            Lists(s') && Aborting(s') && Background(s') && Held(s') && Touches(s, s', s.io[0]) && s.io[0] !in s'.io
              && s'.bug == s.bug
  {
    hide Lists, Aborting, Touches, Background, Held, DoAbortIo;
    AbortIoLists(s, t);
    AbortIoAborting(s, t);
    AbortIoCounts(s, t);
  }

  lemma AbortIoCounts(s: State, t: Tid)
    requires Background(s) && Held(s) && s.lock == Some(t) && AbortOf(s, t) == Holding(IoPhase) && s.io != []
             && s.io[0] in s.reqs
    ensures Background(DoAbortIo(s, t)) && Held(DoAbortIo(s, t))
  {
    hide AbortedIo, OutstandingSet;
    var r := s.io[0];
    StillOutstanding(s.reqs[r], t);
    OutstandingUpdate(s.reqs, r, AbortedIo(s.reqs[r], t));
  }

  lemma StillOutstanding(q: Req, t: Tid)
    ensures Outstanding(AbortedIo(q, t)) == Outstanding(q)
  {
  }

  lemma AbortIoLists(s: State, t: Tid)
    requires Lists(s) && s.io != [] && s.io[0] in s.reqs
    ensures var s' := DoAbortIo(s, t);
            Lists(s') && Touches(s, s', s.io[0]) && s.io[0] !in s'.io && s'.bug == s.bug
  {
    hide AbortedIo, Remove;
    NoDupTail(s.io);
    var s' := DoAbortIo(s, t);
    assert s'.pending == s.pending && s'.processing == s.processing && s'.interrupts == s.interrupts
      && s'.io == s.io[1..];
    assert s'.reqs == s.reqs[s.io[0] := AbortedIo(s.reqs[s.io[0]], t)];
  }

  lemma AbortIoAborting(s: State, t: Tid)
    requires Aborting(s) && AbortOf(s, t) == Holding(IoPhase) && s.io != [] && s.io[0] in s.reqs
    ensures Aborting(DoAbortIo(s, t))
  {
    var s' := DoAbortIo(s, t);
    assert forall u: Tid | u != t :: AbortOf(s', u) == AbortOf(s, u);
    assert Cleared(s, Stage(AbortOf(s, t)));
    hide Aborting;
    AbortingKeeps(s, s', Some(t));
  }

  /** A request that is aborted under I/O stays as its device thread needs it. */
  lemma AbortIoThreads(s: State, t: Tid, r: Rid)
    requires s.io != [] && r == s.io[0] && r in s.reqs && s.reqs[r].cbRef == None && AbortOf(s, t) == Holding(IoPhase)
    requires forall u: Tid | HandsOf(DevOf(s, u)) == Some(r) :: DevOk(DevOf(s, u), u, s.reqs[r])
    requires forall u: Tid | Concerns(AbortOf(s, u)) && AbortOf(s, u).r == r :: AbortOk(AbortOf(s, u), u, s.reqs[r])
    requires s.reqs[r].qref.InHands?
    ensures var s' := DoAbortIo(s, t);
            && r in s'.reqs && AbortAlone(s, s', t, r) && s'.reqs[r] == AbortedIo(s.reqs[r], t)
            && s'.pending == s.pending && s'.processing == s.processing && s'.interrupts == s.interrupts
    ensures AbortedIo(s.reqs[r], t).qref == s.reqs[r].qref
    ensures forall u: Tid | HandsOf(DevOf(s, u)) == Some(r) :: DevOk(DevOf(s, u), u, AbortedIo(s.reqs[r], t))
    ensures forall u: Tid | u != t && Concerns(AbortOf(s, u)) && AbortOf(s, u).r == r ::
            AbortOk(AbortOf(s, u), u, AbortedIo(s.reqs[r], t))
  {
    hide DoAbortIo, AbortAlone;
    AbortIoAlone(s, t, r);
  }

  lemma AbortIoAlone(s: State, t: Tid, r: Rid)
    requires s.io != [] && r == s.io[0] && r in s.reqs && AbortOf(s, t) == Holding(IoPhase)
    ensures var s' := DoAbortIo(s, t);
            && r in s'.reqs && AbortAlone(s, s', t, r) && s'.reqs[r] == AbortedIo(s.reqs[r], t)
            && s'.pending == s.pending && s'.processing == s.processing && s'.interrupts == s.interrupts
  {
    hide AbortedIo, DoAbortIo;
    AbortIoMoves(s, t, r);
    AbortedIoMarks(s.reqs[r], t);
  }

  lemma AbortIoMoves(s: State, t: Tid, r: Rid)
    requires s.io != [] && r == s.io[0] && r in s.reqs && AbortOf(s, t) == Holding(IoPhase)
    ensures var s' := DoAbortIo(s, t);
            && r in s'.reqs && s'.reqs[r] == AbortedIo(s.reqs[r], t)
            && s'.pending == s.pending && s'.processing == s.processing && s'.interrupts == s.interrupts
            && s'.devs == s.devs && s'.aborts == s.aborts[t := AbortOf(s', t)]
            && AbortOf(s', t) == if s.reqs[r].endFn then AwaitUnlock(r) else Holding(IoPhase)
  {
    hide AbortedIo;
    if !s.reqs[r].endFn {
      assert s.aborts[t := Holding(IoPhase)] == s.aborts;
    }
  }

  lemma AbortedIoMarks(q: Req, t: Tid)
    ensures q.endFn ==> AbortedIo(q, t).cbRef == Some(t)
  {
  }

  lemma CallbackReq(q: Req, t: Tid, p: bool, u: bool, i: bool, x: bool)
    requires ReqOk(q, p, u, i, x) && q.cbRef == Some(t) && !q.locked
    ensures ReqOk(Put(q.(callbacks := q.callbacks + 1, cbRef := None)), p, u, i, x)
  {
    CallbackCommon(q, t, p, u, i, x);
    hide Common;
    match q.qref
    case NotSent =>
    case Listed =>
    case InHands(_) =>
    case Tail(_, _) =>
    case Gone =>
  }

  lemma CallbackCommon(q: Req, t: Tid, p: bool, u: bool, i: bool, x: bool)
    requires Common(q, p, u, i, x) && q.cbRef == Some(t) && !q.locked
    ensures Common(Put(q.(callbacks := q.callbacks + 1, cbRef := None)), p, u, i, x)
  {
  }

  lemma AbortCallbackKeeps(s: State, t: Tid, r: Rid)
    requires Inv(s) && AbortOf(s, t) == AwaitUnlock(r) && r in s.reqs && !s.reqs[r].locked
    ensures Inv(DoAbortCallback(s, t, r))
  {
    hide Inv, Lists, Aborting, Background, Held, ReqAt, Touches, DevOk, AbortOk, AbortAlone, DoAbortCallback, Threads;
    Parts(s);
    CallbackAt(s, t, r);
    CallbackThreads(s, t, r);
    CallbackParts(s, t, r);
    AbortKeeps(s, DoAbortCallback(s, t, r), t, r);
  }

  lemma CallbackAt(s: State, t: Tid, r: Rid)
    requires Inv(s) && AbortOf(s, t) == AwaitUnlock(r) && r in s.reqs && !s.reqs[r].locked
    ensures r in DoAbortCallback(s, t, r).reqs && ReqAt(DoAbortCallback(s, t, r), r)
  {
    hide Inv, ReqOk, Put, DoAbortCallback, Outstanding;
    ReqFacts(s, r);
    AbortFacts(s, t);
    CallbackReq(s.reqs[r], t, r in s.pending, r in s.processing, r in s.io, r in s.interrupts);
    CallbackMoves(s, t, r);
  }

  /** The lists and flags stand still while the end function runs. */
  lemma CallbackMoves(s: State, t: Tid, r: Rid)
    requires r in s.reqs
    ensures var s' := DoAbortCallback(s, t, r);
            && s'.pending == s.pending && s'.processing == s.processing && s'.io == s.io
            && s'.interrupts == s.interrupts
            && r in s'.reqs && s'.reqs[r] == Put(s.reqs[r].(callbacks := s.reqs[r].callbacks + 1, cbRef := None))
  {
  }

  lemma CallbackParts(s: State, t: Tid, r: Rid)
    requires Lists(s) && Aborting(s) && Background(s) && Held(s) && r in s.reqs && AbortOf(s, t) == AwaitUnlock(r)
    ensures var s' := DoAbortCallback(s, t, r);
            && Lists(s') && Aborting(s') && Background(s') && Held(s') && Touches(s, s', r) && s'.bug == s.bug
            && s'.pending == s.pending && s'.processing == s.processing && s'.io == s.io
            && s'.interrupts == s.interrupts
            && s'.reqs[r] == Put(s.reqs[r].(callbacks := s.reqs[r].callbacks + 1, cbRef := None))
  {
    hide Lists, Aborting, Background, Held, Touches;
    var s' := DoAbortCallback(s, t, r);
    AbortMoveParts(s, s', t, r);
  }

  lemma AbortFacts(s: State, t: Tid)
    requires Inv(s) && Concerns(AbortOf(s, t))
    ensures AbortOf(s, t).r in s.reqs && AbortOk(AbortOf(s, t), t, s.reqs[AbortOf(s, t).r])
  {
    hide Inv, AbortOk, Lists, Aborting, Background, Held, ReqAt;
    Parts(s);
  }

  lemma CallbackThreads(s: State, t: Tid, r: Rid)
    requires Inv(s) && AbortOf(s, t) == AwaitUnlock(r) && r in s.reqs
    ensures var s' := DoAbortCallback(s, t, r);
            && AbortAlone(s, s', t, r) && s'.reqs[r].qref == s.reqs[r].qref
            && (forall u: Tid | HandsOf(DevOf(s, u)) == Some(r) :: DevOk(DevOf(s, u), u, s'.reqs[r]))
            && (forall u: Tid | u != t && Concerns(AbortOf(s, u)) && AbortOf(s, u).r == r ::
               AbortOk(AbortOf(s, u), u, s'.reqs[r]))
  {
    hide Inv;
    ThreadFacts(s, r);
  }

  /** The lists stand still; thread `t` stays in its phase without the lock. */
  lemma AbortMoveParts(s: State, s': State, t: Tid, r: Rid)
    requires Lists(s) && Aborting(s) && Background(s) && Held(s) && r in s.reqs && r in s'.reqs
    requires s' == s.(reqs := s.reqs[r := s'.reqs[r]], aborts := s.aborts[t := AbortOf(s', t)])
             && Outstanding(s'.reqs[r]) == Outstanding(s.reqs[r])
    requires Stage(AbortOf(s', t)) == Stage(AbortOf(s, t)) && !AbortOf(s', t).Holding? && !AbortOf(s, t).Holding?
    ensures Lists(s') && Aborting(s') && Background(s') && Held(s') && Touches(s, s', r)
  {
    OutstandingUpdate(s.reqs, r, s'.reqs[r]);
    assert forall u: Tid | u != t :: AbortOf(s', u) == AbortOf(s, u);
    assert Cleared(s, Stage(AbortOf(s, t)));
    AbortingKeeps(s, s', Some(t));
  }

  lemma AbortTailKeeps(s: State, t: Tid, r: Rid, owes: bool, p: Phase)
    requires Inv(s) && AbortOf(s, t) == EndTail(r, owes, p) && r in s.reqs
    ensures Inv(AfterTail(s, t, r, owes, p))
  {
    hide Inv, Lists, Aborting, Background, Held, ReqAt, Touches, DevOk, AbortOk, AbortAlone, AfterTail, Threads;
    Parts(s);
    AbortTailAt(s, t, r, owes, p);
    AbortTailThreads(s, t, r, owes, p);
    AbortKeeps(s, AfterTail(s, t, r, owes, p), t, r);
  }

  lemma AbortTailAt(s: State, t: Tid, r: Rid, owes: bool, p: Phase)
    requires Inv(s) && AbortOf(s, t) == EndTail(r, owes, p) && r in s.reqs
    ensures var s' := AfterTail(s, t, r, owes, p);
            && r in s'.reqs && ReqAt(s', r) && !s'.reqs[r].qref.InHands? && s'.bug == s.bug
            && Lists(s') && Aborting(s') && Background(s') && Held(s') && Touches(s, s', r)
  {
    hide Inv, ReqOk, EndTailed, Lists, Aborting, Background, Held, Touches, Threads, AfterTail, Outstanding;
    Parts(s);
    AbortFacts(s, t);
    TailNowhere(s, r);
    TailReq(s.reqs[r], Aborter(t), owes);
    TailMoves(s, t, r, owes, p);
    AbortMoveParts(s, AfterTail(s, t, r, owes, p), t, r);
  }

  lemma TailMoves(s: State, t: Tid, r: Rid, owes: bool, p: Phase)
    requires r in s.reqs
    ensures var s' := AfterTail(s, t, r, owes, p);
            && s'.pending == s.pending && s'.processing == s.processing && s'.io == s.io
            && s'.interrupts == s.interrupts && s'.bug == s.bug
            && r in s'.reqs && s'.reqs[r] == EndTailed(s.reqs[r], owes) && AbortOf(s', t) == Relock(p)
            && s' == s.(reqs := s.reqs[r := s'.reqs[r]], aborts := s.aborts[t := AbortOf(s', t)])
  {
    hide EndTailed;
  }

  lemma AbortTailThreads(s: State, t: Tid, r: Rid, owes: bool, p: Phase)
    requires Inv(s) && AbortOf(s, t) == EndTail(r, owes, p) && r in s.reqs
    ensures var s' := AfterTail(s, t, r, owes, p);
            && r in s'.reqs && AbortAlone(s, s', t, r)
            && (forall u: Tid | HandsOf(DevOf(s, u)) == Some(r) :: DevOk(DevOf(s, u), u, s'.reqs[r]))
            && (forall u: Tid | u != t && Concerns(AbortOf(s, u)) && AbortOf(s, u).r == r ::
               AbortOk(AbortOf(s, u), u, s'.reqs[r]))
  {
    hide Inv;
    ThreadFacts(s, r);
    ReqFacts(s, r);
  }

  lemma EndRequestsKeeps(s: State, t: Tid, p: Phase)
    requires Inv(s) && s.lock == Some(t) && AbortOf(s, t) == Holding(p) && p != IoPhase
    requires Disciplined(s, EndRequests(t))
    requires var list := if p == PendingPhase then s.pending else s.processing; list == [] || list[0] in s.reqs
    ensures Inv(DoEndRequests(s, t, if p == PendingPhase then s.pending else s.processing, p))
  {
    hide Inv, EndLocked;
    var list := if p == PendingPhase then s.pending else s.processing;
    Parts(s);
    if list == [] {
      NextPhaseKeeps(s, t);
    } else {
      if p == PendingPhase {
        HeadOfPending(s, list[0]);
      } else {
        SentFacts(s, list[0]);
      }
      EndOneKeeps(s, t, list[0], p);
      hide Inv;
    }
  }

  /** end_requests ends the request at the head of its list. */
  function EndOne(s: State, t: Tid, r: Rid, p: Phase): State
    requires r in s.reqs
  {
    EndLocked(s, r, s.reqs[r].(error := -ECONNABORTED), Aborter(t))
      .(aborts := s.aborts[t := EndTail(r, s.reqs[r].endFn, p)], lock := None)
  }

  lemma ListedEndReq(q: Req, owner: Owner, p: bool, u: bool, x: bool)
    requires ReqOk(q, p, u, false, x) && q.qref == Listed
    ensures ReqOk(Ended(q.(error := -ECONNABORTED), owner), false, false, false, false)
    ensures q.ended == 0 && q.cbRef == None
  {
  }

  lemma ListedEnds(s: State, t: Tid, r: Rid)
    requires Inv(s) && r in s.reqs && s.reqs[r].qref == Listed && r !in s.io
    ensures s.reqs[r].ended == 0
            && ReqOk(Ended(s.reqs[r].(error := -ECONNABORTED), Aborter(t)), false, false, false, false)
  {
    hide Inv, ReqOk, Ended;
    ReqFacts(s, r);
    ListedEndReq(s.reqs[r], Aborter(t), r in s.pending, r in s.processing, r in s.interrupts);
  }

  lemma EndOneKeeps(s: State, t: Tid, r: Rid, p: Phase)
    requires Inv(s) && s.lock == Some(t) && AbortOf(s, t) == Holding(p) && r in s.reqs
    requires s.reqs[r].qref == Listed && NoWindow(s, r) && r !in s.io
    ensures Inv(EndOne(s, t, r, p))
  {
    Parts(s);
    ListedEnds(s, t, r);
    OnNobodysHands(s, r);
    ListedNoAborter(s, r);
    hide Inv, Lists, Aborting, Background, Held, ReqOk, Touches, EndOne, Ended, NoWindow, AbortAlone, DevOk, AbortOk,
         Threads;
    EndOneParts(s, t, r, p);
    AbortKeeps(s, EndOne(s, t, r, p), t, r);
  }

  lemma ListedNoAborter(s: State, r: Rid)
    requires Inv(s) && r in s.reqs && s.reqs[r].qref == Listed
    ensures forall u: Tid :: !(Concerns(AbortOf(s, u)) && AbortOf(s, u).r == r)
  {
    hide Inv;
    ThreadFacts(s, r);
    ReqFacts(s, r);
  }

  lemma EndOneParts(s: State, t: Tid, r: Rid, p: Phase)
    requires Lists(s) && Aborting(s) && Background(s) && Held(s) && r in s.reqs && s.reqs[r].ended == 0
    requires s.lock == Some(t) && AbortOf(s, t) == Holding(p)
    ensures var s' := EndOne(s, t, r, p);
            && Lists(s') && Aborting(s') && Background(s') && Held(s') && Touches(s, s', r) && s'.bug == s.bug
            && r !in s'.pending && r !in s'.processing && r !in s'.io && r !in s'.interrupts
            && s'.reqs[r] == Ended(s.reqs[r].(error := -ECONNABORTED), Aborter(t)) && !s'.reqs[r].qref.InHands?
            && AbortAlone(s, s', t, r)
  {
    hide Lists, Touches;
    var s' := EndOne(s, t, r, p);
    EndLists(s, s', r, s.reqs[r].(error := -ECONNABORTED), Aborter(t));
    OutstandingUpdate(s.reqs, r, s'.reqs[r]);
    assert forall u: Tid | u != t :: AbortOf(s', u) == AbortOf(s, u);
    assert Cleared(s, Stage(AbortOf(s, t)));
    AbortingKeeps(s, s', Some(t));
  }

  // ----- every step -----

  lemma CallerStepKeeps(s: State, a: Step)
    requires Inv(s) && Enabled(s, a) && !DeviceStepKind(a) && !AbortStepKind(a)
    ensures Inv(ApplyCaller(s, a))
  {
    hide Inv, DoSend, AfterSignalWait, AfterFatalWait, WithdrawOrWait, MoveCaller, DoSendNoWait, DoUnsentTail,
         DoCallerPut, SetReq, NewRequest, ReqOk;
    match a
    case Prepare(r, async, isreply, force, hasEnd, argvar, outSize, lastSize) =>
      NewReqOk(a);
      PrepareKeeps(s, r, NewRequest(async, isreply, force, hasEnd, argvar, outSize, lastSize));
    case SetConnError => NoInterruptKeeps(s);
    case Send(r, signalled, fatal) => SendKeeps(s, r, signalled, fatal);
    case WakeSignal(r, fatal) => AfterSignalWaitKeeps(s, r, fatal);
    case WakeFatal(r) => AfterFatalWaitKeeps(s, r);
    case WakeForced(r) => AfterFatalWaitKeeps(s, r);
    case WakeUnlocked(r) => WakeUnlockedKeeps(s, r);
    case WakeFinished(r) => WakeFinishedKeeps(s, r);
    case CallerPut(r) => CallerPutKeeps(s, r);
    case SendNoWait(r) => SendNoWaitKeeps(s, r);
    case UnsentTail(r) => UnsentTailKeeps(s, r, s.reqs[r].qref.owes);
  }

  predicate ReadStepKind(a: Step) {
    a.ReadInterrupt? || a.BeginRead? || a.ReadLockPage? || a.ReadUnlockPage? || a.ReadCopied? || a.ReadFinal?
  }

  lemma ReadStepKeeps(s: State, a: Step)
    requires Inv(s) && Enabled(s, a) && ReadStepKind(a) && Disciplined(s, a)
    ensures Inv(ApplyDevice(s, a))
  {
    hide Inv, Disciplined, DoReadInterrupt, DoBeginRead, DoReadLockPage, DeviceStep, SetDev, DoReadFinal;
    var d := DevOf(s, a.t);
    match a
    case ReadInterrupt(t) => ReadInterruptKeeps(s, s.interrupts[0]);
    case BeginRead(t, tooLarge, setxattr) => BeginReadKeeps(s, t, tooLarge, setxattr);
    case ReadLockPage(t, fault) => ReadLockPageKeeps(s, t, d.r, fault);
    case ReadUnlockPage(t) => UnlockPageKeeps(s, t, d.r, ReadUnlocked(d.r));
    case ReadCopied(t) => DeviceFacts(s, t); CopiedKeeps(s, t, d.r);
    case ReadFinal(t) => ReadFinalKeeps(s, t, d.r, d.err);
  }

  lemma WriteStepKeeps(s: State, a: Step)
    requires Inv(s) && Enabled(s, a) && DeviceStepKind(a) && !ReadStepKind(a) && Disciplined(s, a)
    ensures Inv(ApplyDevice(s, a))
  {
    hide Inv, Disciplined, DoDeviceTail, DeviceStep, SetDev, DoBeginWrite, DoWriteCopy, DoWriteLockPage, DoWriteFinal,
         DeviceEnd;
    var d := DevOf(s, a.t);
    match a
    case BeginWrite(t, m) => BeginWriteKeeps(s, t, m);
    case WriteCopy(t, n) => WriteCopyKeeps(s, t, d.r, d.m, d.copied, n);
    case WriteUnlockPage(t) => UnlockPageKeeps(s, t, d.r, WriteUnlocked(d.r, d.m, d.copied));
    case WriteLockPage(t, fault) => WriteLockPageKeeps(s, t, d.r, d.m, d.copied, fault);
    case WriteCopied(t) => DeviceFacts(s, t); CopiedKeeps(s, t, d.r);
    case WriteFinal(t) => WriteFinalKeeps(s, t, d.r, d.m, d.err);
    case WindowEnd(t) => WindowEndKeeps(s, t, d.r);
    case DeviceTail(t) => DeviceTailKeeps(s, t, d.r, d.owes);
  }

  /** The parts of an abort that end requests. */
  lemma AbortEndsKeep(s: State, a: Step)
    requires Inv(s) && Enabled(s, a) && (a.AbortIo? || a.AbortCallback? || a.EndRequests?) && Disciplined(s, a)
    ensures Inv(ApplyAbort(s, a))
  {
    hide Inv, Disciplined, DoAbortIo, DoAbortCallback, DoEndRequests;
    match a
    case AbortIo(t) => AbortIoKeeps(s, t);
    case AbortCallback(t) => AbortCallbackKeeps(s, t, AbortOf(s, t).r);
    case EndRequests(t) => EndRequestsKeeps(s, t, AbortOf(s, t).phase);
  }

  lemma AbortStepKeeps(s: State, a: Step)
    requires Inv(s) && Enabled(s, a) && AbortStepKind(a) && !(a.AbortIo? || a.AbortCallback? || a.EndRequests?)
    ensures Inv(ApplyAbort(s, a))
  {
    hide Inv, AfterTail, DoAbortStart, DoReleaseStart, DoRelock;
    match a
    case AbortStart(t) => AbortStartKeeps(s, t);
    case ReleaseStart(t) => ReleaseStartKeeps(s, t);
    case AbortTail(t) => AbortTailKeeps(s, t, AbortOf(s, t).r, AbortOf(s, t).owes, AbortOf(s, t).phase);
    case AbortRelock(t) => RelockKeeps(s, t, AbortOf(s, t).phase);
    case LateAbort(t) =>
  }

  /** The invariant is kept by every disciplined step. */
  lemma StepKeeps(s: State, a: Step)
    requires Inv(s) && Enabled(s, a) && Disciplined(s, a)
    ensures Inv(Apply(s, a))
  {
    hide Inv, Enabled, Disciplined, ApplyCaller, ApplyDevice, ApplyAbort;
    if ReadStepKind(a) {
      ReadStepKeeps(s, a);
    } else if DeviceStepKind(a) {
      WriteStepKeeps(s, a);
    } else if a.AbortIo? || a.AbortCallback? || a.EndRequests? {
      AbortEndsKeep(s, a);
    } else if AbortStepKind(a) {
      AbortStepKeeps(s, a);
    } else {
      CallerStepKeeps(s, a);
    }
  }

  lemma WakeUnlockedKeeps(s: State, r: Rid)
    requires Inv(s) && r in s.reqs && s.reqs[r].caller == WaitUnlocked && !s.reqs[r].locked
    ensures Inv(WithdrawOrWait(s, r))
  {
    hide Inv, WithdrawOrWait;
    WaitingFacts(s, r);
    WithdrawKeeps(s, r);
  }

  lemma WakeFinishedKeeps(s: State, r: Rid)
    requires Inv(s) && r in s.reqs && s.reqs[r].caller == WaitFinished && s.reqs[r].state == Finished
    ensures Inv(MoveCaller(s, r, Returned))
  {
    hide Inv;
    WaitingFacts(s, r);
    CallerMoves(s, r, Returned);
  }
}
