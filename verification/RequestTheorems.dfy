/** What the request protocol guarantees over whole runs. */
module RequestTheorems {
  import opened Sequences
  import opened RequestModel
  import opened RequestInvariant
  import opened RequestSteps

  /** A run in which every step meets the condition of Disciplined. */
  ghost predicate DisciplinedRun(s: State, steps: seq<Step>)
    decreases |steps|
  {
    steps == [] || (Enabled(s, steps[0]) && Disciplined(s, steps[0]) && DisciplinedRun(Apply(s, steps[0]), steps[1..]))
  }

  lemma {:induction false} DisciplinedIsRun(s: State, steps: seq<Step>)
    requires DisciplinedRun(s, steps)
    ensures IsRun(s, steps)
    decreases |steps|
  {
    if steps != [] {
      DisciplinedIsRun(Apply(s, steps[0]), steps[1..]);
    }
  }

  ghost function Reach(s: State, steps: seq<Step>): State
    requires DisciplinedRun(s, steps)
  {
    DisciplinedIsRun(s, steps);
    After(s, steps)
  }

  /** The invariant holds all along a disciplined run. */
  lemma {:induction false} RunKeeps(s: State, steps: seq<Step>)
    requires Inv(s) && DisciplinedRun(s, steps)
    ensures Inv(Reach(s, steps))
    decreases |steps|
  {
    hide Inv, Apply, Enabled, Disciplined;
    if steps != [] {
      StepKeeps(s, steps[0]);
      RunKeeps(Apply(s, steps[0]), steps[1..]);
    }
  }

  // ----- where requests are, and who refers to them -----

  /** A request is on the list its state says, a finished one on none. */
  lemma PlacementHolds(s: State, steps: seq<Step>, r: Rid)
    requires Initial(s) && DisciplinedRun(s, steps)
    requires var z := Reach(s, steps); r in z.reqs
    ensures var z := Reach(s, steps);
            var q := z.reqs[r];
            && (r in z.pending <==> q.state == Pending && !Withdrawn(q))
            && (r in z.processing <==> q.state == Sent)
            && (r in z.io <==> q.state == Reading || q.state == Writing)
            && (q.ended == 1 ==> r !in z.interrupts)
            && (Withdrawn(q) ==> q.aborted && !q.async && (q.caller == Returned || q.caller == Released))
            && NoDup(z.pending) && NoDup(z.processing) && NoDup(z.io) && NoDup(z.interrupts)
  {
    hide Inv, Reach, ReqOk, Threads, Aborting, Background, Held, Withdrawn, DisciplinedRun;
    InitialInv(s);
    RunKeeps(s, steps);
    var z := Reach(s, steps);
    Parts(z);
    ReqFacts(z, r);
    PlacementOf(z.reqs[r], r in z.pending, r in z.processing, r in z.io, r in z.interrupts);
  }

  lemma PlacementOf(q: Req, p: bool, u: bool, i: bool, x: bool)
    requires ReqOk(q, p, u, i, x)
    ensures (p <==> q.state == Pending && !Withdrawn(q)) && (u <==> q.state == Sent)
            && (i <==> q.state == Reading || q.state == Writing)
    ensures (q.ended == 1 ==> !x)
            && (Withdrawn(q) ==> q.aborted && !q.async && (q.caller == Returned || q.caller == Released))
  {
  }

  /** request_end runs at most once, the end function at most once, the BUG_ON
      of __fuse_put_request never fires, and a freed request is out of reach:
      on no list, in no thread's hands, with a caller that is done with it. */
  lemma ReferencesHold(s: State, steps: seq<Step>, r: Rid)
    requires Initial(s) && DisciplinedRun(s, steps)
    requires var z := Reach(s, steps); r in z.reqs
    ensures var z := Reach(s, steps);
            var q := z.reqs[r];
            && !z.bug && q.ended <= 1 && q.callbacks <= 1 && q.count >= 0
            && (q.freed && q.hasEnd ==> q.callbacks == 1)
            && (q.freed ==>
               r !in z.pending && r !in z.processing && r !in z.io && r !in z.interrupts && q.caller == Released)
            && (q.freed ==> forall t: Tid ::
               HandsOf(DevOf(z, t)) != Some(r) && !(Concerns(AbortOf(z, t)) && AbortOf(z, t).r == r))
  {
    hide Inv, Reach, ReqOk, Lists, Threads, Aborting, Background, Held, DisciplinedRun;
    InitialInv(s);
    RunKeeps(s, steps);
    var z := Reach(s, steps);
    Parts(z);
    ReqFacts(z, r);
    CountOf(z.reqs[r], r in z.pending, r in z.processing, r in z.io, r in z.interrupts);
    if z.reqs[r].freed {
      FreedAlone(z, r);
    }
  }

  lemma CountOf(q: Req, p: bool, u: bool, i: bool, x: bool)
    requires ReqOk(q, p, u, i, x)
    ensures q.ended <= 1 && q.callbacks <= 1 && q.count >= 0
    ensures q.freed && q.hasEnd ==> q.callbacks == 1
    ensures q.freed ==> !p && !u && !i && !x && q.caller == Released
    ensures q.freed ==> !q.qref.InHands? && !q.qref.Tail? && q.window == None && q.cbRef == None
  {
  }

  lemma FreedAlone(s: State, r: Rid)
    requires Inv(s) && r in s.reqs && s.reqs[r].freed
    ensures forall t: Tid :: HandsOf(DevOf(s, t)) != Some(r) && !(Concerns(AbortOf(s, t)) && AbortOf(s, t).r == r)
  {
    hide Inv, ReqOk, HeaderOk, WritingOk, FitsRequest;
    ThreadFacts(s, r);
    ReqFacts(s, r);
    CountOf(s.reqs[r], r in s.pending, r in s.processing, r in s.io, r in s.interrupts);
  }

  // ----- what a step can do to a request -----

  /** The caller of a request it waited for has it back. */
  predicate Back(q: Req) {
    !q.async && (q.caller == Returned || q.caller == Released)
  }

  /** Nothing more was copied to the caller's buffers. Only the error of an
      aborted request may still turn from one negative value to another. */
  predicate Frozen(q: Req, q': Req) {
    && Back(q') && q'.data == q.data && q'.hdr == q.hdr && q'.aborted == q.aborted
    && (q'.error == q.error || (q.aborted && q'.error < 0))
  }

  /** What every step respects. */
  predicate Evolves(q: Req, q': Req) {
    && q'.async == q.async && q'.isreply == q.isreply && q'.hasEnd == q.hasEnd
    && q.ended <= q'.ended && q.callbacks <= q'.callbacks
    && (Back(q) ==> Frozen(q, q'))
    && (q.ended >= 1 ==>
       q'.data == q.data && q'.hdr == q.hdr && q'.error == q.error && q'.outcome == q.outcome && q'.state == q.state)
    && (q.qref != NotSent ==> q'.qref != NotSent)
    && (q.callbacks > 0 ==> q'.data == q.data && q'.hdr == q.hdr)
  }

  lemma EvolvesTrans(q: Req, q1: Req, q2: Req)
    requires Evolves(q, q1) && Evolves(q1, q2)
    ensures Evolves(q, q2)
  {
  }

  /** A step that changes one request, and that one as it may. */
  ghost predicate OneEvolves(s: State, s': State, r: Rid) {
    r in s.reqs && r in s'.reqs && s'.reqs == s.reqs[r := s'.reqs[r]] && Evolves(s.reqs[r], s'.reqs[r])
  }

  /** What the invariant says of a request, for what follows. */
  ghost predicate Settled(q: Req) {
    && (q.caller == Prepared ==> q.ended == 0 && q.qref == NotSent)
    && (q.ended >= 1 ==> q.ended == 1 && q.state == Finished && q.qref != NotSent)
    && (Waiting(q.caller) ==> q.qref != NotSent && !q.async)
    && (q.state == Sent || (q.state == Pending && !Withdrawn(q)) ==> q.ended == 0 && !Back(q))
    && (q.qref.InHands? ==> q.ended == 0 && (Back(q) ==> q.aborted))
    && (Back(q) ==> !q.locked) && (q.callbacks > 0 ==> q.state == Finished && !q.locked)
  }

  lemma SettledHolds(s: State, x: Rid)
    requires Inv(s) && x in s.reqs
    ensures Settled(s.reqs[x])
  {
    hide Inv;
    ReqFacts(s, x);
  }

  // ----- callers -----

  /** What request_wait_answer does to its request. */
  predicate CallerEffect(q: Req, q': Req) {
    && q'.async == q.async && q'.isreply == q.isreply && q'.hasEnd == q.hasEnd
    && q'.data == q.data && q'.hdr == q.hdr && q'.outcome == q.outcome && q'.ended == q.ended && q'.state == q.state
    && q'.callbacks == q.callbacks
    && (q'.error == q.error || (!q.aborted && q.state != Finished))
    && (q'.aborted == q.aborted || (!q.aborted && q.state != Finished))
    && (q'.qref == q.qref || q'.qref == Gone)
  }

  ghost predicate CallerOnly(s: State, s': State, r: Rid) {
    r in s.reqs && r in s'.reqs && s'.reqs == s.reqs[r := s'.reqs[r]] && CallerEffect(s.reqs[r], s'.reqs[r])
  }

  lemma CallerOnlyTrans(s: State, s1: State, s2: State, r: Rid)
    requires CallerOnly(s, s1, r) && CallerOnly(s1, s2, r)
    requires s.reqs[r].state == Finished ==> s1.reqs[r].aborted == s.reqs[r].aborted
    ensures CallerOnly(s, s2, r)
  {
  }

  lemma MoveCallerEffect(s: State, r: Rid, c: Caller)
    requires r in s.reqs
    ensures CallerOnly(s, MoveCaller(s, r, c), r)
  {
  }

  lemma WithdrawEffect(s: State, r: Rid)
    requires r in s.reqs
    ensures CallerOnly(s, WithdrawOrWait(s, r), r)
  {
    hide Remove, MoveCaller;
    MoveCallerEffect(s, r, WaitFinished);
    MoveCallerEffect(s, r, Returned);
  }

  lemma AbortedTailEffect(s: State, r: Rid)
    requires r in s.reqs
    ensures CallerOnly(s, AbortedTail(s, r), r)
  {
    hide WithdrawOrWait;
    WithdrawEffect(s, r);
  }

  lemma MarkAbortedEffect(s: State, r: Rid)
    requires r in s.reqs && !s.reqs[r].aborted && s.reqs[r].state != Finished
    ensures CallerOnly(s, MarkAborted(s, r), r)
  {
  }

  lemma AfterFatalWaitEffect(s: State, r: Rid)
    requires r in s.reqs
    ensures CallerOnly(s, AfterFatalWait(s, r), r)
  {
    hide AbortedTail, MarkAborted;
    AbortedTailEffect(s, r);
    if !s.reqs[r].aborted && s.reqs[r].state != Finished {
      var s1 := MarkAborted(s, r);
      MarkAbortedEffect(s, r);
      AbortedTailEffect(s1, r);
      CallerOnlyTrans(s, s1, AbortedTail(s1, r), r);
    }
  }

  lemma SecondWaitEffect(s: State, r: Rid, fatal: bool)
    requires r in s.reqs
    ensures CallerOnly(s, SecondWait(s, r, fatal), r)
  {
    hide AfterFatalWait;
    AfterFatalWaitEffect(s, r);
  }

  lemma MarkInterruptedEffect(s: State, r: Rid)
    requires r in s.reqs
    ensures CallerOnly(s, MarkInterrupted(s, r), r) && MarkInterrupted(s, r).reqs[r].aborted == s.reqs[r].aborted
  {
    hide QueueInterrupt;
    QueueingMovesNothing(SetReq(s, r, s.reqs[r].(interrupted := true, caller := WaitFatal)), r);
  }

  lemma QueueingMovesNothing(s: State, r: Rid)
    ensures QueueInterrupt(s, r).reqs == s.reqs
  {
  }

  lemma AfterSignalWaitEffect(s: State, r: Rid, fatal: bool)
    requires r in s.reqs
    ensures CallerOnly(s, AfterSignalWait(s, r, fatal), r)
  {
    hide AbortedTail, SecondWait, MarkInterrupted;
    AbortedTailEffect(s, r);
    if !s.reqs[r].aborted && s.reqs[r].state != Finished {
      var s1 := MarkInterrupted(s, r);
      MarkInterruptedEffect(s, r);
      SecondWaitEffect(s1, r, fatal);
      CallerOnlyTrans(s, s1, SecondWait(s1, r, fatal), r);
    }
  }

  lemma WakeEvolves(s: State, s': State, r: Rid)
    requires r in s.reqs && Settled(s.reqs[r]) && Waiting(s.reqs[r].caller) && CallerOnly(s, s', r)
    ensures OneEvolves(s, s', r)
  {
  }

  lemma PreparedEvolves(q: Req, q1: Req, q2: Req, u: int)
    requires q.caller == Prepared && Settled(q)
    requires q1 == q.(count := q1.count, caller := WaitSignal, unique := u, state := Pending, qref := Listed)
    requires CallerEffect(q1, q2)
    ensures Evolves(q, q2)
  {
  }

  /** A request that was queued and then went through the waits. */
  lemma QueuedEvolves(s: State, s1: State, s': State, r: Rid)
    requires r in s.reqs && s.reqs[r].caller == Prepared && Settled(s.reqs[r])
    requires s1 == QueueRequest(s, r, s.reqs[r].(count := s.reqs[r].count + 1, caller := WaitSignal))
             && CallerOnly(s1, s', r)
    ensures OneEvolves(s, s', r)
  {
    hide NextUnique, Evolves, Settled, CallerEffect;
    PreparedEvolves(s.reqs[r], s1.reqs[r], s'.reqs[r], NextUnique(s.reqctr));
    assert s1.reqs[r := s'.reqs[r]] == s.reqs[r := s'.reqs[r]];
  }

  lemma SendEvolves(s: State, r: Rid, signalled: bool, fatal: bool)
    requires r in s.reqs && s.reqs[r].caller == Prepared && Settled(s.reqs[r])
    ensures OneEvolves(s, DoSend(s, r, signalled, fatal), r)
  {
    hide AfterSignalWait, SecondWait, QueueRequest, CallerOnly, OneEvolves, Settled;
    if s.connected && !s.connError {
      var s1 := QueueRequest(s, r, s.reqs[r].(count := s.reqs[r].count + 1, caller := WaitSignal));
      QueuedIn(s, r);
      SecondWaitEffect(s1, r, fatal);
      AfterSignalWaitEffect(s1, r, fatal);
      QueuedEvolves(s, s1, DoSend(s, r, signalled, fatal), r);
    } else {
      RefusedSendEvolves(s, r, signalled, fatal);
    }
  }

  lemma QueuedIn(s: State, r: Rid)
    requires r in s.reqs
    ensures var s1 := QueueRequest(s, r, s.reqs[r].(count := s.reqs[r].count + 1, caller := WaitSignal));
            r in s1.reqs && CallerOnly(s1, s1, r)
  {
    hide NextUnique;
    var s1 := QueueRequest(s, r, s.reqs[r].(count := s.reqs[r].count + 1, caller := WaitSignal));
    assert s1.reqs[r := s1.reqs[r]] == s1.reqs;
  }

  lemma RefusedSendEvolves(s: State, r: Rid, signalled: bool, fatal: bool)
    requires r in s.reqs && s.reqs[r].caller == Prepared && Settled(s.reqs[r]) && (!s.connected || s.connError)
    ensures OneEvolves(s, DoSend(s, r, signalled, fatal), r)
  {
    hide Evolves, Settled, QueueRequest;
    RefusedEvolves(s.reqs[r]);
  }

  lemma RefusedEvolves(q: Req)
    requires q.caller == Prepared && Settled(q)
    ensures Evolves(q, q.(error := -ENOTCONN, caller := Returned))
            && Evolves(q, q.(error := -ECONNREFUSED, caller := Returned))
  {
  }

  lemma SendNoWaitEvolves(s: State, r: Rid)
    requires r in s.reqs && s.reqs[r].caller == Prepared && Settled(s.reqs[r]) && s.reqs[r].async
    ensures OneEvolves(s, DoSendNoWait(s, r), r)
  {
    hide Remove, NextUnique;
  }

  /** A step that only drops references, runs an end function or moves flags. */
  predicate OnlyReferences(q: Req, q': Req) {
    && q' == q.(count := q'.count, freed := q'.freed, callbacks := q'.callbacks, cbRef := q'.cbRef, qref := q'.qref,
       caller := q'.caller,
                locked := q'.locked, window := q'.window, intrUnique := q'.intrUnique)
    && q.callbacks <= q'.callbacks && (q.qref != NotSent ==> q'.qref != NotSent) && (Back(q) ==> Back(q'))
  }

  lemma ReferenceEvolves(s: State, s': State, r: Rid)
    requires r in s.reqs && r in s'.reqs && s'.reqs == s.reqs[r := s'.reqs[r]] && OnlyReferences(s.reqs[r], s'.reqs[r])
    ensures OneEvolves(s, s', r)
  {
  }

  lemma TailEvolves(s: State, s': State, r: Rid, owes: bool)
    requires r in s.reqs && s'.reqs == s.reqs[r := EndTailed(s.reqs[r], owes)]
    ensures OneEvolves(s, s', r)
  {
    hide OneEvolves;
    ReferenceEvolves(s, s', r);
  }

  lemma SignalWakeEvolves(s: State, r: Rid, fatal: bool)
    requires Inv(s) && CallerAt(s, r, WaitSignal)
    ensures OneEvolves(s, AfterSignalWait(s, r, fatal), r)
  {
    hide Inv, AfterSignalWait, OneEvolves, CallerOnly, Settled;
    SettledHolds(s, r);
    AfterSignalWaitEffect(s, r, fatal);
    WakeEvolves(s, AfterSignalWait(s, r, fatal), r);
  }

  lemma FatalWakeEvolves(s: State, r: Rid)
    requires Inv(s) && (CallerAt(s, r, WaitFatal) || CallerAt(s, r, WaitForced))
    ensures OneEvolves(s, AfterFatalWait(s, r), r)
  {
    hide Inv, AfterFatalWait, OneEvolves, CallerOnly, Settled;
    SettledHolds(s, r);
    AfterFatalWaitEffect(s, r);
    WakeEvolves(s, AfterFatalWait(s, r), r);
  }

  lemma UnlockedWakeEvolves(s: State, r: Rid)
    requires Inv(s) && CallerAt(s, r, WaitUnlocked)
    ensures OneEvolves(s, WithdrawOrWait(s, r), r)
  {
    hide Inv, WithdrawOrWait, OneEvolves, CallerOnly, Settled;
    SettledHolds(s, r);
    WithdrawEffect(s, r);
    WakeEvolves(s, WithdrawOrWait(s, r), r);
  }

  lemma FinishedWakeEvolves(s: State, r: Rid)
    requires CallerAt(s, r, WaitFinished)
    ensures OneEvolves(s, MoveCaller(s, r, Returned), r)
  {
    hide OneEvolves;
    ReferenceEvolves(s, MoveCaller(s, r, Returned), r);
  }

  lemma CallerPutEvolves(s: State, r: Rid)
    requires CallerAt(s, r, Returned)
    ensures OneEvolves(s, DoCallerPut(s, r), r)
  {
    hide OneEvolves;
    ReferenceEvolves(s, DoCallerPut(s, r), r);
  }

  lemma UnsentTailEvolves(s: State, r: Rid, owes: bool)
    requires r in s.reqs
    ensures OneEvolves(s, DoUnsentTail(s, r, owes), r)
  {
    hide OneEvolves, EndTailed;
    TailEvolves(s, DoUnsentTail(s, r, owes), r, owes);
  }

  // ----- devices and aborters -----

  lemma EndEvolves(q: Req, q1: Req, owner: Owner)
    requires Settled(q) && q.ended == 0 && (Back(q) ==> q1.error == q.error)
    requires q1 == q.(locked := q1.locked, error := q1.error, outcome := q1.outcome, state := q1.state, qref := q1.qref)
    ensures Evolves(q, Ended(q1, owner))
  {
  }

  lemma DeviceEndEvolves(s: State, t: Tid, r: Rid, q1: Req)
    requires r in s.reqs && Settled(s.reqs[r]) && s.reqs[r].ended == 0
             && (Back(s.reqs[r]) ==> q1.error == s.reqs[r].error)
    requires q1 == s.reqs[r].(locked := q1.locked, error := q1.error, outcome := q1.outcome, state := q1.state,
             qref := q1.qref)
    ensures OneEvolves(s, DeviceEnd(s, t, r, q1), r)
  {
    hide Evolves, Settled, Remove, Ended;
    EndEvolves(s.reqs[r], q1, Device(t));
    assert s.reqs[r := q1][r := Ended(q1, Device(t))] == s.reqs[r := Ended(q1, Device(t))];
  }

  lemma ReadFinalEvolves(s: State, t: Tid, r: Rid, err: bool)
    requires r in s.reqs && Settled(s.reqs[r]) && s.reqs[r].qref.InHands?
    ensures OneEvolves(s, DoReadFinal(s, t, r, err), r)
  {
    hide DeviceEnd, OneEvolves, Remove;
    var q := s.reqs[r].(locked := false);
    if err || q.aborted {
      DeviceEndEvolves(s, t, r, if q.aborted then q else q.(error := -EIO));
    } else if !q.isreply {
      DeviceEndEvolves(s, t, r, q);
    } else {
      SentEvolves(s, DoReadFinal(s, t, r, err), r);
    }
  }

  lemma SentEvolves(s: State, s': State, r: Rid)
    requires r in s.reqs && Settled(s.reqs[r]) && s.reqs[r].qref.InHands?
    requires s'.reqs == s.reqs[r := s.reqs[r].(locked := false, state := Sent, qref := Listed)]
    ensures OneEvolves(s, s', r)
  {
  }

  lemma BeginReadEvolves(s: State, t: Tid, r: Rid, tooLarge: bool, setxattr: bool)
    requires s.pending != [] && r == s.pending[0] && r in s.reqs && Settled(s.reqs[r]) && s.reqs[r].state == Pending
             && !Withdrawn(s.reqs[r])
    ensures OneEvolves(s, DoBeginRead(s, t, tooLarge, setxattr), r)
  {
    hide Remove;
  }

  lemma TakenEvolves(q: Req, t: Tid, m: Message)
    requires Settled(q) && q.state == Sent
    ensures Evolves(q, Taken(q, t, m))
  {
  }

  lemma TakeEvolves(s: State, t: Tid, r: Rid, m: Message)
    requires r in s.reqs && Settled(s.reqs[r]) && s.reqs[r].state == Sent
    ensures OneEvolves(s, TakeForWriting(s, t, r, m), r)
  {
    hide Remove, Settled, FitsRequest, Evolves;
    TakenEvolves(s.reqs[r], t, m);
  }

  lemma BeginWriteEvolves(s: State, t: Tid, m: Message, r: Rid)
    requires Find(s.processing, s.reqs, m.unique) == Some(r) && r in s.reqs && Settled(s.reqs[r])
             && s.reqs[r].state == Sent
    ensures OneEvolves(s, DoBeginWrite(s, t, m), r)
  {
    hide Find, OneEvolves, Settled, TakeForWriting, SetDev;
    TakeEvolves(s, t, r, m);
    WindowEvolves(s, t, r);
    if !s.reqs[r].aborted && s.reqs[r].intrUnique == m.unique {
      StandsStill(s, DoBeginWrite(s, t, m), r);
    }
  }

  lemma WindowEvolves(s: State, t: Tid, r: Rid)
    requires r in s.reqs
    ensures OneEvolves(s, EnterWindow(s, t, r), r)
  {
    hide OneEvolves;
    ReferenceEvolves(s, EnterWindow(s, t, r), r);
  }

  lemma WriteFinalEvolves(s: State, t: Tid, r: Rid, m: Message, err: bool)
    requires r in s.reqs && Settled(s.reqs[r]) && s.reqs[r].qref.InHands?
    ensures OneEvolves(s, DoWriteFinal(s, t, r, m, err), r)
  {
    hide DeviceEnd, OneEvolves;
    DeviceEndEvolves(s, t, r, WriteResult(s.reqs[r], m, err));
  }

  lemma CopyEvolves(s: State, t: Tid, r: Rid, m: Message, copied: int, n: int)
    requires r in s.reqs && Settled(s.reqs[r]) && s.reqs[r].qref.InHands? && s.reqs[r].locked
             && 0 <= copied <= copied + n <= |m.payload|
    ensures OneEvolves(s, DoWriteCopy(s, t, r, m, copied, n), r)
  {
  }

  lemma LockingEvolves(s: State, t: Tid, r: Rid, q: Req, d: Dev)
    requires r in s.reqs && q == s.reqs[r].(locked := q.locked) && !d.Idle? && d.r == r
    ensures OneEvolves(s, DeviceStep(s, t, q, d), r)
  {
  }

  lemma TurnsEvolve(s: State, t: Tid, r: Rid, d: Dev)
    requires r in s.reqs
    ensures OneEvolves(s, SetDev(s, t, d), r)
  {
    assert s.reqs[r := s.reqs[r]] == s.reqs;
  }

  lemma StandsStill(s: State, s': State, r: Rid)
    requires r in s.reqs && s'.reqs == s.reqs
    ensures OneEvolves(s, s', r)
  {
    assert s.reqs[r := s.reqs[r]] == s.reqs;
  }

  lemma PageEvolves(s: State, t: Tid, r: Rid, d: Dev, fault: bool)
    requires r in s.reqs
    ensures OneEvolves(s, DoReadLockPage(s, t, r, fault), r)
    ensures d.WriteUnlocked? ==> OneEvolves(s, DoWriteLockPage(s, t, r, d.m, d.copied, fault), r)
  {
    var q := s.reqs[r].(locked := true);
    LockingEvolves(s, t, r, q, ReadLocked(r));
    StandsStill(s, SetDev(s, t, ReadDone(r, true)), r);
    if d.WriteUnlocked? {
      LockingEvolves(s, t, r, q, WriteLocked(r, d.m, d.copied));
      StandsStill(s, SetDev(s, t, WriteDone(r, d.m, true)), r);
    }
    hide OneEvolves, DeviceStep, SetDev;
  }

  /** A device thread that holds a request. */
  lemma ReadingEvolves(s: State, a: Step)
    requires Inv(s) && Enabled(s, a) && (a.ReadLockPage? || a.ReadUnlockPage? || a.ReadCopied?)
    ensures !DevOf(s, a.t).Idle? && OneEvolves(s, ApplyDevice(s, a), DevOf(s, a.t).r)
  {
    hide Inv, DoReadLockPage, DeviceStep, OneEvolves, Settled, SetDev, SetReq;
    HoldingFacts(s, a.t);
    var d := DevOf(s, a.t);
    match a
    case ReadLockPage(t, fault) => PageEvolves(s, t, d.r, d, fault);
    case ReadUnlockPage(t) => LockingEvolves(s, t, d.r, s.reqs[d.r].(locked := false), ReadUnlocked(d.r));
    case ReadCopied(t) => TurnsEvolve(s, t, d.r, ReadDone(d.r, false));
  }

  lemma FinishingEvolves(s: State, a: Step)
    requires Inv(s) && Enabled(s, a) && (a.ReadFinal? || a.WriteFinal? || a.WindowEnd? || a.DeviceTail?)
    ensures !DevOf(s, a.t).Idle? && OneEvolves(s, ApplyDevice(s, a), DevOf(s, a.t).r)
  {
    hide Inv, EndTailed, DoReadFinal, DoWriteFinal, DeviceEnd, OneEvolves, Settled, SetReq, SetDev;
    HoldingFacts(s, a.t);
    var d := DevOf(s, a.t);
    match a
    case ReadFinal(t) => ReadFinalEvolves(s, t, d.r, d.err);
    case WriteFinal(t) => WriteFinalEvolves(s, t, d.r, d.m, d.err);
    case WindowEnd(t) => WindowEndEvolves(s, t, d.r);
    case DeviceTail(t) => DeviceTailEvolves(s, t, d.r, d.owes);
  }

  lemma DeviceTailEvolves(s: State, t: Tid, r: Rid, owes: bool)
    requires r in s.reqs
    ensures OneEvolves(s, DoDeviceTail(s, t, r, owes), r)
  {
    hide EndTailed, OneEvolves;
    TailEvolves(s, DoDeviceTail(s, t, r, owes), r, owes);
  }

  lemma HoldingFacts(s: State, t: Tid)
    requires Inv(s) && !DevOf(s, t).Idle?
    ensures var d := DevOf(s, t);
            && d.r in s.reqs && Settled(s.reqs[d.r])
            && (d.Ending? || d.WriteWindow? || s.reqs[d.r].qref.InHands?)
            && (d.WriteLocked? ==> s.reqs[d.r].locked)
  {
    hide Inv, HeaderOk, WritingOk, FitsRequest;
    DeviceFacts(s, t);
    SettledHolds(s, DevOf(s, t).r);
  }

  lemma CopyStepEvolves(s: State, a: Step)
    requires Inv(s) && Enabled(s, a) && a.WriteCopy?
    ensures !DevOf(s, a.t).Idle? && OneEvolves(s, ApplyDevice(s, a), DevOf(s, a.t).r)
  {
    hide Inv, DoWriteCopy, OneEvolves, Settled;
    HoldingFacts(s, a.t);
    var d := DevOf(s, a.t);
    CopyEvolves(s, a.t, d.r, d.m, d.copied, a.n);
  }

  lemma WritingEvolves(s: State, a: Step)
    requires Inv(s) && Enabled(s, a)
    requires a.WriteUnlockPage? || a.WriteLockPage? || a.WriteCopied?
    ensures !DevOf(s, a.t).Idle? && OneEvolves(s, ApplyDevice(s, a), DevOf(s, a.t).r)
  {
    hide Inv, DoWriteLockPage, DeviceStep, OneEvolves, Settled, SetDev, SetReq;
    HoldingFacts(s, a.t);
    var d := DevOf(s, a.t);
    match a
    case WriteUnlockPage(t) => LockingEvolves(s, t, d.r, s.reqs[d.r].(locked := false),
      WriteUnlocked(d.r, d.m, d.copied));
    case WriteLockPage(t, fault) => PageEvolves(s, t, d.r, d, fault);
    case WriteCopied(t) => TurnsEvolve(s, t, d.r, WriteDone(d.r, d.m, false));
  }

  lemma WindowEndEvolves(s: State, t: Tid, r: Rid)
    requires Inv(s) && DevOf(s, t) == WriteWindow(r) && r in s.reqs
    ensures OneEvolves(s, DeviceEnd(s, t, r, s.reqs[r].(outcome := Rejected)), r)
  {
    hide Inv, DeviceEnd, OneEvolves;
    WindowFacts(s, t, r);
    SentFacts(s, r);
    SettledHolds(s, r);
    DeviceEndEvolves(s, t, r, s.reqs[r].(outcome := Rejected));
  }

  /** A device thread that takes a request. */
  lemma TakingEvolves(s: State, a: Step)
    requires Inv(s) && Enabled(s, a) && (a.ReadInterrupt? || a.BeginRead? || a.BeginWrite?)
    ensures ApplyDevice(s, a).reqs == s.reqs || exists r: Rid :: OneEvolves(s, ApplyDevice(s, a), r)
  {
    hide Inv, DoBeginRead, DoBeginWrite, OneEvolves, Settled, ReqOk;
    match a
    case ReadInterrupt(t) =>
      ReferenceEvolves(s, ApplyDevice(s, a), s.interrupts[0]);
    case BeginRead(t, tooLarge, setxattr) =>
      var r := s.pending[0];
      HeadOfPending(s, r);
      PendingIsPending(s, r);
      SettledHolds(s, r);
      BeginReadEvolves(s, t, r, tooLarge, setxattr);
    case BeginWrite(t, m) =>
      var found := Find(s.processing, s.reqs, m.unique);
      if found.Some? {
        SentFacts(s, found.value);
        SettledHolds(s, found.value);
        BeginWriteEvolves(s, t, m, found.value);
      } else {
        NoMatchEvolves(s, t, m);
      }
  }

  lemma NoMatchEvolves(s: State, t: Tid, m: Message)
    requires Find(s.processing, s.reqs, m.unique) == None
    ensures DoBeginWrite(s, t, m) == s
  {
  }

  lemma PendingIsPending(s: State, r: Rid)
    requires Inv(s) && r in s.pending && r in s.reqs
    ensures s.reqs[r].state == Pending && !Withdrawn(s.reqs[r])
  {
    hide Inv;
    ReqFacts(s, r);
  }

  lemma AbortedIoEvolves(q: Req, t: Tid)
    requires Settled(q) && q.qref.InHands?
    ensures Evolves(q, AbortedIo(q, t))
  {
  }

  lemma AbortIoEvolves(s: State, t: Tid)
    requires s.io != [] && s.io[0] in s.reqs && Settled(s.reqs[s.io[0]]) && s.reqs[s.io[0]].qref.InHands?
    ensures OneEvolves(s, DoAbortIo(s, t), s.io[0])
  {
    hide Settled, Evolves, AbortedIo;
    AbortedIoEvolves(s.reqs[s.io[0]], t);
  }

  lemma EndRequestsEvolves(s: State, t: Tid, list: seq<Rid>, phase: Phase)
    requires list != [] && list[0] in s.reqs && Settled(s.reqs[list[0]]) && s.reqs[list[0]].ended == 0
             && !Back(s.reqs[list[0]])
    ensures OneEvolves(s, DoEndRequests(s, t, list, phase), list[0])
  {
    hide Evolves, Settled, Remove, Ended;
    var r := list[0];
    var q1 := s.reqs[r].(error := -ECONNABORTED);
    EndEvolves(s.reqs[r], q1, Aborter(t));
    assert s.reqs[r := q1][r := Ended(q1, Aborter(t))] == s.reqs[r := Ended(q1, Aborter(t))];
  }

  lemma AbortStepEvolves(s: State, a: Step)
    requires Inv(s) && Enabled(s, a) && AbortStepKind(a)
    ensures ApplyAbort(s, a).reqs == s.reqs || exists r: Rid :: OneEvolves(s, ApplyAbort(s, a), r)
  {
    hide Inv, OneEvolves;
    match a
    case AbortStart(t) =>
    case ReleaseStart(t) =>
    case AbortRelock(t) =>
    case LateAbort(t) =>
    case _ => AbortEndEvolves(s, a);
  }

  lemma AbortEndEvolves(s: State, a: Step)
    requires Inv(s) && Enabled(s, a) && (a.AbortIo? || a.AbortCallback? || a.EndRequests? || a.AbortTail?)
    ensures ApplyAbort(s, a).reqs == s.reqs || exists r: Rid :: OneEvolves(s, ApplyAbort(s, a), r)
  {
    hide Inv, DoAbortIo, DoAbortCallback, DoEndRequests, AfterTail, OneEvolves;
    match a
    case AbortIo(t) => IoStepEvolves(s, t);
    case AbortCallback(t) => CallbackEvolves(s, t, AbortOf(s, t).r);
    case EndRequests(t) =>
      var phase := AbortOf(s, t).phase;
      ListStepEvolves(s, t, if phase == PendingPhase then s.pending else s.processing, phase);
    case AbortTail(t) => AfterTailEvolves(s, t, AbortOf(s, t).r, AbortOf(s, t).owes, AbortOf(s, t).phase);
  }

  lemma IoStepEvolves(s: State, t: Tid)
    requires Inv(s) && (s.io == [] || s.io[0] in s.reqs)
    ensures DoAbortIo(s, t).reqs == s.reqs || exists r: Rid :: OneEvolves(s, DoAbortIo(s, t), r)
  {
    hide Inv, DoAbortIo, OneEvolves, Settled, ReqOk, AbortedIo;
    if s.io == [] {
      EmptyIo(s, t);
    } else {
      IoHead(s, s.io[0]);
      IoReq(s.reqs[s.io[0]], t, s.io[0] in s.interrupts);
      SettledHolds(s, s.io[0]);
      AbortIoEvolves(s, t);
    }
  }

  lemma CallbackEvolves(s: State, t: Tid, r: Rid)
    requires r in s.reqs
    ensures OneEvolves(s, DoAbortCallback(s, t, r), r)
  {
    hide OneEvolves;
    ReferenceEvolves(s, DoAbortCallback(s, t, r), r);
  }

  lemma AfterTailEvolves(s: State, t: Tid, r: Rid, owes: bool, p: Phase)
    requires r in s.reqs
    ensures OneEvolves(s, AfterTail(s, t, r, owes, p), r)
  {
    hide OneEvolves, EndTailed;
    TailEvolves(s, AfterTail(s, t, r, owes, p), r, owes);
  }

  lemma ListStepEvolves(s: State, t: Tid, list: seq<Rid>, phase: Phase)
    requires Inv(s) && (list == s.pending || list == s.processing) && (list == [] || list[0] in s.reqs)
    ensures DoEndRequests(s, t, list, phase).reqs == s.reqs || exists r: Rid ::
            OneEvolves(s, DoEndRequests(s, t, list, phase), r)
  {
    hide Inv, DoEndRequests, OneEvolves, Settled;
    if list == [] {
      PhaseOver(s, t, list, phase);
    } else {
      SettledHolds(s, list[0]);
      ListedNotBack(s, list[0]);
      EndRequestsEvolves(s, t, list, phase);
    }
  }

  lemma PhaseOver(s: State, t: Tid, list: seq<Rid>, phase: Phase)
    requires list == []
    ensures DoEndRequests(s, t, list, phase).reqs == s.reqs
  {
  }

  lemma ListedNotBack(s: State, r: Rid)
    requires Inv(s) && r in s.reqs && (r in s.pending || r in s.processing)
    ensures s.reqs[r].ended == 0 && !Back(s.reqs[r])
  {
    hide Inv;
    ReqFacts(s, r);
    SettledHolds(s, r);
  }

  /** Every step respects every request. */
  lemma StepEvolves(s: State, a: Step, x: Rid)
    requires Inv(s) && Enabled(s, a) && x in s.reqs
    ensures x in Apply(s, a).reqs && Evolves(s.reqs[x], Apply(s, a).reqs[x])
  {
    hide Inv, Evolves, Apply, Enabled;
    StepTouchesOne(s, a);
    SameEvolves(s.reqs[x]);
  }

  lemma SameEvolves(q: Req)
    ensures Evolves(q, q)
  {
  }

  ghost predicate Prepares(s: State, s': State) {
    exists r: Rid :: r !in s.reqs && r in s'.reqs && s'.reqs == s.reqs[r := s'.reqs[r]]
  }

  lemma StepTouchesOne(s: State, a: Step)
    requires Inv(s) && Enabled(s, a)
    ensures var s' := Apply(s, a); s'.reqs == s.reqs || Prepares(s, s') || exists r: Rid :: OneEvolves(s, s', r)
  {
    hide Inv, ApplyAbort, ApplyDevice, OneEvolves;
    if AbortStepKind(a) {
      AbortStepEvolves(s, a);
    } else if DeviceStepKind(a) {
      if a.ReadInterrupt? || a.BeginRead? || a.BeginWrite? {
        TakingEvolves(s, a);
      } else if a.ReadLockPage? || a.ReadUnlockPage? || a.ReadCopied? {
        ReadingEvolves(s, a);
      } else if a.ReadFinal? || a.WriteFinal? || a.WindowEnd? || a.DeviceTail? {
        FinishingEvolves(s, a);
      } else if a.WriteCopy? {
        CopyStepEvolves(s, a);
      } else {
        WritingEvolves(s, a);
      }
    } else {
      CallerTouchesOne(s, a);
    }
    hide Enabled, ApplyCaller, Prepares;
  }

  lemma CallerTouchesOne(s: State, a: Step)
    requires Inv(s) && Enabled(s, a) && !AbortStepKind(a) && !DeviceStepKind(a)
    ensures var s' := ApplyCaller(s, a); s'.reqs == s.reqs || Prepares(s, s') || exists r: Rid :: OneEvolves(s, s', r)
  {
    hide Inv, OneEvolves, DoSend, DoSendNoWait, DoUnsentTail, DoCallerPut, AfterSignalWait, AfterFatalWait,
         WithdrawOrWait, MoveCaller, NewRequest;
    match a
    case Prepare(r, async, isreply, force, hasEnd, argvar, outSize, lastSize) => assert Prepares(s, ApplyCaller(s, a));
    case SetConnError =>
    case Send(r, signalled, fatal) => SettledHolds(s, r); SendEvolves(s, r, signalled, fatal);
    case WakeSignal(r, fatal) => SignalWakeEvolves(s, r, fatal);
    case WakeFatal(r) => FatalWakeEvolves(s, r);
    case WakeForced(r) => FatalWakeEvolves(s, r);
    case WakeUnlocked(r) => UnlockedWakeEvolves(s, r);
    case WakeFinished(r) => FinishedWakeEvolves(s, r);
    case CallerPut(r) => CallerPutEvolves(s, r);
    case SendNoWait(r) => SettledHolds(s, r); SendNoWaitEvolves(s, r);
    case UnsentTail(r) => UnsentTailEvolves(s, r, s.reqs[r].qref.owes);
  }

  lemma {:induction false} RunEvolves(s: State, steps: seq<Step>, x: Rid)
    requires Inv(s) && DisciplinedRun(s, steps) && x in s.reqs
    ensures x in Reach(s, steps).reqs && Evolves(s.reqs[x], Reach(s, steps).reqs[x])
    decreases |steps|
  {
    hide Inv, Apply, Enabled, Disciplined, Evolves;
    if steps == [] {
      SameEvolves(s.reqs[x]);
    } else {
      StepKeeps(s, steps[0]);
      StepEvolves(s, steps[0], x);
      RunEvolves(Apply(s, steps[0]), steps[1..], x);
      EvolvesTrans(s.reqs[x], Apply(s, steps[0]).reqs[x], Reach(s, steps).reqs[x]);
    }
  }

  // ----- handing the buffers back -----

  /** Device thread `t` is copying from or to the request of `r`. */
  predicate Copying(s: State, t: Tid, r: Rid) {
    (DevOf(s, t).ReadLocked? || DevOf(s, t).WriteLocked?) && DevOf(s, t).r == r
  }

  /** Once request_send is back, no device thread is in the caller's buffers,
      whatever else happens, and what the caller reads there does not change. */
  lemma BufferHandover(s: State, steps: seq<Step>, more: seq<Step>, r: Rid)
    requires Initial(s) && DisciplinedRun(s, steps) && DisciplinedRun(Reach(s, steps), more)
    requires r in Reach(s, steps).reqs && Back(Reach(s, steps).reqs[r])
    ensures var y := Reach(s, steps);
            var z := Reach(y, more);
            && r in z.reqs && !z.reqs[r].locked && (forall t: Tid :: !Copying(z, t, r))
            && Frozen(y.reqs[r], z.reqs[r])
  {
    hide Inv, Reach, DisciplinedRun, Copying;
    InitialInv(s);
    RunKeeps(s, steps);
    var y := Reach(s, steps);
    RunKeeps(y, more);
    RunEvolves(y, more, r);
    NotCopying(Reach(y, more), r);
  }

  /** Nor is one once the end function of a background request has run. */
  lemma EndHandover(s: State, steps: seq<Step>, more: seq<Step>, r: Rid)
    requires Initial(s) && DisciplinedRun(s, steps) && DisciplinedRun(Reach(s, steps), more)
    requires r in Reach(s, steps).reqs && Reach(s, steps).reqs[r].callbacks > 0
    ensures var y := Reach(s, steps);
            var z := Reach(y, more);
            && r in z.reqs && !z.reqs[r].locked && (forall t: Tid :: !Copying(z, t, r))
            && z.reqs[r].data == y.reqs[r].data && z.reqs[r].hdr == y.reqs[r].hdr
  {
    hide Inv, Reach, DisciplinedRun, Copying;
    InitialInv(s);
    RunKeeps(s, steps);
    var y := Reach(s, steps);
    RunKeeps(y, more);
    RunEvolves(y, more, r);
    NobodyCopies(Reach(y, more), r);
  }

  lemma NobodyCopies(s: State, r: Rid)
    requires Inv(s) && r in s.reqs && s.reqs[r].callbacks > 0
    ensures !s.reqs[r].locked && forall t: Tid :: !Copying(s, t, r)
  {
    hide Inv, HeaderOk, WritingOk, FitsRequest;
    SettledHolds(s, r);
    ThreadFacts(s, r);
  }

  lemma NotCopying(s: State, r: Rid)
    requires Inv(s) && r in s.reqs && Back(s.reqs[r])
    ensures !s.reqs[r].locked && forall t: Tid :: !Copying(s, t, r)
  {
    hide Inv, HeaderOk, WritingOk, FitsRequest;
    SettledHolds(s, r);
    ThreadFacts(s, r);
  }

  // ----- delivering replies -----

  /** What fuse_dev_writev is about to return to the daemon. */
  predicate WriteSucceeds(s: State, t: Tid) {
    DevOf(s, t).WriteDone? && DevOf(s, t).r in s.reqs && !DevOf(s, t).err && !s.reqs[DevOf(s, t).r].aborted
  }

  /** How a write of the device comes to its end that matched a request: with
      WriteFinal, or with WindowEnd when the request had been aborted before. One
      that succeeds is what the caller or the end function sees, and
      keeps seeing: that header and that payload, under the number the request
      was sent with. One that fails after it matched the request leaves a
      negative error. */
  lemma DeliveryHolds(s: State, steps: seq<Step>, t: Tid, a: Step, r: Rid, more: seq<Step>)
    requires Initial(s) && DisciplinedRun(s, steps) && (a == WriteFinal(t) || a == WindowEnd(t))
    requires HandsOf(DevOf(Reach(s, steps), t)) == Some(r)
    requires Enabled(Reach(s, steps), a) && DisciplinedRun(Apply(Reach(s, steps), a), more)
    ensures var y := Reach(s, steps);
            var z := Reach(Apply(y, a), more);
            && r in z.reqs && z.reqs[r].state == Finished && z.reqs[r].ended == 1
            && (WriteSucceeds(y, t) ==>
                  var m := DevOf(y, t).m;
                  z.reqs[r].hdr == Some(m) && z.reqs[r].error == m.error && z.reqs[r].data == m.payload
                    && z.reqs[r].unique == m.unique && ReplyFits(z.reqs[r], m))
            && (!WriteSucceeds(y, t) ==> z.reqs[r].error < 0 && !z.reqs[r].outcome.Accepted?)
  {
    hide Inv, Reach, DisciplinedRun, Apply, Enabled, Disciplined, WriteSucceeds, Evolves, FitsRequest, ReplyFits;
    InitialInv(s);
    RunKeeps(s, steps);
    var y := Reach(s, steps);
    WriteEndOutcome(y, t, a, r);
    var y1 := Apply(y, a);
    StepKeeps(y, a);
    RunKeeps(y1, more);
    RunEvolves(y1, more, r);
    EndedStays(y1.reqs[r], Reach(y1, more).reqs[r]);
    OutcomeHolds(Reach(y1, more), r);
    if WriteSucceeds(y, t) { FitsMeans(Reach(y1, more).reqs[r], DevOf(y, t).m); }
  }

  lemma EndedStays(q: Req, q': Req)
    requires Evolves(q, q') && q.ended >= 1
    ensures q'.ended >= 1 && q'.outcome == q.outcome && q'.state == q.state && q'.error == q.error
  {
  }

  lemma WriteEndOutcome(s: State, t: Tid, a: Step, r: Rid)
    requires Inv(s) && Enabled(s, a) && (a == WriteFinal(t) || a == WindowEnd(t)) && HandsOf(DevOf(s, t)) == Some(r)
    ensures var s' := Apply(s, a);
            && Disciplined(s, a) && r in s'.reqs && s'.reqs[r].ended >= 1 && s'.reqs[r].state == Finished
            && (WriteSucceeds(s, t) ==> DevOf(s, t).WriteDone? && s'.reqs[r].outcome == Accepted(DevOf(s, t).m))
            && (!WriteSucceeds(s, t) ==> s'.reqs[r].outcome == Rejected)
  {
    hide Inv, DeviceEnd, ApplyCaller, ApplyAbort, WriteResult;
    var d := DevOf(s, t);
    if d.WriteDone? { WriteOutcomeIs(s.reqs[r], d.m, d.err); }
    NeverNegative(s, r);
    DeviceEndIs(s, t, r, if a.WriteFinal? then WriteResult(s.reqs[r], d.m, d.err) else s.reqs[r].(outcome := Rejected));
  }

  lemma WriteOutcomeIs(q: Req, m: Message, err: bool)
    ensures WriteResult(q, m, err).ended == q.ended
    ensures WriteResult(q, m, err).outcome == if !err && !q.aborted then Accepted(m) else Rejected
  {
  }

  lemma NeverNegative(s: State, r: Rid)
    requires Inv(s) && r in s.reqs
    ensures s.reqs[r].ended >= 0
  {
    hide Inv;
    ReqFacts(s, r);
  }

  lemma DeviceEndIs(s: State, t: Tid, r: Rid, q: Req)
    ensures var s' := DeviceEnd(s, t, r, q);
            r in s'.reqs && s'.reqs[r].ended == q.ended + 1 && s'.reqs[r].state == Finished
              && s'.reqs[r].outcome == q.outcome
  {
    hide Remove;
  }

  lemma OutcomeHolds(s: State, r: Rid)
    requires Inv(s) && r in s.reqs
    ensures var q := s.reqs[r];
            && q.ended <= 1
            && (q.outcome.Accepted? ==>
               q.hdr == Some(q.outcome.msg) && q.error == q.outcome.msg.error && q.data == q.outcome.msg.payload
               && q.unique == q.outcome.msg.unique && FitsRequest(q, q.outcome.msg))
            && (q.outcome.Rejected? ==> q.error < 0)
            && (Back(q) && q.error >= 0 ==> q.outcome.Accepted?)
            && (q.ended == 1 && q.isreply && q.error >= 0 ==> q.outcome.Accepted?)
            && (q.callbacks > 0 && q.isreply && q.error >= 0 ==> q.outcome.Accepted?)
  {
    hide Inv, FitsRequest;
    ReqFacts(s, r);
  }

  /** A caller that is back without an error, and an end function that was called
      without one for a request that expects a reply, have a reply that a
      daemon's write delivered, whole and of the right length. */
  lemma ResultIsReply(s: State, steps: seq<Step>, r: Rid)
    requires Initial(s) && DisciplinedRun(s, steps) && r in Reach(s, steps).reqs
    ensures var q := Reach(s, steps).reqs[r];
            (Back(q) || (q.callbacks > 0 && q.isreply)) && q.error >= 0 ==>
              exists m: Message :: q.hdr == Some(m) && q.data == m.payload && q.error == m.error && q.unique == m.unique
                && ReplyFits(q, m)
  {
    hide Inv, Reach, DisciplinedRun, FitsRequest, ReplyFits;
    InitialInv(s);
    RunKeeps(s, steps);
    var q := Reach(s, steps).reqs[r];
    OutcomeHolds(Reach(s, steps), r);
    if q.outcome.Accepted? { FitsMeans(q, q.outcome.msg); }
  }

  /** An error comes alone; else the reply has the length that was asked for, or is
      shorter at the end of a last argument of variable size. */
  predicate ReplyFits(q: Req, m: Message) {
    if m.error != 0 then m.payload == []
    else |m.payload| == q.outSize || (q.argvar && q.outSize - q.lastSize <= |m.payload| <= q.outSize)
  }

  lemma FitsMeans(q: Req, m: Message)
    ensures FitsRequest(q, m) <==> ReplyFits(q, m)
  {
  }

  /** A reply to a request that is still wanted is refused for its length exactly
      when it does not fit. */
  lemma ReplyRefusedIff(s: State, steps: seq<Step>, t: Tid, m: Message, r: Rid)
    requires Initial(s) && DisciplinedRun(s, steps) && Enabled(Reach(s, steps), BeginWrite(t, m))
    requires var z := Reach(s, steps);
             Find(z.processing, z.reqs, m.unique) == Some(r) && !z.reqs[r].aborted && z.reqs[r].intrUnique != m.unique
    ensures DevOf(Apply(Reach(s, steps), BeginWrite(t, m)), t) ==
            if ReplyFits(Reach(s, steps).reqs[r], m) then WriteLocked(r, m, 0) else WriteDone(r, m, true)
  {
    hide Reach, DisciplinedRun, ReplyFits, FitsRequest, Enabled, Find, Apply, Taken;
    var z := Reach(s, steps);
    TakenFits(z.reqs[r], t, m);
    AnswerTaken(z, t, m, r);
  }

  lemma AnswerTaken(s: State, t: Tid, m: Message, r: Rid)
    requires Enabled(s, BeginWrite(t, m)) && Find(s.processing, s.reqs, m.unique) == Some(r)
    requires !s.reqs[r].aborted && s.reqs[r].intrUnique != m.unique
    ensures DevOf(Apply(s, BeginWrite(t, m)), t) ==
            if FitsRequest(Taken(s.reqs[r], t, m), m) then WriteLocked(r, m, 0) else WriteDone(r, m, true)
  {
    hide Enabled, FitsRequest, Find, EnterWindow, ApplyCaller, ApplyAbort, Taken, Remove;
  }

  lemma TakenFits(q: Req, t: Tid, m: Message)
    ensures FitsRequest(Taken(q, t, m), m) <==> ReplyFits(q, m)
  {
  }


  // ----- background requests -----

  /** num_background counts the background requests that have not ended, even
      past the limit. `blocked` is set only when the limit is reached, and while
      connected whenever it is. */
  lemma BackgroundHolds(s: State, steps: seq<Step>)
    requires Initial(s) && DisciplinedRun(s, steps)
    ensures var z := Reach(s, steps);
            && z.numBackground == |OutstandingSet(z.reqs)|
            && (z.connected ==> (z.blocked <==> z.numBackground >= FUSE_MAX_BACKGROUND))
            && (z.blocked ==> z.numBackground >= FUSE_MAX_BACKGROUND)
  {
    hide Inv, Reach, DisciplinedRun, Lists, Threads, Aborting, Held, ReqAt;
    InitialInv(s);
    RunKeeps(s, steps);
    var z := Reach(s, steps);
    Parts(z);
  }
}
