/** What an abort of the connection leaves, and what it does not. */
module RequestAborts {
  import opened Sequences
  import opened RequestModel
  import opened RequestInvariant
  import opened RequestSteps
  import opened RequestTheorems

  /** No list holds a request, and none will: every request that was sent is
      finished or withdrawn. */
  ghost predicate NothingQueued(s: State) {
    && Quiet(s)
    && forall r <- s.reqs :: s.reqs[r].state == Init || s.reqs[r].state == Finished || Withdrawn(s.reqs[r])
  }

  predicate Quiet(s: State) {
    !s.connected && s.pending == [] && s.processing == [] && s.io == []
  }

  lemma QuietIsNothing(s: State)
    requires Inv(s) && Quiet(s)
    ensures NothingQueued(s)
  {
    hide Inv, ReqOk, Withdrawn;
    forall r <- s.reqs ensures s.reqs[r].state == Init || s.reqs[r].state == Finished || Withdrawn(s.reqs[r]) {
      ReqFacts(s, r);
      PlacementOf(s.reqs[r], r in s.pending, r in s.processing, r in s.io, r in s.interrupts);
    }
  }

  // ----- a quiet connection stays quiet -----

  lemma WithdrawQuiet(s: State, r: Rid)
    requires Quiet(s) && r in s.reqs
    ensures Quiet(WithdrawOrWait(s, r)) && Quiet(AbortedTail(s, r))
  {
    hide Remove, Put, MoveCaller;
    MoveCallerQuiet(s, r);
  }

  lemma MoveCallerQuiet(s: State, r: Rid)
    requires Quiet(s) && r in s.reqs
    ensures forall c: Caller :: Quiet(MoveCaller(s, r, c))
  {
  }

  lemma FatalWaitQuiet(s: State, r: Rid)
    requires Quiet(s) && r in s.reqs
    ensures Quiet(AfterFatalWait(s, r))
  {
    hide AbortedTail;
    WithdrawQuiet(s, r);
    WithdrawQuiet(MarkAborted(s, r), r);
  }

  lemma SignalWaitQuiet(s: State, r: Rid, fatal: bool)
    requires Quiet(s) && r in s.reqs
    ensures Quiet(AfterSignalWait(s, r, fatal))
  {
    hide AbortedTail, SecondWait, MarkInterrupted;
    WithdrawQuiet(s, r);
    MarkInterruptedQuiet(s, r);
    SecondWaitQuiet(MarkInterrupted(s, r), r, fatal);
  }

  lemma MarkInterruptedQuiet(s: State, r: Rid)
    requires Quiet(s) && r in s.reqs
    ensures Quiet(MarkInterrupted(s, r))
  {
  }

  lemma SecondWaitQuiet(s: State, r: Rid, fatal: bool)
    requires Quiet(s) && r in s.reqs
    ensures Quiet(SecondWait(s, r, fatal))
  {
    hide AfterFatalWait;
    FatalWaitQuiet(s, r);
  }

  lemma SendNoWaitQuiet(s: State, r: Rid)
    requires Quiet(s) && r in s.reqs
    ensures Quiet(DoSendNoWait(s, r))
  {
  }

  lemma CallersQuiet(s: State, a: Step)
    requires Quiet(s) && Enabled(s, a) && !DeviceStepKind(a) && !AbortStepKind(a)
    ensures Quiet(ApplyCaller(s, a))
  {
    hide AfterSignalWait, AfterFatalWait, WithdrawOrWait, DoSendNoWait, EndTailed, NewRequest, Put, SecondWait,
         QueueRequest;
    match a {
      case WakeSignal(r, fatal) => SignalWaitQuiet(s, r, fatal);
      case WakeFatal(r) => FatalWaitQuiet(s, r);
      case WakeForced(r) => FatalWaitQuiet(s, r);
      case WakeUnlocked(r) => WithdrawQuiet(s, r);
      case SendNoWait(r) => SendNoWaitQuiet(s, r);
      case _ =>
    }
  }

  lemma DeviceEndQuiet(s: State, t: Tid, r: Rid, q: Req)
    requires Quiet(s)
    ensures Quiet(DeviceEnd(s, t, r, q))
  {
    hide Ended;
  }

  /** A request that is still being read while no list holds it was aborted. */
  lemma ReadAborted(s: State, t: Tid)
    requires Inv(s) && Quiet(s) && DevOf(s, t).ReadDone?
    ensures DevOf(s, t).r in s.reqs && s.reqs[DevOf(s, t).r].aborted
  {
    hide Inv;
    DeviceFacts(s, t);
    OnlyHands(s, t, DevOf(s, t).r);
  }

  lemma ReadFinalQuiet(s: State, t: Tid, r: Rid, err: bool)
    requires Quiet(s) && r in s.reqs && s.reqs[r].aborted
    ensures Quiet(DoReadFinal(s, t, r, err))
  {
    hide DeviceEnd, MoveToProcessing;
    DeviceEndQuiet(s, t, r, s.reqs[r].(locked := false));
  }

  /** Nothing is taken from a connection that is down. */
  lemma TakesNothing(s: State, a: Step)
    requires Quiet(s) && Enabled(s, a)
    ensures !a.ReadInterrupt? && !a.BeginRead? && !a.BeginWrite?
    ensures a.ReadFinal? ==> DevOf(s, a.t).ReadDone?
    ensures DeviceStepKind(a) ==> !DevOf(s, a.t).Idle?
  {
  }

  predicate PageStep(a: Step) {
    a.ReadLockPage? || a.ReadUnlockPage? || a.ReadCopied? || a.WriteCopy? || a.WriteUnlockPage? || a.WriteLockPage?
      || a.WriteCopied?
  }

  lemma PagesQuiet(s: State, a: Step)
    requires Quiet(s) && Enabled(s, a) && PageStep(a)
    ensures DeviceStepKind(a) && Quiet(ApplyDevice(s, a))
  {
    hide DoReadInterrupt, DoBeginRead, DoBeginWrite, DoReadFinal, DoWriteFinal, DeviceEnd, DoDeviceTail, DoReadLockPage,
         DoWriteLockPage, DoWriteCopy;
    var d := DevOf(s, a.t);
    if a.ReadLockPage? { LockPageQuiet(s, a.t, d.r, a.fault); }
    if a.WriteLockPage? { WritePageQuiet(s, a.t, d.r, d.m, d.copied, a.fault); }
    if a.WriteCopy? { CopyQuiet(s, a.t, d.r, d.m, d.copied, a.n); }
  }

  lemma LockPageQuiet(s: State, t: Tid, r: Rid, fault: bool)
    requires Quiet(s) && r in s.reqs
    ensures Quiet(DoReadLockPage(s, t, r, fault))
  {
  }

  lemma WritePageQuiet(s: State, t: Tid, r: Rid, m: Message, copied: int, fault: bool)
    requires Quiet(s) && r in s.reqs
    ensures Quiet(DoWriteLockPage(s, t, r, m, copied, fault))
  {
  }

  lemma CopyQuiet(s: State, t: Tid, r: Rid, m: Message, copied: int, n: int)
    requires Quiet(s) && r in s.reqs && 0 <= copied <= copied + n <= |m.payload|
    ensures Quiet(DoWriteCopy(s, t, r, m, copied, n))
  {
  }

  lemma DevicesQuiet(s: State, a: Step)
    requires Inv(s) && Quiet(s) && Enabled(s, a) && DeviceStepKind(a)
    ensures Quiet(ApplyDevice(s, a))
  {
    hide Inv, DoReadInterrupt, DoBeginRead, DoBeginWrite, DoReadFinal, DoWriteFinal, DeviceEnd, DoDeviceTail,
         DeviceStep, DoReadLockPage, DoWriteLockPage, DoWriteCopy, Enabled, Quiet, WriteResult;
    TakesNothing(s, a);
    if PageStep(a) {
      PagesQuiet(s, a);
    } else if a.ReadFinal? {
      ReadAborted(s, a.t);
      ReadFinalQuiet(s, a.t, DevOf(s, a.t).r, DevOf(s, a.t).err);
    } else {
      EndingQuiet(s, a);
    }
  }

  lemma EndingQuiet(s: State, a: Step)
    requires Quiet(s) && Enabled(s, a) && (a.WriteFinal? || a.WindowEnd? || a.DeviceTail?)
    ensures Quiet(ApplyDevice(s, a))
  {
    hide DoReadInterrupt, DoBeginRead, DoBeginWrite, DoReadFinal, DeviceEnd, DeviceStep, EndTailed, WriteResult,
         DoReadLockPage, DoWriteLockPage, DoWriteCopy;
    var d := DevOf(s, a.t);
    if a.WriteFinal? {
      DeviceEndQuiet(s, a.t, d.r, WriteResult(s.reqs[d.r], d.m, d.err));
    } else if a.WindowEnd? {
      DeviceEndQuiet(s, a.t, d.r, s.reqs[d.r].(outcome := Rejected));
    }
  }

  lemma AbortsQuiet(s: State, a: Step)
    requires Quiet(s) && Enabled(s, a) && AbortStepKind(a)
    ensures Quiet(ApplyAbort(s, a))
  {
    hide Put, EndTailed, EndLocked, AbortedIo, DoAbortIo, DoEndRequests;
    if a.AbortIo? { NoIoQuiet(s, a.t); }
    if a.EndRequests? { NoneQuiet(s, a.t, AbortOf(s, a.t).phase); }
  }

  lemma NoIoQuiet(s: State, t: Tid)
    requires Quiet(s)
    ensures Quiet(DoAbortIo(s, t))
  {
    hide AbortedIo;
  }

  lemma NoneQuiet(s: State, t: Tid, phase: Phase)
    requires Quiet(s)
    ensures Quiet(DoEndRequests(s, t, [], phase))
  {
    hide EndLocked;
  }

  lemma StepQuiet(s: State, a: Step)
    requires Inv(s) && Quiet(s) && Enabled(s, a)
    ensures Quiet(Apply(s, a))
  {
    hide Inv, Quiet, Enabled, ApplyCaller, ApplyDevice, ApplyAbort;
    if DeviceStepKind(a) {
      DevicesQuiet(s, a);
    } else if AbortStepKind(a) {
      AbortsQuiet(s, a);
    } else {
      CallersQuiet(s, a);
    }
  }

  /** Whatever happens to a connection that is down with empty lists, no list
      ever holds a request again. */
  lemma {:induction false} QuietLasts(s: State, steps: seq<Step>)
    requires Inv(s) && Quiet(s) && DisciplinedRun(s, steps)
    ensures NothingQueued(Reach(s, steps))
    decreases |steps|
  {
    hide Inv, Quiet, Enabled, Disciplined, Apply, NothingQueued;
    if steps == [] {
      QuietIsNothing(s);
    } else {
      StepKeeps(s, steps[0]);
      StepQuiet(s, steps[0]);
      QuietLasts(Apply(s, steps[0]), steps[1..]);
    }
  }

  // ----- aborting threads only go on -----

  /** A thread that has begun to abort does not forget it, and one that is
      through stays so. */
  predicate GoesOn(a: Abort, a': Abort) {
    (a == Completed ==> a' == Completed) && (a != Resting ==> a' != Resting)
  }

  // Callers and device threads leave the aborting threads and the connection alone.

  predicate Leaves(s: State, s': State) {
    s'.aborts == s.aborts && s'.connected == s.connected && (!s.connected && s'.blocked ==> s.blocked)
  }

  lemma CallersLeaveAborts(s: State, a: Step)
    requires Enabled(s, a) && !DeviceStepKind(a) && !AbortStepKind(a)
    ensures Leaves(s, ApplyCaller(s, a))
  {
    hide Put, EndTailed, DoSend, DoSendNoWait, AfterSignalWait, AfterFatalWait, WithdrawOrWait, MoveCaller, NewRequest;
  }

  lemma DevicesLeaveAborts(s: State, a: Step)
    requires Enabled(s, a) && DeviceStepKind(a)
    ensures Leaves(s, ApplyDevice(s, a))
  {
    hide DoReadInterrupt, DoBeginRead, DoBeginWrite, DoReadFinal, DoWriteFinal, DeviceEnd, DoDeviceTail, DeviceStep,
         DoReadLockPage, DoWriteLockPage, DoWriteCopy, Enabled;
  }

  lemma AbortIoLeavesOthers(s: State, t: Tid, u: Tid)
    requires (s.io == [] || s.io[0] in s.reqs) && u != t
    ensures AbortOf(DoAbortIo(s, t), u) == AbortOf(s, u)
  {
    hide AbortedIo;
  }

  lemma EndRequestsLeavesOthers(s: State, t: Tid, list: seq<Rid>, phase: Phase, u: Tid)
    requires (list == [] || list[0] in s.reqs) && u != t
    ensures AbortOf(DoEndRequests(s, t, list, phase), u) == AbortOf(s, u)
  {
    hide EndLocked;
    if list != [] {
      EndLockedAborts(s, list[0], s.reqs[list[0]].(error := -ECONNABORTED), Aborter(t));
    }
  }

  lemma EndLockedAborts(s: State, r: Rid, q: Req, owner: Owner)
    ensures EndLocked(s, r, q, owner).aborts == s.aborts
  {
    hide Remove, Ended;
  }

  lemma AbortIoGoesOn(s: State, t: Tid)
    requires s.io == [] || s.io[0] in s.reqs
    ensures AbortOf(s, t).Holding? ==> AbortOf(DoAbortIo(s, t), t) != Resting
  {
    hide AbortedIo;
  }

  lemma EndRequestsGoOn(s: State, t: Tid, list: seq<Rid>, phase: Phase)
    requires list == [] || list[0] in s.reqs
    ensures AbortOf(DoEndRequests(s, t, list, phase), t) != Resting
  {
    hide EndLocked;
  }

  lemma BackGoesOn(s: State, a: Step, t: Tid)
    requires Enabled(s, a) && (a.AbortCallback? || a.AbortTail?)
    ensures GoesOn(AbortOf(s, t), AbortOf(ApplyAbort(s, a), t))
  {
    hide Put, EndTailed, DoAbortIo, DoEndRequests;
  }

  lemma AbortsGoOn(s: State, a: Step, t: Tid)
    requires Enabled(s, a) && AbortStepKind(a)
    ensures GoesOn(AbortOf(s, t), AbortOf(ApplyAbort(s, a), t))
  {
    hide AfterTail, DoAbortIo, DoEndRequests, DoAbortCallback;
    if a.AbortCallback? || a.AbortTail? {
      BackGoesOn(s, a, t);
    } else if a.EndRequests? {
      var phase := AbortOf(s, a.t).phase;
      var list := if phase == PendingPhase then s.pending else s.processing;
      if t != a.t { EndRequestsLeavesOthers(s, a.t, list, phase, t); } else { EndRequestsGoOn(s, t, list, phase); }
    } else if a.AbortIo? {
      if t != a.t { AbortIoLeavesOthers(s, a.t, t); } else { AbortIoGoesOn(s, t); }
    }
  }

  lemma StepGoesOn(s: State, a: Step, t: Tid)
    requires Enabled(s, a)
    ensures GoesOn(AbortOf(s, t), AbortOf(Apply(s, a), t))
  {
    hide Enabled, ApplyCaller, ApplyDevice, ApplyAbort;
    if DeviceStepKind(a) {
      DevicesLeaveAborts(s, a);
    } else if AbortStepKind(a) {
      AbortsGoOn(s, a, t);
    } else {
      CallersLeaveAborts(s, a);
    }
  }

  lemma {:induction false} CompletedStays(s: State, steps: seq<Step>, t: Tid)
    requires DisciplinedRun(s, steps) && AbortOf(s, t) == Completed
    ensures AbortOf(Reach(s, steps), t) == Completed
    decreases |steps|
  {
    hide Disciplined, Apply, Enabled;
    if steps != [] {
      StepGoesOn(s, steps[0], t);
      CompletedStays(Apply(s, steps[0]), steps[1..], t);
    }
  }

  // ----- a connection goes down at the hands of somebody -----

  /** A connection that is down has a thread that took it down. */
  ghost predicate Attended(s: State) {
    s.connected || exists t: Tid :: AbortOf(s, t) != Resting
  }

  lemma TakesDown(s: State, a: Step)
    requires Enabled(s, a) && AbortStepKind(a) && s.connected
    ensures Attended(ApplyAbort(s, a))
  {
    hide DoAbortIo, DoEndRequests, DoAbortCallback, EndTailed;
    if a.AbortStart? || a.ReleaseStart? {
      assert AbortOf(ApplyAbort(s, a), a.t) != Resting;
    } else {
      StaysUp(s, a);
    }
  }

  lemma StaysUp(s: State, a: Step)
    requires Enabled(s, a) && AbortStepKind(a) && !a.AbortStart? && !a.ReleaseStart?
    ensures ApplyAbort(s, a).connected == s.connected && (ApplyAbort(s, a).blocked ==> s.blocked)
  {
    hide DoAbortIo, DoEndRequests, DoAbortCallback, EndTailed;
    if a.AbortIo? {
      AbortIoStaysUp(s, a.t);
    } else if a.EndRequests? {
      var phase := AbortOf(s, a.t).phase;
      EndRequestsStaysUp(s, a.t, if phase == PendingPhase then s.pending else s.processing, phase);
    } else if a.AbortCallback? {
      CallbackStaysUp(s, a.t, AbortOf(s, a.t).r);
    }
  }

  lemma AbortIoStaysUp(s: State, t: Tid)
    requires s.io == [] || s.io[0] in s.reqs
    ensures DoAbortIo(s, t).connected == s.connected && DoAbortIo(s, t).blocked == s.blocked
  {
    hide AbortedIo;
  }

  lemma EndRequestsStaysUp(s: State, t: Tid, list: seq<Rid>, phase: Phase)
    requires list == [] || list[0] in s.reqs
    ensures DoEndRequests(s, t, list, phase).connected == s.connected
    ensures DoEndRequests(s, t, list, phase).blocked ==> s.blocked
  {
    hide Remove, Ended;
  }

  lemma CallbackStaysUp(s: State, t: Tid, r: Rid)
    requires r in s.reqs
    ensures DoAbortCallback(s, t, r).connected == s.connected && DoAbortCallback(s, t, r).blocked == s.blocked
  {
    hide Put;
  }

  lemma StepAttended(s: State, a: Step)
    requires Enabled(s, a) && Attended(s)
    ensures Attended(Apply(s, a))
  {
    hide Enabled, ApplyCaller, ApplyDevice, ApplyAbort;
    if !s.connected {
      var t: Tid :| AbortOf(s, t) != Resting;
      StepGoesOn(s, a, t);
    } else if DeviceStepKind(a) {
      DevicesLeaveAborts(s, a);
    } else if AbortStepKind(a) {
      TakesDown(s, a);
    } else {
      CallersLeaveAborts(s, a);
    }
  }

  lemma {:induction false} RunAttended(s: State, steps: seq<Step>)
    requires Attended(s) && DisciplinedRun(s, steps)
    ensures Attended(Reach(s, steps))
    decreases |steps|
  {
    hide Disciplined, Apply, Enabled, Attended;
    if steps != [] {
      StepAttended(s, steps[0]);
      RunAttended(Apply(s, steps[0]), steps[1..]);
    }
  }

  // ----- callers that wait for fewer background requests -----

  lemma StepUnblocked(s: State, a: Step)
    requires Enabled(s, a) && !s.connected && !s.blocked
    ensures !Apply(s, a).connected && !Apply(s, a).blocked
  {
    hide ApplyCaller, ApplyDevice, ApplyAbort;
    if DeviceStepKind(a) {
      DevicesLeaveAborts(s, a);
    } else if AbortStepKind(a) {
      if a.ReleaseStart? { ReleaseUnblocked(s, a); } else { StaysUp(s, a); }
    } else {
      CallersLeaveAborts(s, a);
    }
  }

  lemma ReleaseUnblocked(s: State, a: Step)
    requires Enabled(s, a) && a.ReleaseStart?
    ensures AbortStepKind(a) && !ApplyAbort(s, a).connected && ApplyAbort(s, a).blocked == s.blocked
  {
  }

  lemma {:induction false} RunUnblocked(s: State, steps: seq<Step>)
    requires IsRun(s, steps) && !s.connected && !s.blocked
    ensures !After(s, steps).connected && !After(s, steps).blocked
    decreases |steps|
  {
    hide Apply, Enabled;
    if steps != [] {
      StepUnblocked(s, steps[0]);
      RunUnblocked(Apply(s, steps[0]), steps[1..]);
    }
  }

  /** From when fuse_abort_conn has found the connection up, nobody waits for the
      number of background requests to sink. */
  lemma AbortUnblocks(s: State, t: Tid, more: seq<Step>)
    requires Enabled(s, AbortStart(t)) && IsRun(Apply(s, AbortStart(t)), more)
    ensures !After(Apply(s, AbortStart(t)), more).blocked
  {
    hide IsRun, After;
    RunUnblocked(Apply(s, AbortStart(t)), more);
  }

  // ----- what a call leaves -----

  lemma CompletedClears(s: State, t: Tid)
    requires Inv(s) && AbortOf(s, t) == Completed
    ensures Quiet(s)
  {
    hide Inv, ReqOk, Lists, Threads, Background, Held;
    Parts(s);
    assert Cleared(s, Stage(AbortOf(s, t)));
  }

  /** When the walk of an abort or a release is through, no request is left on a
      list, every request that was sent is finished or withdrawn, and that stays so. */
  lemma AbortIsFinal(s: State, steps: seq<Step>, more: seq<Step>, t: Tid)
    requires Initial(s) && DisciplinedRun(s, steps) && AbortOf(Reach(s, steps), t) == Completed
    requires DisciplinedRun(Reach(s, steps), more)
    ensures NothingQueued(Reach(s, steps)) && NothingQueued(Reach(Reach(s, steps), more))
  {
    hide Inv, Reach, DisciplinedRun, NothingQueued, Quiet;
    InitialInv(s);
    RunKeeps(s, steps);
    var y := Reach(s, steps);
    CompletedClears(y, t);
    QuietIsNothing(y);
    QuietLasts(y, more);
  }

  /** Thread `u` is walking the lists and will find a request there. */
  ghost predicate HasToWalk(s: State, u: Tid) {
    var stage := Stage(AbortOf(s, u));
    && 1 <= stage <= 3
    && ((stage == 1 && s.io != []) || (stage <= 2 && s.pending != []) || s.processing != [])
  }

  /** A connection that is down holds requests exactly while somebody has to
      walk over them. */
  lemma QuietIffWalked(s: State)
    requires Inv(s) && Attended(s) && !s.connected
    ensures Quiet(s) <==> forall u: Tid :: !HasToWalk(s, u)
  {
    hide Inv, Lists, Threads, Background, Held, ReqOk;
    Parts(s);
    var t: Tid :| AbortOf(s, t) != Resting;
    assert Cleared(s, Stage(AbortOf(s, t)));
    if !HasToWalk(s, t) {
      assert Stage(AbortOf(s, t)) >= 1;
    }
  }

  /** From here on no list ever holds a request. */
  ghost predicate EmptyForGood(s: State) {
    forall more: seq<Step> | DisciplinedRun(s, more) :: NothingQueued(Reach(s, more))
  }

  lemma EmptyForGoodIff(s: State)
    requires Inv(s)
    ensures EmptyForGood(s) <==> Quiet(s)
  {
    hide Inv, NothingQueued, Quiet, Disciplined, Enabled, Apply;
    if EmptyForGood(s) {
      assert DisciplinedRun(s, []);
      assert NothingQueued(Reach(s, []));
      assert Quiet(s) by { NothingIsQuiet(s); }
    }
    if Quiet(s) {
      forall more: seq<Step> | DisciplinedRun(s, more) ensures NothingQueued(Reach(s, more)) {
        QuietLasts(s, more);
      }
    }
  }

  lemma NothingIsQuiet(s: State)
    requires NothingQueued(s)
    ensures Quiet(s)
  {
  }

  /** `a` is the step with which a call of fuse_abort_conn or fuse_dev_release by
      thread `t` comes back. */
  ghost predicate Returns(s: State, a: Step, t: Tid)
    requires Enabled(s, a)
  {
    a == LateAbort(t) || (AbortOf(s, t) != Completed && AbortOf(Apply(s, a), t) == Completed)
  }

  /** A call leaves the lists empty for good exactly when it walked them itself,
      which it does when it finds the connection up, or when nobody who still
      walks them has a request ahead. In particular when nobody walks them. */
  lemma AbortReturnsIff(s: State, steps: seq<Step>, a: Step, t: Tid)
    requires Initial(s) && DisciplinedRun(s, steps)
    requires Enabled(Reach(s, steps), a) && Disciplined(Reach(s, steps), a) && Returns(Reach(s, steps), a, t)
    ensures EmptyForGood(Apply(Reach(s, steps), a)) <==> a != LateAbort(t) || forall u: Tid ::
            !HasToWalk(Reach(s, steps), u)
  {
    hide Inv, Reach, DisciplinedRun, Disciplined, EmptyForGood, Quiet, Attended, HasToWalk;
    InitialInv(s);
    RunKeeps(s, steps);
    InitialAttended(s);
    RunAttended(s, steps);
    var y := Reach(s, steps);
    StepKeeps(y, a);
    EmptyForGoodIff(Apply(y, a));
    if a == LateAbort(t) {
      LateChangesNothing(y, t);
      QuietIffWalked(y);
    } else {
      CompletedClears(Apply(y, a), t);
    }
    hide Apply, Enabled;
  }

  lemma InitialAttended(s: State)
    requires Initial(s)
    ensures Attended(s)
  {
  }

  lemma LateChangesNothing(s: State, t: Tid)
    requires Enabled(s, LateAbort(t))
    ensures Apply(s, LateAbort(t)) == s && !s.connected
  {
  }

  // ----- a run in which a late call comes back too early -----

  /** Two requests are pending when thread 3 aborts the connection. */
  function LateStep(i: nat): Step {
    match i
    case 0 => Prepare(0, false, true, false, false, false, 0, 0)
    case 1 => Send(0, false, false)
    case 2 => Prepare(1, false, true, false, false, false, 0, 0)
    case 3 => Send(1, false, false)
    case 4 => AbortStart(3)
    case 5 => AbortIo(3)
    case 6 => EndRequests(3)
    case 7 => AbortTail(3)
    case 8 => AbortRelock(3)
    case _ => EndRequests(3)
  }

  function LateReq(unique: int, stage: nat): Req {
    var made := NewRequest(false, true, false, false, false, 0, 0);
    var sent := made.(count := 2, unique := unique, state := Pending, caller := WaitSignal, qref := Listed);
    var ended := sent.(error := -ECONNABORTED, state := Finished, ended := 1);
    match stage
    case 0 => made
    case 1 => sent
    case 2 => ended.(qref := Tail(Aborter(3), false))
    case _ => ended.(qref := Gone, count := 1)
  }

  function LateReqs(i: nat): map<Rid, Req> {
    match i
    case 0 => map[]
    case 1 => map[0 := LateReq(0, 0)]
    case 2 => map[0 := LateReq(0, 0)][0 := LateReq(1, 1)]
    case 3 => LateReqs(2)[1 := LateReq(0, 0)]
    case 4 => LateReqs(3)[1 := LateReq(2, 1)]
    case 5 => LateReqs(4)
    case 6 => LateReqs(4)
    case 7 => LateReqs(4)[0 := LateReq(1, 2)]
    case 8 => LateReqs(7)[0 := LateReq(1, 3)]
    case 9 => LateReqs(8)
    case _ => LateReqs(8)[1 := LateReq(2, 2)]
  }

  function LateWalk(i: nat): Abort {
    match i
    case 5 => Holding(IoPhase)
    case 6 => Holding(PendingPhase)
    case 7 => EndTail(0, false, PendingPhase)
    case 8 => Relock(PendingPhase)
    case 9 => Holding(PendingPhase)
    case _ => EndTail(1, false, PendingPhase)
  }

  function LateAt(i: nat): State {
    State(i < 5, false, false, false, 0, if i < 2 then 0 else if i < 4 then 1 else 2, LateReqs(i),
          if i < 2 || i == 10 then [] else if i < 4 then [0] else if i < 7 then [0, 1] else [1], [], [], [],
          map[], if i < 5 then map[] else map[3 := LateWalk(i)],
          if i == 5 || i == 6 || i == 9 then Some(3) else None, false)
  }

  ghost predicate LateMove(i: nat) {
    && Enabled(LateAt(i), LateStep(i)) && Disciplined(LateAt(i), LateStep(i))
    && Apply(LateAt(i), LateStep(i)) == LateAt(i + 1)
  }

  lemma LatePrepares(i: nat)
    requires i == 0 || i == 2
    ensures LateMove(i)
  {
    hide ApplyDevice, ApplyAbort, DoSend, DoSendNoWait, AfterSignalWait, AfterFatalWait, WithdrawOrWait;
  }

  lemma LateMaySend(i: nat)
    requires i == 1 || i == 3
    ensures Enabled(LateAt(i), LateStep(i)) && Disciplined(LateAt(i), LateStep(i))
  {
  }

  lemma SendQueues(s: State, r: Rid)
    requires Enabled(s, Send(r, false, false)) && s.connected && !s.connError && !s.noInterrupt && r in s.reqs
    ensures Apply(s, Send(r, false, false)) ==
            QueueRequest(s, r, s.reqs[r].(count := s.reqs[r].count + 1, caller := WaitSignal))
  {
    hide Enabled, ApplyDevice, ApplyAbort, DoSendNoWait, AfterSignalWait, AfterFatalWait, WithdrawOrWait, SecondWait;
  }

  lemma LateSends(i: nat)
    requires i == 1 || i == 3
    ensures LateMove(i)
  {
    LateMaySend(i);
    SendQueues(LateAt(i), LateStep(i).r);
    hide Enabled, Disciplined, Apply;
  }

  lemma LateStarts(i: nat)
    requires i == 4 || i == 5
    ensures LateMove(i)
  {
    hide ApplyDevice, ApplyCaller, DoEndRequests, AfterTail, DoAbortCallback;
  }

  lemma LateMay(i: nat)
    requires 6 <= i < 10
    ensures Enabled(LateAt(i), LateStep(i)) && Disciplined(LateAt(i), LateStep(i))
  {
    LateRequests(i);
    hide LateReqs;
  }

  lemma LateRequests(i: nat)
    requires 6 <= i <= 10
    ensures 0 in LateReqs(i) && LateReqs(i)[0] == LateReq(1, if i == 6 then 1 else if i == 7 then 2 else 3)
    ensures 1 in LateReqs(i) && LateReqs(i)[1] == LateReq(2, if i < 10 then 1 else 2)
  {
  }

  lemma LateUpdates()
    ensures LateReqs(7) == LateReqs(6)[0 := LateReq(1, 2)] && LateReqs(8) == LateReqs(7)[0 := LateReq(1, 3)]
    ensures LateReqs(9) == LateReqs(8) && LateReqs(10) == LateReqs(9)[1 := LateReq(2, 2)]
    ensures Remove([0, 1], 0) == [1] && Remove([1], 1) == []
  {
    hide LateReq;
    assert [0, 1][1..] == [1] && [1][1..] == [];
    assert Remove([0, 1], 0) == Remove([1], 0);
  }

  /** What end_requests makes of the request at the head of the pending list. */
  lemma LateEnded(i: nat, r: Rid, q: Req)
    requires (i == 6 && r == 0 && q == LateReq(1, 1)) || (i == 9 && r == 1 && q == LateReq(2, 1))
    ensures Ended(q.(error := -ECONNABORTED), Aborter(3)) == LateReq(if i == 6 then 1 else 2, 2) && !q.background
            && !q.endFn
  {
  }

  lemma LateEndsFirst()
    ensures LateMove(6)
  {
    hide ApplyDevice, ApplyCaller, DoAbortIo, AfterTail, DoAbortCallback, Enabled, Disciplined, LateReqs, LateReq,
         Remove, Ended;
    LateMay(6);
    LateRequests(6);
    LateUpdates();
    LateEnded(6, 0, LateReq(1, 1));
  }

  lemma LateEndsSecond()
    ensures LateMove(9)
  {
    hide ApplyDevice, ApplyCaller, DoAbortIo, AfterTail, DoAbortCallback, Enabled, Disciplined, LateReqs, LateReq,
         Remove, Ended;
    LateMay(9);
    LateRequests(9);
    LateUpdates();
    LateEnded(9, 1, LateReq(2, 1));
  }

  lemma LateTailed()
    ensures EndTailed(LateReq(1, 2), false) == LateReq(1, 3)
  {
  }

  lemma LateTail()
    ensures LateMove(7)
  {
    hide ApplyDevice, ApplyCaller, DoAbortIo, DoEndRequests, DoAbortCallback, Enabled, Disciplined, LateReqs, LateReq,
         EndTailed;
    LateMay(7);
    LateRequests(7);
    LateUpdates();
    LateTailed();
  }

  lemma LateRelocks()
    ensures LateMove(8)
  {
    hide ApplyDevice, ApplyCaller, DoAbortIo, DoEndRequests, DoAbortCallback, Enabled, Disciplined, LateReqs, AfterTail;
    LateMay(8);
    LateUpdates();
  }

  lemma LateMoves(i: nat)
    requires i < 10
    ensures LateMove(i)
  {
    hide LateMove;
    if i == 0 || i == 2 { LatePrepares(i); }
    else if i == 1 || i == 3 { LateSends(i); }
    else if i < 6 { LateStarts(i); }
    else if i == 6 { LateEndsFirst(); }
    else if i == 7 { LateTail(); }
    else if i == 8 { LateRelocks(); }
    else { LateEndsSecond(); }
  }

  function LateSteps(i: nat, n: nat): seq<Step>
    decreases n - i
  {
    if i < n then [LateStep(i)] + LateSteps(i + 1, n) else []
  }

  lemma {:induction false} LateRuns(i: nat, n: nat)
    requires i <= n <= 10
    ensures DisciplinedRun(LateAt(i), LateSteps(i, n)) && Reach(LateAt(i), LateSteps(i, n)) == LateAt(n)
    decreases n - i
  {
    hide Enabled, Disciplined, Apply, LateAt, LateStep;
    if i < n {
      LateMoves(i);
      assert LateSteps(i, n)[1..] == LateSteps(i + 1, n);
      LateRuns(i + 1, n);
    }
  }

  /** From a fresh connection: a call that finds the connection down comes back
      while a request is still pending. Three steps later the same walk still
      goes on, but has no request ahead: there a call leaves the lists empty. */
  lemma LateAbortTooEarly()
    ensures Initial(LateAt(0)) && DisciplinedRun(LateAt(0), LateSteps(0, 7))
            && DisciplinedRun(LateAt(0), LateSteps(0, 10))
    ensures var y := Reach(LateAt(0), LateSteps(0, 7));
            && Enabled(y, LateAbort(4)) && Apply(y, LateAbort(4)).pending == [1]
            && !EmptyForGood(Apply(y, LateAbort(4)))
    ensures var z := Reach(LateAt(0), LateSteps(0, 10));
            && Enabled(z, LateAbort(4)) && AbortOf(z, 3).EndTail? && EmptyForGood(Apply(z, LateAbort(4)))
  {
    hide DisciplinedRun, Reach, EmptyForGood, LateSteps, Inv;
    LateRuns(0, 7);
    LateRuns(0, 10);
    LateEdges();
    InitialInv(LateAt(0));
    RunKeeps(LateAt(0), LateSteps(0, 7));
    RunKeeps(LateAt(0), LateSteps(0, 10));
    EmptyForGoodIff(LateAt(7));
    EmptyForGoodIff(LateAt(10));
    hide Apply, Enabled, LateAt, Initial, Quiet;
  }

  lemma LateEdges()
    ensures Initial(LateAt(0))
    ensures Enabled(LateAt(7), LateAbort(4)) && Apply(LateAt(7), LateAbort(4)) == LateAt(7) && LateAt(7).pending == [1]
    ensures Enabled(LateAt(10), LateAbort(4)) && Apply(LateAt(10), LateAbort(4)) == LateAt(10) && Quiet(LateAt(10))
    ensures AbortOf(LateAt(10), 3).EndTail?
  {
  }
}
