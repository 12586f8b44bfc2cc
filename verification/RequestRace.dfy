/** Where the request protocol goes wrong, exactly. */
module RequestRace {
  import opened Sequences
  import opened RequestModel
  import opened RequestInvariant
  import opened RequestSteps
  import opened RequestTheorems

  // fuse_dev_writev drops the lock between finding an aborted request and ending
  // it, and leaves the request on the processing list meanwhile.

  /** Every request ends once: nobody has ended a request that a writer is
      about to end, no two writers are about to, and no request is queued twice
      for interruption. */
  ghost predicate EndsOnce(s: State) {
    && (forall r <- s.reqs :: s.reqs[r].ended <= 1)
    && (forall t: Tid :: DevOf(s, t).WriteWindow? ==> DevOf(s, t).r in s.reqs && s.reqs[DevOf(s, t).r].ended == 0)
    && (forall t: Tid, u: Tid ::
       DevOf(s, t).WriteWindow? && DevOf(s, u).WriteWindow? && DevOf(s, t).r == DevOf(s, u).r ==> t == u)
    && NoDup(s.interrupts)
  }

  lemma InvEndsOnce(s: State)
    requires Inv(s)
    ensures EndsOnce(s)
  {
    Parts(s);
    forall r <- s.reqs ensures s.reqs[r].ended <= 1 {
      SettledHolds(s, r);
    }
    forall t: Tid | DevOf(s, t).WriteWindow? ensures DevOf(s, t).r in s.reqs && s.reqs[DevOf(s, t).r].ended == 0 {
      WindowOpen(s, t);
    }
    forall t: Tid, u: Tid | DevOf(s, t).WriteWindow? && DevOf(s, u).WriteWindow? && DevOf(s, t).r == DevOf(s, u).r
      ensures t == u {
      WindowOpen(s, t);
      WindowOpen(s, u);
    }
    hide Inv, Threads, Aborting, Background, Held, ReqAt, Settled;
  }

  lemma WindowOpen(s: State, t: Tid)
    requires Inv(s) && DevOf(s, t).WriteWindow?
    ensures var r := DevOf(s, t).r;
            r in s.reqs && s.reqs[r].window == Some(t) && s.reqs[r].ended == 0 && s.reqs[r].aborted
  {
    DeviceFacts(s, t);
    SettledHolds(s, DevOf(s, t).r);
    ReqFacts(s, DevOf(s, t).r);
    hide Inv;
  }

  /** end_requests takes a request out of a writer's window. */
  lemma StolenByAbort(s: State, t: Tid, u: Tid)
    requires Inv(s) && Enabled(s, EndRequests(t)) && AbortOf(s, t) == Holding(ProcessingPhase) && s.processing != []
    requires DevOf(s, u) == WriteWindow(s.processing[0])
    ensures var s' := Apply(s, EndRequests(t));
            var r := s.processing[0];
            && s'.lock == None && r in s'.reqs && s'.reqs[r].ended == 1 && DevOf(s', u) == WriteWindow(r)
  {
    WindowOpen(s, u);
    hide Inv, Remove;
  }

  /** A second writer enters the window. */
  lemma SharedWindow(s: State, t: Tid, m: Message, u: Tid)
    requires Inv(s) && Enabled(s, BeginWrite(t, m))
    requires var found := Find(s.processing, s.reqs, m.unique); found.Some? && DevOf(s, u) == WriteWindow(found.value)
    ensures var s' := Apply(s, BeginWrite(t, m));
            var r := Find(s.processing, s.reqs, m.unique).value;
            && t != u && s'.lock == None && r in s'.reqs && s'.reqs[r].ended == 0 && DevOf(s', u) == WriteWindow(r)
            && DevOf(s', t) == WriteWindow(r)
  {
    WindowOpen(s, u);
    hide Inv, Find;
  }

  /** An interrupt that is queued is answered with EAGAIN. */
  ghost predicate SecondEagain(s: State, a: Step) {
    a.BeginWrite? && var found := Find(s.processing, s.reqs, a.m.unique);
    && found.Some? && s.reqs[found.value].intrUnique == a.m.unique && a.m.error == -EAGAIN && a.m.Bytes() == OUT_HEADER
    && !s.reqs[found.value].aborted && found.value in s.interrupts
  }

  /** The request is on the interrupt list twice then. */
  lemma QueuedTwice(s: State, t: Tid, m: Message)
    requires Enabled(s, BeginWrite(t, m))
    requires SecondEagain(s, BeginWrite(t, m))
    ensures !NoDup(Apply(s, BeginWrite(t, m)).interrupts)
  {
    QueuesAgain(s, BeginWrite(t, m));
    hide Find, Enabled, Apply;
    var s' := Apply(s, BeginWrite(t, m));
    var r := Find(s.processing, s.reqs, m.unique).value;
    assert s'.interrupts == s.interrupts + [r];
    var i :| 0 <= i < |s.interrupts| && s.interrupts[i] == r;
    assert s'.interrupts[i] == s'.interrupts[|s.interrupts|];
  }

  /** A writer left in its window ends its request, whoever else has. */
  lemma WindowEnds(s: State, t: Tid)
    requires s.lock == None && DevOf(s, t).WriteWindow? && DevOf(s, t).r in s.reqs
    ensures Enabled(s, WindowEnd(t))
    ensures var s' := Apply(s, WindowEnd(t));
            var r := DevOf(s, t).r;
            && s'.lock == None && r in s'.reqs && s'.reqs[r].ended == s.reqs[r].ended + 1
            && forall u: Tid | u != t :: DevOf(s', u) == DevOf(s, u)
  {
    hide Remove;
  }

  /** One step keeps every request ending once exactly when it is disciplined. */
  lemma StepEndsOnceIff(s: State, a: Step)
    requires Inv(s) && Enabled(s, a)
    ensures Disciplined(s, a) <==> EndsOnce(Apply(s, a))
  {
    if Disciplined(s, a) {
      StepKeeps(s, a);
      InvEndsOnce(Apply(s, a));
    } else {
      UndisciplinedBreaks(s, a);
    }
    hide Inv, Disciplined, Apply, EndsOnce, Enabled;
  }

  lemma UndisciplinedBreaks(s: State, a: Step)
    requires Inv(s) && Enabled(s, a) && !Disciplined(s, a)
    ensures !EndsOnce(Apply(s, a))
  {
    hide Inv, Apply, Find, Enabled;
    match a {
      case EndRequests(t) =>
        var u: Tid :| DevOf(s, u) == WriteWindow(s.processing[0]);
        StolenByAbort(s, t, u);
      case BeginWrite(t, m) =>
        var r := Find(s.processing, s.reqs, m.unique).value;
        if !NoWindow(s, r) {
          var u: Tid :| DevOf(s, u) == WriteWindow(r);
          SharedWindow(s, t, m, u);
        } else {
          QueuedTwice(s, t, m);
        }
      case _ =>
    }
  }

  /** Every state on the way ends every request once. */
  ghost predicate AlwaysEndsOnce(s: State, steps: seq<Step>)
    requires IsRun(s, steps)
    decreases |steps|
  {
    EndsOnce(s) && (steps != [] ==> AlwaysEndsOnce(Apply(s, steps[0]), steps[1..]))
  }

  /** A whole run ends every request once exactly when it is disciplined. */
  lemma {:induction false} RunEndsOnceIff(s: State, steps: seq<Step>)
    requires Inv(s) && IsRun(s, steps)
    ensures DisciplinedRun(s, steps) <==> AlwaysEndsOnce(s, steps)
    decreases |steps|
  {
    hide Inv, Apply, Enabled, Disciplined, EndsOnce;
    InvEndsOnce(s);
    if steps != [] {
      StepEndsOnceIff(s, steps[0]);
      if Disciplined(s, steps[0]) {
        StepKeeps(s, steps[0]);
        RunEndsOnceIff(Apply(s, steps[0]), steps[1..]);
      } else {
        NotAlways(Apply(s, steps[0]), steps[1..]);
      }
    }
  }

  lemma NotAlways(s: State, steps: seq<Step>)
    requires IsRun(s, steps) && !EndsOnce(s)
    ensures !AlwaysEndsOnce(s, steps)
  {
  }

  predicate AboutRequests(s: State, a: Step) {
    a.EndRequests? || (a.BeginWrite? && var found := Find(s.processing, s.reqs, a.m.unique);
                       found.Some? && found.value in s.reqs && s.reqs[found.value].aborted)
  }

  /** Letting writers finish that are in their windows. */
  predicate OnlyWindowEnds(rest: seq<Step>) { forall a <- rest :: a.WindowEnd? }

  /** What breaking the discipline on a request costs: a continuation in which
      request_end runs on it a second time. */
  lemma EndsTwice(s: State, a: Step) returns (rest: seq<Step>, r: Rid)
    requires Inv(s) && Enabled(s, a) && !Disciplined(s, a) && AboutRequests(s, a)
    ensures OnlyWindowEnds(rest) && IsRun(Apply(s, a), rest)
    ensures var z := After(Apply(s, a), rest); r in z.reqs && z.reqs[r].ended == 2
  {
    hide Inv, Apply, Find, Enabled;
    var s1 := Apply(s, a);
    if a.EndRequests? {
      r := s.processing[0];
      var u: Tid :| DevOf(s, u) == WriteWindow(r);
      StolenByAbort(s, a.t, u);
      WindowEnds(s1, u);
      rest := [WindowEnd(u)];
      OneStep(s1, WindowEnd(u));
    } else {
      r := Find(s.processing, s.reqs, a.m.unique).value;
      var u: Tid :| DevOf(s, u) == WriteWindow(r);
      SharedWindow(s, a.t, a.m, u);
      WindowEnds(s1, u);
      WindowEnds(Apply(s1, WindowEnd(u)), a.t);
      rest := [WindowEnd(u), WindowEnd(a.t)];
      TwoSteps(s1, WindowEnd(u), WindowEnd(a.t));
    }
  }

  lemma OneStep(s: State, a: Step)
    requires Enabled(s, a)
    ensures IsRun(s, [a]) && After(s, [a]) == Apply(s, a)
  {
    hide Enabled, Apply;
    assert [a][1..] == [];
  }

  lemma TwoSteps(s: State, a: Step, b: Step)
    requires Enabled(s, a) && Enabled(Apply(s, a), b)
    ensures IsRun(s, [a, b]) && After(s, [a, b]) == Apply(Apply(s, a), b)
  {
    hide Enabled, Apply;
    OneStep(Apply(s, a), b);
    assert [a, b][1..] == [b];
  }

  // ----- ending twice, over whole runs -----

  /** However the writers in their windows finish, no request ends twice. */
  ghost predicate ClosesOnce(s: State) {
    forall rest: seq<Step> | OnlyWindowEnds(rest) && IsRun(s, rest) :: NoneTwice(After(s, rest))
  }

  predicate NoneTwice(s: State) { forall r <- s.reqs :: s.reqs[r].ended <= 1 }

  lemma {:induction false} WindowEndsDisciplined(s: State, rest: seq<Step>)
    requires OnlyWindowEnds(rest) && IsRun(s, rest)
    ensures DisciplinedRun(s, rest)
    decreases |rest|
  {
    hide Enabled, Apply;
    if rest != [] {
      assert rest[0].WindowEnd?;
      WindowEndsDisciplined(Apply(s, rest[0]), rest[1..]);
    }
  }

  lemma InvClosesOnce(s: State)
    requires Inv(s)
    ensures ClosesOnce(s)
  {
    hide Inv, IsRun, After, DisciplinedRun, EndsOnce, OnlyWindowEnds;
    forall rest: seq<Step> | OnlyWindowEnds(rest) && IsRun(s, rest) ensures NoneTwice(After(s, rest)) {
      WindowEndsDisciplined(s, rest);
      RunKeeps(s, rest);
      InvEndsOnce(Reach(s, rest));
      EndsOnceNoneTwice(Reach(s, rest));
    }
  }

  lemma EndsOnceNoneTwice(s: State)
    requires EndsOnce(s)
    ensures NoneTwice(s)
  {
  }

  lemma BreaksAboutRequests(s: State, a: Step)
    requires Inv(s) && Enabled(s, a) && !Disciplined(s, a) && !SecondEagain(s, a)
    ensures AboutRequests(s, a)
  {
    hide Inv, Find, Enabled;
    if a.BeginWrite? {
      var r := Find(s.processing, s.reqs, a.m.unique).value;
      var u: Tid :| DevOf(s, u) == WriteWindow(r);
      WindowOpen(s, u);
    }
  }

  lemma StepClosesOnceIff(s: State, a: Step)
    requires Inv(s) && Enabled(s, a) && !SecondEagain(s, a)
    ensures Disciplined(s, a) <==> ClosesOnce(Apply(s, a))
  {
    hide Inv, Disciplined, Apply, Enabled, SecondEagain, AboutRequests, IsRun, After;
    if Disciplined(s, a) {
      StepKeeps(s, a);
      InvClosesOnce(Apply(s, a));
    } else {
      BreaksAboutRequests(s, a);
      var rest, r := EndsTwice(s, a);
      var z := After(Apply(s, a), rest);
      assert r in z.reqs && !NoneTwice(z);
    }
  }

  ghost predicate AlwaysClosesOnce(s: State, steps: seq<Step>)
    requires IsRun(s, steps)
    decreases |steps|
  {
    ClosesOnce(s) && (steps != [] ==> AlwaysClosesOnce(Apply(s, steps[0]), steps[1..]))
  }

  ghost predicate NoSecondEagain(s: State, steps: seq<Step>)
    requires IsRun(s, steps)
    decreases |steps|
  {
    steps == [] || (!SecondEagain(s, steps[0]) && NoSecondEagain(Apply(s, steps[0]), steps[1..]))
  }

  /** In a run whose interrupts are answered once, no request is ended twice, not
      even when at some point the writers in their windows are let finish,
      exactly when each step is disciplined. */
  lemma {:induction false} RunClosesOnceIff(s: State, steps: seq<Step>)
    requires Inv(s) && IsRun(s, steps) && NoSecondEagain(s, steps)
    ensures DisciplinedRun(s, steps) <==> AlwaysClosesOnce(s, steps)
    decreases |steps|
  {
    hide Inv, Apply, Enabled, Disciplined, ClosesOnce, SecondEagain;
    InvClosesOnce(s);
    if steps != [] {
      var s1, rest := Apply(s, steps[0]), steps[1..];
      StepClosesOnceIff(s, steps[0]);
      if Disciplined(s, steps[0]) {
        StepKeeps(s, steps[0]);
        RunClosesOnceIff(s1, rest);
      } else {
        assert !AlwaysClosesOnce(s1, rest);
      }
    }
  }

  // ----- a run from a fresh connection that ends a freed request again -----

  function RaceReq(q: Req, state: ReqState, caller: Caller, qref: QueueRef): Req {
    q.(state := state, caller := caller, qref := qref)
  }

  /** The request of the race: prepared, read by the daemon, abandoned
      by its caller, ended by the abort, freed. */
  function RaceReqAt(i: nat): Req {
    var made := NewRequest(false, true, false, false, false, 0, 0);
    var sent := made.(count := 2, unique := 1);
    var aborted := sent.(interrupted := true, aborted := true, error := -EINTR);
    var ended := aborted.(error := -ECONNABORTED, ended := 1, endFn := false);
    match i
    case 1 => made
    case 2 => RaceReq(sent, Pending, WaitSignal, Listed)
    case 3 => RaceReq(sent, Reading, WaitSignal, InHands(1))
    case 4 => RaceReq(sent, Reading, WaitSignal, InHands(1)).(locked := true)
    case 5 => RaceReq(sent, Reading, WaitSignal, InHands(1)).(locked := true)
    case 6 => RaceReq(sent, Sent, WaitSignal, Listed)
    case 7 => RaceReq(aborted, Sent, WaitFinished, Listed)
    case 8 => RaceReq(aborted, Sent, WaitFinished, Listed).(window := Some(2))
    case 9 => RaceReq(aborted, Sent, WaitFinished, Listed).(window := Some(2))
    case 10 => RaceReq(aborted, Sent, WaitFinished, Listed).(window := Some(2))
    case 11 => RaceReq(aborted, Sent, WaitFinished, Listed).(window := Some(2))
    case 12 => RaceReq(ended, Finished, WaitFinished, Tail(Aborter(3), false))
    case 13 => RaceReq(ended, Finished, WaitFinished, Gone).(count := 1)
    case 14 => RaceReq(ended, Finished, Returned, Gone).(count := 1)
    case _ => RaceReq(ended, Finished, Released, Gone).(count := 0, freed := true)
  }

  function RaceStep(i: nat): Step {
    match i
    case 0 => Prepare(0, false, true, false, false, false, 0, 0)
    case 1 => Send(0, false, false)
    case 2 => BeginRead(1, false, false)
    case 3 => ReadLockPage(1, false)
    case 4 => ReadCopied(1)
    case 5 => ReadFinal(1)
    case 6 => WakeSignal(0, true)
    case 7 => BeginWrite(2, Message(1, 0, 16, []))
    case 8 => AbortStart(3)
    case 9 => AbortIo(3)
    case 10 => EndRequests(3)
    case 11 => EndRequests(3)
    case 12 => AbortTail(3)
    case 13 => WakeFinished(0)
    case 14 => CallerPut(0)
    case _ => WindowEnd(2)
  }

  function RaceDev1(i: nat): Dev {
    match i
    case 3 => ReadUnlocked(0)
    case 4 => ReadLocked(0)
    case 5 => ReadDone(0, false)
    case _ => Idle
  }

  function RaceAbort(i: nat): Abort {
    match i
    case 9 => Holding(IoPhase)
    case 10 => Holding(PendingPhase)
    case 11 => Holding(ProcessingPhase)
    case 12 => EndTail(0, false, ProcessingPhase)
    case _ => Relock(ProcessingPhase)
  }

  function RaceAt(i: nat): State {
    State(i < 9, false, false, false, 0, if i < 2 then 0 else 1,
          if i == 0 then map[] else map[0 := RaceReqAt(i)],
          if i == 2 then [0] else [], if 6 <= i < 12 then [0] else [], if 3 <= i < 6 then [0] else [],
          if 7 <= i < 12 then [0] else [],
          if i < 3 then map[] else if i < 8 then map[1 := RaceDev1(i)] else map[1 := Idle, 2 := WriteWindow(0)],
          if i < 9 then map[] else map[3 := RaceAbort(i)],
          if 9 <= i < 12 then Some(3) else None, false)
  }

  lemma RacePrepares(i: nat)
    requires i == 0
    ensures Enabled(RaceAt(i), RaceStep(i)) && Apply(RaceAt(i), RaceStep(i)) == RaceAt(i + 1)
  {
    hide ApplyDevice, ApplyAbort, DoSend, DoSendNoWait, DoUnsentTail, DoCallerPut, AfterSignalWait, AfterFatalWait,
         WithdrawOrWait, MoveCaller;
  }

  lemma RaceSends(i: nat)
    requires i == 1
    ensures Enabled(RaceAt(i), RaceStep(i)) && Apply(RaceAt(i), RaceStep(i)) == RaceAt(i + 1)
  {
    hide ApplyDevice, ApplyAbort, DoSendNoWait, DoUnsentTail, DoCallerPut, AfterFatalWait, WithdrawOrWait, MoveCaller;
  }

  lemma RaceBeginsRead(i: nat)
    requires i == 2
    ensures Enabled(RaceAt(i), RaceStep(i)) && Apply(RaceAt(i), RaceStep(i)) == RaceAt(i + 1)
  {
    hide ApplyCaller, ApplyAbort, DoReadInterrupt, DoBeginWrite, DoReadFinal, DoWriteFinal, DoDeviceTail,
         DoReadLockPage, DoWriteLockPage, DoWriteCopy;
  }

  lemma RaceReads(i: nat)
    requires 3 <= i < 5
    ensures Enabled(RaceAt(i), RaceStep(i)) && Apply(RaceAt(i), RaceStep(i)) == RaceAt(i + 1)
  {
    hide ApplyCaller, ApplyAbort, DoReadInterrupt, DoBeginRead, DoBeginWrite, DoReadFinal, DoWriteFinal, DeviceEnd,
         DoDeviceTail, DoWriteLockPage, DoWriteCopy;
  }

  lemma RaceReadDone(i: nat)
    requires i == 5
    ensures Enabled(RaceAt(i), RaceStep(i)) && Apply(RaceAt(i), RaceStep(i)) == RaceAt(i + 1)
  {
    hide ApplyCaller, ApplyAbort, DoReadInterrupt, DoBeginRead, DoBeginWrite, DoWriteFinal, DoDeviceTail,
         DoReadLockPage, DoWriteLockPage, DoWriteCopy;
  }

  lemma RaceWakes(i: nat)
    requires i == 6
    ensures Enabled(RaceAt(i), RaceStep(i)) && Apply(RaceAt(i), RaceStep(i)) == RaceAt(i + 1)
  {
    hide ApplyDevice, ApplyAbort, DoSend, DoSendNoWait, DoUnsentTail, DoCallerPut;
  }

  lemma RaceMatches(i: nat)
    requires i == 7
    ensures Enabled(RaceAt(i), RaceStep(i)) && Apply(RaceAt(i), RaceStep(i)) == RaceAt(i + 1)
  {
    hide ApplyCaller, ApplyAbort, DoReadInterrupt, DoBeginRead, DoReadFinal, DoWriteFinal, DeviceEnd, DoDeviceTail,
         DoReadLockPage, DoWriteLockPage, DoWriteCopy;
  }

  lemma RaceAborts(i: nat)
    requires 8 <= i < 10
    ensures Enabled(RaceAt(i), RaceStep(i)) && Apply(RaceAt(i), RaceStep(i)) == RaceAt(i + 1)
  {
    hide ApplyCaller, ApplyDevice, DoReleaseStart, DoRelock, DoAbortCallback, DoEndRequests, AfterTail;
  }

  lemma RaceClears(i: nat)
    requires i == 10
    ensures Enabled(RaceAt(i), RaceStep(i)) && Apply(RaceAt(i), RaceStep(i)) == RaceAt(i + 1)
  {
    hide ApplyCaller, ApplyDevice, DoAbortStart, DoReleaseStart, DoRelock, DoAbortIo, DoAbortCallback, AfterTail;
  }

  lemma RaceMay(i: nat)
    requires 11 <= i < 15
    ensures Enabled(RaceAt(i), RaceStep(i))
  {
  }

  lemma RaceStolen(i: nat)
    requires i == 11
    ensures 0 in RaceAt(i).reqs && DoEndRequests(RaceAt(i), 3, [0], ProcessingPhase) == RaceAt(i + 1)
  {
    hide EndTailed, AfterTail, DoAbortStart, DoReleaseStart, DoRelock, DoAbortIo, DoAbortCallback;
  }

  lemma RaceSteals(i: nat)
    requires i == 11
    ensures Enabled(RaceAt(i), RaceStep(i)) && Apply(RaceAt(i), RaceStep(i)) == RaceAt(i + 1)
  {
    RaceMay(i);
    RaceStolen(i);
    hide ApplyCaller, ApplyDevice, DoAbortIo, DoAbortCallback, DoEndRequests, EndTailed, AfterTail, DoAbortStart,
         DoReleaseStart, DoRelock, Enabled;
  }

  lemma RaceTail(i: nat)
    requires i == 12
    ensures Enabled(RaceAt(i), RaceStep(i)) && Apply(RaceAt(i), RaceStep(i)) == RaceAt(i + 1)
  {
    RaceMay(i);
    hide Enabled, ApplyCaller, ApplyDevice, DoAbortStart, DoReleaseStart, DoRelock, DoAbortIo, DoAbortCallback,
         DoEndRequests;
  }

  lemma RaceReturns(i: nat)
    requires i == 13
    ensures Enabled(RaceAt(i), RaceStep(i)) && Apply(RaceAt(i), RaceStep(i)) == RaceAt(i + 1)
  {
    RaceMay(i);
    hide Enabled, ApplyDevice, ApplyAbort, DoSend, DoSendNoWait, DoUnsentTail, DoCallerPut, AfterSignalWait,
         AfterFatalWait, WithdrawOrWait;
  }

  lemma RaceFrees(i: nat)
    requires i == 14
    ensures Enabled(RaceAt(i), RaceStep(i)) && Apply(RaceAt(i), RaceStep(i)) == RaceAt(i + 1)
  {
    RaceMay(i);
    hide Enabled, ApplyDevice, ApplyAbort, DoSend, DoSendNoWait, DoUnsentTail, AfterSignalWait, AfterFatalWait,
         WithdrawOrWait, MoveCaller;
  }

  lemma RaceMoves(i: nat)
    requires i < 15
    ensures Enabled(RaceAt(i), RaceStep(i)) && Apply(RaceAt(i), RaceStep(i)) == RaceAt(i + 1)
  {
    hide Enabled, Apply, RaceAt, RaceStep;
    if i == 0 { RacePrepares(i); }
    else if i == 1 { RaceSends(i); }
    else if i == 2 { RaceBeginsRead(i); }
    else if i < 5 { RaceReads(i); }
    else if i == 5 { RaceReadDone(i); }
    else if i == 6 { RaceWakes(i); }
    else if i == 7 { RaceMatches(i); }
    else if i < 10 { RaceAborts(i); }
    else if i == 10 { RaceClears(i); }
    else if i == 11 { RaceSteals(i); }
    else if i == 12 { RaceTail(i); }
    else if i == 13 { RaceReturns(i); }
    else { RaceFrees(i); }
  }

  function RaceSteps(i: nat): seq<Step>
    decreases 15 - i
  {
    if i < 15 then [RaceStep(i)] + RaceSteps(i + 1) else []
  }

  lemma {:induction false} RaceRuns(i: nat)
    requires i <= 15
    ensures IsRun(RaceAt(i), RaceSteps(i)) && After(RaceAt(i), RaceSteps(i)) == RaceAt(15)
    decreases 15 - i
  {
    hide Enabled, Apply, RaceAt, RaceStep;
    if i < 15 {
      RaceMoves(i);
      assert RaceSteps(i)[1..] == RaceSteps(i + 1);
      RaceRuns(i + 1);
    }
  }

  /** From a fresh connection: one caller killed while it waits, one writer that
      answers it, one thread that aborts the connection. The writer then runs
      request_end on a request that was ended, and freed, before. */
  lemma RaceEndsFreedRequest()
    ensures Initial(RaceAt(0)) && IsRun(RaceAt(0), RaceSteps(0))
    ensures var s := After(RaceAt(0), RaceSteps(0));
            && 0 in s.reqs && s.reqs[0].freed && s.reqs[0].ended == 1
            && Enabled(s, WindowEnd(2)) && 0 in Apply(s, WindowEnd(2)).reqs && Apply(s, WindowEnd(2)).reqs[0].ended == 2
  {
    RaceRuns(0);
    RaceEnds();
    WindowEnds(RaceAt(15), 2);
    hide Apply, Enabled, RaceSteps, After, IsRun, RaceAt;
  }

  lemma RaceEnds()
    ensures Initial(RaceAt(0))
    ensures var s := RaceAt(15);
            s.lock == None && DevOf(s, 2) == WriteWindow(0) && 0 in s.reqs && s.reqs[0].freed && s.reqs[0].ended == 1
  {
  }

  // ----- a run from a fresh connection that queues an interrupt twice -----

  /** The first steps are those of the race, up to the wait; then a signal comes,
      the daemon reads the interrupt and answers it twice. */
  function EagainStep(i: nat): Step {
    match i
    case 6 => WakeSignal(0, false)
    case 7 => ReadInterrupt(1)
    case 8 => BeginWrite(1, Message(2, -EAGAIN, 16, []))
    case 9 => BeginWrite(1, Message(2, -EAGAIN, 16, []))
    case _ => RaceStep(i)
  }

  function EagainAt(i: nat): State {
    if i <= 6 then RaceAt(i)
    else
      var waiting := RaceReqAt(6).(interrupted := true, caller := WaitFatal);
      RaceAt(6).(reqs := map[0 := if i == 7 then waiting else waiting.(intrUnique := 2)],
                 reqctr := if i == 7 then 1 else 2,
                 interrupts := if i == 7 || i == 9 then [0] else if i == 8 then [] else [0, 0])
  }

  lemma EagainMay(i: nat)
    requires 6 <= i < 10
    ensures Enabled(EagainAt(i), EagainStep(i))
  {
  }

  lemma EagainWakes(i: nat)
    requires i == 6
    ensures Enabled(EagainAt(i), EagainStep(i)) && Apply(EagainAt(i), EagainStep(i)) == EagainAt(i + 1)
  {
    EagainMay(i);
    hide Enabled, ApplyDevice, ApplyAbort, DoSend, DoSendNoWait, DoUnsentTail, DoCallerPut, AfterFatalWait,
         WithdrawOrWait;
  }

  lemma EagainReads(i: nat)
    requires i == 7
    ensures Enabled(EagainAt(i), EagainStep(i)) && Apply(EagainAt(i), EagainStep(i)) == EagainAt(i + 1)
  {
    EagainMay(i);
    hide Enabled, ApplyCaller, ApplyAbort, DoBeginRead, DoBeginWrite, DoReadFinal, DoWriteFinal, DeviceEnd,
         DoDeviceTail, DoReadLockPage, DoWriteLockPage, DoWriteCopy;
  }

  lemma EagainFound(i: nat)
    requires i == 8 || i == 9
    ensures Find(EagainAt(i).processing, EagainAt(i).reqs, 2) == Some(0)
  {
  }

  /** Such an answer does nothing but queue the interrupt. */
  lemma QueuesAgain(s: State, a: Step)
    requires Enabled(s, a) && a.BeginWrite? && a.m.error == -EAGAIN && a.m.Bytes() == OUT_HEADER
    requires var found := Find(s.processing, s.reqs, a.m.unique);
             found.Some? && s.reqs[found.value].intrUnique == a.m.unique && !s.reqs[found.value].aborted
    ensures Apply(s, a) == QueueInterrupt(s, Find(s.processing, s.reqs, a.m.unique).value)
  {
    hide Enabled, Find, EnterWindow, TakeForWriting, ApplyCaller, ApplyAbort;
  }

  lemma EagainAnswers(i: nat)
    requires i == 8 || i == 9
    ensures Enabled(EagainAt(i), EagainStep(i)) && Apply(EagainAt(i), EagainStep(i)) == EagainAt(i + 1)
  {
    EagainMay(i);
    EagainFound(i);
    QueuesAgain(EagainAt(i), EagainStep(i));
    hide Enabled, Find, Apply;
  }

  function EagainSteps(i: nat): seq<Step>
    decreases 10 - i
  {
    if i < 10 then [EagainStep(i)] + EagainSteps(i + 1) else []
  }

  lemma EagainMoves(i: nat)
    requires i < 10
    ensures Enabled(EagainAt(i), EagainStep(i)) && Apply(EagainAt(i), EagainStep(i)) == EagainAt(i + 1)
  {
    if i < 6 { EagainBegins(i); } else if i == 6 { EagainWakes(i); } else if i == 7 { EagainReads(i); }
    else { EagainAnswers(i); }
    hide Enabled, Apply, EagainAt, EagainStep;
  }

  lemma EagainBegins(i: nat)
    requires i < 6
    ensures Enabled(EagainAt(i), EagainStep(i)) && Apply(EagainAt(i), EagainStep(i)) == EagainAt(i + 1)
  {
    hide Enabled, Apply, RaceAt, RaceStep;
    RaceMoves(i);
  }

  lemma {:induction false} EagainRuns(i: nat)
    requires i <= 10
    ensures IsRun(EagainAt(i), EagainSteps(i)) && After(EagainAt(i), EagainSteps(i)) == EagainAt(10)
    decreases 10 - i
  {
    hide Enabled, Apply, EagainAt, EagainStep;
    if i < 10 {
      EagainMoves(i);
      assert EagainSteps(i)[1..] == EagainSteps(i + 1);
      EagainRuns(i + 1);
    }
  }

  /** From a fresh connection: one caller that a signal interrupts, one daemon
      that answers the interrupt with EAGAIN twice before it reads it again. */
  lemma EagainQueuesTwice()
    ensures Initial(EagainAt(0)) && IsRun(EagainAt(0), EagainSteps(0))
    ensures After(EagainAt(0), EagainSteps(0)).interrupts == [0, 0]
  {
    hide IsRun, After, EagainSteps;
    EagainRuns(0);
  }
}
