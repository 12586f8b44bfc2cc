/** The request protocol of the FUSE kernel device (kernel/dev.c) as a state
    machine. One step is one stretch of code that runs under fc->lock, or one
    action between two such stretches. Callers, device readers and writers, and
    the threads that abort or release the connection interleave freely. */
module RequestModel {
  import opened Sequences

  type Rid = int
  type Tid = int

  const FUSE_MAX_BACKGROUND: int := 10
  const OUT_HEADER: nat := 16      // sizeof(struct fuse_out_header)
  const EINTR: int := 4
  const EIO: int := 5
  const E2BIG: int := 7
  const EAGAIN: int := 11
  const ENOSYS: int := 38
  const ECONNABORTED: int := 103
  const ENOTCONN: int := 107
  const ECONNREFUSED: int := 111

  /** What a daemon hands to one write of the device: header and payload. */
  datatype Message = Message(unique: int, error: int, len: int, payload: seq<int>) {
    function Bytes(): nat { OUT_HEADER + |payload| }
  }

  datatype ReqState = Init | Pending | Reading | Sent | Writing | Finished

  /** Where the code that created the request stands. */
  datatype Caller =
    | Prepared        // holds a request it has not sent
    | WaitSignal      // first wait of request_wait_answer: any signal ends it
    | WaitFatal       // second wait: only a fatal signal ends it
    | WaitForced      // second wait of a forced request: only an answer ends it
    | WaitUnlocked    // aborted: waits until no data is being copied
    | WaitFinished    // aborted after it was sent: waits for request_end
    | Returned        // request_send is back; the caller reads `out`
    | Released        // the caller has dropped or handed over its reference

  datatype Owner = Device(t: Tid) | Aborter(t: Tid) | Sender

  /** Who will drop the reference that the queue holds. Auxiliary: no step
      looks at it. */
  datatype QueueRef =
    | NotSent
    | Listed                              // the pending or the processing list
    | InHands(t: Tid)                     // device thread t
    | Tail(owner: Owner, owes: bool)      // past the locked part of request_end; owes the end callback
    | Gone

  datatype Outcome = NoReply | Accepted(msg: Message) | Rejected

  datatype Req = Req(
    async: bool, isreply: bool, force: bool, hasEnd: bool, argvar: bool, outSize: int, lastSize: int,
    state: ReqState, aborted: bool, locked: bool, interrupted: bool, background: bool, endFn: bool,
    count: int, unique: int, intrUnique: int, hdr: Option<Message>, error: int, data: seq<int>,
    caller: Caller,
    // history and bookkeeping that no step reads
    qref: QueueRef, cbRef: Option<Tid>, window: Option<Tid>, ended: int, callbacks: int, freed: bool, outcome: Outcome)

  datatype Dev =
    | Idle
    | ReadUnlocked(r: Rid)                                // fuse_dev_readv between two pages
    | ReadLocked(r: Rid)                                  // copying from the request
    | ReadDone(r: Rid, err: bool)
    | WriteLocked(r: Rid, m: Message, copied: int)        // copying into the caller's buffers
    | WriteUnlocked(r: Rid, m: Message, copied: int)
    | WriteDone(r: Rid, m: Message, err: bool)
    | WriteWindow(r: Rid)                                 // matched an aborted request, lock dropped
    | Ending(r: Rid, owes: bool)                          // past the locked part of request_end

  datatype Phase = IoPhase | PendingPhase | ProcessingPhase
  datatype Abort =
    | Resting
    | Holding(phase: Phase)                      // holds fc->lock
    | AwaitUnlock(r: Rid)                        // end_io_requests waits to call the end function
    | EndTail(r: Rid, owes: bool, phase: Phase)
    | Relock(phase: Phase)
    | Completed

  datatype State = State(
    connected: bool, connError: bool, noInterrupt: bool, blocked: bool, numBackground: int, reqctr: int,
    reqs: map<Rid, Req>,
    pending: seq<Rid>, processing: seq<Rid>, io: seq<Rid>, interrupts: seq<Rid>,
    devs: map<Tid, Dev>, aborts: map<Tid, Abort>, lock: Option<Tid>, bug: bool)

  function DevOf(s: State, t: Tid): Dev { if t in s.devs then s.devs[t] else Idle }
  function AbortOf(s: State, t: Tid): Abort { if t in s.aborts then s.aborts[t] else Resting }

  /** A connection right after its INIT reply. */
  predicate Initial(s: State) {
    && s.connected && !s.blocked && s.numBackground == 0 && !s.bug
    && s.reqs == map[] && s.devs == map[] && s.aborts == map[] && s.lock == None
    && s.pending == [] && s.processing == [] && s.io == [] && s.interrupts == []
    && 0 <= s.reqctr < 0x1_0000_0000_0000_0000
  }

  // ----- pieces of dev.c -----

  function SetReq(s: State, r: Rid, q: Req): State { s.(reqs := s.reqs[r := q]) }
  function SetDev(s: State, t: Tid, d: Dev): State { s.(devs := s.devs[t := d]) }
  function SetAbort(s: State, t: Tid, a: Abort): State { s.(aborts := s.aborts[t := a]) }

  function MoveCaller(s: State, r: Rid, c: Caller): (s': State)
    requires r in s.reqs
    ensures s'.aborts == s.aborts && s'.connected == s.connected && (s'.blocked ==> s.blocked)
  {
    SetReq(s, r, s.reqs[r].(caller := c))
  }

  /** fuse_put_request: drops one reference and frees at zero. */
  function Put(q: Req): Req {
    q.(count := q.count - 1, freed := q.freed || q.count == 1)
  }

  /** fuse_get_unique: a 64-bit counter that skips zero. */
  function NextUnique(ctr: int): int {
    if (ctr + 1) % 0x1_0000_0000_0000_0000 == 0 then 1 else (ctr + 1) % 0x1_0000_0000_0000_0000
  }

  function QueueInterrupt(s: State, r: Rid): State { s.(interrupts := s.interrupts + [r]) }

  /** queue_request, without the reference. */
  function QueueRequest(s: State, r: Rid, q: Req): (s': State)
    ensures s'.aborts == s.aborts && s'.connected == s.connected && (s'.blocked ==> s.blocked)
  {
    s.(reqctr := NextUnique(s.reqctr), pending := s.pending + [r],
       reqs := s.reqs[r := q.(unique := NextUnique(s.reqctr), state := Pending, qref := Listed)])
  }

  /** The part of request_end that runs under the lock, with `q` the request as
      it ends; `owner` is left to run the rest. */
  function EndLocked(s: State, r: Rid, q: Req, owner: Owner): (s': State)
    ensures s'.aborts == s.aborts && s'.connected == s.connected && (s'.blocked ==> s.blocked)
  {
    s.(pending := Remove(s.pending, r), processing := Remove(s.processing, r), io := Remove(s.io, r),
       interrupts := Remove(s.interrupts, r),
       blocked := if q.background && s.numBackground == FUSE_MAX_BACKGROUND then false else s.blocked,
       numBackground := if q.background then s.numBackground - 1 else s.numBackground,
       reqs := s.reqs[r := Ended(q, owner)])
  }

  function Ended(q: Req, owner: Owner): Req {
    q.(endFn := false, state := Finished, ended := q.ended + 1, window := None, qref := Tail(owner, q.endFn))
  }

  /** The caller drops its reference. */
  function DoCallerPut(s: State, r: Rid): (s': State)
    requires r in s.reqs
    ensures s'.aborts == s.aborts && s'.connected == s.connected && (s'.blocked ==> s.blocked)
  {
    SetReq(s, r, Put(s.reqs[r]).(caller := Released))
  }

  /** The part of request_end after the unlock: the end function, or a plain put.
      The end function drops the reference itself. */
  function EndTailed(q: Req, owes: bool): Req {
    Put(if owes then q.(callbacks := q.callbacks + 1, qref := Gone) else q.(qref := Gone))
  }

  /** A request that could not be sent, past request_end. */
  function DoUnsentTail(s: State, r: Rid, owes: bool): (s': State)
    requires r in s.reqs
    ensures s'.aborts == s.aborts && s'.connected == s.connected && (s'.blocked ==> s.blocked)
  {
    SetReq(s, r, EndTailed(s.reqs[r], owes))
  }

  /** From `aborted:` in request_wait_answer, once the request is unlocked. */
  function WithdrawOrWait(s: State, r: Rid): (s': State)
    requires r in s.reqs
    ensures s'.aborts == s.aborts && s'.connected == s.connected && (s'.blocked ==> s.blocked)
  {
    var q := s.reqs[r];
    if q.state == Pending then
      // list_del and __fuse_put_request with its BUG_ON
      s.(pending := Remove(s.pending, r), bug := s.bug || q.count < 2,
         reqs := s.reqs[r := Put(q).(caller := Returned, qref := Gone)])
    else if q.state == Sent then MoveCaller(s, r, WaitFinished)
    else MoveCaller(s, r, Returned)
  }

  function AbortedTail(s: State, r: Rid): (s': State)
    requires r in s.reqs
    ensures s'.aborts == s.aborts && s'.connected == s.connected && (s'.blocked ==> s.blocked)
  {
    if s.reqs[r].locked then MoveCaller(s, r, WaitUnlocked) else WithdrawOrWait(s, r)
  }

  /** After the second wait of request_wait_answer. */
  function AfterFatalWait(s: State, r: Rid): (s': State)
    requires r in s.reqs
    ensures s'.aborts == s.aborts && s'.connected == s.connected && (s'.blocked ==> s.blocked)
  {
    var q := s.reqs[r];
    if q.aborted then AbortedTail(s, r)
    else if q.state == Finished then MoveCaller(s, r, Returned)
    else AbortedTail(MarkAborted(s, r), r)
  }

  function MarkAborted(s: State, r: Rid): (s': State)
    requires r in s.reqs
    ensures r in s'.reqs && s'.aborts == s.aborts && s'.connected == s.connected && (s'.blocked ==> s.blocked)
  {
    SetReq(s, r, s.reqs[r].(error := -EINTR, aborted := true))
  }

  /** The second wait itself; `fatal` tells whether a fatal signal is already pending. */
  function SecondWait(s: State, r: Rid, fatal: bool): (s': State)
    requires r in s.reqs
    ensures s'.aborts == s.aborts && s'.connected == s.connected && (s'.blocked ==> s.blocked)
  {
    if s.reqs[r].force then MoveCaller(s, r, WaitForced)
    else if fatal then AfterFatalWait(s, r)
    else MoveCaller(s, r, WaitFatal)
  }

  /** After the first wait of request_wait_answer. */
  function AfterSignalWait(s: State, r: Rid, fatal: bool): (s': State)
    requires r in s.reqs
    ensures s'.aborts == s.aborts && s'.connected == s.connected && (s'.blocked ==> s.blocked)
  {
    var q := s.reqs[r];
    if q.aborted then AbortedTail(s, r)
    else if q.state == Finished then MoveCaller(s, r, Returned)
    else
      SecondWait(MarkInterrupted(s, r), r, fatal)
  }

  /** A signal came: the caller goes on to the second wait. */
  function MarkInterrupted(s: State, r: Rid): (s': State)
    requires r in s.reqs
    ensures r in s'.reqs && s'.aborts == s.aborts && s'.connected == s.connected && (s'.blocked ==> s.blocked)
  {
    var s1 := SetReq(s, r, s.reqs[r].(interrupted := true, caller := WaitFatal));
    if s.reqs[r].state == Sent then QueueInterrupt(s1, r) else s1
  }

  /** request_find: the first request on `processing` known under `u`. */
  function Find(list: seq<Rid>, reqs: map<Rid, Req>, u: int): (found: Option<Rid>)
    ensures found.Some? ==> found.value in list && found.value in reqs &&
                            (reqs[found.value].unique == u || reqs[found.value].intrUnique == u)
  {
    if list == [] then None
    else if list[0] in reqs && (reqs[list[0]].unique == u || reqs[list[0]].intrUnique == u) then Some(list[0])
    else Find(list[1..], reqs, u)
  }

  /** The checks of fuse_dev_writev before it looks at the lists. */
  predicate WellFormedReply(m: Message) {
    m.unique != 0 && -1000 < m.error <= 0 && m.len == m.Bytes()
  }

  /** copy_out_args accepts the length of the reply. */
  predicate FitsRequest(q: Req, m: Message) {
    if m.error != 0 then m.Bytes() == OUT_HEADER
    else
      var reqsize := OUT_HEADER + q.outSize;
      reqsize == m.Bytes() || (reqsize > m.Bytes() && q.argvar && reqsize - m.Bytes() <= q.lastSize)
  }

  // ----- steps -----

  datatype Step =
    // callers
    | Prepare(r: Rid, async: bool, isreply: bool, force: bool, hasEnd: bool, argvar: bool, outSize: int, lastSize: int)
    | SetConnError
    | Send(r: Rid, signalled: bool, fatal: bool)     // request_send; which signals are already pending
    | WakeSignal(r: Rid, fatal: bool)
    | WakeFatal(r: Rid)
    | WakeForced(r: Rid)
    | WakeUnlocked(r: Rid)
    | WakeFinished(r: Rid)
    | CallerPut(r: Rid)
    | SendNoWait(r: Rid)                             // request_send_background and request_send_noreply
    | UnsentTail(r: Rid)
    // fuse_dev_readv
    | ReadInterrupt(t: Tid)
    | BeginRead(t: Tid, tooLarge: bool, setxattr: bool)
    | ReadLockPage(t: Tid, fault: bool)
    | ReadUnlockPage(t: Tid)
    | ReadCopied(t: Tid)
    | ReadFinal(t: Tid)
    // fuse_dev_writev
    | BeginWrite(t: Tid, m: Message)
    | WriteCopy(t: Tid, n: int)
    | WriteUnlockPage(t: Tid)
    | WriteLockPage(t: Tid, fault: bool)
    | WriteCopied(t: Tid)
    | WriteFinal(t: Tid)
    | WindowEnd(t: Tid)
    | DeviceTail(t: Tid)
    // fuse_abort_conn and fuse_dev_release
    | AbortStart(t: Tid)
    | ReleaseStart(t: Tid)
    | AbortIo(t: Tid)
    | AbortCallback(t: Tid)
    | EndRequests(t: Tid)
    | AbortTail(t: Tid)
    | AbortRelock(t: Tid)
    | LateAbort(t: Tid)                              // fuse_abort_conn finds the connection down and returns

  predicate CallerAt(s: State, r: Rid, c: Caller) { r in s.reqs && s.reqs[r].caller == c }

  function HandsOf(d: Dev): Option<Rid> {
    if d.Idle? then None else Some(d.r)
  }

  ghost predicate Enabled(s: State, a: Step) {
    match a
    case Prepare(r, async, isreply, force, hasEnd, argvar, outSize, lastSize) =>
      // end functions come with background requests; request_send sets isreply itself
      r !in s.reqs && (hasEnd ==> async) && (!async ==> isreply)
    case SetConnError => true
    case Send(r, _, _) => s.lock == None && CallerAt(s, r, Prepared) && !s.reqs[r].async
    case WakeSignal(r, _) => s.lock == None && CallerAt(s, r, WaitSignal)
    case WakeFatal(r) => s.lock == None && CallerAt(s, r, WaitFatal)
    case WakeForced(r) => s.lock == None && CallerAt(s, r, WaitForced) && s.reqs[r].state == Finished
    case WakeUnlocked(r) => s.lock == None && CallerAt(s, r, WaitUnlocked) && !s.reqs[r].locked
    case WakeFinished(r) => s.lock == None && CallerAt(s, r, WaitFinished) && s.reqs[r].state == Finished
    case CallerPut(r) => CallerAt(s, r, Returned)
    case SendNoWait(r) => s.lock == None && CallerAt(s, r, Prepared) && s.reqs[r].async
    case UnsentTail(r) => r in s.reqs && s.reqs[r].qref.Tail? && s.reqs[r].qref.owner == Sender
    case ReadInterrupt(t) => s.lock == None && DevOf(s, t) == Idle && s.connected && s.interrupts != []
      && s.interrupts[0] in s.reqs
    case BeginRead(t, _, _) =>
      s.lock == None && DevOf(s, t) == Idle && s.connected && s.interrupts == [] && s.pending != []
        && s.pending[0] in s.reqs
    case ReadLockPage(t, _) => s.lock == None && DevOf(s, t).ReadUnlocked? && DevOf(s, t).r in s.reqs
    case ReadUnlockPage(t) => s.lock == None && DevOf(s, t).ReadLocked? && DevOf(s, t).r in s.reqs
    case ReadCopied(t) => DevOf(s, t).ReadLocked?
    case ReadFinal(t) => s.lock == None && DevOf(s, t).ReadDone? && DevOf(s, t).r in s.reqs
    case BeginWrite(t, m) => s.lock == None && DevOf(s, t) == Idle && WellFormedReply(m) && s.connected
    case WriteCopy(t, n) =>
      DevOf(s, t).WriteLocked? && DevOf(s, t).r in s.reqs
        && 0 <= DevOf(s, t).copied <= DevOf(s, t).copied + n <= |DevOf(s, t).m.payload|
    case WriteUnlockPage(t) => s.lock == None && DevOf(s, t).WriteLocked? && DevOf(s, t).r in s.reqs
    case WriteLockPage(t, _) => s.lock == None && DevOf(s, t).WriteUnlocked? && DevOf(s, t).r in s.reqs
    case WriteCopied(t) => DevOf(s, t).WriteLocked? && DevOf(s, t).copied == |DevOf(s, t).m.payload|
    case WriteFinal(t) => s.lock == None && DevOf(s, t).WriteDone? && DevOf(s, t).r in s.reqs
    case WindowEnd(t) => s.lock == None && DevOf(s, t).WriteWindow? && DevOf(s, t).r in s.reqs
    case DeviceTail(t) => DevOf(s, t).Ending? && DevOf(s, t).r in s.reqs
    case AbortStart(t) => s.lock == None && AbortOf(s, t) == Resting && s.connected
    case ReleaseStart(t) =>
      // the device file is released when no read or write of it is in progress
      s.lock == None && AbortOf(s, t) == Resting && forall u: Tid :: DevOf(s, u) == Idle
    case AbortIo(t) => s.lock == Some(t) && AbortOf(s, t) == Holding(IoPhase) && (s.io == [] || s.io[0] in s.reqs)
    case AbortCallback(t) => AbortOf(s, t).AwaitUnlock? && AbortOf(s, t).r in s.reqs && !s.reqs[AbortOf(s, t).r].locked
    case EndRequests(t) =>
      && s.lock == Some(t)
      && ((AbortOf(s, t) == Holding(PendingPhase) && (s.pending == [] || s.pending[0] in s.reqs))
       || (AbortOf(s, t) == Holding(ProcessingPhase) && (s.processing == [] || s.processing[0] in s.reqs)))
    case AbortTail(t) => AbortOf(s, t).EndTail? && AbortOf(s, t).r in s.reqs
    case AbortRelock(t) => s.lock == None && AbortOf(s, t).Relock?
    case LateAbort(t) => s.lock == None && AbortOf(s, t) == Resting && !s.connected
  }

  function DoSend(s: State, r: Rid, signalled: bool, fatal: bool): (s': State)
    requires r in s.reqs
    ensures s'.aborts == s.aborts && s'.connected == s.connected && (s'.blocked ==> s.blocked)
  {
    var q := s.reqs[r];
    if !s.connected then SetReq(s, r, q.(error := -ENOTCONN, caller := Returned))
    else if s.connError then SetReq(s, r, q.(error := -ECONNREFUSED, caller := Returned))
    else
      var s1 := QueueRequest(s, r, q.(count := q.count + 1, caller := WaitSignal));
      if s.noInterrupt then SecondWait(s1, r, fatal)
      else if signalled then AfterSignalWait(s1, r, fatal)
      else s1
  }

  function DoSendNoWait(s: State, r: Rid): (s': State)
    requires r in s.reqs
    ensures s'.aborts == s.aborts && s'.connected == s.connected && (!s.connected && s'.blocked ==> s.blocked)
  {
    var q := s.reqs[r];
    if s.connected then
      var s1 := s.(numBackground := s.numBackground + 1,
                   blocked := if s.numBackground + 1 == FUSE_MAX_BACKGROUND then true else s.blocked);
      QueueRequest(s1, r, q.(background := true, caller := Released))
    else EndLocked(s, r, q.(error := -ENOTCONN, caller := Released), Sender)
  }

  /** Device thread `t` works on the request it holds. */
  function DeviceStep(s: State, t: Tid, q: Req, d: Dev): (s': State)
    requires !d.Idle?
    ensures s'.aborts == s.aborts && s'.connected == s.connected && (s'.blocked ==> s.blocked)
  {
    s.(reqs := s.reqs[d.r := q], devs := s.devs[t := d])
  }

  /** request_end by device thread `t`, with `q` the request as it ends. */
  function DeviceEnd(s: State, t: Tid, r: Rid, q: Req): (s': State)
    ensures s'.aborts == s.aborts && s'.connected == s.connected && (s'.blocked ==> s.blocked)
  {
    SetDev(EndLocked(s, r, q, Device(t)), t, Ending(r, q.endFn))
  }

  /** A device thread past request_end. */
  function DoDeviceTail(s: State, t: Tid, r: Rid, owes: bool): (s': State)
    requires r in s.reqs
    ensures s'.aborts == s.aborts && s'.connected == s.connected && (s'.blocked ==> s.blocked)
  {
    s.(reqs := s.reqs[r := EndTailed(s.reqs[r], owes)], devs := s.devs[t := Idle])
  }

  /** fuse_copy_fill and lock_request: the next page, unless it faults or the
      request has been aborted. */
  function DoReadLockPage(s: State, t: Tid, r: Rid, fault: bool): (s': State)
    requires r in s.reqs
    ensures s'.aborts == s.aborts && s'.connected == s.connected && (s'.blocked ==> s.blocked)
  {
    if fault || s.reqs[r].aborted then SetDev(s, t, ReadDone(r, true))
    else DeviceStep(s, t, s.reqs[r].(locked := true), ReadLocked(r))
  }

  function DoWriteLockPage(s: State, t: Tid, r: Rid, m: Message, copied: int, fault: bool): (s': State)
    requires r in s.reqs
    ensures s'.aborts == s.aborts && s'.connected == s.connected && (s'.blocked ==> s.blocked)
  {
    if fault || s.reqs[r].aborted then SetDev(s, t, WriteDone(r, m, true))
    else DeviceStep(s, t, s.reqs[r].(locked := true), WriteLocked(r, m, copied))
  }

  function DoWriteCopy(s: State, t: Tid, r: Rid, m: Message, copied: int, n: int): (s': State)
    requires r in s.reqs && 0 <= copied <= copied + n <= |m.payload|
    ensures s'.aborts == s.aborts && s'.connected == s.connected && (s'.blocked ==> s.blocked)
  {
    DeviceStep(s, t, s.reqs[r].(data := s.reqs[r].data + m.payload[copied..copied + n]), WriteLocked(r, m, copied + n))
  }

  /** fuse_read_interrupt takes the first interrupt and gives it an id. */
  function DoReadInterrupt(s: State, r: Rid): (s': State)
    requires r in s.reqs && s.interrupts != []
    ensures s'.aborts == s.aborts && s'.connected == s.connected && (s'.blocked ==> s.blocked)
  {
    s.(reqs := s.reqs[r := s.reqs[r].(intrUnique := NextUnique(s.reqctr))], reqctr := NextUnique(s.reqctr),
       interrupts := s.interrupts[1..])
  }

  function DoBeginRead(s: State, t: Tid, tooLarge: bool, setxattr: bool): (s': State)
    requires s.pending != [] && s.pending[0] in s.reqs
    ensures s'.aborts == s.aborts && s'.connected == s.connected && (s'.blocked ==> s.blocked)
  {
    var r := s.pending[0];
    var s1 := TakeForReading(s, t, r);
    if tooLarge then DeviceEnd(s1, t, r, s1.reqs[r].(error := if setxattr then -E2BIG else -EIO)) else s1
  }

  /** The first pending request goes to the io list and to the reading thread. */
  function TakeForReading(s: State, t: Tid, r: Rid): (s': State)
    requires r in s.reqs && s.pending != []
    ensures s'.aborts == s.aborts && s'.connected == s.connected && (s'.blocked ==> s.blocked)
  {
    s.(reqs := s.reqs[r := s.reqs[r].(state := Reading, qref := InHands(t))], devs := s.devs[t := ReadUnlocked(r)],
       pending := s.pending[1..], io := [r] + s.io)
  }

  function DoReadFinal(s: State, t: Tid, r: Rid, err: bool): (s': State)
    requires r in s.reqs
    ensures s'.aborts == s.aborts && s'.connected == s.connected && (s'.blocked ==> s.blocked)
  {
    var q := s.reqs[r].(locked := false);
    if err || q.aborted then DeviceEnd(s, t, r, if q.aborted then q else q.(error := -EIO))
    else if !q.isreply then DeviceEnd(s, t, r, q)
    else
      var s1 := MoveToProcessing(s, t, r);
      if q.interrupted then QueueInterrupt(s1, r) else s1
  }

  function MoveToProcessing(s: State, t: Tid, r: Rid): (s': State)
    requires r in s.reqs
    ensures s'.aborts == s.aborts && s'.connected == s.connected && (s'.blocked ==> s.blocked)
  {
    s.(reqs := s.reqs[r := s.reqs[r].(locked := false, state := Sent, qref := Listed)], devs := s.devs[t := Idle],
       io := Remove(s.io, r), processing := s.processing + [r])
  }

  function DoBeginWrite(s: State, t: Tid, m: Message): (s': State)
    ensures s'.aborts == s.aborts && s'.connected == s.connected && (s'.blocked ==> s.blocked)
  {
    var found := Find(s.processing, s.reqs, m.unique);
    if found.None? then s
    else
      var r := found.value;
      var q := s.reqs[r];
      if q.aborted then EnterWindow(s, t, r)
      else if q.intrUnique == m.unique then
        if m.Bytes() != OUT_HEADER then s
        else if m.error == -ENOSYS then s.(noInterrupt := true)
        else if m.error == -EAGAIN then QueueInterrupt(s, r)
        else s
      else TakeForWriting(s, t, r, m)
  }

  /** The writer drops the lock, to take it again in request_end. */
  function EnterWindow(s: State, t: Tid, r: Rid): (s': State)
    requires r in s.reqs
    ensures s'.aborts == s.aborts && s'.connected == s.connected && (s'.blocked ==> s.blocked)
  {
    s.(reqs := s.reqs[r := s.reqs[r].(window := Some(t))], devs := s.devs[t := WriteWindow(r)])
  }

  function TakeForWriting(s: State, t: Tid, r: Rid, m: Message): (s': State)
    requires r in s.reqs
    ensures s'.aborts == s.aborts && s'.connected == s.connected && (s'.blocked ==> s.blocked)
  {
    var q := Taken(s.reqs[r], t, m);
    s.(reqs := s.reqs[r := q],
       devs := s.devs[t := if FitsRequest(q, m) then WriteLocked(r, m, 0) else WriteDone(r, m, true)],
       processing := Remove(s.processing, r), io := [r] + s.io)
  }

  /** A request whose reply begins to be copied. */
  function Taken(q: Req, t: Tid, m: Message): Req {
    q.(state := Writing, hdr := Some(m), error := m.error, data := [], locked := true, qref := InHands(t))
  }

  /** The request as fuse_dev_writev leaves it to request_end. */
  function WriteResult(q: Req, m: Message, err: bool): Req {
    if !err && !q.aborted then q.(locked := false, outcome := Accepted(m))
    else if !q.aborted then q.(locked := false, error := -EIO, outcome := Rejected)
    else q.(locked := false, outcome := Rejected)
  }

  function DoWriteFinal(s: State, t: Tid, r: Rid, m: Message, err: bool): (s': State)
    requires r in s.reqs
    ensures s'.aborts == s.aborts && s'.connected == s.connected && (s'.blocked ==> s.blocked)
  {
    DeviceEnd(s, t, r, WriteResult(s.reqs[r], m, err))
  }

  /** fuse_abort_conn on a connection that is up. */
  function DoAbortStart(s: State, t: Tid): State {
    s.(aborts := s.aborts[t := Holding(IoPhase)], connected := false, blocked := false, lock := Some(t))
  }

  /** fuse_dev_release. */
  function DoReleaseStart(s: State, t: Tid): State {
    s.(aborts := s.aborts[t := Holding(PendingPhase)], connected := false, lock := Some(t))
  }

  function DoRelock(s: State, t: Tid, p: Phase): State { s.(aborts := s.aborts[t := Holding(p)], lock := Some(t)) }

  /** end_io_requests marks a request; one with an end function stays referenced
      until that has run. */
  function AbortedIo(q: Req, t: Tid): Req {
    var q1 := q.(aborted := true, error := -ECONNABORTED, state := Finished);
    if q.endFn then q1.(endFn := false, count := q.count + 1, cbRef := Some(t)) else q1
  }

  function DoAbortIo(s: State, t: Tid): State
    requires s.io == [] || s.io[0] in s.reqs
  {
    if s.io == [] then SetAbort(s, t, Holding(PendingPhase))
    else
      var r := s.io[0];
      var awaits := s.reqs[r].endFn;
      s.(reqs := s.reqs[r := AbortedIo(s.reqs[r], t)], io := s.io[1..],
         aborts := if awaits then s.aborts[t := AwaitUnlock(r)] else s.aborts, lock := if awaits then None else s.lock)
  }

  /** The end function of a request whose I/O was aborted. */
  function DoAbortCallback(s: State, t: Tid, r: Rid): State
    requires r in s.reqs
  {
    s.(reqs := s.reqs[r := Put(s.reqs[r].(callbacks := s.reqs[r].callbacks + 1, cbRef := None))],
       aborts := s.aborts[t := Relock(IoPhase)])
  }

  function DoEndRequests(s: State, t: Tid, list: seq<Rid>, phase: Phase): State
    requires list == [] || list[0] in s.reqs
  {
    if list == [] then
      if phase == PendingPhase then SetAbort(s, t, Holding(ProcessingPhase))
      else s.(aborts := s.aborts[t := Completed], lock := None)
    else
      var r := list[0];
      EndLocked(s, r, s.reqs[r].(error := -ECONNABORTED), Aborter(t))
        .(aborts := s.aborts[t := EndTail(r, s.reqs[r].endFn, phase)], lock := None)
  }

  /** An aborting thread past request_end. */
  function AfterTail(s: State, t: Tid, r: Rid, owes: bool, p: Phase): State
    requires r in s.reqs
  {
    s.(reqs := s.reqs[r := EndTailed(s.reqs[r], owes)], aborts := s.aborts[t := Relock(p)])
  }

  function NewRequest(async: bool, isreply: bool, force: bool, hasEnd: bool, argvar: bool, outSize: int,
                      lastSize: int): Req {
    Req(async, isreply, force, hasEnd, argvar, outSize, lastSize,
        Init, false, false, false, false, hasEnd, 1, 0, 0, None, 0, [], Prepared,
        NotSent, None, None, 0, 0, false, NoReply)
  }

  predicate DeviceStepKind(a: Step) {
    a.ReadInterrupt? || a.BeginRead? || a.ReadLockPage? || a.ReadUnlockPage? || a.ReadCopied? || a.ReadFinal?
    || a.BeginWrite? || a.WriteCopy? || a.WriteUnlockPage? || a.WriteLockPage? || a.WriteCopied? || a.WriteFinal?
    || a.WindowEnd? || a.DeviceTail?
  }

  predicate AbortStepKind(a: Step) {
    a.AbortStart? || a.ReleaseStart? || a.AbortIo? || a.AbortCallback? || a.EndRequests? || a.AbortTail?
    || a.AbortRelock? || a.LateAbort?
  }

  function ApplyCaller(s: State, a: Step): State
    requires Enabled(s, a) && !DeviceStepKind(a) && !AbortStepKind(a)
  {
    match a
    case Prepare(r, async, isreply, force, hasEnd, argvar, outSize, lastSize) =>
      SetReq(s, r, NewRequest(async, isreply, force, hasEnd, argvar, outSize, lastSize))
    case SetConnError => s.(connError := true)
    case Send(r, signalled, fatal) => DoSend(s, r, signalled, fatal)
    case WakeSignal(r, fatal) => AfterSignalWait(s, r, fatal)
    case WakeFatal(r) => AfterFatalWait(s, r)
    case WakeForced(r) => AfterFatalWait(s, r)
    case WakeUnlocked(r) => WithdrawOrWait(s, r)
    case WakeFinished(r) => MoveCaller(s, r, Returned)
    case CallerPut(r) => DoCallerPut(s, r)
    case SendNoWait(r) => DoSendNoWait(s, r)
    case UnsentTail(r) => DoUnsentTail(s, r, s.reqs[r].qref.owes)
  }

  function ApplyDevice(s: State, a: Step): State
    requires Enabled(s, a) && DeviceStepKind(a)
  {
    var d := DevOf(s, a.t);
    match a
    case ReadInterrupt(t) => DoReadInterrupt(s, s.interrupts[0])
    case BeginRead(t, tooLarge, setxattr) => DoBeginRead(s, t, tooLarge, setxattr)
    case ReadLockPage(t, fault) => DoReadLockPage(s, t, d.r, fault)
    case ReadUnlockPage(t) => DeviceStep(s, t, s.reqs[d.r].(locked := false), ReadUnlocked(d.r))
    case ReadCopied(t) => SetDev(s, t, ReadDone(d.r, false))
    case ReadFinal(t) => DoReadFinal(s, t, d.r, d.err)
    case BeginWrite(t, m) => DoBeginWrite(s, t, m)
    case WriteCopy(t, n) => DoWriteCopy(s, t, d.r, d.m, d.copied, n)
    case WriteUnlockPage(t) => DeviceStep(s, t, s.reqs[d.r].(locked := false), WriteUnlocked(d.r, d.m, d.copied))
    case WriteLockPage(t, fault) => DoWriteLockPage(s, t, d.r, d.m, d.copied, fault)
    case WriteCopied(t) => SetDev(s, t, WriteDone(d.r, d.m, false))
    case WriteFinal(t) => DoWriteFinal(s, t, d.r, d.m, d.err)
    case WindowEnd(t) => DeviceEnd(s, t, d.r, s.reqs[d.r].(outcome := Rejected))
    case DeviceTail(t) => DoDeviceTail(s, t, d.r, d.owes)
  }

  function ApplyAbort(s: State, a: Step): State
    requires Enabled(s, a) && AbortStepKind(a)
  {
    match a
    case AbortStart(t) => DoAbortStart(s, t)
    case ReleaseStart(t) => DoReleaseStart(s, t)
    case AbortIo(t) => DoAbortIo(s, t)
    case AbortCallback(t) => DoAbortCallback(s, t, AbortOf(s, t).r)
    case EndRequests(t) =>
      var phase := AbortOf(s, t).phase;
      DoEndRequests(s, t, if phase == PendingPhase then s.pending else s.processing, phase)
    case AbortTail(t) =>
      var d := AbortOf(s, t);
      AfterTail(s, t, d.r, d.owes, d.phase)
    case AbortRelock(t) => DoRelock(s, t, AbortOf(s, t).phase)
    case LateAbort(t) => s
  }

  function Apply(s: State, a: Step): State
    requires Enabled(s, a)
  {
    if DeviceStepKind(a) then ApplyDevice(s, a)
    else if AbortStepKind(a) then ApplyAbort(s, a)
    else ApplyCaller(s, a)
  }

  /** A run: every step is enabled where it is taken. */
  ghost predicate IsRun(s: State, steps: seq<Step>)
    decreases |steps|
  {
    steps == [] || (Enabled(s, steps[0]) && IsRun(Apply(s, steps[0]), steps[1..]))
  }

  ghost function After(s: State, steps: seq<Step>): State
    requires IsRun(s, steps)
    decreases |steps|
  {
    if steps == [] then s else After(Apply(s, steps[0]), steps[1..])
  }
}
