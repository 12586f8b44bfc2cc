/** How libfuse takes the kernel's interrupt messages (lib/fuse_lowlevel.c), as
    a state machine. One step is one stretch under f->lock, one stretch under a
    request's own lock, or one message to or from the kernel. */
module InterruptModel {
  import opened Sequences

  type Ptr = int
  type Tid = int
  type Uid = int      // the `unique` of a message

  /** The union in struct fuse_req: an interrupt names the request it is for. */
  datatype Kind = Request | Interrupt(target: Uid)

  /** Who will drop the reference a request was created with. Auxiliary. */
  datatype Place = InHands(t: Tid) | Parked | Open | Dying(t: Tid) | Gone

  /** struct fuse_req. `calls` says how often the callback has run since it was
      registered. */
  datatype Req = Req(unique: Uid, kind: Kind, ctr: int, interrupted: bool, func: bool, calls: int,
                     holder: Option<Tid>,      // who holds req->lock from one step to the next
                     destroyed: int, place: Place, pins: set<Tid>)

  /** What the kernel knows of a request: whether libfuse has read it and
      answered it, and where its interrupt is. */
  datatype Intr = NoIntr | Queued | Out(id: Uid)
  datatype KReq = KReq(read: bool, answered: bool, intr: Intr)

  datatype Pc =
    | Idle
    | GotReq(p: Ptr)                 // fuse_ll_process, before check_interrupt
    | Eagain(i: Ptr, p: Ptr)         // check_interrupt took `i` off; it is to be answered with EAGAIN
    | EagainClear(i: Ptr, p: Ptr)    // free_req of `i`, in three stretches
    | EagainUnlist(i: Ptr, p: Ptr)
    | EagainDestroy(i: Ptr, p: Ptr)
    | GotIntr(p: Ptr)                // do_interrupt
    | FoundWait(p: Ptr, q: Ptr)      // find_interrupted, waiting for the lock of `q`
    | Marked(p: Ptr, q: Ptr)         // `q` is marked, its lock held
    | Unpin(p: Ptr, q: Ptr)
    | Send(p: Ptr)                   // a handler answers `p`
    | Clear(p: Ptr)                  // free_req of `p`, in three stretches
    | Unlist(p: Ptr)
    | Destroy(p: Ptr)

  datatype State = State(heap: map<Ptr, Req>, list: seq<Ptr>, interrupts: seq<Ptr>, threads: map<Tid, Pc>,
                         kern: map<Uid, KReq>)

  function PcOf(s: State, t: Tid): Pc { if t in s.threads then s.threads[t] else Idle }

  predicate Initial(s: State) {
    s.heap == map[] && s.list == [] && s.interrupts == [] && s.threads == map[] && s.kern == map[]
  }

  function NewReq(unique: Uid, kind: Kind, t: Tid): Req {
    Req(unique, kind, 1, false, false, 0, None, 0, InHands(t), {})
  }

  /** The first entry of `list` with this unique. */
  function FindUnique(list: seq<Ptr>, heap: map<Ptr, Req>, u: Uid): (found: Option<Ptr>)
    ensures found.Some? ==> found.value in list && found.value in heap && heap[found.value].unique == u
    ensures found.None? ==> forall p <- list :: p in heap ==> heap[p].unique != u
  {
    if list == [] then None
    else if list[0] in heap && heap[list[0]].unique == u then Some(list[0])
    else FindUnique(list[1..], heap, u)
  }

  /** The first parked interrupt for this request. */
  function FindParked(list: seq<Ptr>, heap: map<Ptr, Req>, u: Uid): (found: Option<Ptr>)
    ensures found.Some? ==> found.value in list && found.value in heap && heap[found.value].kind == Interrupt(u)
    ensures found.None? ==> forall p <- list :: p in heap ==> heap[p].kind != Interrupt(u)
  {
    if list == [] then None
    else if list[0] in heap && heap[list[0]].kind == Interrupt(u) then Some(list[0])
    else FindParked(list[1..], heap, u)
  }

  /** free() and destroy_req(). */
  function Freed(q: Req): Req { q.(ctr := 0, destroyed := q.destroyed + 1, place := Gone) }

  /** The kernel takes EAGAIN for the interrupt message `id`: it queues the
      interrupt again, unless the request has been answered. */
  function Requeue(kern: map<Uid, KReq>, id: Uid): map<Uid, KReq> {
    map u <- kern :: if kern[u].intr == Out(id) && !kern[u].answered then kern[u].(intr := Queued) else kern[u]
  }

  datatype Step =
    // the kernel
    | KernelSend(u: Uid)
    | KernelInterrupt(u: Uid)
    // fuse_ll_process
    | ReadRequest(t: Tid, u: Uid, p: Ptr)
    | CheckInterrupt(t: Tid)
    | SendEagain(t: Tid)
    | ClearEagain(t: Tid)
    | UnlistEagain(t: Tid)
    | DestroyEagain(t: Tid)
    // do_interrupt
    | ReadInterrupt(t: Tid, u: Uid, id: Uid, p: Ptr)
    | DoInterrupt(t: Tid)
    | Mark(t: Tid)
    | CallBack(t: Tid)
    | LetGo(t: Tid)
    // handlers
    | Register(p: Ptr, func: bool)
    | StartReply(t: Tid, p: Ptr)
    | SendReply(t: Tid)
    | ClearReq(t: Tid)
    | UnlistReq(t: Tid)
    | DestroyReq(t: Tid)

  ghost predicate Enabled(s: State, a: Step) {
    match a
    case KernelSend(u) => u !in s.kern && forall p <- s.heap :: s.heap[p].unique != u
    case KernelInterrupt(u) => u in s.kern && s.kern[u].read && !s.kern[u].answered && s.kern[u].intr == NoIntr
    case ReadRequest(t, u, p) => PcOf(s, t) == Idle && u in s.kern && !s.kern[u].read && p !in s.heap
    case CheckInterrupt(t) => PcOf(s, t).GotReq? && PcOf(s, t).p in s.heap
    case SendEagain(t) => PcOf(s, t).Eagain? && PcOf(s, t).i in s.heap
    case ClearEagain(t) => PcOf(s, t).EagainClear? && PcOf(s, t).i in s.heap && s.heap[PcOf(s, t).i].holder == None
    case UnlistEagain(t) => PcOf(s, t).EagainUnlist? && PcOf(s, t).i in s.heap && PcOf(s, t).p in s.heap
    case DestroyEagain(t) => PcOf(s, t).EagainDestroy? && PcOf(s, t).i in s.heap && PcOf(s, t).p in s.heap
    case ReadInterrupt(t, u, id, p) =>
      // each message has a number of its own
      && PcOf(s, t) == Idle && u in s.kern && !s.kern[u].answered && s.kern[u].intr == Queued && p !in s.heap
      && id !in s.kern && forall x <- s.heap :: s.heap[x].unique != id
    case DoInterrupt(t) => PcOf(s, t).GotIntr? && PcOf(s, t).p in s.heap && s.heap[PcOf(s, t).p].kind.Interrupt?
    case Mark(t) => PcOf(s, t).FoundWait? && PcOf(s, t).q in s.heap && s.heap[PcOf(s, t).q].holder == None
    case CallBack(t) => PcOf(s, t).Marked? && PcOf(s, t).q in s.heap
    case LetGo(t) => PcOf(s, t).Unpin? && PcOf(s, t).q in s.heap && PcOf(s, t).p in s.heap
    case Register(p, _) => p in s.heap && s.heap[p].place == Open && s.heap[p].holder == None
    case StartReply(t, p) => PcOf(s, t) == Idle && p in s.heap && s.heap[p].place == Open
    case SendReply(t) => PcOf(s, t).Send? && PcOf(s, t).p in s.heap && s.heap[PcOf(s, t).p].unique in s.kern
    case ClearReq(t) => PcOf(s, t).Clear? && PcOf(s, t).p in s.heap && s.heap[PcOf(s, t).p].holder == None
    case UnlistReq(t) => PcOf(s, t).Unlist? && PcOf(s, t).p in s.heap
    case DestroyReq(t) => PcOf(s, t).Destroy? && PcOf(s, t).p in s.heap
  }

  // ----- what the steps do -----

  function DoReadRequest(s: State, t: Tid, u: Uid, p: Ptr): State
    requires u in s.kern
  {
    s.(heap := s.heap[p := NewReq(u, Request, t)], threads := s.threads[t := GotReq(p)],
       kern := s.kern[u := s.kern[u].(read := true)])
  }

  /** check_interrupt and the list_add_req behind it. */
  function DoCheck(s: State, t: Tid, p: Ptr): State
    requires p in s.heap
  {
    var found := FindParked(s.interrupts, s.heap, s.heap[p].unique);
    if found.Some? then MarkEarly(s, t, p, found.value)
    else if s.interrupts == [] || s.interrupts[0] !in s.heap then NothingParked(s, t, p)
    else TakeParked(s, t, p, s.interrupts[0])
  }

  function MarkEarly(s: State, t: Tid, p: Ptr, c: Ptr): State
    requires p in s.heap && c in s.heap
  {
    s.(heap := s.heap[c := Freed(s.heap[c])][p := s.heap[p].(interrupted := true, place := Open)],
       threads := s.threads[t := Idle], interrupts := Remove(s.interrupts, c), list := s.list + [p])
  }

  function NothingParked(s: State, t: Tid, p: Ptr): State
    requires p in s.heap
  {
    s.(heap := s.heap[p := s.heap[p].(place := Open)], threads := s.threads[t := Idle], list := s.list + [p])
  }

  function TakeParked(s: State, t: Tid, p: Ptr, i: Ptr): State
    requires i in s.heap
  {
    s.(heap := s.heap[i := s.heap[i].(place := InHands(t))], threads := s.threads[t := Eagain(i, p)],
       interrupts := Remove(s.interrupts, i), list := s.list + [p])
  }

  function DoSendEagain(s: State, t: Tid, i: Ptr, p: Ptr): State
    requires i in s.heap
  {
    s.(threads := s.threads[t := EagainClear(i, p)], kern := Requeue(s.kern, s.heap[i].unique))
  }

  /** Clearing the callback clears the other half of the union. */
  function DoClearEagain(s: State, t: Tid, i: Ptr, p: Ptr): State
    requires i in s.heap
  {
    s.(heap := s.heap[i := s.heap[i].(kind := Interrupt(0))], threads := s.threads[t := EagainUnlist(i, p)])
  }

  /** The second stretch of free_req. */
  function DoUnlist(q: Req, t: Tid): Req {
    q.(ctr := q.ctr - 1, place := if q.ctr == 1 then Dying(t) else Gone)
  }

  function DoUnlistEagain(s: State, t: Tid, i: Ptr, p: Ptr): State
    requires i in s.heap && p in s.heap
  {
    if s.heap[i].ctr == 1 then
      s.(heap := s.heap[i := DoUnlist(s.heap[i], t)], threads := s.threads[t := EagainDestroy(i, p)])
    else
      s.(heap := s.heap[i := DoUnlist(s.heap[i], t)][p := s.heap[p].(place := Open)], threads := s.threads[t := Idle])
  }

  function DoDestroyEagain(s: State, t: Tid, i: Ptr, p: Ptr): State
    requires i in s.heap && p in s.heap
  {
    s.(heap := s.heap[i := Freed(s.heap[i])][p := s.heap[p].(place := Open)], threads := s.threads[t := Idle])
  }

  function DoReadInterrupt(s: State, t: Tid, u: Uid, id: Uid, p: Ptr): State
    requires u in s.kern
  {
    s.(heap := s.heap[p := NewReq(id, Interrupt(u), t)], threads := s.threads[t := GotIntr(p)],
       kern := s.kern[u := s.kern[u].(intr := Out(id))])
  }

  /** do_interrupt up to where find_interrupted lets f->lock go, or all of it. */
  function DoInterruptMessage(s: State, t: Tid, p: Ptr): State
    requires p in s.heap && s.heap[p].kind.Interrupt?
  {
    var u := s.heap[p].kind.target;
    var found := FindUnique(s.list, s.heap, u);
    if found.Some? then PinFound(s, t, p, found.value)
    else if FindParked(s.interrupts, s.heap, u).Some? then DropMessage(s, t, p)
    else ParkMessage(s, t, p)
  }

  function PinFound(s: State, t: Tid, p: Ptr, q: Ptr): State
    requires q in s.heap
  {
    s.(heap := s.heap[q := s.heap[q].(ctr := s.heap[q].ctr + 1, pins := s.heap[q].pins + {t})],
       threads := s.threads[t := FoundWait(p, q)])
  }

  function DropMessage(s: State, t: Tid, p: Ptr): State
    requires p in s.heap
  {
    s.(heap := s.heap[p := Freed(s.heap[p])], threads := s.threads[t := Idle])
  }

  function ParkMessage(s: State, t: Tid, p: Ptr): State
    requires p in s.heap
  {
    s.(heap := s.heap[p := s.heap[p].(place := Parked)], threads := s.threads[t := Idle],
       interrupts := s.interrupts + [p])
  }

  function DoMark(s: State, t: Tid, p: Ptr, q: Ptr): State
    requires q in s.heap
  {
    s.(heap := s.heap[q := s.heap[q].(interrupted := true, holder := Some(t))], threads := s.threads[t := Marked(p, q)])
  }

  function DoCallBack(s: State, t: Tid, p: Ptr, q: Ptr): State
    requires q in s.heap
  {
    s.(heap := s.heap[q := s.heap[q].(calls := s.heap[q].calls + B(s.heap[q].func), holder := None)],
       threads := s.threads[t := Unpin(p, q)])
  }

  /** find_interrupted drops the reference to the request it found. */
  function Unpinned(q: Req, t: Tid): Req {
    q.(ctr := q.ctr - 1, pins := q.pins - {t}, destroyed := if q.ctr == 1 then q.destroyed + 1 else q.destroyed)
  }

  /** The end of find_interrupted, and destroy_req of the message. */
  function DoLetGo(s: State, t: Tid, p: Ptr, q: Ptr): State
    requires p in s.heap && q in s.heap
  {
    s.(heap := s.heap[q := Unpinned(s.heap[q], t)][p := Freed(s.heap[p])], threads := s.threads[t := Idle])
  }

  function DoRegister(s: State, p: Ptr, func: bool): State
    requires p in s.heap
  {
    s.(heap := s.heap[p := s.heap[p].(func := func, calls := B(func && s.heap[p].interrupted))])
  }

  function DoStartReply(s: State, t: Tid, p: Ptr): State
    requires p in s.heap
  {
    s.(heap := s.heap[p := s.heap[p].(place := InHands(t))], threads := s.threads[t := Send(p)])
  }

  function DoSendReply(s: State, t: Tid, p: Ptr): State
    requires p in s.heap && s.heap[p].unique in s.kern
  {
    var u := s.heap[p].unique;
    s.(threads := s.threads[t := Clear(p)], kern := s.kern[u := s.kern[u].(answered := true)])
  }

  function DoClearReq(s: State, t: Tid, p: Ptr): State
    requires p in s.heap
  {
    s.(heap := s.heap[p := s.heap[p].(func := false)], threads := s.threads[t := Unlist(p)])
  }

  function DoUnlistReq(s: State, t: Tid, p: Ptr): State
    requires p in s.heap
  {
    s.(heap := s.heap[p := DoUnlist(s.heap[p], t)],
       threads := s.threads[t := if s.heap[p].ctr == 1 then Destroy(p) else Idle], list := Remove(s.list, p))
  }

  function DoDestroyReq(s: State, t: Tid, p: Ptr): State
    requires p in s.heap
  {
    s.(heap := s.heap[p := Freed(s.heap[p])], threads := s.threads[t := Idle])
  }

  function Apply(s: State, a: Step): State
    requires Enabled(s, a)
  {
    match a
    case KernelSend(u) => s.(kern := s.kern[u := KReq(false, false, NoIntr)])
    case KernelInterrupt(u) => s.(kern := s.kern[u := s.kern[u].(intr := Queued)])
    case ReadRequest(t, u, p) => DoReadRequest(s, t, u, p)
    case CheckInterrupt(t) => DoCheck(s, t, PcOf(s, t).p)
    case SendEagain(t) => DoSendEagain(s, t, PcOf(s, t).i, PcOf(s, t).p)
    case ClearEagain(t) => DoClearEagain(s, t, PcOf(s, t).i, PcOf(s, t).p)
    case UnlistEagain(t) => DoUnlistEagain(s, t, PcOf(s, t).i, PcOf(s, t).p)
    case DestroyEagain(t) => DoDestroyEagain(s, t, PcOf(s, t).i, PcOf(s, t).p)
    case ReadInterrupt(t, u, id, p) => DoReadInterrupt(s, t, u, id, p)
    case DoInterrupt(t) => DoInterruptMessage(s, t, PcOf(s, t).p)
    case Mark(t) => DoMark(s, t, PcOf(s, t).p, PcOf(s, t).q)
    case CallBack(t) => DoCallBack(s, t, PcOf(s, t).p, PcOf(s, t).q)
    case LetGo(t) => DoLetGo(s, t, PcOf(s, t).p, PcOf(s, t).q)
    case Register(p, func) => DoRegister(s, p, func)
    case StartReply(t, p) => DoStartReply(s, t, p)
    case SendReply(t) => DoSendReply(s, t, PcOf(s, t).p)
    case ClearReq(t) => DoClearReq(s, t, PcOf(s, t).p)
    case UnlistReq(t) => DoUnlistReq(s, t, PcOf(s, t).p)
    case DestroyReq(t) => DoDestroyReq(s, t, PcOf(s, t).p)
  }

  ghost predicate IsRun(s: State, steps: seq<Step>)
    decreases |steps|
  {
    steps == [] || (Enabled(s, steps[0]) && IsRun(Apply(s, steps[0]), steps[1..]))
  }

  ghost function After(s: State, steps: seq<Step>): State
    requires IsRun(s, steps)
    decreases |steps|
  {
    if steps == [] then s else After(Apply(s, steps[0]), steps[1..])
  }
}
