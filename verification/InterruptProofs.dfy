/** What the interrupt protocol keeps at every step, and what that means over
    whole runs: no interrupt of an unanswered request is lost, a callback that was
    registered has been called once its request is marked, and each structure is
    destroyed once. */
module InterruptProofs {
  import opened Sequences
  import opened InterruptModel

  /** What a thread at `pc` is to the structure `x`. */
  datatype Role =
    | NoRole
    | Arriving | Handling | Replying | Replied        // it has a request
    | Message | EagainMessage | Finding | SentMessage // it has an interrupt
    | PinWaiting | PinLocked | PinLeaving             // it found a request
    | Dropping                                        // it dropped the last reference

  function RoleOf(pc: Pc, x: Ptr): Role {
    match pc
    case Idle => NoRole
    case GotReq(p) => if x == p then Arriving else NoRole
    case Eagain(i, p) => if x == i then EagainMessage else if x == p then Handling else NoRole
    case EagainClear(i, p) => if x == i then SentMessage else if x == p then Handling else NoRole
    case EagainUnlist(i, p) => if x == i then SentMessage else if x == p then Handling else NoRole
    case EagainDestroy(i, p) => if x == i then Dropping else if x == p then Handling else NoRole
    case GotIntr(p) => if x == p then Message else NoRole
    case FoundWait(p, q) => if x == p then Finding else if x == q then PinWaiting else NoRole
    case Marked(p, q) => if x == p then Finding else if x == q then PinLocked else NoRole
    case Unpin(p, q) => if x == p then Finding else if x == q then PinLeaving else NoRole
    case Send(p) => if x == p then Replying else NoRole
    case Clear(p) => if x == p then Replied else NoRole
    case Unlist(p) => if x == p then Replied else NoRole
    case Destroy(p) => if x == p then Dropping else NoRole
  }

  predicate HasRequest(r: Role) { r.Arriving? || r.Handling? || r.Replying? || r.Replied? }
  predicate HasMessage(r: Role) { r.Message? || r.EagainMessage? || r.Finding? || r.SentMessage? }
  predicate IsPin(r: Role) { r.PinWaiting? || r.PinLocked? || r.PinLeaving? }

  function At(s: State, t: Tid, x: Ptr): Role { RoleOf(PcOf(s, t), x) }

  /** A thread that deals with two structures deals with two. */
  predicate TwoApart(pc: Pc) {
    match pc
    case Eagain(i, p) => i != p
    case EagainClear(i, p) => i != p
    case EagainUnlist(i, p) => i != p
    case EagainDestroy(i, p) => i != p
    case FoundWait(p, q) => p != q
    case Marked(p, q) => p != q
    case Unpin(p, q) => p != q
    case _ => true
  }

  // ----- one structure -----

  ghost predicate PlaceOk(s: State, x: Ptr)
    requires x in s.heap
  {
    var q := s.heap[x];
    match q.place
    case InHands(t) =>
      && q.ctr == 1 + |q.pins| && q.destroyed == 0 && x !in s.interrupts
      && (At(s, t, x).Arriving? || At(s, t, x).Handling? ==> !q.func)
      && (if q.kind.Request? then HasRequest(At(s, t, x)) && (x in s.list <==> !At(s, t, x).Arriving?)
          else HasMessage(At(s, t, x)) && x !in s.list)
    case Parked => q.kind.Interrupt? && q.ctr == 1 && q.destroyed == 0 && x in s.interrupts && x !in s.list
    case Open => q.kind.Request? && q.ctr == 1 + |q.pins| && q.destroyed == 0 && x in s.list && x !in s.interrupts
    case Dying(t) => At(s, t, x).Dropping? && q.ctr == 0 && q.pins == {} && q.destroyed == 0 && x !in s.list
      && x !in s.interrupts
    case Gone => q.ctr == |q.pins| && (q.destroyed == if q.ctr == 0 then 1 else 0) && x !in s.list && x !in s.interrupts
  }

  ghost predicate PinsOk(s: State, x: Ptr)
    requires x in s.heap
  {
    var q := s.heap[x];
    && (forall t: Tid :: t in q.pins <==> IsPin(At(s, t, x)))
    && (forall t: Tid :: q.holder == Some(t) <==> At(s, t, x).PinLocked?)
    && (q.kind.Interrupt? ==> q.pins == {} && !q.func)
    && (q.func && q.interrupted && q.holder == None ==> q.calls > 0) && q.calls >= 0
  }

  /** An interrupt message that libfuse has not dealt with. */
  predicate Waits(s: State, x: Ptr)
    requires x in s.heap
  {
    match s.heap[x].place
    case Parked => true
    case InHands(t) => At(s, t, x).Message? || At(s, t, x).EagainMessage?
    case _ => false
  }

  predicate Unanswered(s: State, x: Ptr)
    requires x in s.heap
  {
    match s.heap[x].place
    case Open => true
    case InHands(t) => !At(s, t, x).Replied?
    case _ => false
  }

  ghost predicate KernOk(s: State, x: Ptr)
    requires x in s.heap
  {
    var q := s.heap[x];
    match q.kind
    case Request => q.unique in s.kern && s.kern[q.unique].read && (s.kern[q.unique].answered <==> !Unanswered(s, x))
    case Interrupt(u) =>
      q.unique !in s.kern && (Waits(s, x) ==> u in s.kern && (s.kern[u].answered || s.kern[u].intr == Out(q.unique)))
  }

  ghost predicate ObjOk(s: State, x: Ptr)
    requires x in s.heap
  {
    match s.heap[x].kind
    case Request => PlaceOk(s, x) && PinsOk(s, x)
    case Interrupt(_) => PlaceOk(s, x) && PinsOk(s, x)
  }

  // ----- the whole state -----

  ghost predicate ThreadOk(s: State, t: Tid, x: Ptr) {
    match At(s, t, x)
    case NoRole => true
    case Dropping => x in s.heap && s.heap[x].place == Dying(t)
    case PinWaiting => x in s.heap && s.heap[x].kind.Request? && t in s.heap[x].pins
    case PinLocked => x in s.heap && s.heap[x].kind.Request? && t in s.heap[x].pins
    case PinLeaving => x in s.heap && s.heap[x].kind.Request? && t in s.heap[x].pins
    case _ => x in s.heap && s.heap[x].place == InHands(t)
  }

  ghost predicate Global(s: State) {
    && NoDup(s.list) && NoDup(s.interrupts) && (forall x <- s.list :: x in s.heap)
    && (forall x <- s.interrupts :: x in s.heap)
    && (forall x, y | x in s.heap && y in s.heap && s.heap[x].unique == s.heap[y].unique :: x == y)
    && (forall u, v | u in s.kern && v in s.kern && s.kern[u].intr.Out? && s.kern[u].intr == s.kern[v].intr :: u == v)
    && (forall u | u in s.kern && s.kern[u].intr.Out? :: exists x <- s.heap :: s.heap[x].unique == s.kern[u].intr.id)
    && (forall u <- s.kern :: s.kern[u].answered ==> s.kern[u].read)
    && (forall t: Tid :: TwoApart(PcOf(s, t)))
  }

  /** Here the interrupt of request `u` is: on its way, parked, about to go back,
      about to be marked, or marked. */
  ghost predicate TokenAt(s: State, u: Uid, x: Ptr) {
    && x in s.heap
    && match s.heap[x].kind
       case Interrupt(v) => v == u && Waits(s, x)
       case Request => s.heap[x].unique == u && (s.heap[x].interrupted || exists t: Tid :: At(s, t, x).PinWaiting?)
  }

  ghost predicate Token(s: State, u: Uid) {
    u in s.kern && !s.kern[u].answered && s.kern[u].intr.Out? ==> exists x: Ptr :: TokenAt(s, u, x)
  }

  ghost predicate Inv(s: State) {
    && Global(s) && (forall t: Tid, x: Ptr :: ThreadOk(s, t, x))
    && (forall x <- s.heap :: ObjOk(s, x) && KernOk(s, x))
    && (forall u: Uid :: Token(s, u))
  }

  lemma InitialInv(s: State)
    requires Initial(s)
    ensures Inv(s)
  {
  }

  // ----- frames -----

  /** Nothing about `x` changes, except perhaps in the kernel. */
  ghost predicate Same(s: State, s': State, x: Ptr) {
    && (x in s.heap <==> x in s'.heap) && (x in s.heap ==> s'.heap[x] == s.heap[x])
    && (x in s'.list <==> x in s.list) && (x in s'.interrupts <==> x in s.interrupts)
    && forall t: Tid :: At(s', t, x) == At(s, t, x)
  }

  lemma SameKeeps(s: State, s': State, x: Ptr)
    requires Same(s, s', x) && x in s.heap && ObjOk(s, x)
    ensures ObjOk(s', x) && (Waits(s', x) <==> Waits(s, x)) && (Unanswered(s', x) <==> Unanswered(s, x))
  {
    hide RoleOf;
  }

  lemma SameThreads(s: State, s': State, t: Tid, x: Ptr)
    requires Same(s, s', x) && ThreadOk(s, t, x)
    ensures ThreadOk(s', t, x)
  {
    hide RoleOf;
    assert At(s', t, x) == At(s, t, x);
  }

  lemma SameToken(s: State, s': State, u: Uid, x: Ptr)
    requires Same(s, s', x) && TokenAt(s, u, x)
    ensures TokenAt(s', u, x)
  {
    hide RoleOf;
    if exists t: Tid :: At(s, t, x).PinWaiting? {
      var t: Tid :| At(s, t, x).PinWaiting?;
      assert At(s', t, x).PinWaiting?;
    }
  }

  lemma Facts(s: State, t: Tid, x: Ptr)
    requires Inv(s)
    ensures ThreadOk(s, t, x) && TwoApart(PcOf(s, t)) && (x in s.heap ==> ObjOk(s, x) && KernOk(s, x))
  {
    hide ThreadOk, ObjOk, KernOk, TwoApart, Token;
  }

  /** `x` stands as it should after a step. */
  ghost predicate Stands(s: State, x: Ptr) {
    (x in s.heap ==> ObjOk(s, x) && KernOk(s, x)) && forall t: Tid :: ThreadOk(s, t, x)
  }

  /** A step that the kernel does not see, around `a` and `b`. */
  lemma Keeps(s: State, s': State, a: Ptr, b: Ptr)
    requires Inv(s) && Global(s') && s'.kern == s.kern && (forall x: Ptr | x != a && x != b :: Same(s, s', x))
    requires Stands(s', a) && Stands(s', b)
    requires forall u: Uid | u in s.kern && !s.kern[u].answered && (TokenAt(s, u, a) || TokenAt(s, u, b)) ::
               TokenAt(s', u, a) || TokenAt(s', u, b)
    ensures Inv(s')
  {
    hide Same, ObjOk, ThreadOk, Global, TokenAt;
    forall t: Tid, x: Ptr ensures ThreadOk(s', t, x) {
      if x != a && x != b { SameThreads(s, s', t, x); }
    }
    forall x <- s'.heap ensures ObjOk(s', x) && KernOk(s', x) {
      if x != a && x != b { KernStill(s, s', x); }
    }
    forall u: Uid ensures Token(s', u) {
      if u in s.kern && !s.kern[u].answered && s.kern[u].intr.Out? {
        assert Token(s, u);
        var x: Ptr :| TokenAt(s, u, x);
        if x != a && x != b { SameToken(s, s', u, x); }
      }
    }
  }

  lemma KernStill(s: State, s': State, x: Ptr)
    requires Inv(s) && s'.kern == s.kern && Same(s, s', x) && x in s'.heap
    ensures ObjOk(s', x) && KernOk(s', x)
  {
    assert x in s.heap;
    Facts(s, 0, x);
    hide Inv;
    SameKeeps(s, s', x);
  }

  /** Only thread `t` moves, and only with `a` and `b`. */
  ghost predicate OnlyMoves(s: State, s': State, t: Tid, a: Ptr, b: Ptr) {
    && (forall u: Tid | u != t :: PcOf(s', u) == PcOf(s, u))
    && (forall x: Ptr | x != a && x != b :: At(s', t, x) == At(s, t, x)
          && (x in s.heap <==> x in s'.heap) && (x in s.heap ==> s'.heap[x] == s.heap[x])
          && (x in s'.list <==> x in s.list) && (x in s'.interrupts <==> x in s.interrupts))
  }

  lemma MovesSame(s: State, s': State, t: Tid, a: Ptr, b: Ptr)
    requires OnlyMoves(s, s', t, a, b)
    ensures forall x: Ptr | x != a && x != b :: Same(s, s', x)
  {
    hide RoleOf;
  }

  /** No structure comes or goes, and the kernel does not notice. */
  lemma GlobalStill(s: State, s': State, t: Tid)
    requires Inv(s) && s'.kern == s.kern && (forall u: Tid | u != t :: PcOf(s', u) == PcOf(s, u))
             && TwoApart(PcOf(s', t))
    requires forall x :: (x in s'.heap <==> x in s.heap) && (x in s.heap ==> s'.heap[x].unique == s.heap[x].unique)
    requires NoDup(s'.list) && NoDup(s'.interrupts) && (forall x <- s'.list :: x in s.heap)
             && (forall x <- s'.interrupts :: x in s.heap)
    ensures Global(s')
  {
    hide ThreadOk, ObjOk, KernOk, Token, TwoApart, NoDup;
    forall u: Tid ensures TwoApart(PcOf(s', u)) {
      assert TwoApart(PcOf(s, u));
    }
  }

  lemma ListFacts(s: State)
    requires Inv(s)
    ensures NoDup(s.list) && NoDup(s.interrupts) && (forall x <- s.list :: x in s.heap)
            && (forall x <- s.interrupts :: x in s.heap)
  {
    hide ThreadOk, ObjOk, KernOk, Token, TwoApart, NoDup;
  }

  lemma AllThreads(s: State, x: Ptr)
    requires Inv(s)
    ensures forall t: Tid :: ThreadOk(s, t, x)
  {
    hide ThreadOk, ObjOk, KernOk, Token, TwoApart, NoDup;
  }

  /** The other threads still fit a structure that `t` has changed. */
  lemma ThreadsStand(s: State, s': State, t: Tid, x: Ptr)
    requires Inv(s) && x in s.heap && x in s'.heap && (forall u: Tid | u != t :: PcOf(s', u) == PcOf(s, u))
    requires ThreadOk(s', t, x)
    requires s'.heap[x].place == s.heap[x].place || s.heap[x].place in {Parked, Open, Gone, InHands(t), Dying(t)}
    requires (s'.heap[x].kind.Request? <==> s.heap[x].kind.Request?) && forall u: Tid | u != t ::
             u in s.heap[x].pins ==> u in s'.heap[x].pins
    ensures forall u: Tid :: ThreadOk(s', u, x)
  {
    hide RoleOf;
    forall u: Tid ensures ThreadOk(s', u, x) {
      Facts(s, u, x);
      assert u != t ==> At(s', u, x) == At(s, u, x);
    }
  }

  /** The pins of a structure after thread `t` has moved. */
  lemma PinsStand(s: State, s': State, t: Tid, x: Ptr)
    requires Inv(s) && x in s.heap && x in s'.heap && (forall u: Tid | u != t :: PcOf(s', u) == PcOf(s, u))
    requires forall u: Tid | u != t :: u in s'.heap[x].pins <==> u in s.heap[x].pins
    requires t in s'.heap[x].pins <==> IsPin(At(s', t, x))
    requires forall u: Tid | u != t :: s'.heap[x].holder == Some(u) <==> s.heap[x].holder == Some(u)
    requires s'.heap[x].holder == Some(t) <==> At(s', t, x).PinLocked?
    requires s'.heap[x].kind.Interrupt? ==> s'.heap[x].pins == {} && !s'.heap[x].func
    requires s'.heap[x].func && s'.heap[x].interrupted && s'.heap[x].holder == None ==> s'.heap[x].calls > 0
    requires s'.heap[x].calls >= 0
    ensures PinsOk(s', x)
  {
    Facts(s, t, x);
    hide RoleOf, Inv;
    assert forall u: Tid | u != t :: At(s', u, x) == At(s, u, x);
  }

  /** What thread `t` makes of a structure it deals with is in order. */
  ghost predicate InOrder(s: State, s': State, t: Tid, x: Ptr) {
    && x in s.heap && x in s'.heap && ThreadOk(s', t, x) && PlaceOk(s', x) && KernOk(s', x)
    && var q, q' := s.heap[x], s'.heap[x];
      && q'.unique == q.unique && (q'.kind.Request? <==> q.kind.Request?)
      && (q'.place == q.place || q.place in {Parked, Open, Gone, InHands(t), Dying(t)})
      && q'.pins - {t} == q.pins - {t} && (t in q'.pins <==> IsPin(At(s', t, x)))
      && (q'.holder == q.holder || (q'.holder in {None, Some(t)} && q.holder in {None, Some(t)}))
      && (q'.holder == Some(t) <==> At(s', t, x).PinLocked?)
      && (q'.kind.Interrupt? ==> q'.pins == {} && !q'.func)
      && (q'.func && q'.interrupted && q'.holder == None ==> q'.calls > 0) && q'.calls >= 0
  }

  /** A structure that held the interrupt of a request still does. */
  lemma TokenStays(s: State, s': State, t: Tid, x: Ptr)
    requires x in s.heap && x in s'.heap && (forall u: Tid | u != t :: PcOf(s', u) == PcOf(s, u))
    requires s.heap[x].kind.Interrupt? && Waits(s, x) ==> s'.heap[x].kind == s.heap[x].kind && Waits(s', x)
    requires s.heap[x].kind.Request? ==> s'.heap[x].kind.Request? && s'.heap[x].unique == s.heap[x].unique
    requires s.heap[x].kind.Request? && (s.heap[x].interrupted || At(s, t, x).PinWaiting?) ==>
               s'.heap[x].interrupted || At(s', t, x).PinWaiting?
    ensures forall u: Uid :: TokenAt(s, u, x) ==> TokenAt(s', u, x)
  {
    hide RoleOf, Waits;
    assert forall u: Tid | u != t :: At(s', u, x) == At(s, u, x);
  }

  ghost predicate ListsOk(s: State) {
    NoDup(s.list) && NoDup(s.interrupts) && (forall x <- s.list :: x in s.heap)
      && (forall x <- s.interrupts :: x in s.heap)
  }

  /** A step of one thread with one or two structures. */
  lemma ThreadKeeps(s: State, s': State, t: Tid, a: Ptr, b: Ptr)
    requires Inv(s) && s'.kern == s.kern && OnlyMoves(s, s', t, a, b) && TwoApart(PcOf(s', t)) && ListsOk(s')
    requires InOrder(s, s', t, a) && InOrder(s, s', t, b)
    requires forall u: Uid | u in s.kern && !s.kern[u].answered && (TokenAt(s, u, a) || TokenAt(s, u, b)) ::
               TokenAt(s', u, a) || TokenAt(s', u, b)
    ensures Inv(s')
  {
    hide Inv, TokenAt, InOrder, NoDup, Global, Same;
    OnlyUniques(s, s', t, a, b);
    MovesSame(s, s', t, a, b);
    StandsAfter(s, s', t, a);
    StandsAfter(s, s', t, b);
    Keeps(s, s', a, b);
  }

  lemma OnlyUniques(s: State, s': State, t: Tid, a: Ptr, b: Ptr)
    requires Inv(s) && s'.kern == s.kern && OnlyMoves(s, s', t, a, b) && TwoApart(PcOf(s', t)) && ListsOk(s')
    requires InOrder(s, s', t, a) && InOrder(s, s', t, b)
    ensures Global(s')
  {
    hide Inv, PlaceOk, KernOk, ThreadOk, NoDup, Global, TwoApart;
    assert forall x :: x in s'.heap <==> x in s.heap;
    GlobalStill(s, s', t);
  }

  lemma StandsAfter(s: State, s': State, t: Tid, x: Ptr)
    requires Inv(s) && (forall u: Tid | u != t :: PcOf(s', u) == PcOf(s, u)) && InOrder(s, s', t, x)
    ensures Stands(s', x)
  {
    hide Inv, PlaceOk, KernOk, ThreadOk, PinsOk, RoleOf;
    forall u: Tid | u != t ensures u in s'.heap[x].pins <==> u in s.heap[x].pins {
      assert u in s'.heap[x].pins - {t} <==> u in s.heap[x].pins - {t};
    }
    ThreadsStand(s, s', t, x);
    PinsStand(s, s', t, x);
  }

  // ----- answering a request -----

  lemma ClearReqKeeps(s: State, t: Tid, p: Ptr)
    requires Inv(s) && PcOf(s, t) == Clear(p) && p in s.heap && s.heap[p].holder == None
    ensures Inv(DoClearReq(s, t, p))
  {
    hide Inv, NoDup, TokenAt;
    var s' := DoClearReq(s, t, p);
    Facts(s, t, p);
    ListFacts(s);
    TokenStays(s, s', t, p);
    ThreadKeeps(s, s', t, p, p);
  }

  lemma StartReplyKeeps(s: State, t: Tid, p: Ptr)
    requires Inv(s) && PcOf(s, t) == Idle && p in s.heap && s.heap[p].place == Open
    ensures Inv(DoStartReply(s, t, p))
  {
    hide Inv, NoDup, TokenAt;
    var s' := DoStartReply(s, t, p);
    Facts(s, t, p);
    ListFacts(s);
    TokenStays(s, s', t, p);
    ThreadKeeps(s, s', t, p, p);
  }

  lemma RegisterKeeps(s: State, p: Ptr, func: bool)
    requires Inv(s) && p in s.heap && s.heap[p].place == Open && s.heap[p].holder == None
    ensures Inv(DoRegister(s, p, func))
  {
    hide Inv, NoDup, TokenAt;
    var s' := DoRegister(s, p, func);
    Facts(s, 0, p);
    ListFacts(s);
    TokenStays(s, s', 0, p);
    ThreadKeeps(s, s', 0, p, p);
  }

  lemma DestroyReqKeeps(s: State, t: Tid, p: Ptr)
    requires Inv(s) && PcOf(s, t) == Destroy(p) && p in s.heap
    ensures Inv(DoDestroyReq(s, t, p))
  {
    hide Inv, NoDup, TokenAt;
    var s' := DoDestroyReq(s, t, p);
    Facts(s, t, p);
    ListFacts(s);
    TokenStays(s, s', t, p);
    ThreadKeeps(s, s', t, p, p);
  }

  lemma UnlistReqKeeps(s: State, t: Tid, p: Ptr)
    requires Inv(s) && PcOf(s, t) == Unlist(p) && p in s.heap
    ensures Inv(DoUnlistReq(s, t, p))
  {
    hide Inv, NoDup, TokenAt, Remove;
    var s' := DoUnlistReq(s, t, p);
    Facts(s, t, p);
    ListFacts(s);
    NoDupRemove(s.list, p);
    TokenStays(s, s', t, p);
    ThreadKeeps(s, s', t, p, p);
  }

  // ----- marking a request -----

  lemma MarkKeeps(s: State, t: Tid, p: Ptr, q: Ptr)
    requires Inv(s) && PcOf(s, t) == FoundWait(p, q) && q in s.heap && s.heap[q].holder == None
    ensures Inv(DoMark(s, t, p, q))
  {
    hide Inv, NoDup, TokenAt;
    var s' := DoMark(s, t, p, q);
    Facts(s, t, p);
    Facts(s, t, q);
    ListFacts(s);
    TokenStays(s, s', t, p);
    TokenStays(s, s', t, q);
    ThreadKeeps(s, s', t, p, q);
  }

  lemma CallBackKeeps(s: State, t: Tid, p: Ptr, q: Ptr)
    requires Inv(s) && PcOf(s, t) == Marked(p, q) && q in s.heap
    ensures Inv(DoCallBack(s, t, p, q))
  {
    hide Inv, NoDup, TokenAt;
    var s' := DoCallBack(s, t, p, q);
    Facts(s, t, p);
    Facts(s, t, q);
    ListFacts(s);
    TokenStays(s, s', t, p);
    TokenStays(s, s', t, q);
    ThreadKeeps(s, s', t, p, q);
  }

  lemma LetGoKeeps(s: State, t: Tid, p: Ptr, q: Ptr)
    requires Inv(s) && PcOf(s, t) == Unpin(p, q) && p in s.heap && q in s.heap
    ensures Inv(DoLetGo(s, t, p, q))
  {
    hide Inv, NoDup, TokenAt, InOrder, PlaceOk, PinsOk, KernOk, ObjOk, Waits;
    var s' := DoLetGo(s, t, p, q);
    Facts(s, t, p);
    ListFacts(s);
    LetGoInOrder(s, t, p, q);
    TokenStays(s, s', t, p);
    TokenStays(s, s', t, q);
    ThreadKeeps(s, s', t, p, q);
  }

  lemma LetGoInOrder(s: State, t: Tid, p: Ptr, q: Ptr)
    requires Inv(s) && PcOf(s, t) == Unpin(p, q) && p in s.heap && q in s.heap
    ensures p != q && s.heap[p].kind.Interrupt? && s.heap[q].kind.Request? && !Waits(s, p)
    ensures InOrder(s, DoLetGo(s, t, p, q), t, p) && InOrder(s, DoLetGo(s, t, p, q), t, q)
  {
    hide Inv;
    Facts(s, t, p);
    Facts(s, t, q);
  }

  // ----- an interrupt message -----

  lemma FoundKeeps(s: State, t: Tid, p: Ptr, q: Ptr)
    requires Inv(s) && PcOf(s, t) == GotIntr(p) && p in s.heap && s.heap[p].kind.Interrupt?
    requires q in s.list && q in s.heap && s.heap[q].unique == s.heap[p].kind.target
    ensures Inv(PinFound(s, t, p, q))
  {
    hide Inv, NoDup;
    var s' := PinFound(s, t, p, q);
    Facts(s, t, p);
    Facts(s, t, q);
    ListFacts(s);
    assert p != q && t !in s.heap[q].pins;
    assert At(s', t, q).PinWaiting?;
    TokenStays(s, s', t, q);
    ThreadKeeps(s, s', t, p, q);
  }

  /** A second message for a request whose interrupt is parked: the request has
      been answered. */
  lemma TwiceKeeps(s: State, t: Tid, p: Ptr, c: Ptr)
    requires Inv(s) && PcOf(s, t) == GotIntr(p) && p in s.heap && s.heap[p].kind.Interrupt?
    requires c in s.interrupts && c in s.heap && s.heap[c].kind == s.heap[p].kind
    ensures Inv(DropMessage(s, t, p))
  {
    hide Inv, NoDup;
    var s' := DropMessage(s, t, p);
    Facts(s, t, p);
    Facts(s, t, c);
    ListFacts(s);
    OneMessage(s, p, c);
    ThreadKeeps(s, s', t, p, p);
  }

  /** No two messages for a request that has not been answered. */
  lemma OneMessage(s: State, p: Ptr, c: Ptr)
    requires Inv(s) && p in s.heap && c in s.heap && s.heap[p].kind.Interrupt? && s.heap[c].kind == s.heap[p].kind
    requires Waits(s, p) && Waits(s, c) && p != c
    ensures var u := s.heap[p].kind.target; u in s.kern && s.kern[u].answered
  {
    Facts(s, 0, p);
    Facts(s, 0, c);
    hide ThreadOk, ObjOk, Token, TwoApart, NoDup;
  }

  lemma ParkKeeps(s: State, t: Tid, p: Ptr)
    requires Inv(s) && PcOf(s, t) == GotIntr(p) && p in s.heap && s.heap[p].kind.Interrupt?
    ensures Inv(ParkMessage(s, t, p))
  {
    hide Inv, NoDup, TokenAt;
    var s' := ParkMessage(s, t, p);
    Facts(s, t, p);
    ListFacts(s);
    NoDupPrepend(p, s.interrupts);
    TokenStays(s, s', t, p);
    ThreadKeeps(s, s', t, p, p);
  }

  lemma DoInterruptKeeps(s: State, t: Tid, p: Ptr)
    requires Inv(s) && PcOf(s, t) == GotIntr(p) && p in s.heap && s.heap[p].kind.Interrupt?
    ensures Inv(DoInterruptMessage(s, t, p))
  {
    hide Inv, PinFound, DropMessage, ParkMessage;
    var u := s.heap[p].kind.target;
    var found := FindUnique(s.list, s.heap, u);
    if found.Some? {
      FoundKeeps(s, t, p, found.value);
    } else if FindParked(s.interrupts, s.heap, u).Some? {
      TwiceKeeps(s, t, p, FindParked(s.interrupts, s.heap, u).value);
    } else {
      ParkKeeps(s, t, p);
    }
  }

  // ----- check_interrupt -----

  lemma EarlyKeeps(s: State, t: Tid, p: Ptr, c: Ptr)
    requires Inv(s) && PcOf(s, t) == GotReq(p) && p in s.heap
    requires c in s.interrupts && c in s.heap && s.heap[c].kind == Interrupt(s.heap[p].unique)
    ensures Inv(MarkEarly(s, t, p, c))
  {
    hide Inv, NoDup, Remove;
    var s' := MarkEarly(s, t, p, c);
    Facts(s, t, p);
    Facts(s, t, c);
    ListFacts(s);
    NoDupPrepend(p, s.list);
    NoDupRemove(s.interrupts, c);
    TokenStays(s, s', t, p);
    ThreadKeeps(s, s', t, p, c);
  }

  lemma AloneKeeps(s: State, t: Tid, p: Ptr)
    requires Inv(s) && PcOf(s, t) == GotReq(p) && p in s.heap
    ensures Inv(NothingParked(s, t, p))
  {
    hide Inv, NoDup, TokenAt;
    var s' := NothingParked(s, t, p);
    Facts(s, t, p);
    ListFacts(s);
    NoDupPrepend(p, s.list);
    TokenStays(s, s', t, p);
    ThreadKeeps(s, s', t, p, p);
  }

  lemma TakeParkedKeeps(s: State, t: Tid, p: Ptr, i: Ptr)
    requires Inv(s) && PcOf(s, t) == GotReq(p) && p in s.heap && i in s.interrupts && i in s.heap
    ensures Inv(TakeParked(s, t, p, i))
  {
    hide Inv, NoDup, TokenAt, Remove;
    var s' := TakeParked(s, t, p, i);
    Facts(s, t, p);
    Facts(s, t, i);
    ListFacts(s);
    NoDupPrepend(p, s.list);
    NoDupRemove(s.interrupts, i);
    TokenStays(s, s', t, p);
    TokenStays(s, s', t, i);
    ThreadKeeps(s, s', t, p, i);
  }

  lemma CheckInterruptKeeps(s: State, t: Tid, p: Ptr)
    requires Inv(s) && PcOf(s, t) == GotReq(p) && p in s.heap
    ensures Inv(DoCheck(s, t, p))
  {
    hide Inv, NoDup, MarkEarly, NothingParked, TakeParked;
    ListFacts(s);
    var found := FindParked(s.interrupts, s.heap, s.heap[p].unique);
    if found.Some? {
      EarlyKeeps(s, t, p, found.value);
    } else if s.interrupts == [] {
      AloneKeeps(s, t, p);
    } else {
      TakeParkedKeeps(s, t, p, s.interrupts[0]);
    }
  }

  // ----- giving a parked interrupt back -----

  lemma ClearEagainKeeps(s: State, t: Tid, i: Ptr, p: Ptr)
    requires Inv(s) && PcOf(s, t) == EagainClear(i, p) && i in s.heap && s.heap[i].holder == None
    ensures Inv(DoClearEagain(s, t, i, p))
  {
    hide Inv, NoDup, TokenAt;
    var s' := DoClearEagain(s, t, i, p);
    Facts(s, t, i);
    Facts(s, t, p);
    ListFacts(s);
    TokenStays(s, s', t, i);
    TokenStays(s, s', t, p);
    ThreadKeeps(s, s', t, i, p);
  }

  lemma UnlistEagainKeeps(s: State, t: Tid, i: Ptr, p: Ptr)
    requires Inv(s) && PcOf(s, t) == EagainUnlist(i, p) && i in s.heap && p in s.heap
    ensures Inv(DoUnlistEagain(s, t, i, p))
  {
    hide Inv, NoDup, TokenAt;
    var s' := DoUnlistEagain(s, t, i, p);
    Facts(s, t, i);
    Facts(s, t, p);
    ListFacts(s);
    assert s.heap[i].ctr == 1;
    TokenStays(s, s', t, i);
    TokenStays(s, s', t, p);
    ThreadKeeps(s, s', t, i, p);
  }

  lemma DestroyEagainKeeps(s: State, t: Tid, i: Ptr, p: Ptr)
    requires Inv(s) && PcOf(s, t) == EagainDestroy(i, p) && i in s.heap && p in s.heap
    ensures Inv(DoDestroyEagain(s, t, i, p))
  {
    hide Inv, NoDup, TokenAt;
    var s' := DoDestroyEagain(s, t, i, p);
    Facts(s, t, i);
    Facts(s, t, p);
    ListFacts(s);
    TokenStays(s, s', t, i);
    TokenStays(s, s', t, p);
    ThreadKeeps(s, s', t, i, p);
  }

  // ----- messages to and from the kernel -----

  /** A step that the kernel sees, around `a`. */
  lemma KernKeeps(s: State, s': State, a: Ptr)
    requires Inv(s) && Global(s') && (forall x: Ptr | x != a :: Same(s, s', x)) && Stands(s', a)
    requires forall x: Ptr | x != a && x in s.heap && x in s'.heap && ObjOk(s', x) :: KernOk(s', x)
    requires forall u: Uid :: Token(s', u)
    ensures Inv(s')
  {
    hide Same, ObjOk, ThreadOk, Global, Token, KernOk;
    forall t: Tid, x: Ptr ensures ThreadOk(s', t, x) {
      if x != a { SameThreads(s, s', t, x); }
    }
    forall x <- s'.heap ensures ObjOk(s', x) && KernOk(s', x) {
      if x != a { ObjStill(s, s', x); }
    }
  }

  lemma ObjStill(s: State, s': State, x: Ptr)
    requires Inv(s) && Same(s, s', x) && x in s'.heap
    ensures x in s.heap && ObjOk(s', x) && KernOk(s, x) && (Waits(s', x) <==> Waits(s, x))
            && (Unanswered(s', x) <==> Unanswered(s, x))
  {
    assert x in s.heap;
    Facts(s, 0, x);
    hide Inv;
    SameKeeps(s, s', x);
  }

  /** The tokens of the requests that stay as they were. */
  lemma TokenStill(s: State, s': State, u: Uid, a: Ptr)
    requires Inv(s) && (forall x: Ptr | x != a :: Same(s, s', x))
    requires u in s.kern && u in s'.kern && !s'.kern[u].answered && s'.kern[u].intr.Out? && TokenAt(s, u, a)
             ==> TokenAt(s', u, a)
    requires u in s'.kern && !s'.kern[u].answered && s'.kern[u].intr.Out? ==>
               u in s.kern && !s.kern[u].answered && s.kern[u].intr.Out?
    ensures Token(s', u)
  {
    hide Same, ObjOk, ThreadOk, Global, KernOk, TokenAt;
    if u in s'.kern && !s'.kern[u].answered && s'.kern[u].intr.Out? {
      assert Token(s, u);
      var x: Ptr :| TokenAt(s, u, x);
      if x != a { SameToken(s, s', u, x); }
    }
  }

  lemma GlobalFacts(s: State)
    requires Inv(s)
    ensures Global(s)
  {
    hide Global, ThreadOk, ObjOk, KernOk, Token;
  }

  lemma ApartKeeps(s: State, s': State, t: Tid)
    requires Inv(s) && (forall u: Tid | u != t :: PcOf(s', u) == PcOf(s, u)) && TwoApart(PcOf(s', t))
    ensures forall u: Tid :: TwoApart(PcOf(s', u))
  {
    GlobalFacts(s);
    hide Inv, TwoApart;
    forall u: Tid ensures TwoApart(PcOf(s', u)) {
      assert TwoApart(PcOf(s, u));
    }
  }

  lemma SendReplyGlobal(s: State, t: Tid, p: Ptr)
    requires Inv(s) && PcOf(s, t) == Send(p) && p in s.heap && s.heap[p].unique in s.kern
             && s.kern[s.heap[p].unique].read
    ensures Global(DoSendReply(s, t, p))
  {
    hide Inv, NoDup, TwoApart;
    GlobalFacts(s);
    assert TwoApart(Clear(p)) by { ClearApart(p); }
    ApartKeeps(s, DoSendReply(s, t, p), t);
  }

  lemma ClearApart(p: Ptr)
    ensures TwoApart(Clear(p))
  {
  }

  lemma SendReplyKeeps(s: State, t: Tid, p: Ptr)
    requires Inv(s) && PcOf(s, t) == Send(p) && p in s.heap && s.heap[p].unique in s.kern
    ensures Inv(DoSendReply(s, t, p))
  {
    hide Inv, NoDup, Global, Same;
    var s' := DoSendReply(s, t, p);
    Facts(s, t, p);
    SendReplyGlobal(s, t, p);
    UniquesDiffer(s, p);
    MovesSame(s, s', t, p, p);
    ThreadsStand(s, s', t, p);
    PinsStand(s, s', t, p);
    forall x: Ptr | x != p && x in s.heap && x in s'.heap && ObjOk(s', x) ensures KernOk(s', x) {
      ObjStill(s, s', x);
    }
    forall u: Uid ensures Token(s', u) {
      TokenStill(s, s', u, p);
    }
    KernKeeps(s, s', p);
  }

  lemma UniquesDiffer(s: State, p: Ptr)
    requires Inv(s) && p in s.heap
    ensures forall x | x in s.heap && x != p :: s.heap[x].unique != s.heap[p].unique
  {
    GlobalFacts(s);
    hide Inv;
  }

  lemma SendEagainGlobal(s: State, t: Tid, i: Ptr, p: Ptr)
    requires Inv(s) && PcOf(s, t) == Eagain(i, p) && i in s.heap
    ensures Global(DoSendEagain(s, t, i, p)) && forall u: Tid | u != t ::
            PcOf(DoSendEagain(s, t, i, p), u) == PcOf(s, u)
  {
    hide Inv, NoDup;
    Facts(s, t, i);
    GlobalFacts(s);
    ApartKeeps(s, DoSendEagain(s, t, i, p), t);
    hide TwoApart;
  }

  lemma SendEagainKeeps(s: State, t: Tid, i: Ptr, p: Ptr)
    requires Inv(s) && PcOf(s, t) == Eagain(i, p) && i in s.heap
    ensures Inv(DoSendEagain(s, t, i, p))
  {
    hide Inv, NoDup, Global, Same;
    var s' := DoSendEagain(s, t, i, p);
    Facts(s, t, i);
    UniquesDiffer(s, i);
    SendEagainGlobal(s, t, i, p);
    MovesSame(s, s', t, i, i);
    ThreadsStand(s, s', t, i);
    PinsStand(s, s', t, i);
    forall x: Ptr | x != i && x in s.heap && x in s'.heap && ObjOk(s', x) ensures KernOk(s', x) {
      ObjStill(s, s', x);
    }
    forall u: Uid ensures Token(s', u) {
      TokenStill(s, s', u, i);
    }
    KernKeeps(s, s', i);
  }

  lemma ReadRequestKeeps(s: State, t: Tid, u: Uid, p: Ptr)
    requires Inv(s) && PcOf(s, t) == Idle && u in s.kern && !s.kern[u].read && p !in s.heap
    ensures Inv(DoReadRequest(s, t, u, p))
  {
    hide Inv, NoDup, Same, Global;
    var s' := DoReadRequest(s, t, u, p);
    NewIsNew(s, t, p);
    FreshRequest(s, u);
    ReadRequestGlobal(s, t, u, p);
    assert forall v: Tid | v != t :: At(s', v, p) == At(s, v, p);
    MovesSame(s, s', t, p, p);
    NewStands(s', t, p);
    forall x: Ptr | x != p && x in s.heap && x in s'.heap && ObjOk(s', x) ensures KernOk(s', x) {
      ObjStill(s, s', x);
    }
    forall v: Uid ensures Token(s', v) {
      TokenStill(s, s', v, p);
    }
    KernKeeps(s, s', p);
  }

  lemma ReadRequestGlobal(s: State, t: Tid, u: Uid, p: Ptr)
    requires Inv(s) && PcOf(s, t) == Idle && u in s.kern && !s.kern[u].read && p !in s.heap
    ensures Global(DoReadRequest(s, t, u, p)) && !s.kern[u].answered
  {
    hide Inv, NoDup;
    GlobalFacts(s);
    FreshRequest(s, u);
    var s' := DoReadRequest(s, t, u, p);
    ApartKeeps(s, s', t);
    StillOut(s, s');
    hide TwoApart;
  }

  /** The numbers of interrupt messages that are out are numbers of messages. */
  lemma StillOut(s: State, s': State)
    requires Global(s) && s.heap.Keys <= s'.heap.Keys && forall x <- s.heap :: s'.heap[x].unique == s.heap[x].unique
    requires forall v | v in s'.kern && s'.kern[v].intr.Out? ::
               (v in s.kern && s.kern[v].intr == s'.kern[v].intr) || exists x <- s'.heap ::
                 s'.heap[x].unique == s'.kern[v].intr.id
    ensures forall v | v in s'.kern && s'.kern[v].intr.Out? :: exists x <- s'.heap ::
            s'.heap[x].unique == s'.kern[v].intr.id
  {
    forall v | v in s'.kern && s'.kern[v].intr.Out? ensures exists x <- s'.heap ::
      s'.heap[x].unique == s'.kern[v].intr.id {
      if v in s.kern && s.kern[v].intr == s'.kern[v].intr {
        var x :| x in s.heap && s.heap[x].unique == s.kern[v].intr.id;
        assert x in s'.heap;
      }
    }
  }

  lemma ReadInterruptGlobal(s: State, t: Tid, u: Uid, id: Uid, p: Ptr)
    requires Inv(s) && PcOf(s, t) == Idle && u in s.kern && !s.kern[u].answered && s.kern[u].intr == Queued
             && p !in s.heap
    requires id !in s.kern && forall x <- s.heap :: s.heap[x].unique != id
    ensures Global(DoReadInterrupt(s, t, u, id, p))
    ensures forall v | v in s.kern && s.kern[v].intr.Out? :: s.kern[v].intr.id != id
  {
    hide Inv, NoDup;
    GlobalFacts(s);
    var s' := DoReadInterrupt(s, t, u, id, p);
    ApartKeeps(s, s', t);
    assert p in s'.heap && s'.heap[p].unique == id;
    StillOut(s, s');
    hide TwoApart;
  }

  lemma NewIsNew(s: State, t: Tid, p: Ptr)
    requires Inv(s) && p !in s.heap
    ensures (forall u: Tid :: At(s, u, p).NoRole?) && p !in s.list && p !in s.interrupts
  {
    forall u: Tid ensures At(s, u, p).NoRole? {
      Facts(s, u, p);
    }
    ListFacts(s);
    hide Inv, RoleOf;
  }

  lemma NewStands(s: State, t: Tid, p: Ptr)
    requires p in s.heap && s.heap[p] == NewReq(s.heap[p].unique, s.heap[p].kind, t) && p !in s.list
             && p !in s.interrupts
    requires At(s, t, p) == if s.heap[p].kind.Request? then Arriving else Message
    requires forall u: Tid | u != t :: At(s, u, p).NoRole?
    ensures ObjOk(s, p) && forall u: Tid :: ThreadOk(s, u, p)
  {
    hide RoleOf;
  }

  lemma FreshRequest(s: State, u: Uid)
    requires Inv(s) && u in s.kern && !s.kern[u].read
    ensures forall x <- s.heap :: s.heap[x].unique != u
  {
    forall x <- s.heap ensures s.heap[x].unique != u {
      Facts(s, 0, x);
    }
    hide Inv;
  }

  lemma ReadInterruptKeeps(s: State, t: Tid, u: Uid, id: Uid, p: Ptr)
    requires Inv(s) && PcOf(s, t) == Idle && u in s.kern && !s.kern[u].answered && s.kern[u].intr == Queued
             && p !in s.heap
    requires id !in s.kern && forall x <- s.heap :: s.heap[x].unique != id
    ensures Inv(DoReadInterrupt(s, t, u, id, p))
  {
    hide Inv, NoDup, Same, Global;
    var s' := DoReadInterrupt(s, t, u, id, p);
    NewIsNew(s, t, p);
    ReadInterruptGlobal(s, t, u, id, p);
    assert forall v: Tid | v != t :: At(s', v, p) == At(s, v, p);
    MovesSame(s, s', t, p, p);
    NewStands(s', t, p);
    forall x: Ptr | x != p && x in s.heap && x in s'.heap && ObjOk(s', x) ensures KernOk(s', x) {
      ObjStill(s, s', x);
    }
    forall v: Uid ensures Token(s', v) {
      if v == u { assert TokenAt(s', u, p); } else { TokenStill(s, s', v, p); }
    }
    KernKeeps(s, s', p);
  }

  /** Only the kernel's side moves, and no interrupt message with it. */
  lemma KernelGlobal(s: State, s': State)
    requires Inv(s) && s' == s.(kern := s'.kern)
    requires forall v | v in s'.kern && s'.kern[v].intr.Out? :: v in s.kern && s'.kern[v].intr == s.kern[v].intr
    requires forall v <- s'.kern :: s'.kern[v].answered ==> s'.kern[v].read
    ensures Global(s')
  {
    hide Inv, NoDup;
    Facts(s, 0, 0);
    GlobalFacts(s);
    ApartKeeps(s, s', 0);
    StillOut(s, s');
    hide TwoApart;
  }

  lemma AnsweredRead(s: State)
    requires Inv(s)
    ensures forall v <- s.kern :: s.kern[v].answered ==> s.kern[v].read
  {
    hide Inv, NoDup, TwoApart;
    GlobalFacts(s);
  }

  lemma KernelKeeps(s: State, a: Step)
    requires Inv(s) && Enabled(s, a) && (a.KernelSend? || a.KernelInterrupt?)
    ensures Inv(Apply(s, a))
  {
    hide Inv, NoDup, Global, RoleOf;
    var s' := Apply(s, a);
    AnsweredRead(s);
    KernelGlobal(s, s');
    assert forall x: Ptr :: Same(s, s', x);
    hide Same;
    forall t: Tid ensures ThreadOk(s', t, 0) {
      Facts(s, t, 0);
      SameThreads(s, s', t, 0);
    }
    forall x: Ptr | x in s.heap && x in s'.heap ensures ObjOk(s', x) && KernOk(s', x) {
      ObjStill(s, s', x);
    }
    forall u: Uid ensures Token(s', u) {
      if TokenAt(s, u, 0) { SameToken(s, s', u, 0); }
      TokenStill(s, s', u, 0);
    }
    KernKeeps(s, s', 0);
  }

  // ----- every step -----

  lemma StepKeeps(s: State, a: Step)
    requires Inv(s) && Enabled(s, a)
    ensures Inv(Apply(s, a))
  {
    hide Inv, DoReadRequest, DoCheck, DoSendEagain, DoClearEagain, DoUnlistEagain, DoDestroyEagain, DoReadInterrupt,
         DoInterruptMessage, DoMark, DoCallBack, DoLetGo, DoRegister, DoStartReply, DoSendReply, DoClearReq,
         DoUnlistReq, DoDestroyReq;
    match a
    case KernelSend(_) => KernelKeeps(s, a);
    case KernelInterrupt(_) => KernelKeeps(s, a);
    case ReadRequest(t, u, p) => ReadRequestKeeps(s, t, u, p);
    case CheckInterrupt(t) => CheckInterruptKeeps(s, t, PcOf(s, t).p);
    case SendEagain(t) => SendEagainKeeps(s, t, PcOf(s, t).i, PcOf(s, t).p);
    case ClearEagain(t) => ClearEagainKeeps(s, t, PcOf(s, t).i, PcOf(s, t).p);
    case UnlistEagain(t) => UnlistEagainKeeps(s, t, PcOf(s, t).i, PcOf(s, t).p);
    case DestroyEagain(t) => DestroyEagainKeeps(s, t, PcOf(s, t).i, PcOf(s, t).p);
    case ReadInterrupt(t, u, id, p) => ReadInterruptKeeps(s, t, u, id, p);
    case DoInterrupt(t) => DoInterruptKeeps(s, t, PcOf(s, t).p);
    case Mark(t) => MarkKeeps(s, t, PcOf(s, t).p, PcOf(s, t).q);
    case CallBack(t) => CallBackKeeps(s, t, PcOf(s, t).p, PcOf(s, t).q);
    case LetGo(t) => LetGoKeeps(s, t, PcOf(s, t).p, PcOf(s, t).q);
    case Register(p, func) => RegisterKeeps(s, p, func);
    case StartReply(t, p) => StartReplyKeeps(s, t, p);
    case SendReply(t) => SendReplyKeeps(s, t, PcOf(s, t).p);
    case ClearReq(t) => ClearReqKeeps(s, t, PcOf(s, t).p);
    case UnlistReq(t) => UnlistReqKeeps(s, t, PcOf(s, t).p);
    case DestroyReq(t) => DestroyReqKeeps(s, t, PcOf(s, t).p);
  }

  lemma {:induction false} RunKeeps(s: State, steps: seq<Step>)
    requires Inv(s) && IsRun(s, steps)
    ensures Inv(After(s, steps))
    decreases |steps|
  {
    hide Inv, Enabled, Apply;
    if steps != [] {
      StepKeeps(s, steps[0]);
      RunKeeps(Apply(s, steps[0]), steps[1..]);
    }
  }

  // ----- what it means -----

  /** An interrupt that the kernel wants delivered is never lost while its
      request is unanswered: the kernel has it queued, a thread has the message,
      the message is parked or about to go back to the kernel, or the request is
      marked or about to be. */
  lemma InterruptsNotLost(s: State, steps: seq<Step>, u: Uid)
    requires Initial(s) && IsRun(s, steps)
    ensures var z := After(s, steps);
            u in z.kern && !z.kern[u].answered && z.kern[u].intr != NoIntr ==>
              || z.kern[u].intr == Queued
              || (exists x <- z.heap :: z.heap[x].kind == Interrupt(u) && z.heap[x].destroyed == 0
                    && (x in z.interrupts || exists t: Tid ::
                       PcOf(z, t) == GotIntr(x) || (PcOf(z, t).Eagain? && PcOf(z, t).i == x)))
              || (exists x <- z.heap :: z.heap[x].kind == Request && z.heap[x].unique == u && z.heap[x].destroyed == 0
                    && (z.heap[x].interrupted || exists t: Tid :: PcOf(z, t).FoundWait? && PcOf(z, t).q == x))
  {
    InitialInv(s);
    RunKeeps(s, steps);
    var z := After(s, steps);
    hide After, IsRun, Inv;
    if u in z.kern && !z.kern[u].answered && z.kern[u].intr.Out? {
      TokenIs(z, u);
      var x: Ptr :| TokenAt(z, u, x);
      TokenMeans(z, u, x);
    }
  }

  lemma TokenIs(s: State, u: Uid)
    requires Inv(s)
    ensures Token(s, u)
  {
    hide Global, ThreadOk, ObjOk, KernOk, Token;
  }

  lemma TokenMeans(s: State, u: Uid, x: Ptr)
    requires Inv(s) && TokenAt(s, u, x) && u in s.kern && !s.kern[u].answered
    ensures x in s.heap && s.heap[x].destroyed == 0
    ensures if s.heap[x].kind.Request?
            then s.heap[x].unique == u && (s.heap[x].interrupted || exists t: Tid ::
              PcOf(s, t).FoundWait? && PcOf(s, t).q == x)
            else s.heap[x].kind == Interrupt(u)
                 && (x in s.interrupts || exists t: Tid ::
                    PcOf(s, t) == GotIntr(x) || (PcOf(s, t).Eagain? && PcOf(s, t).i == x))
  {
    Facts(s, 0, x);
    hide Inv;
    if s.heap[x].kind.Request? {
      if !s.heap[x].interrupted {
        var t: Tid :| At(s, t, x).PinWaiting?;
        assert PcOf(s, t).FoundWait? && PcOf(s, t).q == x;
      }
    }
  }

  /** A callback that was registered for a request runs: once the request is
      marked and its lock is free, the callback has been called, whichever came
      first. */
  lemma CallbackRuns(s: State, steps: seq<Step>, x: Ptr)
    requires Initial(s) && IsRun(s, steps) && x in After(s, steps).heap
    ensures var q := After(s, steps).heap[x];
            q.func && q.interrupted && q.holder == None ==> q.calls > 0
  {
    InitialInv(s);
    RunKeeps(s, steps);
    Facts(After(s, steps), 0, x);
    hide After, IsRun, Inv;
  }

  /** Each struct fuse_req is destroyed at most once, and one that is destroyed
      is in no list and in no thread's hands. */
  lemma DestroyedOnce(s: State, steps: seq<Step>, x: Ptr)
    requires Initial(s) && IsRun(s, steps) && x in After(s, steps).heap
    ensures var z := After(s, steps);
            var q := z.heap[x];
            && q.destroyed <= 1 && q.ctr >= 0 && (q.destroyed == 1 ==> q.ctr == 0)
            && (q.destroyed == 1 ==> x !in z.list && x !in z.interrupts && forall t: Tid :: At(z, t, x).NoRole?)
            && (q.ctr == 0 && q.destroyed == 0 ==> exists t: Tid :: At(z, t, x).Dropping?)
  {
    InitialInv(s);
    RunKeeps(s, steps);
    var z := After(s, steps);
    Facts(z, 0, x);
    AllThreads(z, x);
    hide After, IsRun, Inv, RoleOf;
    if z.heap[x].destroyed == 1 {
      assert z.heap[x].pins == {};
      forall t: Tid ensures At(z, t, x).NoRole? {
        assert ThreadOk(z, t, x);
      }
    }
  }
}
