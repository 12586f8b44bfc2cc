/** Nothing is interrupted that was not to be, and nothing twice. */
module InterruptOnce {
  import opened Sequences
  import opened InterruptModel
  import opened InterruptProofs

  /** A message that still stands for the interrupt of its request: it waits, or
      its thread is about to mark the request. */
  predicate Carries(s: State, x: Ptr) {
    && x in s.heap && s.heap[x].kind.Interrupt?
    && match s.heap[x].place
       case Parked => true
       case InHands(t) => Waits(s, x) || (PcOf(s, t).FoundWait? && PcOf(s, t).p == x)
       case _ => false
  }

  /** The interrupt of a request is with one message at most, which the kernel
      has out; once the request is marked, with none. */
  ghost predicate CarriersOk(s: State) {
    forall x: Ptr :: Carries(s, x) ==> CarrierOk(s, s.heap[x].kind.target, s.heap[x].unique)
  }

  ghost predicate CarrierOk(s: State, u: Uid, id: Uid) {
    && u in s.kern && s.kern[u].intr == Out(id)
    && forall y <- s.heap :: s.heap[y].kind.Request? && s.heap[y].unique == u ==> !s.heap[y].interrupted
  }

  /** Only requests that the kernel interrupted are marked, and only marked ones
      have had their callback called: once. */
  ghost predicate MarkedOk(s: State, x: Ptr)
    requires x in s.heap
  {
    var q := s.heap[x];
    q.kind.Request? ==>
      && (q.interrupted ==> q.unique in s.kern && s.kern[q.unique].intr.Out?)
      && 0 <= q.calls <= 1 && (q.calls > 0 ==> q.interrupted)
      && (q.func ==> q.calls == B(q.interrupted && q.holder == None))
      && (q.holder.Some? ==> q.interrupted)
      && (q.place.Gone? || q.place.Dying? ==> !q.func)
  }

  /** A thread marks the request that its message is for, and takes the callback
      off a request before it lets go of it. */
  ghost predicate FoundOk(s: State, t: Tid) {
    match PcOf(s, t)
    case FoundWait(p, q) => p in s.heap && q in s.heap && s.heap[q].kind.Request?
      && s.heap[p].kind == Interrupt(s.heap[q].unique)
    case Unlist(p) => p in s.heap && !s.heap[p].func
    case _ => true
  }

  /** An interrupt is parked only while its request is not listed: before it is
      read, or after it was answered. */
  ghost predicate ParkedOk(s: State) {
    forall x, y | x in s.interrupts && y in s.list && x in s.heap && y in s.heap ::
      s.heap[x].kind != Interrupt(s.heap[y].unique)
  }

  ghost predicate Once(s: State) {
    && CarriersOk(s) && (forall x <- s.heap :: MarkedOk(s, x)) && (forall t: Tid :: FoundOk(s, t)) && ParkedOk(s)
  }

  lemma InitialOnce(s: State)
    requires Initial(s)
    ensures Once(s)
  {
  }

  // ----- frames -----

  /** Thread `t` moves with `a` and `b`, which are messages or requests as before. */
  ghost predicate Moves(s: State, s': State, t: Tid, a: Ptr, b: Ptr) {
    && OnlyMoves(s, s', t, a, b)
    && (forall x | x == a || x == b :: x in s.heap && x in s'.heap && s'.heap[x].unique == s.heap[x].unique
          && (s'.heap[x].kind.Request? <==> s.heap[x].kind.Request?))
    && (PcOf(s', t) == PcOf(s, t)
        || ((PcOf(s, t).FoundWait? ==> PcOf(s, t).p == a || PcOf(s, t).p == b)
            && (PcOf(s', t).FoundWait? ==> PcOf(s', t).p == a || PcOf(s', t).p == b)))
  }

  lemma CarriesSame(s: State, s': State, t: Tid, a: Ptr, b: Ptr, x: Ptr)
    requires Moves(s, s', t, a, b) && x != a && x != b
    ensures Carries(s', x) <==> Carries(s, x)
  {
    hide RoleOf;
  }

  /** `x` carries nothing new. */
  predicate Lighter(s: State, s': State, x: Ptr) {
    Carries(s', x) ==> Carries(s, x) && s'.heap[x].kind == s.heap[x].kind
  }

  /** `x` is a request that becomes marked. */
  predicate BecomesMarked(s: State, s': State, x: Ptr) {
    x in s.heap && x in s'.heap && s'.heap[x].kind.Request? && s'.heap[x].interrupted && !s.heap[x].interrupted
  }

  ghost predicate NobodyCarries(s: State, u: Uid) { forall x: Ptr | Carries(s, x) :: s.heap[x].kind != Interrupt(u) }

  lemma CarriersKeep(s: State, s': State, t: Tid, a: Ptr, b: Ptr)
    requires Moves(s, s', t, a, b) && CarriersOk(s) && s'.kern == s.kern && Lighter(s, s', a) && Lighter(s, s', b)
    requires BecomesMarked(s, s', a) ==> NobodyCarries(s', s.heap[a].unique)
    requires BecomesMarked(s, s', b) ==> NobodyCarries(s', s.heap[b].unique)
    ensures CarriersOk(s')
  {
    hide OnlyMoves, Carries, CarrierOk;
    forall x: Ptr | Carries(s', x)
      ensures x in s'.heap && s'.heap[x].kind.Interrupt? && CarrierOk(s', s'.heap[x].kind.target, s'.heap[x].unique)
    {
      CarriesKind(s', x);
      if x != a && x != b { CarriesSame(s, s', t, a, b, x); }
      Apart(s, s', t, a, b, x);
      assert Carries(s, x);
      CarrierKeeps(s, s', t, a, b, x);
    }
  }

  lemma CarrierKeeps(s: State, s': State, t: Tid, a: Ptr, b: Ptr, x: Ptr)
    requires Moves(s, s', t, a, b) && s'.kern == s.kern && x in s'.heap && s'.heap[x].kind.Interrupt? && Carries(s', x)
    requires CarrierOk(s, s'.heap[x].kind.target, s'.heap[x].unique)
    requires BecomesMarked(s, s', a) ==> NobodyCarries(s', s.heap[a].unique)
    requires BecomesMarked(s, s', b) ==> NobodyCarries(s', s.heap[b].unique)
    ensures CarrierOk(s', s'.heap[x].kind.target, s'.heap[x].unique)
  {
    hide OnlyMoves, Carries;
    forall y | y in s'.heap && s'.heap[y].kind.Request? && s'.heap[y].unique == s'.heap[x].kind.target
      ensures !s'.heap[y].interrupted
    {
      Apart(s, s', t, a, b, y);
    }
  }

  lemma CarriesKind(s: State, x: Ptr)
    requires Carries(s, x)
    ensures x in s.heap && s.heap[x].kind.Interrupt?
  {
  }

  lemma Apart(s: State, s': State, t: Tid, a: Ptr, b: Ptr, x: Ptr)
    requires Moves(s, s', t, a, b)
    ensures x in s.heap <==> x in s'.heap
    ensures x in s.heap && x != a && x != b ==> s'.heap[x] == s.heap[x]
    ensures x in s.heap ==> s'.heap[x].unique == s.heap[x].unique
                            && (s'.heap[x].kind.Request? <==> s.heap[x].kind.Request?)
  {
    hide RoleOf;
  }

  /** A step of one thread that the kernel does not see. */
  lemma OnceKeeps(s: State, s': State, t: Tid, a: Ptr, b: Ptr)
    requires Inv(s) && KindKept(s, s', t, a) && KindKept(s, s', t, b) && FuncKept(s, s', a) && FuncKept(s, s', b)
    requires Once(s) && Moves(s, s', t, a, b) && s'.kern == s.kern && Lighter(s, s', a) && Lighter(s, s', b)
    requires BecomesMarked(s, s', a) ==> NobodyCarries(s', s.heap[a].unique)
    requires BecomesMarked(s, s', b) ==> NobodyCarries(s', s.heap[b].unique)
    requires MarkedOk(s', a) && MarkedOk(s', b) && FoundOk(s', t) && ParkedOk(s')
    ensures Once(s')
  {
    hide Inv, Moves, Carries, KindKept, FuncKept, CarriersOk, MarkedOk, FoundOk, ParkedOk, Lighter, BecomesMarked,
         NobodyCarries;
    CarriersKeep(s, s', t, a, b);
    forall x <- s'.heap ensures MarkedOk(s', x) {
      Apart(s, s', t, a, b, x);
      if x != a && x != b { MarkedSame(s, s', x); }
    }
    forall u: Tid ensures FoundOk(s', u) {
      if u != t { FoundSame(s, s', t, a, b, u); }
    }
  }

  lemma MarkedSame(s: State, s': State, x: Ptr)
    requires x in s.heap && x in s'.heap && s'.heap[x] == s.heap[x] && s'.kern == s.kern && MarkedOk(s, x)
    ensures MarkedOk(s', x)
  {
  }

  lemma FoundSame(s: State, s': State, t: Tid, a: Ptr, b: Ptr, u: Tid)
    requires Moves(s, s', t, a, b) && u != t && FoundOk(s, u)
    requires Inv(s) && KindKept(s, s', t, a) && KindKept(s, s', t, b) && FuncKept(s, s', a) && FuncKept(s, s', b)
    ensures FoundOk(s', u)
  {
    if PcOf(s, u).Unlist? {
      Facts(s, u, PcOf(s, u).p);
      Apart(s, s', t, a, b, PcOf(s, u).p);
    }
    if PcOf(s, u).FoundWait? {
      Facts(s, u, PcOf(s, u).p);
      Apart(s, s', t, a, b, PcOf(s, u).p);
      Apart(s, s', t, a, b, PcOf(s, u).q);
    }
    hide Inv, ObjOk, KernOk;
  }

  /** Callbacks are registered for requests that nobody is about to answer. */
  predicate FuncKept(s: State, s': State, x: Ptr) {
    x in s.heap && x in s'.heap && (s'.heap[x].func ==> s.heap[x].func || s.heap[x].place == Open)
  }

  /** Only the thread that has a message in its hands changes what it is for. */
  predicate KindKept(s: State, s': State, t: Tid, x: Ptr) {
    x in s.heap && x in s'.heap && (s'.heap[x].kind == s.heap[x].kind || s.heap[x].place == InHands(t))
  }

  // ----- steps of one thread -----

  lemma MarkOnce(s: State, t: Tid, p: Ptr, q: Ptr)
    requires Inv(s) && Once(s) && PcOf(s, t) == FoundWait(p, q) && q in s.heap && s.heap[q].holder == None
    ensures Once(DoMark(s, t, p, q))
  {
    hide Inv, NoDup, KernOk, Remove;
    var s' := DoMark(s, t, p, q);
    Facts(s, t, p);
    Facts(s, t, q);
    CarrierAlone(s, p);
    assert FoundOk(s, t);
    assert Carries(s, p);
    OnceKeeps(s, s', t, p, q);
  }

  /** No other message stands for the same request. */
  lemma CarrierAlone(s: State, x: Ptr)
    requires Inv(s) && CarriersOk(s) && Carries(s, x)
    ensures forall y: Ptr | Carries(s, y) && y != x :: s.heap[y].kind != s.heap[x].kind
  {
    GlobalFacts(s);
    hide Inv, Carries;
    forall y: Ptr | Carries(s, y) && y != x ensures y in s.heap && s.heap[y].kind != s.heap[x].kind {
      CarriesKind(s, y);
      CarriesKind(s, x);
    }
  }

  lemma CallBackOnce(s: State, t: Tid, p: Ptr, q: Ptr)
    requires Inv(s) && Once(s) && PcOf(s, t) == Marked(p, q) && q in s.heap
    ensures Once(DoCallBack(s, t, p, q))
  {
    hide Inv, NoDup, KernOk, Remove;
    var s' := DoCallBack(s, t, p, q);
    Facts(s, t, p);
    Facts(s, t, q);
    OnceKeeps(s, s', t, p, q);
  }

  lemma LetGoOnce(s: State, t: Tid, p: Ptr, q: Ptr)
    requires Inv(s) && Once(s) && PcOf(s, t) == Unpin(p, q) && p in s.heap && q in s.heap
    ensures Once(DoLetGo(s, t, p, q))
  {
    hide Inv, NoDup, KernOk, Remove;
    var s' := DoLetGo(s, t, p, q);
    Facts(s, t, p);
    Facts(s, t, q);
    OnceKeeps(s, s', t, p, q);
  }

  lemma ClearReqOnce(s: State, t: Tid, p: Ptr)
    requires Inv(s) && Once(s) && PcOf(s, t) == Clear(p) && p in s.heap && s.heap[p].holder == None
    ensures Once(DoClearReq(s, t, p))
  {
    hide Inv, NoDup, KernOk, Remove;
    var s' := DoClearReq(s, t, p);
    Facts(s, t, p);
    OnceKeeps(s, s', t, p, p);
  }

  lemma StartReplyOnce(s: State, t: Tid, p: Ptr)
    requires Inv(s) && Once(s) && PcOf(s, t) == Idle && p in s.heap && s.heap[p].place == Open
    ensures Once(DoStartReply(s, t, p))
  {
    hide Inv, NoDup, KernOk, Remove;
    var s' := DoStartReply(s, t, p);
    Facts(s, t, p);
    OnceKeeps(s, s', t, p, p);
  }

  lemma RegisterOnce(s: State, t: Tid, p: Ptr, func: bool)
    requires Inv(s) && Once(s) && p in s.heap && s.heap[p].place == Open && s.heap[p].holder == None
    ensures Once(DoRegister(s, p, func))
  {
    hide Inv, NoDup, KernOk, Remove;
    var s' := DoRegister(s, p, func);
    Facts(s, t, p);
    assert FoundOk(s, t);
    OnceKeeps(s, s', t, p, p);
  }

  lemma DestroyReqOnce(s: State, t: Tid, p: Ptr)
    requires Inv(s) && Once(s) && PcOf(s, t) == Destroy(p) && p in s.heap
    ensures Once(DoDestroyReq(s, t, p))
  {
    hide Inv, NoDup, KernOk, Remove;
    var s' := DoDestroyReq(s, t, p);
    Facts(s, t, p);
    OnceKeeps(s, s', t, p, p);
  }

  lemma UnlistReqOnce(s: State, t: Tid, p: Ptr)
    requires Inv(s) && Once(s) && PcOf(s, t) == Unlist(p) && p in s.heap
    ensures Once(DoUnlistReq(s, t, p))
  {
    hide Inv, NoDup, KernOk, Remove;
    var s' := DoUnlistReq(s, t, p);
    assert FoundOk(s, t);
    Facts(s, t, p);
    OnceKeeps(s, s', t, p, p);
  }

  lemma ClearEagainOnce(s: State, t: Tid, i: Ptr, p: Ptr)
    requires Inv(s) && Once(s) && PcOf(s, t) == EagainClear(i, p) && i in s.heap && s.heap[i].holder == None
    ensures Once(DoClearEagain(s, t, i, p))
  {
    hide Inv, NoDup, KernOk, Remove;
    var s' := DoClearEagain(s, t, i, p);
    Facts(s, t, i);
    OnceKeeps(s, s', t, i, i);
  }

  lemma UnlistEagainOnce(s: State, t: Tid, i: Ptr, p: Ptr)
    requires Inv(s) && Once(s) && PcOf(s, t) == EagainUnlist(i, p) && i in s.heap && p in s.heap
    ensures Once(DoUnlistEagain(s, t, i, p))
  {
    hide Inv, NoDup, KernOk, Remove;
    var s' := DoUnlistEagain(s, t, i, p);
    Facts(s, t, i);
    Facts(s, t, p);
    OnceKeeps(s, s', t, i, p);
  }

  lemma DestroyEagainOnce(s: State, t: Tid, i: Ptr, p: Ptr)
    requires Inv(s) && Once(s) && PcOf(s, t) == EagainDestroy(i, p) && i in s.heap && p in s.heap
    ensures Once(DoDestroyEagain(s, t, i, p))
  {
    hide Inv, NoDup, KernOk, Remove;
    var s' := DoDestroyEagain(s, t, i, p);
    Facts(s, t, i);
    Facts(s, t, p);
    OnceKeeps(s, s', t, i, p);
  }

  lemma DropMessageOnce(s: State, t: Tid, p: Ptr)
    requires Inv(s) && Once(s) && PcOf(s, t) == GotIntr(p) && p in s.heap && s.heap[p].kind.Interrupt?
    ensures Once(DropMessage(s, t, p))
  {
    hide Inv, NoDup, KernOk, Remove;
    var s' := DropMessage(s, t, p);
    Facts(s, t, p);
    OnceKeeps(s, s', t, p, p);
  }

  lemma PinFoundOnce(s: State, t: Tid, p: Ptr, q: Ptr)
    requires Inv(s) && Once(s) && PcOf(s, t) == GotIntr(p) && p in s.heap && s.heap[p].kind.Interrupt? && q in s.list
             && q in s.heap && s.heap[q].unique == s.heap[p].kind.target
    ensures Once(PinFound(s, t, p, q))
  {
    hide Inv, NoDup, KernOk, Remove;
    var s' := PinFound(s, t, p, q);
    Facts(s, t, p);
    Facts(s, t, q);
    OnceKeeps(s, s', t, p, q);
  }

  lemma ParkMessageOnce(s: State, t: Tid, p: Ptr)
    requires Inv(s) && Once(s) && PcOf(s, t) == GotIntr(p) && p in s.heap && s.heap[p].kind.Interrupt?
             && (forall y <- s.list :: y in s.heap ==> s.heap[y].unique != s.heap[p].kind.target)
    ensures Once(ParkMessage(s, t, p))
  {
    hide Inv, NoDup, KernOk, Remove;
    var s' := ParkMessage(s, t, p);
    Facts(s, t, p);
    OnceKeeps(s, s', t, p, p);
  }

  lemma NothingParkedOnce(s: State, t: Tid, p: Ptr)
    requires Inv(s) && Once(s) && PcOf(s, t) == GotReq(p) && p in s.heap && s.interrupts == []
    ensures Once(NothingParked(s, t, p))
  {
    hide Inv, NoDup, KernOk, Remove;
    var s' := NothingParked(s, t, p);
    Facts(s, t, p);
    OnceKeeps(s, s', t, p, p);
  }

  lemma MarkEarlyOnce(s: State, t: Tid, p: Ptr, c: Ptr)
    requires Inv(s) && Once(s) && PcOf(s, t) == GotReq(p) && p in s.heap && c in s.interrupts && c in s.heap
             && s.heap[c].kind == Interrupt(s.heap[p].unique)
    ensures Once(MarkEarly(s, t, p, c))
  {
    hide Inv, NoDup, KernOk, Remove;
    var s' := MarkEarly(s, t, p, c);
    Facts(s, t, p);
    Facts(s, t, c);
    assert Carries(s, c);
    CarrierAlone(s, c);
    AllParked(s);
    OnceKeeps(s, s', t, p, c);
  }

  lemma TakeParkedOnce(s: State, t: Tid, p: Ptr, i: Ptr)
    requires Inv(s) && Once(s) && PcOf(s, t) == GotReq(p) && p in s.heap && i in s.interrupts && i in s.heap
             && (forall x <- s.interrupts :: x in s.heap ==> s.heap[x].kind != Interrupt(s.heap[p].unique))
    ensures Once(TakeParked(s, t, p, i))
  {
    hide Inv, NoDup, KernOk, Remove;
    var s' := TakeParked(s, t, p, i);
    Facts(s, t, p);
    Facts(s, t, i);
    OnceKeeps(s, s', t, p, i);
  }

  /** What is on the list of parked messages is a parked message. */
  lemma AllParked(s: State)
    requires Inv(s)
    ensures forall x <- s.interrupts :: x in s.heap && s.heap[x].kind.Interrupt? && Carries(s, x)
  {
    ListFacts(s);
    forall x <- s.interrupts ensures s.heap[x].kind.Interrupt? && Carries(s, x) {
      Facts(s, 0, x);
    }
    hide Inv;
  }

  // ----- steps that the kernel sees -----

  /** Requests and messages stand still; what the kernel knows of a request changes
      only where nobody has the interrupt. */
  lemma KernelOnce(s: State, s': State)
    requires Once(s) && s'.heap == s.heap && s'.list == s.list && s'.interrupts == s.interrupts
    requires forall x: Ptr | Carries(s', x) :: Carries(s, x)
    requires forall t: Tid | PcOf(s', t).FoundWait? || PcOf(s', t).Unlist? :: PcOf(s', t) == PcOf(s, t)
    requires forall u <- s.kern :: u in s'.kern
    requires forall u <- s.kern :: s.kern[u].intr.Out? && s'.kern[u].intr != s.kern[u].intr ==>
               && NobodyCarries(s', u)
               && forall y <- s.heap :: s.heap[y].kind.Request? && s.heap[y].unique == u ==> !s.heap[y].interrupted
    ensures Once(s')
  {
    hide Carries, ParkedOk;
    forall x: Ptr | Carries(s', x) ensures x in s'.heap && s'.heap[x].kind.Interrupt?
                                         && CarrierOk(s', s'.heap[x].kind.target, s'.heap[x].unique) {
      CarriesKind(s', x);
      assert CarrierOk(s, s.heap[x].kind.target, s.heap[x].unique);
    }
    forall x <- s'.heap ensures MarkedOk(s', x) {
      assert MarkedOk(s, x);
    }
    forall t: Tid ensures FoundOk(s', t) {
      assert FoundOk(s, t);
    }
    assert ParkedOk(s') by { ParkedSame(s, s'); }
  }

  lemma ParkedSame(s: State, s': State)
    requires ParkedOk(s) && s'.heap == s.heap && s'.list == s.list && s'.interrupts == s.interrupts
    ensures ParkedOk(s')
  {
  }

  lemma SendReplyOnce(s: State, t: Tid, p: Ptr)
    requires Inv(s) && Once(s) && PcOf(s, t) == Send(p) && p in s.heap && s.heap[p].unique in s.kern
    ensures Once(DoSendReply(s, t, p))
  {
    var s' := DoSendReply(s, t, p);
    hide Once;
    forall x: Ptr | Carries(s', x) ensures Carries(s, x) {
      Facts(s, t, x);
    }
    hide Inv;
    KernelOnce(s, s');
  }

  lemma SendEagainOnce(s: State, t: Tid, i: Ptr, p: Ptr)
    requires Inv(s) && Once(s) && PcOf(s, t) == Eagain(i, p) && i in s.heap
    ensures Once(DoSendEagain(s, t, i, p))
  {
    var s' := DoSendEagain(s, t, i, p);
    Facts(s, t, i);
    assert Carries(s, i);
    CarrierAlone(s, i);
    GlobalFacts(s);
    forall x: Ptr | Carries(s', x) ensures Carries(s, x) && x != i {
      Facts(s, t, x);
    }
    hide Inv, Carries;
    KernelOnce(s, s');
  }

  lemma KernelsOnce(s: State, a: Step)
    requires Inv(s) && Once(s) && Enabled(s, a) && (a.KernelSend? || a.KernelInterrupt?)
    ensures Once(Apply(s, a))
  {
    hide Inv, Once;
    assert forall x: Ptr :: Carries(Apply(s, a), x) <==> Carries(s, x);
    KernelOnce(s, Apply(s, a));
  }

  /** A structure is new: nothing was known of it. */
  lemma NewOnce(s: State, s': State, t: Tid, p: Ptr)
    requires Inv(s) && Once(s) && p !in s.heap && p in s'.heap && s'.heap == s.heap[p := s'.heap[p]]
    requires s'.list == s.list && s'.interrupts == s.interrupts
    requires forall u: Tid | u != t :: PcOf(s', u) == PcOf(s, u)
    requires PcOf(s, t) == Idle && !PcOf(s', t).FoundWait? && !PcOf(s', t).Unlist?
    requires s'.heap[p] == NewReq(s'.heap[p].unique, s'.heap[p].kind, t)
    requires Carries(s', p) ==> CarrierOk(s', s'.heap[p].kind.target, s'.heap[p].unique)
    requires forall u <- s.kern :: u in s'.kern && (s.kern[u].intr.Out? ==> s'.kern[u].intr == s.kern[u].intr)
    ensures Once(s')
  {
    NewIsNew(s, t, p);
    forall x: Ptr | x != p && Carries(s', x)
      ensures Carries(s, x) && CarrierOk(s', s'.heap[x].kind.target, s'.heap[x].unique) {
      Facts(s, t, x);
      assert CarrierOk(s, s.heap[x].kind.target, s.heap[x].unique);
    }
    hide Inv, Carries;
    forall x <- s'.heap ensures MarkedOk(s', x) {
      if x != p { assert MarkedOk(s, x); }
    }
    forall u: Tid ensures FoundOk(s', u) {
      assert FoundOk(s, u);
    }
  }

  lemma ReadRequestOnce(s: State, t: Tid, u: Uid, p: Ptr)
    requires Inv(s) && Once(s) && PcOf(s, t) == Idle && u in s.kern && !s.kern[u].read && p !in s.heap
    ensures Once(DoReadRequest(s, t, u, p))
  {
    hide Inv, Once;
    NewOnce(s, DoReadRequest(s, t, u, p), t, p);
  }

  lemma ReadInterruptOnce(s: State, t: Tid, u: Uid, id: Uid, p: Ptr)
    requires Inv(s) && Once(s) && PcOf(s, t) == Idle && u in s.kern && s.kern[u].intr == Queued && p !in s.heap
    ensures Once(DoReadInterrupt(s, t, u, id, p))
  {
    var s' := DoReadInterrupt(s, t, u, id, p);
    forall y | y in s'.heap && s'.heap[y].kind.Request? && s'.heap[y].unique == u ensures !s'.heap[y].interrupted {
      assert MarkedOk(s, y);
    }
    hide Inv, Once;
    NewOnce(s, s', t, p);
  }

  // ----- every step -----

  lemma CheckOnce(s: State, t: Tid, p: Ptr)
    requires Inv(s) && Once(s) && PcOf(s, t) == GotReq(p) && p in s.heap
    ensures Once(DoCheck(s, t, p))
  {
    hide Once, MarkEarly, NothingParked, TakeParked;
    AllParked(s);
    hide Inv;
    var found := FindParked(s.interrupts, s.heap, s.heap[p].unique);
    if found.Some? {
      MarkEarlyOnce(s, t, p, found.value);
    } else if s.interrupts == [] {
      NothingParkedOnce(s, t, p);
    } else {
      TakeParkedOnce(s, t, p, s.interrupts[0]);
    }
  }

  lemma MessageOnce(s: State, t: Tid, p: Ptr)
    requires Inv(s) && Once(s) && PcOf(s, t) == GotIntr(p) && p in s.heap && s.heap[p].kind.Interrupt?
    ensures Once(DoInterruptMessage(s, t, p))
  {
    hide Once, Inv, PinFound, DropMessage, ParkMessage;
    var found := FindUnique(s.list, s.heap, s.heap[p].kind.target);
    if found.Some? {
      PinFoundOnce(s, t, p, found.value);
    } else {
      DropMessageOnce(s, t, p);
      ParkMessageOnce(s, t, p);
    }
  }

  lemma StepOnce(s: State, a: Step)
    requires Inv(s) && Once(s) && Enabled(s, a)
    ensures Once(Apply(s, a))
  {
    hide Inv, Once, DoReadRequest, DoCheck, DoSendEagain, DoClearEagain, DoUnlistEagain, DoDestroyEagain,
         DoReadInterrupt, DoInterruptMessage, DoMark, DoCallBack, DoLetGo, DoRegister, DoStartReply, DoSendReply,
         DoClearReq, DoUnlistReq, DoDestroyReq;
    match a
    case KernelSend(_) => KernelsOnce(s, a);
    case KernelInterrupt(_) => KernelsOnce(s, a);
    case ReadRequest(t, u, p) => ReadRequestOnce(s, t, u, p);
    case CheckInterrupt(t) => CheckOnce(s, t, PcOf(s, t).p);
    case SendEagain(t) => SendEagainOnce(s, t, PcOf(s, t).i, PcOf(s, t).p);
    case ClearEagain(t) => ClearEagainOnce(s, t, PcOf(s, t).i, PcOf(s, t).p);
    case UnlistEagain(t) => UnlistEagainOnce(s, t, PcOf(s, t).i, PcOf(s, t).p);
    case DestroyEagain(t) => DestroyEagainOnce(s, t, PcOf(s, t).i, PcOf(s, t).p);
    case ReadInterrupt(t, u, id, p) => ReadInterruptOnce(s, t, u, id, p);
    case DoInterrupt(t) => MessageOnce(s, t, PcOf(s, t).p);
    case Mark(t) => MarkOnce(s, t, PcOf(s, t).p, PcOf(s, t).q);
    case CallBack(t) => CallBackOnce(s, t, PcOf(s, t).p, PcOf(s, t).q);
    case LetGo(t) => LetGoOnce(s, t, PcOf(s, t).p, PcOf(s, t).q);
    case Register(p, func) => RegisterOnce(s, 0, p, func);
    case StartReply(t, p) => StartReplyOnce(s, t, p);
    case SendReply(t) => SendReplyOnce(s, t, PcOf(s, t).p);
    case ClearReq(t) => ClearReqOnce(s, t, PcOf(s, t).p);
    case UnlistReq(t) => UnlistReqOnce(s, t, PcOf(s, t).p);
    case DestroyReq(t) => DestroyReqOnce(s, t, PcOf(s, t).p);
  }

  lemma {:induction false} RunOnce(s: State, steps: seq<Step>)
    requires Inv(s) && Once(s) && IsRun(s, steps)
    ensures Once(After(s, steps))
    decreases |steps|
  {
    hide Inv, Once, Enabled, Apply;
    if steps != [] {
      StepKeeps(s, steps[0]);
      StepOnce(s, steps[0]);
      RunOnce(Apply(s, steps[0]), steps[1..]);
    }
  }

  // ----- what it means -----

  /** A request is marked only when the kernel has interrupted it. */
  lemma MarkedWasInterrupted(s: State, steps: seq<Step>, x: Ptr)
    requires Initial(s) && IsRun(s, steps) && x in After(s, steps).heap
    ensures var z := After(s, steps);
            var q := z.heap[x];
            q.kind.Request? && q.interrupted ==> q.unique in z.kern && z.kern[q.unique].intr.Out?
  {
    InitialOnce(s);
    InitialInv(s);
    RunOnce(s, steps);
    hide Inv, After, IsRun;
    assert MarkedOk(After(s, steps), x);
  }

  /** A registered callback is called exactly once when its request is marked and
      the lock free, and not before. */
  lemma CalledOnce(s: State, steps: seq<Step>, x: Ptr)
    requires Initial(s) && IsRun(s, steps) && x in After(s, steps).heap
    ensures var q := After(s, steps).heap[x];
            q.kind.Request? ==>
              && 0 <= q.calls <= 1 && (q.calls == 1 ==> q.interrupted)
              && (q.func ==> q.calls == B(q.interrupted && q.holder == None))
  {
    InitialOnce(s);
    InitialInv(s);
    RunOnce(s, steps);
    hide Inv, After, IsRun;
    assert MarkedOk(After(s, steps), x);
  }

  /** Once its request has been let go, a callback is not called any more. */
  lemma NotCalledLater(s: State, steps: seq<Step>, x: Ptr)
    requires Initial(s) && IsRun(s, steps) && x in After(s, steps).heap
    ensures var q := After(s, steps).heap[x];
            q.kind.Request? && (q.destroyed == 1 || q.place.Gone? || q.place.Dying?) ==> !q.func
  {
    InitialOnce(s);
    InitialInv(s);
    RunOnce(s, steps);
    RunKeeps(s, steps);
    Facts(After(s, steps), 0, x);
    hide Inv, After, IsRun;
    assert MarkedOk(After(s, steps), x);
  }

  /** The interrupt of a request is with one message at most, and once the request
      is marked with none. */
  lemma OneCarrier(s: State, steps: seq<Step>, x: Ptr, y: Ptr)
    requires Initial(s) && IsRun(s, steps) && Carries(After(s, steps), x) && y in After(s, steps).heap
    ensures var z := After(s, steps);
            && (Carries(z, y) && z.heap[y].kind == z.heap[x].kind ==> y == x)
            && (z.heap[y].kind.Request? && z.heap[x].kind == Interrupt(z.heap[y].unique) ==> !z.heap[y].interrupted)
  {
    InitialOnce(s);
    InitialInv(s);
    RunOnce(s, steps);
    RunKeeps(s, steps);
    var z := After(s, steps);
    hide Inv, After, IsRun, Carries;
    CarriesKind(z, x);
    CarrierAlone(z, x);
    assert CarrierOk(z, z.heap[x].kind.target, z.heap[x].unique);
  }

  /** An interrupt whose request is listed is not parked. */
  lemma ParkedIsEarlyOrLate(s: State, steps: seq<Step>, x: Ptr, y: Ptr)
    requires Initial(s) && IsRun(s, steps)
    requires var z := After(s, steps); x in z.interrupts && y in z.list && x in z.heap && y in z.heap
    ensures var z := After(s, steps); z.heap[x].kind != Interrupt(z.heap[y].unique)
  {
    InitialOnce(s);
    InitialInv(s);
    RunOnce(s, steps);
    hide Inv, After, IsRun;
  }

  /** A message for request `u` is parked. */
  ghost predicate ParkedFor(s: State, x: Ptr, u: Uid) {
    x in s.interrupts && x in s.heap && s.heap[x].kind == Interrupt(u)
  }

  /** Each request that arrives takes a message off the list if one is parked: its
      own, by which it is marked, or else the oldest, to be answered with EAGAIN. */
  lemma ArrivalTakesOne(s: State, t: Tid)
    requires Inv(s) && Enabled(s, CheckInterrupt(t))
    ensures var z := Apply(s, CheckInterrupt(t));
            var p := PcOf(s, t).p;
            var u := s.heap[p].unique;
            && p in z.heap && z.list == s.list + [p]
            && ((exists x: Ptr :: ParkedFor(s, x, u)) ==>
                  && z.heap[p].interrupted && |z.interrupts| == |s.interrupts| - 1 && PcOf(z, t) == Idle
                  && exists x: Ptr ::
                       ParkedFor(s, x, u) && x in z.heap && z.heap[x].destroyed == 1 && x !in z.interrupts)
            && ((forall x: Ptr :: !ParkedFor(s, x, u)) ==>
                  && z.heap[p].interrupted == s.heap[p].interrupted
                  && if s.interrupts == [] then z.interrupts == [] && PcOf(z, t) == Idle
                     else z.interrupts == s.interrupts[1..] && PcOf(z, t) == Eagain(s.interrupts[0], p))
  {
    hide Inv, MarkEarly, NothingParked, TakeParked;
    var p := PcOf(s, t).p;
    AllParked(s);
    var found := FindParked(s.interrupts, s.heap, s.heap[p].unique);
    if found.Some? {
      assert ParkedFor(s, found.value, s.heap[p].unique);
      EarlyTakes(s, t, p, found.value);
    } else {
      assert forall x: Ptr :: !ParkedFor(s, x, s.heap[p].unique);
      LateTakes(s, t, p);
    }
  }

  lemma EarlyTakes(s: State, t: Tid, p: Ptr, c: Ptr)
    requires Inv(s) && PcOf(s, t) == GotReq(p) && p in s.heap && ParkedFor(s, c, s.heap[p].unique)
    ensures var z := MarkEarly(s, t, p, c);
            && p in z.heap && z.list == s.list + [p] && z.heap[p].interrupted && |z.interrupts| == |s.interrupts| - 1
            && PcOf(z, t) == Idle && c in z.heap && z.heap[c].destroyed == 1 && c !in z.interrupts
  {
    ListFacts(s);
    Facts(s, t, p);
    Facts(s, t, c);
    hide Inv, NoDup, Remove;
    NoDupRemove(s.interrupts, c);
  }

  lemma LateTakes(s: State, t: Tid, p: Ptr)
    requires Inv(s) && PcOf(s, t) == GotReq(p) && p in s.heap
    ensures s.interrupts == [] ==>
              var z := NothingParked(s, t, p);
              && p in z.heap && z.list == s.list + [p] && z.heap[p].interrupted == s.heap[p].interrupted
              && z.interrupts == [] && PcOf(z, t) == Idle
    ensures s.interrupts != [] ==>
              && s.interrupts[0] in s.heap
              && var z := TakeParked(s, t, p, s.interrupts[0]);
                && p in z.heap && z.list == s.list + [p] && z.heap[p].interrupted == s.heap[p].interrupted
                && z.interrupts == s.interrupts[1..] && PcOf(z, t) == Eagain(s.interrupts[0], p)
  {
    ListFacts(s);
    hide Inv, NoDup, Remove;
    if s.interrupts != [] {
      var i := s.interrupts[0];
      assert i in s.interrupts;
      assert i in s.heap;
      NoDupTail(s.interrupts);
    }
  }

  /** A message for a listed request goes to mark it; one for which there is a
      parked message is dropped; any other is parked behind the rest. */
  lemma MessageTaken(s: State, t: Tid)
    requires Inv(s) && Enabled(s, DoInterrupt(t))
    ensures var z := Apply(s, DoInterrupt(t));
            var p := PcOf(s, t).p;
            var u := s.heap[p].kind.target;
            && z.list == s.list
            && ((exists y: Ptr :: ListedAs(s, y, u)) ==>
                  z.interrupts == s.interrupts && PcOf(z, t).FoundWait? && PcOf(z, t).p == p
                    && ListedAs(s, PcOf(z, t).q, u))
            && ((forall y: Ptr :: !ListedAs(s, y, u)) && (exists x: Ptr :: ParkedFor(s, x, u)) ==>
                  z.interrupts == s.interrupts && PcOf(z, t) == Idle && p in z.heap && z.heap[p].destroyed == 1)
            && ((forall y: Ptr :: !ListedAs(s, y, u)) && (forall x: Ptr :: !ParkedFor(s, x, u)) ==>
                  z.interrupts == s.interrupts + [p] && PcOf(z, t) == Idle)
  {
    var p := PcOf(s, t).p;
    var u := s.heap[p].kind.target;
    Facts(s, t, p);
    ListFacts(s);
    hide Inv, NoDup;
    var found := FindUnique(s.list, s.heap, u);
    if found.Some? {
      assert ListedAs(s, found.value, u);
    } else {
      assert forall y: Ptr :: !ListedAs(s, y, u);
      var parked := FindParked(s.interrupts, s.heap, u);
      if parked.Some? { assert ParkedFor(s, parked.value, u); }
    }
  }

  /** Request `u` is listed. */
  ghost predicate ListedAs(s: State, y: Ptr, u: Uid) { y in s.list && y in s.heap && s.heap[y].unique == u }
}
