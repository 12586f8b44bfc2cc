/** Requests as the two sides of a connection see them. */
module RequestMail {
  // No threads, locks or references: a request goes through its stages, gets a
  // number when it is queued, and its interrupt takes turns of its own.
  import opened Sequences
  import Dev = RequestModel

  type Rid = Dev.Rid

  /** The last number of the 64-bit counter, which skips 0. */
  const LAST: int := 0xffff_ffff_ffff_ffff

  datatype Stage =
    | Fresh
    | Waiting      // for the daemon to read it
    | Reading
    | Sent         // the daemon has it
    | Writing
    | Done
    | Left         // its caller took it back before it was read

  /** Which signals end the wait of the request's caller. */
  datatype Waits =
    | Before       // it has not sent the request
    | First        // any signal
    | Second       // a fatal one
    | Over

  /** `number` and `intr` are the numbers of the request and of its interrupt, 0
      as long as there is none. */
  datatype Mark = Mark(stage: Stage, waits: Waits, async: bool, force: bool, isreply: bool, number: int, intr: int,
                       interrupted: bool, aborted: bool, error: int)

  /** `sent` is what the daemon has, `io` what is being copied, newest first. */
  datatype Mail = Mail(up: bool, refusing: bool, deaf: bool, marks: map<Rid, Mark>,
                       pending: seq<Rid>, sent: seq<Rid>, io: seq<Rid>, interrupts: seq<Rid>, last: int)

  datatype Event =
    | New(r: Rid, async: bool, force: bool, isreply: bool)
    | Refusing
    | Deaf                         // the daemon does not want interrupts
    | Down
    | Refuse(r: Rid, error: int)   // a request that is not queued
    | Fail(r: Rid)                 // a background request that is not queued
    | Queue(r: Rid)
    | Signal(r: Rid)
    | GiveUp(r: Rid)               // a fatal signal; a request that nobody has read is taken back
    | Back(r: Rid)                 // the caller stops to wait for signals
    | Take(r: Rid)
    | Deliver(r: Rid)
    | Answer(r: Rid, error: int)
    | TakeInterrupt(r: Rid)
    | Again(r: Rid)                // the daemon asks for the interrupt once more
    | Abandon(r: Rid)              // the connection goes down while the request is copied
    | Finish(r: Rid, error: int)

  predicate UnderWay(m: Mark) { m.stage in {Waiting, Reading, Sent, Writing} }

  predicate ErrorRange(error: int) { -1000 < error <= 0 }

  /** With which errors a request can end. */
  predicate EndsWith(v: Mail, m: Mark, error: int) {
    match m.stage
    case Waiting => error == -Dev.ECONNABORTED && !v.up
    case Sent => (error == -Dev.ECONNABORTED && !v.up) || (m.aborted && error == m.error)
    case Reading =>
      if m.aborted then error == m.error
      else error == -Dev.EIO || error == -Dev.E2BIG || (error == 0 && !m.isreply)
    case Writing => error == m.error || (!m.aborted && error == -Dev.EIO)
    case Done => error == m.error
    case _ => false
  }

  predicate Allowed(v: Mail, e: Event) {
    match e
    case New(r, _, _, _) => r !in v.marks
    case Refusing => true
    case Deaf => v.up
    case Down => true
    case Refuse(r, error) =>
      r in v.marks && v.marks[r].waits == Before && !v.marks[r].async
      && (if v.up then v.refusing && error == -Dev.ECONNREFUSED else error == -Dev.ENOTCONN)
    case Fail(r) => r in v.marks && v.marks[r].waits == Before && v.marks[r].async && !v.up
    case Queue(r) => r in v.marks && v.marks[r].waits == Before && v.up && (v.marks[r].async || !v.refusing)
    case Signal(r) => r in v.marks && UnderWay(v.marks[r]) && v.marks[r].waits == First && !v.marks[r].aborted
    case GiveUp(r) => r in v.marks && UnderWay(v.marks[r]) && v.marks[r].waits == Second && !v.marks[r].aborted
    case Back(r) =>
      r in v.marks && v.marks[r].waits in {First, Second} && (v.marks[r].stage == Done || v.marks[r].aborted)
    case Take(r) => v.up && v.interrupts == [] && v.pending != [] && v.pending[0] == r && r in v.marks
    case Deliver(r) => r in v.marks && v.marks[r].stage == Reading && !v.marks[r].aborted && v.marks[r].isreply
    case Answer(r, error) =>
      v.up && r in v.marks && v.marks[r].stage == Sent && !v.marks[r].aborted && ErrorRange(error)
    case TakeInterrupt(r) => v.up && v.interrupts != [] && v.interrupts[0] == r && r in v.marks
    case Again(r) =>
      v.up && r in v.marks && v.marks[r].stage == Sent && !v.marks[r].aborted && v.marks[r].intr != 0
      && r !in v.interrupts
    case Abandon(r) =>
      !v.up && v.io != [] && v.io[0] == r && r in v.marks && v.marks[r].stage in {Reading, Writing}
    case Finish(r, error) => r in v.marks && EndsWith(v, v.marks[r], error)
  }

  function Next(last: int): int { if last == LAST then 1 else last + 1 }

  /** A forced request waits for its answer, whatever signal comes. */
  function NextWait(m: Mark): Waits { if m.force then Over else Second }

  function FirstWait(v: Mail, m: Mark): Waits {
    if m.async then Over else if v.deaf then NextWait(m) else First
  }

  function OffLists(v: Mail, r: Rid): Mail {
    v.(pending := Remove(v.pending, r), sent := Remove(v.sent, r), io := Remove(v.io, r),
       interrupts := Remove(v.interrupts, r))
  }

  function Do(v: Mail, e: Event): Mail
    requires Allowed(v, e)
  {
    match e
    case New(r, async, force, isreply) =>
      v.(marks := v.marks[r := Mark(Fresh, Before, async, force, isreply, 0, 0, false, false, 0)])
    case Refusing => v.(refusing := true)
    case Deaf => v.(deaf := true)
    case Down => v.(up := false)
    case Refuse(r, error) => v.(marks := v.marks[r := v.marks[r].(waits := Over, error := error)])
    case Fail(r) =>
      OffLists(v, r).(marks := v.marks[r := v.marks[r].(stage := Done, waits := Over, error := -Dev.ENOTCONN)])
    case Queue(r) =>
      v.(marks := v.marks[r := v.marks[r].(stage := Waiting, number := Next(v.last),
                                                 waits := FirstWait(v, v.marks[r]))],
         pending := v.pending + [r], last := Next(v.last))
    case Signal(r) =>
      v.(marks := v.marks[r := v.marks[r].(interrupted := true, waits := NextWait(v.marks[r]))],
         interrupts := if v.marks[r].stage == Sent then v.interrupts + [r] else v.interrupts)
    case GiveUp(r) =>
      var m := v.marks[r].(aborted := true, error := -Dev.EINTR, waits := Over);
      if m.stage == Waiting then v.(marks := v.marks[r := m.(stage := Left)], pending := Remove(v.pending, r))
      else v.(marks := v.marks[r := m])
    case Back(r) => v.(marks := v.marks[r := v.marks[r].(waits := Over)])
    case Take(r) => 
      v.(marks := v.marks[r := v.marks[r].(stage := Reading)], pending := v.pending[1..], io := [r] + v.io)
    case Deliver(r) =>
      v.(marks := v.marks[r := v.marks[r].(stage := Sent)], io := Remove(v.io, r), sent := v.sent + [r],
         interrupts := if v.marks[r].interrupted then v.interrupts + [r] else v.interrupts)
    case Answer(r, error) =>
      v.(marks := v.marks[r := v.marks[r].(stage := Writing, error := error)], sent := Remove(v.sent, r),
         io := [r] + v.io)
    case TakeInterrupt(r) =>
      v.(marks := v.marks[r := v.marks[r].(intr := Next(v.last))], interrupts := v.interrupts[1..],
         last := Next(v.last))
    case Again(r) => v.(interrupts := v.interrupts + [r])
    case Abandon(r) =>
      v.(marks := v.marks[r := v.marks[r].(stage := Done, aborted := true, error := -Dev.ECONNABORTED)],
         io := v.io[1..])
    case Finish(r, error) =>
      OffLists(v, r).(marks := v.marks[r := v.marks[r].(stage := Done, error := error)])
  }

  predicate Follows(v: Mail, es: seq<Event>)
    decreases |es|
  {
    es == [] || (Allowed(v, es[0]) && Follows(Do(v, es[0]), es[1..]))
  }

  function DoAll(v: Mail, es: seq<Event>): Mail
    requires Follows(v, es)
    decreases |es|
  {
    if es == [] then v else DoAll(Do(v, es[0]), es[1..])
  }

  lemma FollowsOne(v: Mail, e: Event)
    requires Allowed(v, e)
    ensures Follows(v, [e]) && DoAll(v, [e]) == Do(v, e)
  {
    hide Allowed, Do;
    var v1 := Do(v, e);
    assert [e][1..] == [];
    assert Follows(v1, []) && DoAll(v1, []) == v1;
  }

  lemma {:induction false} FollowsConcat(v: Mail, a: seq<Event>, b: seq<Event>)
    requires Follows(v, a) && Follows(DoAll(v, a), b)
    ensures Follows(v, a + b) && DoAll(v, a + b) == DoAll(DoAll(v, a), b)
    decreases |a|
  {
    hide Allowed, Do;
    if a == [] {
      assert a + b == b;
    } else {
      assert (a + b)[1..] == a[1..] + b;
      FollowsConcat(Do(v, a[0]), a[1..], b);
    }
  }

  predicate Empty(v: Mail) {
    v.up && v.marks == map[] && v.pending == [] && v.sent == [] && v.io == [] && v.interrupts == []
      && 0 <= v.last <= LAST
  }

  // ----- where requests and interrupts are -----

  /** Who waits stands on the list, once; an interrupt is queued only of a request
      that was marked. No interrupt of a request that the daemon has is lost. */
  ghost predicate Placed(v: Mail) {
    && ListsOnce(v) && 0 <= v.last <= LAST && (forall r: Rid | Listed(v, r) :: r in v.marks)
    && forall r <- v.marks :: MarkOk(v, r)
  }

  ghost predicate ListsOnce(v: Mail) { NoDup(v.pending) && NoDup(v.sent) && NoDup(v.io) && NoDup(v.interrupts) }

  predicate Listed(v: Mail, r: Rid) { r in v.pending || r in v.sent || r in v.io || r in v.interrupts }

  /** The lists have `r` as they had it. */
  predicate ListedSame(v: Mail, v': Mail, r: Rid) {
    && (r in v'.pending <==> r in v.pending) && (r in v'.sent <==> r in v.sent)
    && (r in v'.io <==> r in v.io) && (r in v'.interrupts <==> r in v.interrupts)
  }

  ghost predicate MarkOk(v: Mail, r: Rid)
    requires r in v.marks
  {
    var m := v.marks[r];
    && StageListed(v, m, r)
    && (r in v.interrupts ==> m.interrupted && m.stage in {Sent, Writing, Done})
    && (m.stage == Sent && m.interrupted ==> r in v.interrupts || m.intr != 0)
    && (UnderWay(m) ==> m.number != 0)
    && (m.stage == Fresh ==> m.number == 0 && !m.interrupted && !m.aborted && m.waits in {Before, Over})
    && (m.waits == Before ==> m.stage == Fresh && m.error == 0) && (m.waits == Second ==> !m.force)
    && (m.waits == First ==> !m.interrupted)
    && (m.intr != 0 ==> m.interrupted)
    && (m.number == 0 || 1 <= m.number <= LAST) && (m.intr == 0 || 1 <= m.intr <= LAST)
    && ErrorOk(v, m)
  }

  /** A request is on the list of its stage. */
  predicate StageListed(v: Mail, m: Mark, r: Rid) {
    && (r in v.pending <==> m.stage == Waiting) && (r in v.sent <==> m.stage == Sent)
    && (r in v.io <==> m.stage in {Reading, Writing})
  }

  /** What the error of a request tells. */
  predicate ErrorOk(v: Mail, m: Mark) {
    && ErrorRange(m.error)
    && (m.stage == Fresh ==>
          m.waits == Before || (m.error == -Dev.ENOTCONN && !v.up) || (m.error == -Dev.ECONNREFUSED && v.refusing))
    && (m.aborted ==> (m.error == -Dev.EINTR && !m.force) || (m.error == -Dev.ECONNABORTED && !v.up))
    && (m.stage in {Waiting, Reading, Sent} && !m.aborted ==> m.error == 0)
    && (m.stage == Left ==> m.aborted) && (m.stage == Waiting ==> !m.aborted)
  }

  lemma MarksApart(v: Mail, v': Mail, r: Rid)
    requires Placed(v) && r in v.marks && r in v'.marks && v'.marks == v.marks[r := v'.marks[r]]
    requires (v.refusing ==> v'.refusing) && (!v.up ==> !v'.up)
    requires forall x: Rid | x != r :: ListedSame(v, v', x)
    requires ListsOnce(v') && 0 <= v'.last <= LAST && MarkOk(v', r)
    ensures Placed(v')
  {
    hide ListsOnce;
    forall x <- v'.marks ensures MarkOk(v', x) {
      if x != r { assert MarkOk(v, x) && ListedSame(v, v', x); }
    }
    hide MarkOk;
    forall x: Rid | Listed(v', x) ensures x in v'.marks {
      if x != r { assert ListedSame(v, v', x) && Listed(v, x); }
    }
  }

  lemma PlacedFacts(v: Mail, r: Rid)
    requires Placed(v) && r in v.marks
    ensures MarkOk(v, r) && ListsOnce(v) && 0 <= v.last <= LAST
    ensures forall x: Rid | Listed(v, x) :: x in v.marks
  {
    hide MarkOk, ListsOnce;
  }

  predicate About(e: Event) { !e.New? && !e.Refusing? && !e.Deaf? && !e.Down? }

  lemma ListsMove(v: Mail, e: Event)
    requires Placed(v) && Allowed(v, e) && About(e)
    ensures e.r in v.marks
    ensures var v' := Do(v, e);
            && ListsOnce(v') && v'.marks == v.marks[e.r := v'.marks[e.r]]
            && forall x: Rid | x != e.r :: ListedSame(v, v', x)
  {
    PlacedFacts(v, e.r);
    hide Placed, ListsOnce, EndsWith, ErrorOk, ErrorRange;
    ListsNoDup(v, e);
    ListsSame(v, e);
  }

  lemma ListsSame(v: Mail, e: Event)
    requires Allowed(v, e) && About(e) && ListsOnce(v)
    ensures forall x: Rid | x != e.r :: ListedSame(v, Do(v, e), x)
  {
    hide NoDup, EndsWith, ErrorRange;
    if e.Take? { NoDupTail(v.pending); }
    if e.TakeInterrupt? { NoDupTail(v.interrupts); }
    if e.Abandon? { NoDupTail(v.io); }
  }

  lemma ListsNoDup(v: Mail, e: Event)
    requires Allowed(v, e) && About(e) && e.r in v.marks && MarkOk(v, e.r) && ListsOnce(v)
    ensures ListsOnce(Do(v, e))
  {
    hide NoDup, EndsWith, ErrorOk, ErrorRange;
    var r := e.r;
    if r !in v.interrupts { NoDupPrepend(r, v.interrupts); }
    match e
    case Queue(r) => NoDupPrepend(r, v.pending);
    case Take(r) => NoDupTail(v.pending); NoDupPrepend(r, v.io);
    case Deliver(r) => NoDupRemove(v.io, r); NoDupPrepend(r, v.sent);
    case Answer(r, _) => NoDupRemove(v.sent, r); NoDupPrepend(r, v.io);
    case TakeInterrupt(_) => NoDupTail(v.interrupts);
    case Abandon(_) => NoDupTail(v.io);
    case GiveUp(r) => NoDupRemove(v.pending, r);
    case Fail(r) => ListsRemove(v, r);
    case Finish(r, _) => ListsRemove(v, r);
    case _ =>
  }

  lemma ListsRemove(v: Mail, r: Rid)
    requires ListsOnce(v)
    ensures ListsOnce(OffLists(v, r))
  {
    NoDupRemove(v.pending, r);
    NoDupRemove(v.sent, r);
    NoDupRemove(v.io, r);
    NoDupRemove(v.interrupts, r);
  }

  lemma MarkMoves(v: Mail, e: Event)
    requires Placed(v) && Allowed(v, e) && About(e) && e.r in v.marks
    ensures MarkOk(Do(v, e), e.r)
  {
    PlacedFacts(v, e.r);
    hide Placed, ErrorOk, EndsWith, StageListed;
    ErrorMoves(v, e);
    StageMoves(v, e);
    if e.TakeInterrupt? { NoDupTail(v.interrupts); }
  }

  lemma StageMoves(v: Mail, e: Event)
    requires Allowed(v, e) && About(e) && e.r in v.marks && MarkOk(v, e.r) && ListsOnce(v)
    ensures StageListed(Do(v, e), Do(v, e).marks[e.r], e.r)
  {
    hide ErrorOk, ErrorRange, EndsWith, NoDup;
    if e.Take? { NoDupTail(v.pending); }
    if e.Abandon? { NoDupTail(v.io); }
  }

  lemma ErrorMoves(v: Mail, e: Event)
    requires Allowed(v, e) && About(e) && e.r in v.marks && MarkOk(v, e.r)
    ensures ErrorOk(Do(v, e), Do(v, e).marks[e.r])
  {
  }

  lemma EventPlaced(v: Mail, e: Event)
    requires Placed(v) && Allowed(v, e)
    ensures Placed(Do(v, e))
  {
    if About(e) {
      hide MarkOk, Placed;
      ListsMove(v, e);
      MarkMoves(v, e);
      PlacedFacts(v, e.r);
      MarksApart(v, Do(v, e), e.r);
    } else {
      forall x <- Do(v, e).marks ensures MarkOk(Do(v, e), x) {
        if x in v.marks { assert MarkOk(v, x); }
      }
      hide MarkOk, NoDup;
    }
  }

  lemma {:induction false} RunPlaced(v: Mail, es: seq<Event>)
    requires Placed(v) && Follows(v, es)
    ensures Placed(DoAll(v, es))
    decreases |es|
  {
    hide Placed, Allowed, Do;
    if es != [] {
      EventPlaced(v, es[0]);
      RunPlaced(Do(v, es[0]), es[1..]);
    }
  }

  // ----- numbers -----

  /** How many numbers ago `u` was taken. */
  function Age(last: int, u: int): (age: int)
    ensures 0 <= age < LAST
  {
    (last - u) % LAST
  }

  lemma AgeGrows(last: int, u: int)
    requires 0 <= last <= LAST && 1 <= u <= LAST && Age(last, u) + 1 < LAST
    ensures Age(Next(last), u) == Age(last, u) + 1 && Next(last) != u
    ensures Age(Next(last), Next(last)) == 0 && 1 <= Next(last) <= LAST
  {
  }

  lemma NewestAge(last: int)
    requires 0 <= last <= LAST
    ensures Age(Next(last), Next(last)) == 0 && 1 <= Next(last) <= LAST
  {
  }

  /** No number of the one is a number of the other. */
  predicate Apart(a: Mark, b: Mark) {
    && (a.number != 0 ==> a.number != b.number && a.number != b.intr)
    && (a.intr != 0 ==> a.intr != b.number && a.intr != b.intr)
  }

  predicate Known(last: int, n: int, m: Mark) {
    && (m.number != 0 ==> Age(last, m.number) < n && m.number != m.intr)
    && (m.intr != 0 ==> Age(last, m.intr) < n)
  }

  /** Who waits longer has the older number. */
  ghost predicate InTurn(v: Mail, list: seq<Rid>) {
    && (forall r <- list :: r in v.marks && v.marks[r].number != 0)
    && forall i, j | 0 <= i < j < |list| ::
          AgeOf(v, list[i]) > AgeOf(v, list[j])
  }

  function AgeOf(v: Mail, r: Rid): int { if r in v.marks then Age(v.last, v.marks[r].number) else 0 }

  /** `n` numbers were taken, and the requests have different ones. */
  ghost predicate Distinct(v: Mail, n: int) {
    && 0 <= n <= LAST && (forall r <- v.marks :: Known(v.last, n, v.marks[r]))
    && (forall r, x | r in v.marks && x in v.marks && r != x :: Apart(v.marks[r], v.marks[x]))
    && InTurn(v, v.pending)
  }

  function Takes(e: Event): int { B(e.Queue? || e.TakeInterrupt?) }

  function Taken(es: seq<Event>): (n: int)
    ensures n >= 0
  {
    if es == [] then 0 else Takes(es[0]) + Taken(es[1..])
  }

  lemma TakenConcat(a: seq<Event>, b: seq<Event>)
    ensures Taken(a + b) == Taken(a) + Taken(b)
  {
    if a == [] {
      assert a + b == b;
    } else {
      assert (a + b)[1..] == a[1..] + b;
      TakenConcat(a[1..], b);
    }
  }

  lemma {:induction false} InTurnRemove(v: Mail, list: seq<Rid>, r: Rid)
    requires InTurn(v, list)
    ensures InTurn(v, Remove(list, r))
  {
    if list != [] {
      var rest, t := list[1..], Remove(list[1..], r);
      assert forall i | 0 <= i < |rest| :: rest[i] == list[i + 1];
      InTurnRemove(v, rest, r);
      if list[0] != r {
        forall j | 0 <= j < |t| ensures AgeOf(v, list[0]) > AgeOf(v, t[j]) {
          assert t[j] in rest;
          var k :| 0 <= k < |rest| && rest[k] == t[j];
          assert list[k + 1] == t[j];
        }
        InTurnFirst(v, list[0], t);
        assert Remove(list, r) == [list[0]] + t;
      }
    }
  }

  lemma InTurnFirst(v: Mail, r: Rid, list: seq<Rid>)
    requires InTurn(v, list) && r in v.marks && v.marks[r].number != 0
    requires forall j | 0 <= j < |list| :: AgeOf(v, r) > AgeOf(v, list[j])
    ensures InTurn(v, [r] + list)
  {
    var all := [r] + list;
    forall i, j | 0 <= i < j < |all| ensures AgeOf(v, all[i]) > AgeOf(v, all[j]) {
      assert all[j] == list[j - 1];
      if i > 0 { assert all[i] == list[i - 1]; }
    }
  }

  /** An event that takes no number. */
  lemma OldNumbers(v: Mail, e: Event)
    requires Allowed(v, e) && Takes(e) == 0
    ensures var v' := Do(v, e);
            && v'.last == v.last && (forall r <- v.marks :: r in v'.marks)
            && (forall r <- v'.marks :: if r in v.marks then SameNumbers(v.marks[r], v'.marks[r])
                                         else v'.marks[r].number == 0 && v'.marks[r].intr == 0)
  {
    hide Allowed, Do;
    OldCounter(v, e);
    forall r <- v.marks ensures r in Do(v, e).marks && SameNumbers(v.marks[r], Do(v, e).marks[r]) {
      OldNumber(v, e, r);
    }
    forall r | r in Do(v, e).marks && r !in v.marks
      ensures Do(v, e).marks[r].number == 0 && Do(v, e).marks[r].intr == 0
    {
      NoNumber(v, e, r);
    }
  }

  lemma OldCounter(v: Mail, e: Event)
    requires Allowed(v, e) && Takes(e) == 0
    ensures Do(v, e).last == v.last
  {
    hide EndsWith, ErrorRange, FirstWait, NextWait, Remove;
  }

  lemma OldNumber(v: Mail, e: Event, r: Rid)
    requires Allowed(v, e) && Takes(e) == 0 && r in v.marks
    ensures r in Do(v, e).marks && SameNumbers(v.marks[r], Do(v, e).marks[r])
  {
    hide EndsWith, ErrorRange, FirstWait, NextWait, Remove, OffLists;
  }

  lemma NoNumber(v: Mail, e: Event, r: Rid)
    requires Allowed(v, e) && r in Do(v, e).marks && r !in v.marks
    ensures Do(v, e).marks[r].number == 0 && Do(v, e).marks[r].intr == 0
  {
    hide EndsWith, ErrorRange, FirstWait, NextWait, Remove, OffLists;
  }

  lemma OldTurns(v: Mail, e: Event)
    requires Allowed(v, e) && Takes(e) == 0
    ensures var p := Do(v, e).pending;
            p == v.pending || (v.pending != [] && p == v.pending[1..]) || (About(e) && p == Remove(v.pending, e.r))
  {
    hide EndsWith, ErrorRange, FirstWait, NextWait, Remove;
  }

  predicate SameNumbers(m: Mark, m': Mark) { m'.number == m.number && m'.intr == m.intr }

  lemma InTurnSame(v: Mail, v': Mail, list: seq<Rid>)
    requires InTurn(v, list) && v'.last == v.last
    requires forall r <- v.marks :: r in v'.marks && SameNumbers(v.marks[r], v'.marks[r])
    ensures InTurn(v', list)
  {
    assert forall r <- list :: AgeOf(v', r) == AgeOf(v, r);
  }

  lemma InTurnTail(v: Mail, list: seq<Rid>)
    requires InTurn(v, list) && list != []
    ensures InTurn(v, list[1..])
  {
    assert forall i | 0 <= i < |list| - 1 :: list[1..][i] == list[i + 1];
  }

  lemma SameKnown(last: int, n: int, m: Mark, m': Mark)
    requires Known(last, n, m) && SameNumbers(m, m')
    ensures Known(last, n, m')
  {
    hide Age;
  }

  lemma NoneKnown(last: int, n: int, m: Mark)
    requires m.number == 0 && m.intr == 0
    ensures Known(last, n, m)
  {
    hide Age;
  }

  lemma OldStaysDistinct(v: Mail, e: Event, n: int)
    requires Placed(v) && Distinct(v, n) && Allowed(v, e) && Takes(e) == 0
    ensures Distinct(Do(v, e), n)
  {
    hide Placed, Do, Allowed, InTurn, Takes, Age, Known;
    var v' := Do(v, e);
    OldNumbers(v, e);
    OldTurns(v, e);
    forall r <- v'.marks ensures Known(v'.last, n, v'.marks[r]) {
      if r in v.marks { SameKnown(v.last, n, v.marks[r], v'.marks[r]); } else { NoneKnown(v.last, n, v'.marks[r]); }
    }
    forall r, x | r in v'.marks && x in v'.marks && r != x ensures Apart(v'.marks[r], v'.marks[x]) {
      if r in v.marks && x in v.marks { assert Apart(v.marks[r], v.marks[x]); }
    }
    if About(e) { InTurnRemove(v, v.pending, e.r); }
    if v.pending != [] { InTurnTail(v, v.pending); }
    InTurnSame(v, v', v'.pending);
  }

  /** Request `r` takes a number. */
  ghost predicate TakesNumber(v: Mail, v': Mail, r: Rid) {
    && r in v.marks && r in v'.marks && v'.last == Next(v.last) && v'.marks == v.marks[r := v'.marks[r]]
    && var m, m' := v.marks[r], v'.marks[r];
      (m'.number == v'.last && m'.intr == m.intr) || (m'.intr == v'.last && m'.number == m.number)
  }

  lemma NewNumber(v: Mail, v': Mail, r: Rid, n: int)
    requires Placed(v) && Distinct(v, n) && n < LAST && TakesNumber(v, v', r)
    ensures (forall x <- v'.marks :: Known(v'.last, n + 1, v'.marks[x]))
    ensures forall x, y | x in v'.marks && y in v'.marks && x != y :: Apart(v'.marks[x], v'.marks[y])
    ensures forall x | x in v.marks && x != r && v.marks[x].number != 0 :: AgeOf(v', x) == AgeOf(v, x) + 1
  {
    hide Age, Next, Placed, MarkOk, InTurn, Known, Apart;
    PlacedFacts(v, r);
    NewestAge(v.last);
    forall x <- v.marks ensures Older(v, v.marks[x]) {
      OldAges(v, x, n);
    }
    forall x <- v'.marks ensures Known(v'.last, n + 1, v'.marks[x]) {
      NewKnown(v, v', r, n, x);
    }
    forall x, y | x in v'.marks && y in v'.marks && x != y ensures Apart(v'.marks[x], v'.marks[y]) {
      assert Apart(v.marks[x], v.marks[y]);
      NewApart(v, v', r, x, y);
    }
  }

  lemma NewKnown(v: Mail, v': Mail, r: Rid, n: int, x: Rid)
    requires TakesNumber(v, v', r) && x in v.marks && Known(v.last, n, v.marks[x]) && Older(v, v.marks[x]) && n >= 0
    requires Age(v'.last, v'.last) == 0 && 1 <= v'.last
    ensures Known(v'.last, n + 1, v'.marks[x])
  {
    hide Age, Next;
  }

  lemma NewApart(v: Mail, v': Mail, r: Rid, x: Rid, y: Rid)
    requires TakesNumber(v, v', r) && x in v.marks && y in v.marks && x != y && Apart(v.marks[x], v.marks[y])
    requires Older(v, v.marks[x]) && Older(v, v.marks[y]) && 1 <= v'.last
    ensures Apart(v'.marks[x], v'.marks[y])
  {
    hide Age, Next;
  }

  /** What a number taken now is to the numbers of `m`. */
  predicate Older(v: Mail, m: Mark) {
    && (m.number != 0 ==> m.number != Next(v.last) && Age(Next(v.last), m.number) == Age(v.last, m.number) + 1)
    && (m.intr != 0 ==> m.intr != Next(v.last) && Age(Next(v.last), m.intr) == Age(v.last, m.intr) + 1)
  }

  lemma OldAges(v: Mail, x: Rid, n: int)
    requires Placed(v) && Distinct(v, n) && n < LAST && x in v.marks
    ensures Older(v, v.marks[x])
  {
    PlacedFacts(v, x);
    assert Known(v.last, n, v.marks[x]);
    hide Placed, Age, Next;
    if v.marks[x].number != 0 { AgeGrows(v.last, v.marks[x].number); }
    if v.marks[x].intr != 0 { AgeGrows(v.last, v.marks[x].intr); }
  }

  lemma InTurnOlder(v: Mail, v': Mail, list: seq<Rid>)
    requires InTurn(v, list) && forall r <- list :: r in v'.marks && v'.marks[r].number != 0
    requires forall r <- list :: AgeOf(v', r) == AgeOf(v, r) + 1
    ensures InTurn(v', list)
  {
  }

  lemma InTurnLast(v: Mail, list: seq<Rid>, r: Rid)
    requires InTurn(v, list) && r in v.marks && v.marks[r].number != 0
    requires AgeOf(v, r) == 0 && forall x <- list :: AgeOf(v, x) > 0
    ensures InTurn(v, list + [r])
  {
    var all := list + [r];
    assert forall i | 0 <= i < |list| :: all[i] == list[i] && list[i] in list;
  }

  /** The new number of a request does not disturb the turns of the others. */
  lemma QueueInTurn(v: Mail, r: Rid, n: int)
    requires Placed(v) && Distinct(v, n) && n < LAST && Allowed(v, Queue(r))
    ensures InTurn(Do(v, Queue(r)), v.pending + [r])
  {
    var v' := Do(v, Queue(r));
    NewNumber(v, v', r, n);
    PlacedFacts(v, r);
    NewestAge(v.last);
    forall x <- v.pending ensures x != r && v.marks[x].number != 0 && AgeOf(v, x) >= 0 {
      PlacedFacts(v, x);
    }
    hide Placed, MarkOk, Next, Age;
    InTurnOlder(v, v', v.pending);
    InTurnLast(v', v.pending, r);
  }

  lemma InterruptInTurn(v: Mail, r: Rid, n: int)
    requires Placed(v) && Distinct(v, n) && n < LAST && Allowed(v, TakeInterrupt(r))
    ensures InTurn(Do(v, TakeInterrupt(r)), v.pending)
  {
    var v' := Do(v, TakeInterrupt(r));
    NewNumber(v, v', r, n);
    PlacedFacts(v, r);
    NoDupTail(v.interrupts);
    forall x <- v.pending ensures x != r && v.marks[x].number != 0 {
      PlacedFacts(v, x);
    }
    hide Placed, MarkOk, Next, Age;
    InTurnOlder(v, v', v.pending);
  }

  lemma EventDistinct(v: Mail, e: Event, n: int)
    requires Placed(v) && Distinct(v, n) && Allowed(v, e) && n + Takes(e) <= LAST
    ensures Distinct(Do(v, e), n + Takes(e))
  {
    hide Placed, Age, Next, InTurn;
    match e
    case Queue(r) => NewNumber(v, Do(v, e), r, n); QueueInTurn(v, r, n);
    case TakeInterrupt(r) => NewNumber(v, Do(v, e), r, n); InterruptInTurn(v, r, n);
    case _ => OldStaysDistinct(v, e, n);
  }

  /** Over a run: while no more numbers have been taken than there are, no two
      numbers of requests and interrupts agree, and who waits longer has the older. */
  lemma {:induction false} RunDistinct(v: Mail, es: seq<Event>, n: int)
    requires Placed(v) && Distinct(v, n) && Follows(v, es) && n + Taken(es) <= LAST
    ensures Distinct(DoAll(v, es), n + Taken(es))
    decreases |es|
  {
    hide Placed, Distinct, Allowed, Do, Takes;
    if es != [] {
      EventPlaced(v, es[0]);
      EventDistinct(v, es[0], n);
      RunDistinct(Do(v, es[0]), es[1..], n + Takes(es[0]));
    }
  }

  // ----- one number -----

  /** `u` was taken, and only request `r` may have it. */
  ghost predicate Belongs(v: Mail, u: int, r: Rid, n: int) {
    && 1 <= u <= LAST && Age(v.last, u) < n <= LAST
    && forall x | x in v.marks && x != r :: v.marks[x].number != u && v.marks[x].intr != u
  }

  lemma NumberBelongs(v: Mail, r: Rid, u: int, n: int)
    requires Placed(v) && Distinct(v, n) && r in v.marks && u != 0 && (v.marks[r].number == u || v.marks[r].intr == u)
    ensures Belongs(v, u, r, n)
  {
    PlacedFacts(v, r);
    hide Placed, MarkOk, InTurn, Age;
    assert forall x | x in v.marks && x != r :: Apart(v.marks[r], v.marks[x]);
  }

  lemma EventBelongs(v: Mail, e: Event, u: int, r: Rid, n: int)
    requires Placed(v) && Belongs(v, u, r, n) && Allowed(v, e) && n + Takes(e) <= LAST
    ensures Belongs(Do(v, e), u, r, n + Takes(e))
  {
    if Takes(e) == 0 {
      OldNumbers(v, e);
      hide Placed, Do, Allowed;
    } else {
      PlacedFacts(v, e.r);
      AgeGrows(v.last, u);
      hide Placed, MarkOk, Age, Next;
    }
  }

  lemma {:induction false} RunBelongs(v: Mail, es: seq<Event>, u: int, r: Rid, n: int)
    requires Placed(v) && Belongs(v, u, r, n) && Follows(v, es) && n + Taken(es) <= LAST
    ensures Belongs(DoAll(v, es), u, r, n + Taken(es))
    decreases |es|
  {
    hide Placed, Belongs, Allowed, Do, Takes;
    if es != [] {
      EventPlaced(v, es[0]);
      EventBelongs(v, es[0], u, r, n);
      RunBelongs(Do(v, es[0]), es[1..], u, r, n + Takes(es[0]));
    }
  }

  lemma EmptyPlaced(v: Mail)
    requires Empty(v)
    ensures Placed(v) && Distinct(v, 0)
  {
  }

  // ----- what never changes -----

  /** A number that was given stays. */
  lemma {:induction false} NumberStays(v: Mail, es: seq<Event>, r: Rid)
    requires Placed(v) && Follows(v, es) && r in v.marks
    ensures var v' := DoAll(v, es);
            r in v'.marks && (v.marks[r].number != 0 ==> v'.marks[r].number == v.marks[r].number)
    decreases |es|
  {
    hide Placed, Allowed, Do;
    if es != [] {
      EventPlaced(v, es[0]);
      EventNumber(v, es[0], r);
      NumberStays(Do(v, es[0]), es[1..], r);
    }
  }

  lemma EventNumber(v: Mail, e: Event, r: Rid)
    requires Placed(v) && Allowed(v, e) && r in v.marks
    ensures var v' := Do(v, e);
            r in v'.marks && (v.marks[r].number != 0 ==> v'.marks[r].number == v.marks[r].number)
  {
    hide Placed, EndsWith, OffLists, Remove, ErrorRange, ErrorOk;
    PlacedFacts(v, r);
  }

  /** No signal reaches the caller of this request any more. */
  predicate SignalsOver(m: Mark) { m.waits == Second || m.waits == Over }

  lemma EventQuiet(v: Mail, e: Event, r: Rid)
    requires Allowed(v, e) && r in v.marks && SignalsOver(v.marks[r])
    ensures var v' := Do(v, e);
            r in v'.marks && SignalsOver(v'.marks[r]) && v'.marks[r].interrupted == v.marks[r].interrupted
  {
    hide EndsWith, OffLists, Remove, ErrorRange;
  }

  lemma {:induction false} RunQuiet(v: Mail, es: seq<Event>, r: Rid)
    requires Follows(v, es) && r in v.marks && SignalsOver(v.marks[r])
    ensures var v' := DoAll(v, es);
            r in v'.marks && SignalsOver(v'.marks[r]) && v'.marks[r].interrupted == v.marks[r].interrupted
    decreases |es|
  {
    hide Allowed, Do, SignalsOver;
    if es != [] {
      EventQuiet(v, es[0], r);
      RunQuiet(Do(v, es[0]), es[1..], r);
    }
  }

  /** A request that is sent when the daemon does not want interrupts. */
  lemma DeafQueue(v: Mail, es: seq<Event>, r: Rid)
    requires Placed(v) && Follows(v, es) && es != [] && (v.deaf || !es[0].Queue?)
    requires (es[0].Queue? || es[0].Refuse?) && es[0].r == r
    ensures var v' := DoAll(v, es);
            r in v'.marks && SignalsOver(v'.marks[r]) && !v'.marks[r].interrupted
  {
    PlacedFacts(v, r);
    hide Placed, EndsWith;
    RunQuiet(Do(v, es[0]), es[1..], r);
  }

  lemma {:induction false} DeafStays(v: Mail, es: seq<Event>)
    requires Follows(v, es) && v.deaf
    ensures DoAll(v, es).deaf
    decreases |es|
  {
    hide Allowed, Do;
    if es != [] {
      assert Do(v, es[0]).deaf by { EventDeaf(v, es[0]); }
      DeafStays(Do(v, es[0]), es[1..]);
    }
  }

  lemma EventDeaf(v: Mail, e: Event)
    requires Allowed(v, e) && v.deaf
    ensures Do(v, e).deaf
  {
    hide EndsWith;
  }
}
