/** The POSIX byte-range locks that libfuse keeps for a node (lib/fuse.c). */
module ByteLocks {
  // The linked list is a sequence that the methods reassign; its meaning is a
  // map from (owner, byte) to the type of lock held there.
  import opened Sequences

  /** C's off_t. Every operation on it is checked to stay in range. */
  newtype Off = x: int | -0x8000_0000_0000_0000 <= x <= 0x7fff_ffff_ffff_ffff

  const OFFSET_MAX: Off := 0x7fff_ffff_ffff_ffff
  const ENOLCK: int := 37

  datatype LockType = RdLck | WrLck | UnLck
  datatype Lock = Lock(typ: LockType, start: Off, end: Off, pid: int, owner: nat)

  predicate ValidRange(l: Lock) {
    0 <= l.start <= l.end
  }

  predicate Covers(l: Lock, owner: nat, b: Off) {
    l.owner == owner && l.start <= b <= l.end
  }

  /** The lock type `owner` holds on byte `b`; UnLck when it holds none. */
  function TypeAt(locks: seq<Lock>, owner: nat, b: Off): LockType {
    if locks == [] then UnLck
    else if Covers(locks[0], owner, b) then locks[0].typ
    else TypeAt(locks[1..], owner, b)
  }

  /** The map after setting `lock`'s range to `lock.typ` on top of `locks`. */
  function Overlay(lock: Lock, locks: seq<Lock>, owner: nat, b: Off): LockType {
    if Covers(lock, owner, b) then lock.typ else TypeAt(locks, owner, b)
  }

  /** Entry `a` comes before entry `c` of the same owner: no shared byte, and
      no touching when the types agree (they would have been merged). */
  predicate Before(a: Lock, c: Lock) {
    a.owner == c.owner ==> a.end < c.start && (a.typ == c.typ ==> a.end < c.start - 1)
  }

  ghost predicate ValidEntries(locks: seq<Lock>) {
    forall l <- locks :: ValidRange(l) && l.typ != UnLck
  }

  /** Each owner's sublist is sorted, disjoint and maximally merged. */
  ghost predicate WellFormed(locks: seq<Lock>) {
    && ValidEntries(locks)
    && forall i, j :: 0 <= i < j < |locks| ==> Before(locks[i], locks[j])
  }

  /** The entries of everyone but `owner`, in list order. */
  function Others(locks: seq<Lock>, owner: nat): seq<Lock> {
    if locks == [] then []
    else (if locks[0].owner == owner then [] else [locks[0]]) + Others(locks[1..], owner)
  }

  // ----- the meaning of a list, piece by piece -----

  lemma {:induction false} TypeAtConcat(p: seq<Lock>, q: seq<Lock>, owner: nat, b: Off)
    requires ValidEntries(p)
    ensures TypeAt(p + q, owner, b) == if TypeAt(p, owner, b) != UnLck then TypeAt(p, owner, b) else TypeAt(q, owner, b)
  {
    if p == [] {
      assert p + q == q;
    } else {
      assert (p + q)[1..] == p[1..] + q;
      assert (p + q)[0] == p[0] && p[0] in p;
      assert forall l <- p[1..] :: l in p;
      TypeAtConcat(p[1..], q, owner, b);
    }
  }

  lemma TypeAtOne(l: Lock, owner: nat, b: Off)
    ensures TypeAt([l], owner, b) == if Covers(l, owner, b) then l.typ else UnLck
  {
    assert [l][1..] == [];
  }

  lemma {:induction false} OthersConcat(p: seq<Lock>, q: seq<Lock>, owner: nat)
    ensures Others(p + q, owner) == Others(p, owner) + Others(q, owner)
  {
    if p == [] {
      assert p + q == q;
    } else {
      assert (p + q)[1..] == p[1..] + q;
      OthersConcat(p[1..], q, owner);
    }
  }

  lemma {:induction false} TypeAtNowhere(p: seq<Lock>, owner: nat, b: Off)
    requires forall l <- p :: !Covers(l, owner, b)
    ensures TypeAt(p, owner, b) == UnLck
  {
    if p != [] {
      assert p[0] in p;
      assert forall l <- p[1..] :: l in p;
      TypeAtNowhere(p[1..], owner, b);
    }
  }

  lemma {:induction false} TypeAtHere(p: seq<Lock>, owner: nat, b: Off)
    ensures TypeAt(p, owner, b) != UnLck ==>
              exists k :: 0 <= k < |p| && Covers(p[k], owner, b) && p[k].typ == TypeAt(p, owner, b)
  {
    if p != [] {
      if Covers(p[0], owner, b) {
      } else {
        TypeAtHere(p[1..], owner, b);
        if TypeAt(p, owner, b) != UnLck {
          var k :| 0 <= k < |p[1..]| && Covers(p[1..][k], owner, b) && p[1..][k].typ == TypeAt(p, owner, b);
          assert p[k + 1] == p[1..][k];
        }
      }
    }
  }

  /** Each byte of an owner is covered by at most one entry, so the entry that
      covers it decides the map. */
  lemma {:induction false} CoverDecides(p: seq<Lock>, k: nat, owner: nat, b: Off)
    requires WellFormed(p) && k < |p| && Covers(p[k], owner, b)
    ensures TypeAt(p, owner, b) == p[k].typ
  {
    if k == 0 {
    } else {
      assert Before(p[0], p[k]);
      assert p[1..][k - 1] == p[k];
      assert WellFormed(p[1..]) by {
        assert forall l <- p[1..] :: l in p;
        forall i, j | 0 <= i < j < |p[1..]| ensures Before(p[1..][i], p[1..][j]) {
          assert Before(p[i + 1], p[j + 1]);
        }
      }
      CoverDecides(p[1..], k - 1, owner, b);
    }
  }

  /** Replacing one entry by `mid` keeps the overlaid map when the bytes on
      which the two differ are under `lock`. */
  lemma ReplaceKeepsOverlay(p: seq<Lock>, l: Lock, mid: seq<Lock>, q: seq<Lock>, lock: Lock)
    requires ValidEntries(p + [l] + q) && ValidEntries(mid)
    requires forall o: nat, b: Off :: Covers(lock, o, b) || TypeAt(mid, o, b) == TypeAt([l], o, b)
    ensures forall o: nat, b: Off :: Overlay(lock, p + mid + q, o, b) == Overlay(lock, p + [l] + q, o, b)
  {
    assert ValidEntries(p) && ValidEntries([l]) && ValidEntries(q) by {
      assert forall x <- p :: x in p + [l] + q;
      assert forall x <- q :: x in p + [l] + q;
      assert l in p + [l] + q;
    }
    forall o: nat, b: Off ensures Overlay(lock, p + mid + q, o, b) == Overlay(lock, p + [l] + q, o, b) {
      assert p + mid + q == p + (mid + q) && p + [l] + q == p + ([l] + q);
      TypeAtConcat(p, mid + q, o, b);
      TypeAtConcat(mid, q, o, b);
      TypeAtConcat(p, [l] + q, o, b);
      TypeAtConcat([l], q, o, b);
    }
  }

  /** Growing `lock` over a touching or overlapping entry of its own type and
      dropping that entry keeps the overlaid map. */
  lemma MergeKeepsOverlay(p: seq<Lock>, l: Lock, q: seq<Lock>, lock: Lock, grown: Lock)
    requires WellFormed(p + [l] + q) && ValidRange(lock)
    requires l.owner == lock.owner && l.typ == lock.typ
    requires lock.start - 1 <= l.end && l.start - 1 <= lock.end
    requires grown == lock.(start := if l.start < lock.start then l.start else lock.start,
                            end := if lock.end < l.end then l.end else lock.end)
    ensures forall o: nat, b: Off :: Overlay(grown, p + q, o, b) == Overlay(lock, p + [l] + q, o, b)
  {
    var whole := p + [l] + q;
    assert whole[|p|] == l && l in whole;
    assert ValidEntries(p) by { assert forall x <- p :: x in whole; }
    forall o: nat, b: Off ensures Overlay(grown, p + q, o, b) == Overlay(lock, whole, o, b) {
      if Covers(l, o, b) {
        CoverDecides(whole, |p|, o, b);
      } else {
        assert p + [l] + q == p + ([l] + q);
        TypeAtConcat(p, [l] + q, o, b);
        TypeAtConcat([l], q, o, b);
        TypeAtConcat(p, q, o, b);
      }
    }
  }

  lemma OthersReplace(p: seq<Lock>, m: seq<Lock>, mid: seq<Lock>, q: seq<Lock>, owner: nat)
    requires forall x <- m + mid :: x.owner == owner
    ensures Others(p + mid + q, owner) == Others(p + m + q, owner)
  {
    assert forall x <- m :: x in m + mid;
    assert forall x <- mid :: x in m + mid;
    OthersConcat(p + m, q, owner);
    OthersConcat(p, m, owner);
    OthersConcat(p + mid, q, owner);
    OthersConcat(p, mid, owner);
    OwnedHasNoOthers(m, owner);
    OwnedHasNoOthers(mid, owner);
  }

  lemma {:induction false} OwnedHasNoOthers(m: seq<Lock>, owner: nat)
    requires forall x <- m :: x.owner == owner
    ensures Others(m, owner) == []
  {
    if m != [] {
      assert m[0] in m;
      assert forall x <- m[1..] :: x in m;
      OwnedHasNoOthers(m[1..], owner);
    }
  }

  /** The three ways a different-typed entry is cut back: dropped, trimmed, split. */
  lemma Replace(p: seq<Lock>, l: Lock, mid: seq<Lock>, q: seq<Lock>, lock: Lock)
    requires ValidEntries(p + [l] + q) && ValidEntries(mid)
    requires l.owner == lock.owner && forall x <- mid :: x.owner == lock.owner
    requires forall o: nat, b: Off :: Covers(lock, o, b) || TypeAt(mid, o, b) == TypeAt([l], o, b)
    ensures forall o: nat, b: Off :: Overlay(lock, p + mid + q, o, b) == Overlay(lock, p + [l] + q, o, b)
    ensures Others(p + mid + q, lock.owner) == Others(p + [l] + q, lock.owner)
  {
    ReplaceKeepsOverlay(p, l, mid, q, lock);
    OthersReplace(p, [l], mid, q, lock.owner);
  }

  lemma CoveredKeepsOverlay(p: seq<Lock>, k: nat, lock: Lock)
    requires WellFormed(p) && k < |p|
    requires p[k].owner == lock.owner && p[k].typ == lock.typ
    requires p[k].start <= lock.start && lock.end <= p[k].end
    ensures forall o: nat, b: Off :: TypeAt(p, o, b) == Overlay(lock, p, o, b)
  {
    forall o: nat, b: Off ensures TypeAt(p, o, b) == Overlay(lock, p, o, b) {
      if Covers(lock, o, b) {
        CoverDecides(p, k, o, b);
      }
    }
  }

  lemma InsertGivesOverlay(p: seq<Lock>, q: seq<Lock>, lock: Lock)
    requires ValidEntries(p) && ValidRange(lock) && lock.typ != UnLck
    requires forall l <- p :: Before(l, lock)
    ensures forall o: nat, b: Off :: TypeAt(p + [lock] + q, o, b) == Overlay(lock, p + q, o, b)
  {
    forall o: nat, b: Off ensures TypeAt(p + [lock] + q, o, b) == Overlay(lock, p + q, o, b) {
      assert p + [lock] + q == p + ([lock] + q);
      TypeAtConcat(p, [lock] + q, o, b);
      TypeAtConcat([lock], q, o, b);
      TypeAtConcat(p, q, o, b);
      if Covers(lock, o, b) {
        TypeAtNowhere(p, o, b);
      }
    }
  }

  lemma UnlockGivesOverlay(p: seq<Lock>, q: seq<Lock>, lock: Lock)
    requires ValidRange(lock) && lock.typ == UnLck
    requires forall l <- p :: Before(l, lock)
    requires forall l <- q :: l.owner == lock.owner ==> lock.end < l.start
    ensures forall o: nat, b: Off :: TypeAt(p + q, o, b) == Overlay(lock, p + q, o, b)
  {
    forall o: nat, b: Off ensures TypeAt(p + q, o, b) == Overlay(lock, p + q, o, b) {
      if Covers(lock, o, b) {
        TypeAtNowhere(p + q, o, b);
      }
    }
  }

  // ----- one turn of the insertion loop -----

  /** What the walk has established when it stands at entry `lp` with `lock`
      grown from `request`; `spare2` tells whether the second spare is left. */
  ghost predicate Progress(locks: seq<Lock>, lp: nat, lock: Lock, spare2: bool, request: Lock, before: seq<Lock>) {
    && lp <= |locks| && WellFormed(locks)
    && ValidRange(lock) && lock.owner == request.owner && lock.typ == request.typ
    && lock.start <= request.start && request.end <= lock.end
    && (spare2 ==> NeedsSpares(request))
    && (spare2 || (NeedsSpares(request) ==> forall l <- locks[lp..] :: l.owner == lock.owner ==> lock.end < l.start))
    && (forall l <- locks[..lp] :: Before(l, lock))
    && (forall o: nat, b: Off :: Overlay(lock, locks, o, b) == Overlay(request, before, o, b))
    && Others(locks, request.owner) == Others(before, request.owner)
  }

  /** The walk is over: what is left of the owner lies clear of `lock`. */
  ghost predicate Placed(locks: seq<Lock>, lp: nat, lock: Lock, request: Lock, before: seq<Lock>) {
    && Progress(locks, lp, lock, false, request, before)
    && (forall l <- locks[lp..] :: Before(lock, l) && (l.owner == lock.owner ==> lock.end < l.start))
  }

  function Minus(locks: seq<Lock>, k: nat): seq<Lock>
    requires k < |locks|
  {
    locks[..k] + locks[k + 1..]
  }

  function Grown(lock: Lock, l: Lock): Lock {
    lock.(start := if l.start < lock.start then l.start else lock.start,
          end := if lock.end < l.end then l.end else lock.end)
  }

  lemma SkipKeeps(locks: seq<Lock>, lp: nat, lock: Lock, spare2: bool, request: Lock, before: seq<Lock>)
    requires Progress(locks, lp, lock, spare2, request, before) && lp < |locks| && Before(locks[lp], lock)
    ensures Progress(locks, lp + 1, lock, spare2, request, before)
  {
    assert locks[..lp + 1] == locks[..lp] + [locks[lp]];
    assert forall l <- locks[lp + 1..] :: l in locks[lp..];
  }

  lemma MergeKeeps(locks: seq<Lock>, lp: nat, lock: Lock, spare2: bool, request: Lock, before: seq<Lock>)
    requires Progress(locks, lp, lock, spare2, request, before) && lp < |locks|
    requires locks[lp].owner == lock.owner && locks[lp].typ == lock.typ
    requires lock.start - 1 <= locks[lp].end && locks[lp].start - 1 <= lock.end
    ensures Progress(Minus(locks, lp), lp, Grown(lock, locks[lp]), spare2, request, before)
  {
    hide TypeAt, Others;
    var p, l, q := locks[..lp], locks[lp], locks[lp + 1..];
    assert locks == p + [l] + q && p + [] + q == p + q && l in locks;
    MergeKeepsOverlay(p, l, q, lock, Grown(lock, l));
    OthersReplace(p, [l], [], q, lock.owner);
    MergeClears(p, l, q, lock);
    assert locks[lp..] == [l] + q;
    assert (p + q)[lp..] == q && (p + q)[..lp] == p;
  }

  lemma MergeClears(p: seq<Lock>, l: Lock, q: seq<Lock>, lock: Lock)
    requires WellFormed(p + [l] + q) && l.owner == lock.owner && l.typ == lock.typ
    requires forall x <- p :: Before(x, lock)
    ensures WellFormed(p + q)
    ensures forall x <- p :: Before(x, Grown(lock, l))
    ensures forall x <- q :: x.owner == lock.owner && lock.end < x.start ==> Grown(lock, l).end < x.start
  {
    WellFormedConcat(p + [l], q);
    WellFormedConcat(p, [l]);
    WellFormedConcat(p, q);
    assert l in p + [l] && l in [l];
    assert forall x <- p :: x in p + [l];
    forall x <- p ensures Before(x, Grown(lock, l)) { assert Before(x, l); }
    forall x <- q ensures x.owner == lock.owner && lock.end < x.start ==> Grown(lock, l).end < x.start {
      assert Before(l, x);
    }
  }

  ghost predicate AllBefore(p: seq<Lock>, q: seq<Lock>) {
    forall x <- p, y <- q :: Before(x, y)
  }

  lemma WellFormedConcat(p: seq<Lock>, q: seq<Lock>)
    ensures WellFormed(p + q) <==> WellFormed(p) && WellFormed(q) && AllBefore(p, q)
  {
    hide WellFormed, AllBefore;
    if WellFormed(p + q) { WellFormedParts(p, q); }
    if WellFormed(p) && WellFormed(q) && AllBefore(p, q) { WellFormedJoin(p, q); }
  }

  lemma WellFormedParts(p: seq<Lock>, q: seq<Lock>)
    requires WellFormed(p + q)
    ensures WellFormed(p) && WellFormed(q) && AllBefore(p, q)
  {
    hide Before, ValidRange;
    var w := p + q;
    assert forall x <- p :: x in w;
    assert forall x <- q :: x in w;
    assert forall i | 0 <= i < |p| :: w[i] == p[i];
    assert forall j | 0 <= j < |q| :: w[|p| + j] == q[j];
    forall i, j | 0 <= i < j < |q| ensures Before(q[i], q[j]) { assert Before(w[|p| + i], w[|p| + j]); }
    forall x, y | x in p && y in q ensures Before(x, y) {
      var i :| 0 <= i < |p| && p[i] == x;
      var j :| 0 <= j < |q| && q[j] == y;
      assert Before(w[i], w[|p| + j]);
    }
  }

  lemma WellFormedJoin(p: seq<Lock>, q: seq<Lock>)
    requires WellFormed(p) && WellFormed(q) && AllBefore(p, q)
    ensures WellFormed(p + q)
  {
    hide Before, ValidRange;
    var w := p + q;
    forall i, j | 0 <= i < j < |w| ensures Before(w[i], w[j]) {
      if j < |p| {
        assert Before(p[i], p[j]);
      } else if i < |p| {
        assert p[i] in p && q[j - |p|] in q;
      } else {
        assert Before(q[i - |p|], q[j - |p|]);
      }
    }
  }

  /** Swapping the middle of a well-formed list for shorter pieces of itself. */
  lemma MiddleWellFormed(p: seq<Lock>, l: Lock, mid: seq<Lock>, q: seq<Lock>)
    requires WellFormed(p + [l] + q) && WellFormed(mid)
    requires forall x <- mid :: x.owner == l.owner && x.typ == l.typ && l.start <= x.start && x.end <= l.end
    ensures WellFormed(p + mid + q)
  {
    WellFormedConcat(p + [l], q);
    WellFormedConcat(p, [l]);
    WellFormedConcat(p, mid);
    WellFormedConcat(p + mid, q);
    assert l in p + [l] && l in [l];
    assert forall x <- p :: x in p + [l];
    forall x <- mid, y <- q ensures Before(x, y) { assert Before(l, y); }
    forall x <- p, y <- mid ensures Before(x, y) { assert Before(x, l); }
  }

  /** Putting `mid`, a cut-back version of entry `lp`, in its place. */
  lemma CutKeeps(locks: seq<Lock>, lp: nat, mid: seq<Lock>, lock: Lock, spare2: bool, request: Lock, before: seq<Lock>)
    requires Progress(locks, lp, lock, spare2, request, before) && lp < |locks|
    requires locks[lp].owner == lock.owner
    requires WellFormed(mid)
    requires forall x <- mid ::
             x.owner == lock.owner && x.typ == locks[lp].typ && locks[lp].start <= x.start && x.end <= locks[lp].end
    requires forall b: Off ::
             Covers(lock, lock.owner, b) || TypeAt(mid, lock.owner, b) == TypeAt([locks[lp]], lock.owner, b)
    ensures WellFormed(locks[..lp] + mid + locks[lp + 1..])
    ensures forall o: nat, b: Off ::
            Overlay(lock, locks[..lp] + mid + locks[lp + 1..], o, b) == Overlay(request, before, o, b)
    ensures Others(locks[..lp] + mid + locks[lp + 1..], request.owner) == Others(before, request.owner)
  {
    var p, l, q := locks[..lp], locks[lp], locks[lp + 1..];
    assert locks == p + [l] + q && l in locks;
    MiddleWellFormed(p, l, mid, q);
    forall o: nat, b: Off ensures Covers(lock, o, b) || TypeAt(mid, o, b) == TypeAt([l], o, b) {
      if o != lock.owner {
        TypeAtNowhere(mid, o, b);
      }
    }
    Replace(p, l, mid, q, lock);
    assert p + mid + q == locks[..lp] + mid + locks[lp + 1..];
  }

  lemma DropKeeps(locks: seq<Lock>, lp: nat, lock: Lock, spare2: bool, request: Lock, before: seq<Lock>)
    requires Progress(locks, lp, lock, spare2, request, before) && lp < |locks|
    requires locks[lp].owner == lock.owner && lock.start <= locks[lp].start && locks[lp].end <= lock.end
    ensures Progress(Minus(locks, lp), lp, lock, spare2, request, before)
  {
    CutKeeps(locks, lp, [], lock, spare2, request, before);
    assert locks[..lp] + [] + locks[lp + 1..] == Minus(locks, lp);
    assert forall x <- locks[lp + 1..] :: x in locks[lp..];
    assert Minus(locks, lp)[lp..] == locks[lp + 1..] && Minus(locks, lp)[..lp] == locks[..lp];
  }

  lemma TrimKeeps(locks: seq<Lock>, lp: nat, lock: Lock, spare2: bool, request: Lock, before: seq<Lock>)
    requires Progress(locks, lp, lock, spare2, request, before) && lp < |locks|
    requires locks[lp].owner == lock.owner && locks[lp].typ != lock.typ
    requires locks[lp].start < lock.start <= locks[lp].end <= lock.end
    ensures Progress(locks[lp := locks[lp].(end := lock.start - 1)], lp + 1, lock, spare2, request, before)
  {
    hide TypeAt, Others;
    var cut := locks[lp].(end := lock.start - 1);
    TrimCovers(lock, locks[lp]);
    CutKeeps(locks, lp, [cut], lock, spare2, request, before);
    assert locks[..lp] + [cut] + locks[lp + 1..] == locks[lp := cut];
    assert forall x <- locks[lp + 1..] :: x in locks[lp..];
    assert locks[lp := cut][lp + 1..] == locks[lp + 1..] && locks[lp := cut][..lp + 1] == locks[..lp] + [cut];
  }

  lemma TrimCovers(lock: Lock, l: Lock)
    requires l.owner == lock.owner && ValidRange(lock)
    ensures l.start < lock.start <= l.end <= lock.end ==>
              forall b: Off :: Covers(lock, lock.owner, b)
                || TypeAt([l.(end := lock.start - 1)], lock.owner, b) == TypeAt([l], lock.owner, b)
    ensures lock.start <= l.start <= lock.end < l.end ==>
              forall b: Off :: Covers(lock, lock.owner, b)
                || TypeAt([l.(start := lock.end + 1)], lock.owner, b) == TypeAt([l], lock.owner, b)
  {
    forall b: Off
      ensures l.start < lock.start <= l.end <= lock.end ==>
                Covers(lock, lock.owner, b)
                  || TypeAt([l.(end := lock.start - 1)], lock.owner, b) == TypeAt([l], lock.owner, b)
      ensures lock.start <= l.start <= lock.end < l.end ==>
                Covers(lock, lock.owner, b)
                  || TypeAt([l.(start := lock.end + 1)], lock.owner, b) == TypeAt([l], lock.owner, b)
    {
      TypeAtOne(l, lock.owner, b);
      if l.start < lock.start <= l.end <= lock.end { TypeAtOne(l.(end := lock.start - 1), lock.owner, b); }
      if lock.start <= l.start <= lock.end < l.end { TypeAtOne(l.(start := lock.end + 1), lock.owner, b); }
    }
  }

  lemma BeyondIsClear(locks: seq<Lock>, lp: nat, lock: Lock, spare2: bool, request: Lock, before: seq<Lock>)
    requires Progress(locks, lp, lock, spare2, request, before)
    requires lp < |locks| ==> locks[lp].owner == lock.owner && Before(lock, locks[lp]) && lock.end < locks[lp].start
    ensures Placed(locks, lp, lock, request, before)
  {
    forall x <- locks[lp..] ensures Before(lock, x) && (x.owner == lock.owner ==> lock.end < x.start) {
      var k :| 0 <= k < |locks[lp..]| && locks[lp..][k] == x;
      assert locks[lp + k] == x;
      assert ValidRange(locks[lp]) by { assert locks[lp] in locks; }
      if k > 0 {
        assert Before(locks[lp], locks[lp + k]);
      }
    }
  }

  lemma CutHeadPlaces(locks: seq<Lock>, lp: nat, lock: Lock, spare2: bool, request: Lock, before: seq<Lock>)
    requires Progress(locks, lp, lock, spare2, request, before) && lp < |locks|
    requires locks[lp].owner == lock.owner && locks[lp].typ != lock.typ
    requires lock.start <= locks[lp].start <= lock.end < locks[lp].end
    ensures Placed(locks[lp := locks[lp].(start := lock.end + 1)], lp, lock, request, before)
  {
    hide TypeAt, Others;
    var cut := locks[lp].(start := lock.end + 1);
    TrimCovers(lock, locks[lp]);
    CutKeeps(locks, lp, [cut], lock, spare2, request, before);
    assert locks[..lp] + [cut] + locks[lp + 1..] == locks[lp := cut];
    assert locks[lp := cut][..lp] == locks[..lp];
    forall x | x in locks[lp := cut][lp..] && x.owner == lock.owner ensures lock.end < x.start {
      var k :| 0 <= k < |locks[lp := cut][lp..]| && locks[lp := cut][lp..][k] == x;
      if k > 0 {
        assert Before(locks[lp := cut][lp], locks[lp := cut][lp + k]);
      }
    }
    BeyondIsClear(locks[lp := cut], lp, lock, false, request, before);
  }

  lemma SplitKeeps(locks: seq<Lock>, lp: nat, lock: Lock, spare2: bool, request: Lock, before: seq<Lock>)
    requires Progress(locks, lp, lock, spare2, request, before) && lp < |locks|
    requires locks[lp].owner == lock.owner && locks[lp].typ != lock.typ
    requires locks[lp].start < lock.start && lock.end < locks[lp].end
    ensures spare2
    ensures var l := locks[lp];
            Progress(locks[..lp] + [l.(end := lock.start - 1), l.(start := lock.end + 1)] + locks[lp + 1..],
                     lp + 1, lock, false, request, before)
  {
    assert locks[lp] in locks[lp..] && locks[lp] in locks;
    var low, high := locks[lp].(end := lock.start - 1), locks[lp].(start := lock.end + 1);
    forall b: Off
      ensures Covers(lock, lock.owner, b)
              || TypeAt([low, high], lock.owner, b) == TypeAt([locks[lp]], lock.owner, b) {
      assert [low, high] == [low] + [high] && ValidEntries([low]);
      TypeAtConcat([low], [high], lock.owner, b);
      TypeAtOne(low, lock.owner, b);
      TypeAtOne(high, lock.owner, b);
      TypeAtOne(locks[lp], lock.owner, b);
    }
    CutKeeps(locks, lp, [low, high], lock, spare2, request, before);
    var cut := locks[..lp] + [low, high] + locks[lp + 1..];
    assert cut[..lp + 1] == locks[..lp] + [low];
    forall x | x in cut[lp + 1..] && x.owner == lock.owner ensures lock.end < x.start {
      var k :| 0 <= k < |cut[lp + 1..]| && cut[lp + 1..][k] == x;
      if k > 0 {
        assert Before(cut[lp + 1], cut[lp + 1 + k]);
      }
    }
  }

  lemma InsertFinishes(locks: seq<Lock>, lp: nat, lock: Lock, request: Lock, before: seq<Lock>)
    requires Placed(locks, lp, lock, request, before)
    ensures var final := if lock.typ != UnLck then locks[..lp] + [lock] + locks[lp..] else locks;
            && WellFormed(final)
            && Others(final, request.owner) == Others(before, request.owner)
            && (forall o: nat, b: Off :: TypeAt(final, o, b) == Overlay(request, before, o, b))
  {
    hide TypeAt, Others, Overlay, Before, Covers;
    var p, q := locks[..lp], locks[lp..];
    assert p + q == locks == p + [] + q;
    assert forall x <- p :: x in locks;
    if lock.typ == UnLck {
      UnlockGivesOverlay(p, q, lock);
    } else {
      InsertGivesOverlay(p, q, lock);
      OthersReplace(p, [], [lock], q, lock.owner);
      WellFormedConcat(p, q);
      WellFormedConcat(p, [lock]);
      WellFormedConcat(p + [lock], q);
    }
  }

  // ----- the node's list -----

  class LockedNode {
    var locks: seq<Lock>

    constructor ()
      ensures locks == []
    {
      locks := [];
    }

    /** The first entry of another owner that overlaps `lock` and has a writer
        on one side (locks_conflict); None when the walk runs off the list. */
    method LocksConflict(lock: Lock) returns (found: bool, at: nat)
      ensures found ==> at < |locks| && Conflicts(locks[at], lock)
      ensures !found ==> forall l <- locks :: !Conflicts(l, lock)
      ensures found ==> forall k :: 0 <= k < at ==> !Conflicts(locks[k], lock)
    {
      at := 0;
      while at < |locks|
        invariant at <= |locks|
        invariant forall k :: 0 <= k < at ==> !Conflicts(locks[k], lock)
      {
        if Conflicts(locks[at], lock) {
          return true, at;
        }
        at := at + 1;
      }
      found := false;
    }

    /** locks_insert: sets `request`'s range to `request.typ` for its owner. The
        two spare entries are allocated up front; `mallocOk` says whether that
        allocation succeeds. */
    method LocksInsert(request: Lock, mallocOk: bool) returns (err: int)
      requires WellFormed(locks) && ValidRange(request)
      modifies this
      ensures WellFormed(locks)
      ensures err == if NeedsSpares(request) && !mallocOk then -ENOLCK else 0
      ensures err != 0 ==> locks == old(locks)
      ensures err == 0 ==> forall o: nat, b: Off :: TypeAt(locks, o, b) == Overlay(request, old(locks), o, b)
      ensures Others(locks, request.owner) == Others(old(locks), request.owner)
    {
      hide TypeAt, Others, Overlay, Covers;
      var lock := request;
      var newl1, newl2 := false, false;  // whether the spare entry is still ours
      if NeedsSpares(lock) {
        if !mallocOk {
          return -ENOLCK;
        }
        newl1, newl2 := true, true;
      }
      err := 0;

      var lp: nat := 0;
      while lp < |locks|
        invariant Progress(locks, lp, lock, newl2, request, old(locks))
        decreases |locks| - lp, newl2
      {
        var l := locks[lp];
        ghost var was := locks;
        if l.owner != lock.owner {
          SkipKeeps(locks, lp, lock, newl2, request, old(locks));
          lp := lp + 1;
          continue;
        }
        if lock.typ == l.typ {
          if l.end < lock.start - 1 {
            SkipKeeps(locks, lp, lock, newl2, request, old(locks));
            lp := lp + 1;
            continue;
          }
          if lock.end < l.start - 1 {
            break;
          }
          if l.start <= lock.start && lock.end <= l.end {
            CoveredKeepsOverlay(locks, lp, lock);
            return;
          }
          MergeKeeps(locks, lp, lock, newl2, request, old(locks));
          if l.start < lock.start {
            lock := lock.(start := l.start);
          }
          if lock.end < l.end {
            lock := lock.(end := l.end);
          }
        } else {
          if l.end < lock.start {
            SkipKeeps(locks, lp, lock, newl2, request, old(locks));
            lp := lp + 1;
            continue;
          }
          if lock.end < l.start {
            break;
          }
          if lock.start <= l.start && l.end <= lock.end {
            DropKeeps(locks, lp, lock, newl2, request, old(locks));
          } else if l.end <= lock.end {
            TrimKeeps(locks, lp, lock, newl2, request, old(locks));
            locks := locks[lp := l.(end := lock.start - 1)];
            lp := lp + 1;
            continue;
          } else if lock.start <= l.start {
            CutHeadPlaces(locks, lp, lock, newl2, request, old(locks));
            locks := locks[lp := l.(start := lock.end + 1)];
            break;
          } else {
            SplitKeeps(locks, lp, lock, newl2, request, old(locks));
            assert newl2;
            locks := locks[..lp] + [l.(end := lock.start - 1), l.(start := lock.end + 1)] + locks[lp + 1..];
            newl2 := false;
            lp := lp + 1;
            continue;
          }
        }
        locks := locks[..lp] + locks[lp + 1..];
      }
      BeyondIsClear(locks, lp, lock, newl2, request, old(locks));
      InsertFinishes(locks, lp, lock, request, old(locks));
      if lock.typ != UnLck {
        assert newl1;
        locks := locks[..lp] + [lock] + locks[lp..];
        newl1 := false;
      }
    }

    /** fuse_lib_getlk, up to asking the file system when there is no conflict. */
    method GetLk(f: Flock, owner: nat) returns (conflict: Option<Flock>)
      requires WellFormed(locks) && ValidFlock(f)
      ensures conflict.Some? <==> exists o: nat, b: Off :: InTheWay(locks, f, owner, o, b)
      ensures conflict.Some? ==> exists l <- locks, b: Off ::
              InTheWay(locks, f, owner, l.owner, b) && Denotes(conflict.value, b) && Tells(locks, l, conflict.value)
    {
      hide InTheWay, Denotes, Tells, ByteConflict, WellFormed, Conflicts, LockToFlock, FlockToLock;
      var lock := FlockToLock(f, owner);
      ConflictMeansByteConflict(locks, lock);
      ConflictMeansInTheWay(locks, f, owner);
      var found, at := LocksConflict(lock);
      if !found { return None; }
      ConflictTold(locks, f, owner, at);
      return Some(LockToFlock(locks[at]));
    }

    /** fuse_lib_setlk: `granted` is what the file system answers. It does not look
        at what locks_insert returns. */
    method SetLk(f: Flock, owner: nat, granted: int, mallocOk: bool) returns (err: int)
      requires WellFormed(locks) && ValidFlock(f)
      modifies this
      ensures WellFormed(locks) && err == granted
      ensures if err != 0 || (!mallocOk && (f.typ != UnLck || f.start != 0 || !ToTheEnd(f))) then locks == old(locks)
              else
                && (forall b: Off | Denotes(f, b) :: TypeAt(locks, owner, b) == f.typ)
                && (forall o: nat, b: Off | o != owner || !Denotes(f, b) ::
                   TypeAt(locks, o, b) == TypeAt(old(locks), o, b))
                && (Exclusive(old(locks)) ==>
                      (Exclusive(locks) <==> f.typ == UnLck || forall o: nat, b: Off ::
                        !InTheWay(old(locks), f, owner, o, b)))
    {
      hide InTheWay, Denotes, ByteConflict, WellFormed, Conflicts, Exclusive, TypeAt, Overlay, NeedsSpares, Others,
           ToTheEnd, FlockToLock;
      err := granted;
      if err == 0 {
        var lock := FlockToLock(f, owner);
        ghost var before := locks;
        ConflictMeansByteConflict(before, lock);
        ConflictMeansInTheWay(before, f, owner);
        SparesNeeded(f, owner);
        SameType(f, owner);
        var inserted := LocksInsert(lock, mallocOk);
        if inserted == 0 {
          Granted(before, locks, f, owner);
          if Exclusive(before) { InsertKeepsExclusion(before, locks, lock); }
        }
      }
    }
  }

  // ----- in the terms of the request -----

  /** The bytes that a flock is about; a length of 0 reaches to the end. */
  predicate Denotes(f: Flock, b: Off) {
    f.start <= b && (f.len == 0 || b as int < f.start as int + f.len as int)
  }

  predicate ToTheEnd(f: Flock) { Denotes(f, OFFSET_MAX) }

  /** Byte `b` is asked for, and held by another owner, by one of them for writing. */
  ghost predicate InTheWay(locks: seq<Lock>, f: Flock, owner: nat, o: nat, b: Off) {
    && o != owner && Denotes(f, b) && TypeAt(locks, o, b) != UnLck
    && (TypeAt(locks, o, b) == WrLck || f.typ == WrLck)
  }

  /** `f` tells of the lock `l`: its type on all its bytes, and who holds it. */
  ghost predicate Tells(locks: seq<Lock>, l: Lock, f: Flock) {
    && f.pid == l.pid && f.typ != UnLck && forall b: Off | Denotes(f, b) :: TypeAt(locks, l.owner, b) == f.typ
  }

  lemma SameBytes(f: Flock, owner: nat)
    requires ValidFlock(f)
    ensures var l := FlockToLock(f, owner);
            && ValidRange(l) && l.owner == owner && l.typ == f.typ && l.pid == f.pid
            && forall b: Off :: (l.start <= b <= l.end <==> Denotes(f, b)) && (Covers(l, owner, b) <==> Denotes(f, b))
  {
  }

  lemma SameType(f: Flock, owner: nat)
    requires ValidFlock(f)
    ensures FlockToLock(f, owner).typ == f.typ
  {
  }

  lemma ConflictMeansInTheWay(locks: seq<Lock>, f: Flock, owner: nat)
    requires ValidFlock(f)
    ensures forall o: nat, b: Off ::
            ByteConflict(locks, FlockToLock(f, owner), o, b) <==> InTheWay(locks, f, owner, o, b)
  {
    SameBytes(f, owner);
    hide FlockToLock, TypeAt, Denotes;
  }

  lemma ConflictTold(locks: seq<Lock>, f: Flock, owner: nat, k: nat)
    requires WellFormed(locks) && ValidFlock(f) && k < |locks| && Conflicts(locks[k], FlockToLock(f, owner))
    ensures locks[k] in locks && ValidRange(locks[k])
    ensures Tells(locks, locks[k], LockToFlock(locks[k]))
    ensures exists b: Off :: InTheWay(locks, f, owner, locks[k].owner, b) && Denotes(LockToFlock(locks[k]), b)
  {
    var l, lock := locks[k], FlockToLock(f, owner);
    SameBytes(f, owner);
    ToldBytes(l);
    assert l in locks && l.typ != UnLck;
    forall b: Off | l.start <= b <= l.end ensures TypeAt(locks, l.owner, b) == l.typ {
      CoverDecides(locks, k, l.owner, b);
    }
    hide FlockToLock, LockToFlock, TypeAt, Denotes, WellFormed;
    var b := if l.start < lock.start then lock.start else l.start;
    assert InTheWay(locks, f, owner, l.owner, b) && Denotes(LockToFlock(l), b);
  }

  lemma ToldBytes(l: Lock)
    requires ValidRange(l)
    ensures var f := LockToFlock(l);
            f.typ == l.typ && f.pid == l.pid && forall b: Off :: Denotes(f, b) <==> l.start <= b <= l.end
  {
  }

  lemma SparesNeeded(f: Flock, owner: nat)
    requires ValidFlock(f)
    ensures NeedsSpares(FlockToLock(f, owner)) <==> f.typ != UnLck || f.start != 0 || !ToTheEnd(f)
  {
  }

  lemma Granted(before: seq<Lock>, after: seq<Lock>, f: Flock, owner: nat)
    requires ValidFlock(f)
    requires forall o: nat, b: Off :: TypeAt(after, o, b) == Overlay(FlockToLock(f, owner), before, o, b)
    ensures forall b: Off | Denotes(f, b) :: TypeAt(after, owner, b) == f.typ
    ensures forall o: nat, b: Off | o != owner || !Denotes(f, b) :: TypeAt(after, o, b) == TypeAt(before, o, b)
  {
    SameBytes(f, owner);
    hide FlockToLock, TypeAt, Denotes;
    assert forall o: nat, b: Off | o != owner :: !Covers(FlockToLock(f, owner), o, b);
  }

  predicate Conflicts(l: Lock, lock: Lock) {
    l.owner != lock.owner && lock.start <= l.end && l.start <= lock.end && (l.typ == WrLck || lock.typ == WrLck)
  }

  /** Everything but an unlock of the whole file allocates spare entries. */
  predicate NeedsSpares(lock: Lock) {
    lock.typ != UnLck || lock.start != 0 || lock.end != OFFSET_MAX
  }

  // ----- exclusion -----

  /** No byte is held by two owners when one of them holds it for writing. */
  ghost predicate Exclusive(locks: seq<Lock>) {
    forall o1: nat, o2: nat, b: Off | o1 != o2 && TypeAt(locks, o1, b) == WrLck :: TypeAt(locks, o2, b) == UnLck
  }

  /** Another owner holds a byte of `lock` in a way that excludes it. */
  ghost predicate ByteConflict(locks: seq<Lock>, lock: Lock, owner: nat, b: Off) {
    && owner != lock.owner && lock.start <= b <= lock.end
    && TypeAt(locks, owner, b) != UnLck
    && (TypeAt(locks, owner, b) == WrLck || lock.typ == WrLck)
  }

  /** The entry-by-entry test of locks_conflict says exactly whether some byte
      of the request is held incompatibly by somebody else. */
  lemma ConflictMeansByteConflict(locks: seq<Lock>, lock: Lock)
    requires WellFormed(locks) && ValidRange(lock)
    ensures (exists l <- locks :: Conflicts(l, lock)) <==> (exists o: nat, b: Off :: ByteConflict(locks, lock, o, b))
  {
    if l :| l in locks && Conflicts(l, lock) {
      var k :| 0 <= k < |locks| && locks[k] == l;
      var b := if l.start < lock.start then lock.start else l.start;
      CoverDecides(locks, k, l.owner, b);
      assert ByteConflict(locks, lock, l.owner, b);
    }
    if o: nat, b: Off :| ByteConflict(locks, lock, o, b) {
      TypeAtHere(locks, o, b);
      var k :| 0 <= k < |locks| && Covers(locks[k], o, b) && locks[k].typ == TypeAt(locks, o, b);
      assert locks[k] in locks && Conflicts(locks[k], lock);
    }
  }

  /** Setting a range keeps the list exclusive exactly when locks_conflict has
      nothing to report about it (an unlock always keeps it). */
  lemma InsertKeepsExclusion(before: seq<Lock>, after: seq<Lock>, lock: Lock)
    requires WellFormed(before) && ValidRange(lock) && Exclusive(before)
    requires forall o: nat, b: Off :: TypeAt(after, o, b) == Overlay(lock, before, o, b)
    ensures Exclusive(after) <==> lock.typ == UnLck || forall l <- before :: !Conflicts(l, lock)
  {
    ConflictMeansByteConflict(before, lock);
    if lock.typ != UnLck && exists o: nat, b: Off :: ByteConflict(before, lock, o, b) {
      var o: nat, b: Off :| ByteConflict(before, lock, o, b);
      assert TypeAt(after, o, b) == TypeAt(before, o, b) && TypeAt(after, lock.owner, b) == lock.typ;
    } else {
      forall o1: nat, o2: nat, b: Off | o1 != o2 && TypeAt(after, o1, b) == WrLck
        ensures TypeAt(after, o2, b) == UnLck
      {
        if lock.start <= b <= lock.end && lock.typ != UnLck {
          assert !ByteConflict(before, lock, o1, b) && !ByteConflict(before, lock, o2, b);
        }
      }
    }
  }

  // ----- the fcntl form -----

  datatype Flock = Flock(typ: LockType, start: Off, len: Off, pid: int)

  /** A range fcntl can name without overflowing off_t: a length of 0 reaches to
      the end of the file. */
  predicate ValidFlock(f: Flock) {
    0 <= f.start && 0 <= f.len && f.start as int + f.len as int <= OFFSET_MAX as int
  }

  function FlockToLock(f: Flock, owner: nat): (l: Lock)
    requires ValidFlock(f)
    ensures ValidRange(l)
    ensures forall b: Off :: Covers(l, owner, b) <==> f.start <= b && (f.len == 0 || b < f.start + f.len)
  {
    Lock(f.typ, f.start, if f.len != 0 then f.start + f.len - 1 else OFFSET_MAX, f.pid, owner)
  }

  function LockToFlock(l: Lock): (f: Flock)
    requires ValidRange(l)
    ensures ValidFlock(f) && FlockToLock(f, l.owner) == l
  {
    Flock(l.typ, l.start, if l.end == OFFSET_MAX then 0 else l.end - l.start + 1, l.pid)
  }

  lemma FlockRoundTrip(f: Flock, owner: nat)
    requires ValidFlock(f)
    ensures LockToFlock(FlockToLock(f, owner)) == f
  {
  }
}
