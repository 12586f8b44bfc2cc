/** What becomes of each node, apart from its reference count. */
module NodeEffects {
  import opened Sequences
  import opened NodeTree

  /** The same node, with more or fewer references. */
  predicate Same(n: Node, n': Node) { n' == n.(refctr := n'.refctr) }

  /** The same node under another name. */
  predicate Moved(n: Node, n': Node, name: Option<Name>, parent: Ref) {
    n' == n.(refctr := n'.refctr, name := name, parent := parent)
  }

  /** Nodes that are not among `apart` stay what they are, and only those go of
      which the kernel has no lookup. */
  ghost predicate Others(pool: Pool, pool': Pool, apart: set<Ptr>) {
    && (forall x <- pool' :: x in pool || x in apart)
    && (forall x | x in pool && x !in apart ::
          if x in pool' then Same(pool[x], pool'[x]) else pool[x].nlookup == 0)
  }

  lemma OthersTrans(a: Pool, b: Pool, c: Pool, s: set<Ptr>, t: set<Ptr>)
    requires Others(a, b, s) && Others(b, c, t)
    ensures Others(a, c, s + t)
  {
  }

  lemma UnlinkEffect(t: Table, p: Ptr)
    requires Good(t) && Linked(t.pool, p)
    ensures CanUnlink(t, p) && Others(t.pool, Unlink(t, p).pool, {p})
    ensures p in Unlink(t, p).pool && Moved(t.pool[p], Unlink(t, p).pool[p], None, Null)
  {
    UnlinkPool(t, p);
    NoSelfParent(t.pool, p);
    var q := t.pool[p].parent.p;
    if t.pool[q].refctr == 1 { LastReference(t.pool, q, p); }
    hide Good, Unlink;
  }

  lemma LinkEffect(t: Table, p: Ptr, q: Ptr, name: Name)
    requires p in t.pool && q in t.pool && p != q && |t.names| == TABLE_SIZE
    ensures var pool' := Link(t, p, q, name).pool;
            Others(t.pool, pool', {p}) && p in pool' && Moved(t.pool[p], pool'[p], Some(name), To(q))
  {
    hide NameHash;
  }

  /** The nodes that a rename is about. */
  function Concerned(p: Ptr, x: Ref): set<Ptr> { if x.To? then {p, x.p} else {p} }

  /** Node `p` has the place that is given, a displaced node has none, and all
      others are what they were. */
  ghost predicate OnlyMoved(pool: Pool, pool': Pool, p: Ptr, x: Ref, name: Option<Name>, parent: Ref) {
    && Others(pool, pool', Concerned(p, x))
    && p in pool && p in pool' && Moved(pool[p], pool'[p], name, parent)
    && (x.To? && x.p != p ==> x.p in pool && x.p in pool' && Moved(pool[x.p], pool'[x.p], None, Null))
  }

  lemma LinkedHeld(t: Table, p: Ptr)
    requires Good(t) && Linked(t.pool, p)
    ensures t.pool[p].nlookup > 0
  {
    assert NodeOk(t.pool, p);
  }

  lemma NotInside(pool: Pool, q: Ptr, p: Ptr)
    requires !Below(pool, q, p)
    ensures q != p
  {
    assert Climb(pool, p, [], p);
  }

  /** Both nodes taken off their names. */
  lemma UnnamedEffect(t: Table, p: Ptr, x: Ref, q: Ptr, name: Name)
    requires Good(t) && CanRename(t, p, x, q, name)
    ensures x.To? ==> CanUnlink(t, x.p)
    ensures var t1 := if x == To(p) then t else Displace(t, x);
            && CanUnlink(t1, p) && OnlyMoved(t.pool, Unlink(t1, p).pool, p, x, None, Null)
            && q in Unlink(t1, p).pool && q != p && |Unlink(t1, p).names| == TABLE_SIZE
  {
    hide Good, Unlink, Below, NameFree, CanLink;
    NotInside(t.pool, q, p);
    if x == To(p) {
      UnlinkReady(t, p, x, q, name);
      TableSizes(Unlink(t, p));
      HeldSurvives(t, p, q);
    } else {
      DisplaceReady(t, p, x, q, name);
      UnlinkReady(Displace(t, x), p, Null, q, name);
      TableSizes(Unlink(Displace(t, x), p));
      HeldSurvives(Displace(t, x), p, q);
    }
    var t1 := if x == To(p) then t else Displace(t, x);
    LinkedHeld(t, p);
    UnlinkEffect(t1, p);
    if x.To? && x.p != p {
      LinkedHeld(t, x.p);
      UnlinkEffect(t, x.p);
      OthersTrans(t.pool, t1.pool, Unlink(t1, p).pool, {x.p}, {p});
      assert {x.p} + {p} == Concerned(p, x);
    } else if x.To? {
      assert {p} == Concerned(p, x);
    }
  }

  lemma RenamedEffect(t: Table, p: Ptr, x: Ref, q: Ptr, name: Name)
    requires Good(t) && CanRename(t, p, x, q, name)
    ensures OnlyMoved(t.pool, Renamed(t, p, x, q, name).pool, p, x, Some(name), To(q))
  {
    UnnamedEffect(t, p, x, q, name);
    var t1 := if x == To(p) then t else Displace(t, x);
    var t2 := Unlink(t1, p);
    LinkEffect(t2, p, q, name);
    if x.To? && x.p != p { LinkedHeld(t, x.p); }
    hide Good, Unlink, Link, Below, Displace;
    OthersTrans(t.pool, t2.pool, Link(t2, p, q, name).pool, Concerned(p, x), {p});
    assert Concerned(p, x) + {p} == Concerned(p, x);
  }

  lemma AddedEffect(t: Table, p: Ptr, id: int, generation: int, q: Ptr, name: Name)
    requires Good(t) && p !in t.pool && q in t.pool && 1 <= id < FUSE_UNKNOWN_INO && NameFree(t.pool, q, name)
    requires forall x <- t.pool :: t.pool[x].id != id
    ensures var pool' := Added(t, p, id, generation, q, name).pool;
            && Others(t.pool, pool', {p}) && p in pool'
            && pool'[p] == Node(id, generation, pool'[p].refctr, To(q), Some(name), 1, false)
  {
    hide TreeOk, ChainsOk, NameFree, NameHash, IdHash;
  }

  /** A node of which the last lookup is forgotten stays, without a name, as long
      as it has children. */
  lemma LastLookupEffect(t: Table, p: Ptr)
    requires Good(t) && p in t.pool && p != ROOT && t.pool[p].nlookup > 0
    ensures CanUnlink(t, p) && p in Unlink(t, p).pool && |Unlink(t, p).ids| == TABLE_SIZE
    ensures var pool' := Unref(SetLookup(Unlink(t, p), p, 0), p).pool;
            && Others(t.pool, pool', {p}) && (p in pool' <==> Children(t.pool, p) != {})
            && (p in pool' ==> Moved(t.pool[p].(nlookup := 0), pool'[p], None, Null))
  {
    var t1 := UnlinkedNode(t, p);
    hide Good, Unlink, IdHash, Remove, Children;
    var t2 := SetLookup(t1, p, 0);
    assert Others(t1.pool, Unref(t2, p).pool, {p});
    OthersTrans(t.pool, t1.pool, Unref(t2, p).pool, {p}, {p});
    assert {p} + {p} == {p};
  }

  lemma UnlinkedNode(t: Table, p: Ptr) returns (t1: Table)
    requires Good(t) && p in t.pool && p != ROOT && t.pool[p].nlookup > 0
    ensures CanUnlink(t, p) && t1 == Unlink(t, p) && p in t1.pool && |t1.ids| == TABLE_SIZE
    ensures Others(t.pool, t1.pool, {p}) && Moved(t.pool[p], t1.pool[p], None, Null)
    ensures t1.pool[p].refctr == 1 <==> Children(t.pool, p) == {}
  {
    TableSizes(t);
    assert NodeOk(t.pool, p);
    if Linked(t.pool, p) {
      UnlinkEffect(t, p);
      UnlinkGood(t, p);
    }
    t1 := Unlink(t, p);
    TableSizes(t1);
    assert NodeOk(t1.pool, p);
    hide Good, Unlink;
    SameChildren(t.pool, t1.pool, p);
  }

  lemma SameChildren(pool: Pool, pool': Pool, p: Ptr)
    requires p in pool && p in pool' && Others(pool, pool', {p}) && Moved(pool[p], pool'[p], None, Null)
    requires !ChildOf(pool, p, p) && forall x | ChildOf(pool, x, p) :: pool[x].nlookup > 0
    ensures Children(pool', p) == Children(pool, p)
  {
  }
}
