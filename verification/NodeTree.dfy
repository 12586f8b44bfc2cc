/** The inode table of libfuse (lib/fuse.c) on values: a pool of nodes that
    point to their parents, and the two hash tables that index it. */
module NodeTree {
  import opened Sequences

  type Ptr = int
  type Name = string

  datatype Ref = Null | To(p: Ptr)

  const FUSE_ROOT_ID: int := 1
  const FUSE_UNKNOWN_INO: int := 0xffffffff
  const FUSE_MAX_PATH: int := 4096
  const TABLE_SIZE: int := 14057
  const ROOT: Ptr := 0      // where the root node lies

  datatype Node = Node(id: int, generation: int, refctr: int, parent: Ref, name: Option<Name>, nlookup: int,
                       hidden: bool)

  type Pool = map<Ptr, Node>

  /** The nodes and the chains of the two tables. */
  datatype Table = Table(pool: Pool, ids: seq<seq<Ptr>>, names: seq<seq<Ptr>>)

  // ----- hashing -----

  function SignedChar(c: char): int {
    var v := c as int % 0x100;
    if v < 0x80 then v else v - 0x100
  }

  function HashFrom(hash: int, name: Name): int
    decreases |name|
  {
    if name == [] then hash
    else HashFrom((hash * 32 - hash + SignedChar(name[0])) % 0x1_0000_0000, name[1..])
  }

  /** name_hash: unsigned 32-bit, then reduced together with the parent's id. */
  function NameHash(parent: int, name: Name): (h: int)
    ensures 0 <= h < TABLE_SIZE
  {
    var first := if name == [] then 0 else SignedChar(name[0]) % 0x1_0000_0000;
    var hash := if first == 0 then 0 else HashFrom(first, name[1..]);
    (hash + parent) % TABLE_SIZE
  }

  function IdHash(id: int): (h: int)
    ensures 0 <= h < TABLE_SIZE
  {
    id % TABLE_SIZE
  }

  // ----- the invariant -----

  /** A node that hangs in the tree under a name. The root has a name, but no
      place under it. */
  predicate Linked(pool: Pool, p: Ptr) {
    p in pool && p != ROOT && pool[p].name.Some?
  }

  predicate ChildOf(pool: Pool, p: Ptr, q: Ptr) {
    p in pool && p != ROOT && pool[p].parent == To(q)
  }

  function Children(pool: Pool, q: Ptr): set<Ptr> {
    set p | p in pool && ChildOf(pool, p, q)
  }

  ghost predicate NodeOk(pool: Pool, p: Ptr)
    requires p in pool
  {
    var n := pool[p];
    && 1 <= n.id < FUSE_UNKNOWN_INO && (n.id == FUSE_ROOT_ID <==> p == ROOT)
    && n.refctr == B(n.nlookup > 0) + |Children(pool, p)| && n.refctr > 0 && n.nlookup >= 0
    && (if p == ROOT then n.nlookup > 0 && n.parent == Null && n.name.Some?
        else (n.name.Some? <==> n.parent.To?) && (n.name.Some? ==> n.nlookup > 0 && n.parent.p in pool))
  }

  /** No two nodes share an id, no two nodes of one directory a name. */
  ghost predicate Unique(pool: Pool) {
    && (forall p, q :: p in pool && q in pool && pool[p].id == pool[q].id ==> p == q)
    && (forall p, q ::
          Linked(pool, p) && Linked(pool, q) && pool[p].parent == pool[q].parent && pool[p].name == pool[q].name
          ==> p == q)
  }

  /** Parents rank below their children, so climbing ends. */
  ghost predicate Ranked(pool: Pool, rank: map<Ptr, int>) {
    && (forall p <- pool :: p in rank && rank[p] >= 0)
    && (forall p <- pool ::
       p != ROOT && pool[p].parent.To? && pool[p].parent.p in pool ==> rank[pool[p].parent.p] < rank[p])
  }

  ghost predicate Acyclic(pool: Pool) {
    exists rank: map<Ptr, int> :: Ranked(pool, rank)
  }

  ghost predicate TreeOk(pool: Pool) {
    && ROOT in pool && (forall p <- pool :: NodeOk(pool, p))
    && Unique(pool) && Acyclic(pool)
  }

  predicate InIdChain(pool: Pool, p: Ptr, h: int) {
    p in pool && IdHash(pool[p].id) == h
  }

  predicate InNameChain(pool: Pool, p: Ptr, h: int) {
    && Linked(pool, p) && pool[p].parent.To? && pool[p].parent.p in pool
    && NameHash(pool[pool[p].parent.p].id, pool[p].name.value) == h
  }

  /** Each node is in its id chain once and in no other, each linked node in
      its name chain once and in no other. */
  ghost predicate ChainsOk(t: Table) {
    && |t.ids| == TABLE_SIZE && |t.names| == TABLE_SIZE
    && (forall h | 0 <= h < TABLE_SIZE :: NoDup(t.ids[h]) && NoDup(t.names[h]))
    && (forall h, p | 0 <= h < TABLE_SIZE :: p in t.ids[h] <==> InIdChain(t.pool, p, h))
    && (forall h, p | 0 <= h < TABLE_SIZE :: p in t.names[h] <==> InNameChain(t.pool, p, h))
  }

  ghost predicate Good(t: Table) {
    TreeOk(t.pool) && ChainsOk(t)
  }

  // ----- the pieces of lib/fuse.c -----

  /** delete_node and unref_node. */
  function Unref(t: Table, p: Ptr): Table
    requires p in t.pool && |t.ids| == TABLE_SIZE
  {
    var n := t.pool[p];
    if n.refctr == 1 then t.(pool := t.pool - {p}, ids := t.ids[IdHash(n.id) := Remove(t.ids[IdHash(n.id)], p)])
    else t.(pool := t.pool[p := n.(refctr := n.refctr - 1)])
  }

  predicate CanUnlink(t: Table, p: Ptr) {
    && |t.ids| == TABLE_SIZE && |t.names| == TABLE_SIZE
    && p in t.pool && (t.pool[p].name.Some? ==>
       t.pool[p].parent.To? && t.pool[p].parent.p in t.pool && t.pool[p].parent.p != p)
  }

  /** unhash_name. */
  function Unlink(t: Table, p: Ptr): Table
    requires CanUnlink(t, p)
  {
    var n := t.pool[p];
    if n.name == None then t
    else
      var q := n.parent.p;
      var h := NameHash(t.pool[q].id, n.name.value);
      var t1 := Unref(t.(names := t.names[h := Remove(t.names[h], p)]), q);
      t1.(pool := t1.pool[p := n.(name := None, parent := Null)])
  }

  /** hash_name, when the copy of the name can be allocated. */
  function Link(t: Table, p: Ptr, q: Ptr, name: Name): Table
    requires p in t.pool && q in t.pool && |t.names| == TABLE_SIZE
  {
    var h := NameHash(t.pool[q].id, name);
    var pool1 := t.pool[q := t.pool[q].(refctr := t.pool[q].refctr + 1)];
    t.(pool := pool1[p := pool1[p].(name := Some(name), parent := To(q))], names := t.names[h := [p] + t.names[h]])
  }

  /** A new node with one lookup and no name, in the id table. */
  function Insert(t: Table, p: Ptr, id: int, generation: int): Table
    requires p !in t.pool && |t.ids| == TABLE_SIZE
  {
    t.(pool := t.pool[p := Node(id, generation, 1, Null, None, 1, false)],
      ids := t.ids[IdHash(id) := [p] + t.ids[IdHash(id)]])
  }

  function SetLookup(t: Table, p: Ptr, nlookup: int): Table
    requires p in t.pool
  {
    t.(pool := t.pool[p := t.pool[p].(nlookup := nlookup)])
  }

  // ----- Unlink keeps the invariant -----

  lemma ChildrenAfter(pool: Pool, pool': Pool, p: Ptr, q: Ptr)
    requires forall x :: x != p ==> (ChildOf(pool', x, q) <==> ChildOf(pool, x, q))
    ensures |Children(pool', q)| == |Children(pool, q)| - B(ChildOf(pool, p, q)) + B(ChildOf(pool', p, q))
  {
    var before, after := Children(pool, q), Children(pool', q);
    assert before - {p} == after - {p};
    assert |before| == |before - {p}| + B(p in before);
    assert |after| == |after - {p}| + B(p in after);
  }

  /** A node that is about to lose its last reference stands for nothing. */
  lemma LastReference(pool: Pool, q: Ptr, p: Ptr)
    requires TreeOk(pool) && q in pool && pool[q].refctr == 1 && ChildOf(pool, p, q)
    ensures q != ROOT && pool[q].name == None && pool[q].nlookup == 0
    ensures forall x :: ChildOf(pool, x, q) ==> x == p
  {
    assert NodeOk(pool, q);
    assert p in Children(pool, q);
    assert |Children(pool, q) - {p}| == |Children(pool, q)| - 1;
    assert Children(pool, q) - {p} == {};
    assert forall x :: ChildOf(pool, x, q) ==> x in Children(pool, q);
  }

  /** What Unlink makes of each node. */
  ghost predicate UnlinkedPool(pool: Pool, p: Ptr, q: Ptr, pool': Pool)
    requires p in pool && q in pool
  {
    && (forall x :: x in pool' <==> x in pool && !(x == q && pool[q].refctr == 1))
    && (forall x <- pool' :: x != p && x != q ==> pool'[x] == pool[x])
    && p in pool' && pool'[p] == pool[p].(name := None, parent := Null)
    && (q in pool' ==> pool'[q] == pool[q].(refctr := pool[q].refctr - 1))
  }

  lemma UnlinkPool(t: Table, p: Ptr)
    requires Good(t) && Linked(t.pool, p)
    ensures CanUnlink(t, p) && UnlinkedPool(t.pool, p, t.pool[p].parent.p, Unlink(t, p).pool)
  {
    hide TreeOk, ChainsOk, Remove, NameHash, IdHash;
    TableSizes(t);
    NoSelfParent(t.pool, p);
  }

  lemma TableSizes(t: Table)
    requires Good(t)
    ensures |t.ids| == TABLE_SIZE && |t.names| == TABLE_SIZE
  {
  }

  lemma NoSelfParent(pool: Pool, p: Ptr)
    requires TreeOk(pool) && Linked(pool, p)
    ensures pool[p].parent.To? && pool[p].parent.p in pool && pool[p].parent.p != p
  {
    assert NodeOk(pool, p);
    var rank: map<Ptr, int> :| Ranked(pool, rank);
  }

  lemma UnlinkNodes(pool: Pool, p: Ptr, q: Ptr, pool': Pool)
    requires TreeOk(pool) && Linked(pool, p) && pool[p].parent == To(q) && q in pool && p != q
             && UnlinkedPool(pool, p, q, pool')
    ensures forall x <- pool' :: NodeOk(pool', x)
  {
    if pool[q].refctr == 1 { LastReference(pool, q, p); }
    forall x <- pool' ensures NodeOk(pool', x) {
      assert NodeOk(pool, x);
      if Linked(pool, x) { assert ChildOf(pool, x, pool[x].parent.p); }
      assert forall y :: y != p ==> (ChildOf(pool', y, x) <==> ChildOf(pool, y, x));
      ChildrenAfter(pool, pool', p, x);
    }
  }

  lemma UnlinkTree(pool: Pool, p: Ptr, q: Ptr, pool': Pool)
    requires TreeOk(pool) && Linked(pool, p) && pool[p].parent == To(q) && q in pool && p != q
             && UnlinkedPool(pool, p, q, pool')
    ensures TreeOk(pool')
  {
    hide NodeOk, Unique, Acyclic, UnlinkedPool;
    UnlinkNodes(pool, p, q, pool');
    UnlinkRest(pool, p, q, pool');
    FewerEdges(pool, pool');
  }

  lemma UnlinkRest(pool: Pool, p: Ptr, q: Ptr, pool': Pool)
    requires TreeOk(pool) && Linked(pool, p) && pool[p].parent == To(q) && q in pool && p != q
             && UnlinkedPool(pool, p, q, pool')
    ensures ROOT in pool' && Unique(pool') && Acyclic(pool)
    ensures forall x <- pool' :: x in pool && (pool'[x].parent == pool[x].parent || pool'[x].parent == Null)
  {
    hide NodeOk, Acyclic, Children;
    if pool[q].refctr == 1 { LastReference(pool, q, p); }
  }

  /** Losing nodes and edges keeps the pool acyclic. */
  lemma FewerEdges(pool: Pool, pool': Pool)
    requires Acyclic(pool)
    requires forall x <- pool' :: x in pool && (pool'[x].parent == pool[x].parent || pool'[x].parent == Null)
    ensures Acyclic(pool')
  {
    var rank: map<Ptr, int> :| Ranked(pool, rank);
    assert Ranked(pool', rank);
  }

  lemma UnlinkGood(t: Table, p: Ptr)
    requires Good(t) && Linked(t.pool, p)
    ensures CanUnlink(t, p) && Good(Unlink(t, p))
  {
    UnlinkPool(t, p);
    var q := t.pool[p].parent.p;
    UnlinkTree(t.pool, p, q, Unlink(t, p).pool);
    UnlinkChains(t, p, q);
  }

  lemma UnlinkChains(t: Table, p: Ptr, q: Ptr)
    requires Good(t) && Linked(t.pool, p) && t.pool[p].parent == To(q) && q in t.pool && p != q && CanUnlink(t, p)
    requires UnlinkedPool(t.pool, p, q, Unlink(t, p).pool)
    ensures ChainsOk(Unlink(t, p))
  {
    var t' := Unlink(t, p);
    if t.pool[q].refctr == 1 { LastReference(t.pool, q, p); }
    forall h | 0 <= h < TABLE_SIZE ensures NoDup(t'.ids[h]) && NoDup(t'.names[h]) {
      NoDupRemove(t.ids[h], q);
      NoDupRemove(t.names[h], p);
    }
    forall h, x | 0 <= h < TABLE_SIZE ensures x in t'.ids[h] <==> InIdChain(t'.pool, x, h) {
      assert x in t.ids[h] <==> InIdChain(t.pool, x, h);
    }
    forall h, x | 0 <= h < TABLE_SIZE ensures x in t'.names[h] <==> InNameChain(t'.pool, x, h) {
      UnlinkName(t, p, q, h, x);
    }
  }

  lemma UnlinkName(t: Table, p: Ptr, q: Ptr, h: int, x: Ptr)
    requires Good(t) && Linked(t.pool, p) && t.pool[p].parent == To(q) && q in t.pool && p != q && CanUnlink(t, p)
    requires UnlinkedPool(t.pool, p, q, Unlink(t, p).pool) && 0 <= h < TABLE_SIZE
    ensures |Unlink(t, p).names| == TABLE_SIZE
    ensures x in Unlink(t, p).names[h] <==> InNameChain(Unlink(t, p).pool, x, h)
  {
    if t.pool[q].refctr == 1 { LastReference(t.pool, q, p); }
    assert p in t.names[h] <==> InNameChain(t.pool, p, h);
    assert x in t.names[h] <==> InNameChain(t.pool, x, h);
    if Linked(t.pool, x) {
      NoSelfParent(t.pool, x);
      assert ChildOf(t.pool, x, t.pool[x].parent.p);
    }
  }

  // ----- Insert, and dropping the last lookup -----

  lemma InsertGood(t: Table, p: Ptr, id: int, generation: int)
    requires Good(t) && p !in t.pool && 1 <= id < FUSE_UNKNOWN_INO && forall x <- t.pool :: t.pool[x].id != id
    ensures Good(Insert(t, p, id, generation))
  {
    hide NodeOk, Unique, Ranked, ChainsOk, Insert;
    InsertNodes(t, p, id, generation);
    InsertUnique(t, p, id, generation);
    var rank: map<Ptr, int> :| Ranked(t.pool, rank);
    NewRank(t.pool, Insert(t, p, id, generation).pool, rank, p);
    InsertChains(t, p, id, generation);
  }

  lemma InsertNodes(t: Table, p: Ptr, id: int, generation: int)
    requires Good(t) && p !in t.pool && 1 <= id < FUSE_UNKNOWN_INO && forall x <- t.pool :: t.pool[x].id != id
    ensures |t.ids| == TABLE_SIZE
    ensures var pool' := Insert(t, p, id, generation).pool;
            && p in pool' && pool' == t.pool[p := pool'[p]] && pool'[p].parent == Null && ROOT in pool'
            && forall x <- pool' :: NodeOk(pool', x)
  {
    hide ChainsOk, Unique, Acyclic;
    TableSizes(t);
    var t' := Insert(t, p, id, generation);
    assert NodeOk(t.pool, ROOT);
    forall x <- t'.pool ensures NodeOk(t'.pool, x) {
      if x != p { assert NodeOk(t.pool, x); }
      if x == p { NoChildren(t.pool, p); }
      ChildrenAfter(t.pool, t'.pool, p, x);
    }
  }

  lemma InsertUnique(t: Table, p: Ptr, id: int, generation: int)
    requires Good(t) && p !in t.pool && forall x <- t.pool :: t.pool[x].id != id
    ensures |t.ids| == TABLE_SIZE && Unique(Insert(t, p, id, generation).pool)
  {
    hide ChainsOk, NodeOk, Acyclic;
    TableSizes(t);
  }

  lemma NoChildren(pool: Pool, p: Ptr)
    requires TreeOk(pool) && p !in pool
    ensures Children(pool, p) == {}
  {
    forall x <- pool ensures !ChildOf(pool, x, p) {
      assert NodeOk(pool, x);
    }
  }

  lemma NewRank(pool: Pool, pool': Pool, rank: map<Ptr, int>, p: Ptr)
    requires TreeOk(pool) && p !in pool && p in pool' && pool'[p].parent == Null && Ranked(pool, rank)
    requires pool' == pool[p := pool'[p]]
    ensures Acyclic(pool')
  {
    forall x <- pool ensures pool[x].parent != To(p) || x == ROOT {
      assert NodeOk(pool, x);
    }
    assert Ranked(pool', rank[p := 0]);
  }

  lemma InsertChains(t: Table, p: Ptr, id: int, generation: int)
    requires Good(t) && p !in t.pool
    ensures ChainsOk(Insert(t, p, id, generation))
  {
    var t' := Insert(t, p, id, generation);
    var h0 := IdHash(id);
    NoDupPrepend(p, t.ids[h0]);
    forall h, x | 0 <= h < TABLE_SIZE ensures x in t'.ids[h] <==> InIdChain(t'.pool, x, h) {
      assert x in t.ids[h] <==> InIdChain(t.pool, x, h);
    }
    forall h, x | 0 <= h < TABLE_SIZE ensures x in t'.names[h] <==> InNameChain(t'.pool, x, h) {
      assert x in t.names[h] <==> InNameChain(t.pool, x, h);
      if Linked(t.pool, x) { assert NodeOk(t.pool, x); }
    }
  }

  /** What dropping the last lookup makes of each node. */
  ghost predicate DroppedPool(pool: Pool, p: Ptr, pool': Pool)
    requires p in pool
  {
    && (forall x :: x in pool' <==> x in pool && !(x == p && pool[p].refctr == 1))
    && (forall x <- pool' :: x != p ==> pool'[x] == pool[x])
    && (p in pool' ==> pool'[p] == pool[p].(nlookup := 0, refctr := pool[p].refctr - 1))
  }

  predicate Droppable(pool: Pool, p: Ptr) {
    p in pool && p != ROOT && pool[p].name == None && pool[p].nlookup > 0
  }

  /** Nothing hangs below a node that only its lookups keep. */
  lemma NothingBelow(pool: Pool, p: Ptr)
    requires TreeOk(pool) && Droppable(pool, p) && pool[p].refctr == 1
    ensures forall x <- pool :: !ChildOf(pool, x, p)
  {
    assert NodeOk(pool, p);
    assert Children(pool, p) == {};
    assert forall x <- pool :: ChildOf(pool, x, p) ==> x in Children(pool, p);
  }

  lemma DropNodes(pool: Pool, p: Ptr, pool': Pool)
    requires TreeOk(pool) && Droppable(pool, p) && DroppedPool(pool, p, pool')
    ensures forall x <- pool' :: NodeOk(pool', x)
  {
    if pool[p].refctr == 1 { NothingBelow(pool, p); }
    forall x <- pool' ensures NodeOk(pool', x) {
      assert NodeOk(pool, x);
      if Linked(pool, x) {
        assert !(ChildOf(pool, x, p) && pool[p].refctr == 1);
        assert pool[x].parent.p in pool';
      }
      ChildrenAfter(pool, pool', p, x);
    }
  }

  lemma DropUnique(pool: Pool, p: Ptr, pool': Pool)
    requires Unique(pool) && p in pool && DroppedPool(pool, p, pool')
    ensures Unique(pool')
  {
  }

  lemma DropTree(pool: Pool, p: Ptr, pool': Pool)
    requires TreeOk(pool) && Droppable(pool, p) && DroppedPool(pool, p, pool')
    ensures TreeOk(pool')
  {
    assert NodeOk(pool, ROOT);
    DropNodes(pool, p, pool');
    FewerEdges(pool, pool');
    DropUnique(pool, p, pool');
    hide NodeOk, Ranked, Unique;
  }

  /** The last lookup of an unlinked node is forgotten. */
  lemma DropGood(t: Table, p: Ptr)
    requires Good(t) && Droppable(t.pool, p)
    ensures Good(Unref(SetLookup(t, p, 0), p)) && DroppedPool(t.pool, p, Unref(SetLookup(t, p, 0), p).pool)
  {
    assert DroppedPool(t.pool, p, Unref(SetLookup(t, p, 0), p).pool);
    DropTree(t.pool, p, Unref(SetLookup(t, p, 0), p).pool);
    DropChains(t, p);
    hide TreeOk, ChainsOk;
  }

  lemma DropChains(t: Table, p: Ptr)
    requires Good(t) && Droppable(t.pool, p)
    ensures ChainsOk(Unref(SetLookup(t, p, 0), p))
  {
    var t' := Unref(SetLookup(t, p, 0), p);
    NoDupRemove(t.ids[IdHash(t.pool[p].id)], p);
    if t.pool[p].refctr == 1 { NothingBelow(t.pool, p); }
    forall h, x | 0 <= h < TABLE_SIZE ensures x in t'.ids[h] <==> InIdChain(t'.pool, x, h) {
      assert x in t.ids[h] <==> InIdChain(t.pool, x, h);
    }
    forall h, x | 0 <= h < TABLE_SIZE ensures x in t'.names[h] <==> InNameChain(t'.pool, x, h) {
      DropName(t, p, h, x);
    }
  }

  lemma DropName(t: Table, p: Ptr, h: int, x: Ptr)
    requires Good(t) && Droppable(t.pool, p) && 0 <= h < TABLE_SIZE
    requires t.pool[p].refctr == 1 ==> forall x <- t.pool :: !ChildOf(t.pool, x, p)
    ensures var t' := Unref(SetLookup(t, p, 0), p);
            |t'.names| == TABLE_SIZE && (x in t'.names[h] <==> InNameChain(t'.pool, x, h))
  {
    hide Unique, Acyclic, Children, Remove;
    assert x in t.names[h] <==> InNameChain(t.pool, x, h);
    if Linked(t.pool, x) {
      assert NodeOk(t.pool, x);
      assert t.pool[p].refctr == 1 ==> !ChildOf(t.pool, x, p);
    }
  }

  // ----- climbing -----

  /** Climbing from `x` through the names of `suffix`, last one first, ends at `p`. */
  ghost predicate Climb(pool: Pool, x: Ptr, suffix: seq<Name>, p: Ptr)
    decreases |suffix|
  {
    if suffix == [] then x == p
    else
      && Linked(pool, x) && pool[x].name == Some(suffix[|suffix| - 1]) && pool[x].parent.To?
      && Climb(pool, pool[x].parent.p, suffix[..|suffix| - 1], p)
  }

  /** `names` leads from the root to `x`. */
  ghost predicate IsPath(pool: Pool, x: Ptr, names: seq<Name>) {
    Climb(pool, x, names, ROOT)
  }

  ghost predicate Below(pool: Pool, x: Ptr, p: Ptr) {
    exists suffix: seq<Name> :: Climb(pool, x, suffix, p)
  }

  lemma BelowParent(pool: Pool, x: Ptr, p: Ptr)
    requires Linked(pool, x) && pool[x].parent.To? && x != p
    ensures Below(pool, x, p) <==> Below(pool, pool[x].parent.p, p)
  {
    if Below(pool, x, p) {
      var suffix: seq<Name> :| Climb(pool, x, suffix, p);
      assert Climb(pool, pool[x].parent.p, suffix[..|suffix| - 1], p);
    }
    if Below(pool, pool[x].parent.p, p) {
      var suffix: seq<Name> :| Climb(pool, pool[x].parent.p, suffix, p);
      var longer := suffix + [pool[x].name.value];
      assert longer[..|longer| - 1] == suffix;
      assert Climb(pool, x, longer, p);
    }
  }

  /** A linked node has at most one path, and a climb that starts on the way
      continues it. */
  lemma {:induction false} PathsAgree(pool: Pool, x: Ptr, names: seq<Name>, suffix: seq<Name>, p: Ptr)
    requires Climb(pool, x, suffix, p)
    requires IsPath(pool, x, names)
    ensures |suffix| <= |names|
    ensures names == names[..|names| - |suffix|] + suffix && IsPath(pool, p, names[..|names| - |suffix|])
    decreases |suffix|
  {
    if suffix == [] {
      assert names[..|names|] == names;
    } else {
      var n := |names| - 1;
      PathsAgree(pool, pool[x].parent.p, names[..n], suffix[..|suffix| - 1], p);
      assert names[..n][..n - (|suffix| - 1)] == names[..|names| - |suffix|];
      assert names == names[..n] + [names[n]];
      assert suffix == suffix[..|suffix| - 1] + [names[n]];
    }
  }

  lemma {:induction false} PathsJoin(pool: Pool, x: Ptr, names: seq<Name>, suffix: seq<Name>, p: Ptr)
    requires Climb(pool, x, suffix, p) && IsPath(pool, p, names)
    ensures IsPath(pool, x, names + suffix)
    decreases |suffix|
  {
    if suffix == [] {
      assert names + suffix == names;
    } else {
      var last := |suffix| - 1;
      PathsJoin(pool, pool[x].parent.p, names, suffix[..last], p);
      assert (names + suffix)[..|names + suffix| - 1] == names + suffix[..last];
    }
  }

  // ----- Link keeps the invariant -----

  predicate NameFree(pool: Pool, q: Ptr, name: Name) {
    forall x <- pool :: Linked(pool, x) && pool[x].parent == To(q) ==> pool[x].name != Some(name)
  }

  ghost predicate CanLink(pool: Pool, p: Ptr, q: Ptr, name: Name) {
    && p in pool && q in pool && p != ROOT && p != q && pool[p].name == None && pool[p].nlookup > 0
    && NameFree(pool, q, name) && !Below(pool, q, p)
  }

  lemma LinkRank(pool: Pool, pool': Pool, p: Ptr, q: Ptr, name: Name)
    requires TreeOk(pool) && CanLink(pool, p, q, name)
    requires pool'.Keys == pool.Keys && pool'[p].parent == To(q) && forall x <- pool ::
             x != p ==> pool'[x].parent == pool[x].parent
    ensures Acyclic(pool')
  {
    var rank: map<Ptr, int> :| Ranked(pool, rank);
    var rank' := map x <- pool :: if Below(pool, x, p) then rank[x] + rank[q] + 1 else rank[x];
    assert Climb(pool, p, [], p);
    forall x | x in pool && x != ROOT && pool'[x].parent.To? && pool'[x].parent.p in pool
      ensures rank'[pool'[x].parent.p] < rank'[x]
    {
      if x != p {
        assert NodeOk(pool, x);
        BelowParent(pool, x, p);
      }
    }
    assert Ranked(pool', rank');
  }

  /** What Link makes of each node. */
  ghost predicate LinkedPool(pool: Pool, p: Ptr, q: Ptr, name: Name, pool': Pool)
    requires p in pool && q in pool
  {
    && (forall x :: x in pool' <==> x in pool)
    && (forall x <- pool :: x != p && x != q ==> pool'[x] == pool[x])
    && pool'[p] == pool[p].(name := Some(name), parent := To(q)) && pool'[q] == pool[q].(refctr := pool[q].refctr + 1)
  }

  lemma LinkNodes(pool: Pool, p: Ptr, q: Ptr, name: Name, pool': Pool)
    requires TreeOk(pool) && CanLink(pool, p, q, name) && LinkedPool(pool, p, q, name, pool')
    ensures forall x <- pool' :: NodeOk(pool', x)
  {
    forall x <- pool' ensures NodeOk(pool', x) {
      assert NodeOk(pool, x) && NodeOk(pool, p);
      if Linked(pool, x) { assert pool[x].parent.p in pool'; }
      ChildrenAfter(pool, pool', p, x);
    }
  }

  lemma LinkUnique(pool: Pool, p: Ptr, q: Ptr, name: Name, pool': Pool)
    requires TreeOk(pool) && CanLink(pool, p, q, name) && LinkedPool(pool, p, q, name, pool')
    ensures Unique(pool')
  {
    hide NodeOk, Acyclic, Below;
  }

  lemma LinkGood(t: Table, p: Ptr, q: Ptr, name: Name)
    requires Good(t) && CanLink(t.pool, p, q, name)
    ensures Good(Link(t, p, q, name)) && LinkedPool(t.pool, p, q, name, Link(t, p, q, name).pool)
  {
    var t' := Link(t, p, q, name);
    hide NodeOk, Unique, Acyclic, ChainsOk, NameFree, Below;
    TableSizes(t);
    assert LinkedPool(t.pool, p, q, name, t'.pool);
    LinkRank(t.pool, t'.pool, p, q, name);
    LinkNodes(t.pool, p, q, name, t'.pool);
    LinkUnique(t.pool, p, q, name, t'.pool);
    LinkChains(t, p, q, name);
  }

  lemma LinkChains(t: Table, p: Ptr, q: Ptr, name: Name)
    requires Good(t) && CanLink(t.pool, p, q, name)
    ensures ChainsOk(Link(t, p, q, name))
  {
    var t' := Link(t, p, q, name);
    var h0 := NameHash(t.pool[q].id, name);
    hide TreeOk, NameFree, Below;
    assert p in t.names[h0] <==> InNameChain(t.pool, p, h0);
    NoDupPrepend(p, t.names[h0]);
    forall h, x | 0 <= h < TABLE_SIZE ensures x in t'.ids[h] <==> InIdChain(t'.pool, x, h) {
      assert x in t.ids[h] <==> InIdChain(t.pool, x, h);
    }
    forall h, x | 0 <= h < TABLE_SIZE ensures x in t'.names[h] <==> InNameChain(t'.pool, x, h) {
      LinkName(t, p, q, name, h, x);
    }
  }

  lemma LinkName(t: Table, p: Ptr, q: Ptr, name: Name, h: int, x: Ptr)
    requires Good(t) && CanLink(t.pool, p, q, name) && 0 <= h < TABLE_SIZE
    ensures |Link(t, p, q, name).names| == TABLE_SIZE
    ensures x in Link(t, p, q, name).names[h] <==> InNameChain(Link(t, p, q, name).pool, x, h)
  {
    hide Unique, Acyclic, NameFree, Below, Children;
    assert x in t.names[h] <==> InNameChain(t.pool, x, h);
    if Linked(t.pool, x) { assert NodeOk(t.pool, x); }
  }

  // ----- looking nodes up -----

  function SearchId(pool: Pool, chain: seq<Ptr>, id: int): (r: Ref)
    ensures r.To? ==> r.p in chain && r.p in pool && pool[r.p].id == id
  {
    if chain == [] then Null
    else if chain[0] in pool && pool[chain[0]].id == id then To(chain[0])
    else SearchId(pool, chain[1..], id)
  }

  predicate IsEntry(pool: Pool, p: Ptr, parent: int, name: Name) {
    Linked(pool, p) && pool[p].parent.To? && pool[p].parent.p in pool && pool[pool[p].parent.p].id == parent
      && pool[p].name == Some(name)
  }

  function SearchName(pool: Pool, chain: seq<Ptr>, parent: int, name: Name): (r: Ref)
    ensures r.To? ==> r.p in chain && IsEntry(pool, r.p, parent, name)
  {
    if chain == [] then Null
    else if IsEntry(pool, chain[0], parent, name) then To(chain[0])
    else SearchName(pool, chain[1..], parent, name)
  }

  /** get_node_nocheck. */
  function LookupId(t: Table, id: int): Ref
    requires |t.ids| == TABLE_SIZE
  {
    SearchId(t.pool, t.ids[IdHash(id)], id)
  }

  /** lookup_node. */
  function LookupName(t: Table, parent: int, name: Name): Ref
    requires |t.names| == TABLE_SIZE
  {
    SearchName(t.pool, t.names[NameHash(parent, name)], parent, name)
  }

  lemma {:induction false} SearchIdFinds(pool: Pool, chain: seq<Ptr>, id: int)
    ensures var r := SearchId(pool, chain, id);
            && (r.To? ==> r.p in chain && r.p in pool && pool[r.p].id == id)
            && (r.Null? ==> forall p <- chain :: p in pool ==> pool[p].id != id)
  {
    if chain != [] {
      SearchIdFinds(pool, chain[1..], id);
    }
  }

  lemma {:induction false} SearchNameFinds(pool: Pool, chain: seq<Ptr>, parent: int, name: Name)
    ensures var r := SearchName(pool, chain, parent, name);
            && (r.To? ==> r.p in chain && IsEntry(pool, r.p, parent, name))
            && (r.Null? ==> forall p <- chain :: !IsEntry(pool, p, parent, name))
  {
    if chain != [] {
      SearchNameFinds(pool, chain[1..], parent, name);
    }
  }

  /** The id table finds the node with an id, exactly when there is one. */
  lemma LookupIdExact(t: Table, id: int, p: Ptr)
    requires Good(t)
    ensures LookupId(t, id) == To(p) <==> p in t.pool && t.pool[p].id == id
  {
    var h := IdHash(id);
    SearchIdFinds(t.pool, t.ids[h], id);
    assert p in t.ids[h] <==> InIdChain(t.pool, p, h);
  }

  /** The name table finds the node under a name of a directory, exactly when
      there is one. */
  lemma LookupNameExact(t: Table, parent: int, name: Name, p: Ptr)
    requires Good(t)
    ensures LookupName(t, parent, name) == To(p) <==> IsEntry(t.pool, p, parent, name)
  {
    var h := NameHash(parent, name);
    SearchNameFinds(t.pool, t.names[h], parent, name);
    assert p in t.names[h] <==> InNameChain(t.pool, p, h);
  }

  // ----- climbing before and after Unlink -----

  lemma {:induction false} FewerClimb(pool: Pool, pool': Pool, x: Ptr, suffix: seq<Name>, b: Ptr)
    requires forall y :: Linked(pool', y) ==>
             Linked(pool, y) && pool[y].name == pool'[y].name && pool[y].parent == pool'[y].parent
    requires Climb(pool', x, suffix, b)
    ensures Climb(pool, x, suffix, b)
    decreases |suffix|
  {
    if suffix != [] {
      FewerClimb(pool, pool', pool'[x].parent.p, suffix[..|suffix| - 1], b);
    }
  }

  /** `pool'` is `pool` with `p` unlinked, as far as climbing is concerned. */
  ghost predicate Cut(pool: Pool, pool': Pool, p: Ptr) {
    && !Linked(pool', p)
    && forall y | y != p ::
         && (Linked(pool', y) <==> Linked(pool, y))
         && (Linked(pool, y) ==> pool'[y].name == pool[y].name && pool'[y].parent == pool[y].parent)
  }

  /** Cutting `p` off leaves the paths that do not lead through it, and no others. */
  lemma {:induction false} CutPaths(pool: Pool, pool': Pool, p: Ptr, y: Ptr, names: seq<Name>)
    requires Cut(pool, pool', p) && p != ROOT
    ensures IsPath(pool', y, names) <==> IsPath(pool, y, names) && !Below(pool, y, p)
    decreases |names|
  {
    if names == [] {
      RootAlone(pool, p);
    } else if y == p {
      assert Climb(pool, p, [], p);
    } else if Linked(pool, y) && pool[y].parent.To? {
      CutPaths(pool, pool', p, pool[y].parent.p, names[..|names| - 1]);
      BelowParent(pool, y, p);
    }
  }

  lemma RootAlone(pool: Pool, p: Ptr)
    requires p != ROOT
    ensures !Below(pool, ROOT, p)
  {
  }

  /** Cutting off a node that is not below `b` leaves every climb to `b`. */
  lemma {:induction false} CutClimb(pool: Pool, pool': Pool, z: Ptr, y: Ptr, suffix: seq<Name>, b: Ptr)
    requires Cut(pool, pool', z) && !Below(pool, z, b)
    ensures Climb(pool', y, suffix, b) <==> Climb(pool, y, suffix, b)
    decreases |suffix|
  {
    if suffix != [] && y != z && Linked(pool, y) && pool[y].parent.To? {
      CutClimb(pool, pool', z, pool[y].parent.p, suffix[..|suffix| - 1], b);
    }
    if Climb(pool, y, suffix, b) {
      assert y != z;
    }
  }

  /** Cutting `p` itself off leaves every climb to `p`. */
  lemma {:induction false} CutSelf(pool: Pool, pool': Pool, p: Ptr, y: Ptr, suffix: seq<Name>)
    requires Cut(pool, pool', p) && Acyclic(pool)
             && (forall z :: Linked(pool, z) ==> pool[z].parent.To? && pool[z].parent.p in pool)
    ensures Climb(pool', y, suffix, p) <==> Climb(pool, y, suffix, p)
    decreases |suffix|
  {
    if suffix != [] && Linked(pool, y) {
      CutSelf(pool, pool', p, pool[y].parent.p, suffix[..|suffix| - 1]);
      var rank: map<Ptr, int> :| Ranked(pool, rank);
      if Climb(pool, y, suffix, p) { ClimbDown(pool, rank, y, suffix, p); }
    }
  }

  lemma {:induction false} ClimbDown(pool: Pool, rank: map<Ptr, int>, y: Ptr, suffix: seq<Name>, p: Ptr)
    requires Ranked(pool, rank) && (forall z :: Linked(pool, z) ==> pool[z].parent.To? && pool[z].parent.p in pool)
    requires Climb(pool, y, suffix, p) && suffix != []
    ensures p in pool && rank[p] < rank[y]
    decreases |suffix|
  {
    if |suffix| > 1 {
      ClimbDown(pool, rank, pool[y].parent.p, suffix[..|suffix| - 1], p);
    }
  }

  lemma UnlinkCuts(t: Table, p: Ptr)
    requires Good(t) && Linked(t.pool, p)
    ensures CanUnlink(t, p) && Cut(t.pool, Unlink(t, p).pool, p)
  {
    UnlinkPool(t, p);
    var q := t.pool[p].parent.p;
    if t.pool[q].refctr == 1 { LastReference(t.pool, q, p); }
  }

  // ----- climbing before and after Link -----

  /** Linking `p` leaves the paths of whatever is not below it. */
  lemma {:induction false} LinkElsewhere(pool: Pool, pool': Pool, p: Ptr, q: Ptr, name: Name, y: Ptr, names: seq<Name>)
    requires CanLink(pool, p, q, name) && LinkedPool(pool, p, q, name, pool') && !Below(pool, y, p)
    ensures IsPath(pool', y, names) <==> IsPath(pool, y, names)
    decreases |names|
  {
    assert Climb(pool, p, [], p);
    if names != [] && Linked(pool, y) && pool[y].parent.To? {
      BelowParent(pool, y, p);
      LinkElsewhere(pool, pool', p, q, name, pool[y].parent.p, names[..|names| - 1]);
    }
  }

  lemma {:induction false} LinkClimb(pool: Pool, pool': Pool, p: Ptr, q: Ptr, name: Name, y: Ptr, suffix: seq<Name>)
    requires CanLink(pool, p, q, name) && LinkedPool(pool, p, q, name, pool') && Climb(pool, y, suffix, p)
    ensures Climb(pool', y, suffix, p)
    decreases |suffix|
  {
    if suffix != [] {
      LinkClimb(pool, pool', p, q, name, pool[y].parent.p, suffix[..|suffix| - 1]);
    }
  }

  /** Whatever is below `p` gets the path of `p`'s new place and keeps its suffix. */
  lemma LinkBelow(pool: Pool, pool': Pool, p: Ptr, q: Ptr, name: Name, y: Ptr, suffix: seq<Name>, names: seq<Name>)
    requires CanLink(pool, p, q, name) && LinkedPool(pool, p, q, name, pool') && Climb(pool, y, suffix, p)
    ensures IsPath(pool', y, names) <==>
            |names| > |suffix| && names == names[..|names| - |suffix| - 1] + [name] + suffix
              && IsPath(pool, q, names[..|names| - |suffix| - 1])
  {
    LinkClimb(pool, pool', p, q, name, y, suffix);
    var k := |names| - |suffix|;
    if IsPath(pool', y, names) {
      PathsAgree(pool', y, names, suffix, p);
      var here := names[..k];
      assert here != [] && here[|here| - 1] == name;
      assert here[..k - 1] == names[..k - 1];
      assert here == names[..k - 1] + [name];
      LinkElsewhere(pool, pool', p, q, name, q, names[..k - 1]);
    }
    if k > 0 && names == names[..k - 1] + [name] + suffix && IsPath(pool, q, names[..k - 1]) {
      LinkElsewhere(pool, pool', p, q, name, q, names[..k - 1]);
      var here := names[..k - 1] + [name];
      assert here[..|here| - 1] == names[..k - 1];
      assert IsPath(pool', p, here);
      PathsJoin(pool', y, here, suffix, p);
    }
  }

  // ----- rename_node -----

  /** Whatever hung under the new name loses it first. */
  function Displace(t: Table, x: Ref): Table
    requires x.To? ==> CanUnlink(t, x.p)
  {
    if x.To? then Unlink(t, x.p) else t
  }

  /** The arguments of a rename as rename_node finds them: `p` is renamed, `x`
      is what has the new name in directory `q`, which the kernel holds and
      which is not inside `p`. */
  ghost predicate CanRename(t: Table, p: Ptr, x: Ref, q: Ptr, name: Name) {
    && Linked(t.pool, p) && q in t.pool && t.pool[q].nlookup > 0 && !Below(t.pool, q, p)
    && (x.To? ==> Linked(t.pool, x.p) && t.pool[x.p].parent == To(q) && t.pool[x.p].name == Some(name))
    && (x.Null? ==> NameFree(t.pool, q, name))
  }

  /** A node that the kernel holds survives the unlinking of others. */
  lemma HeldSurvives(t: Table, p: Ptr, q: Ptr)
    requires Good(t) && Linked(t.pool, p) && q in t.pool && t.pool[q].nlookup > 0 && q != p
    ensures CanUnlink(t, p) && q in Unlink(t, p).pool && Unlink(t, p).pool[q].nlookup == t.pool[q].nlookup
    ensures Unlink(t, p).pool[q].id == t.pool[q].id
  {
    UnlinkPool(t, p);
    var d := t.pool[p].parent.p;
    if t.pool[d].refctr == 1 { LastReference(t.pool, d, p); }
  }

  lemma StillNotBelow(t: Table, z: Ptr, q: Ptr, p: Ptr)
    requires Good(t) && Linked(t.pool, z) && !Below(t.pool, q, p)
    ensures CanUnlink(t, z) && !Below(Unlink(t, z).pool, q, p)
  {
    UnlinkCuts(t, z);
    var pool' := Unlink(t, z).pool;
    if Below(pool', q, p) {
      var suffix: seq<Name> :| Climb(pool', q, suffix, p);
      FewerClimb(t.pool, pool', q, suffix, p);
    }
  }

  lemma DisplaceReady(t: Table, p: Ptr, x: Ref, q: Ptr, name: Name)
    requires Good(t) && CanRename(t, p, x, q, name) && x != To(p)
    ensures x.To? ==> CanUnlink(t, x.p)
    ensures Good(Displace(t, x)) && CanRename(Displace(t, x), p, Null, q, name)
  {
    if x.To? {
      UnlinkGood(t, x.p);
      UnlinkCuts(t, x.p);
      NotItself(t, x.p, q);
      HeldSurvives(t, x.p, q);
      StillNotBelow(t, x.p, q, p);
      FreedName(t, x.p, q, name);
      hide TreeOk, ChainsOk, Below, Unlink;
    }
  }

  lemma NotItself(t: Table, z: Ptr, q: Ptr)
    requires Good(t) && Linked(t.pool, z) && t.pool[z].parent == To(q)
    ensures z != q && !Below(t.pool, q, z)
  {
    NoSelfParent(t.pool, z);
    if Below(t.pool, q, z) {
      var suffix: seq<Name> :| Climb(t.pool, q, suffix, z);
      var rank: map<Ptr, int> :| Ranked(t.pool, rank);
      ParentsKnown(t.pool);
      ClimbDown(t.pool, rank, q, suffix, z);
    }
  }

  lemma ParentsKnown(pool: Pool)
    requires TreeOk(pool)
    ensures forall z :: Linked(pool, z) ==> pool[z].parent.To? && pool[z].parent.p in pool
  {
    forall z | Linked(pool, z) ensures pool[z].parent.To? && pool[z].parent.p in pool {
      assert NodeOk(pool, z);
    }
  }

  lemma FreedName(t: Table, z: Ptr, q: Ptr, name: Name)
    requires Good(t) && Linked(t.pool, z) && t.pool[z].parent == To(q) && t.pool[z].name == Some(name)
    ensures CanUnlink(t, z) && NameFree(Unlink(t, z).pool, q, name)
  {
    UnlinkCuts(t, z);
    var pool' := Unlink(t, z).pool;
    forall y <- pool' ensures Linked(pool', y) && pool'[y].parent == To(q) ==> pool'[y].name != Some(name) {
      if Linked(pool', y) && y != z { assert Linked(t.pool, y); }
    }
  }

  lemma SameNameFree(t: Table, z: Ptr, q: Ptr, name: Name)
    requires Good(t) && Linked(t.pool, z) && NameFree(t.pool, q, name)
    ensures CanUnlink(t, z) && NameFree(Unlink(t, z).pool, q, name)
  {
    UnlinkCuts(t, z);
    var pool' := Unlink(t, z).pool;
    forall y <- pool' ensures Linked(pool', y) && pool'[y].parent == To(q) ==> pool'[y].name != Some(name) {
      if Linked(pool', y) { assert Linked(t.pool, y); }
    }
  }

  /** After both are unlinked, the renamed node can be linked at its new place. */
  lemma UnlinkReady(t: Table, p: Ptr, x: Ref, q: Ptr, name: Name)
    requires Good(t) && CanRename(t, p, x, q, name) && (x.Null? || x == To(p))
    ensures CanUnlink(t, p) && Good(Unlink(t, p)) && CanLink(Unlink(t, p).pool, p, q, name)
  {
    UnlinkGood(t, p);
    UnlinkPool(t, p);
    assert Climb(t.pool, p, [], p);
    HeldSurvives(t, p, q);
    StillNotBelow(t, p, q, p);
    assert NodeOk(t.pool, p);
    if x.To? { FreedName(t, p, q, name); } else { SameNameFree(t, p, q, name); }
    hide TreeOk, ChainsOk, Below, Unlink, NameFree;
  }

  /** The table after a rename: displaced, unlinked, linked again. */
  ghost function Renamed(t: Table, p: Ptr, x: Ref, q: Ptr, name: Name): (t': Table)
    requires Good(t) && CanRename(t, p, x, q, name)
    ensures Good(t')
  {
    if x == To(p) then
      UnlinkReady(t, p, x, q, name);
      LinkGood(Unlink(t, p), p, q, name);
      Link(Unlink(t, p), p, q, name)
    else
      DisplaceReady(t, p, x, q, name);
      UnlinkReady(Displace(t, x), p, Null, q, name);
      LinkGood(Unlink(Displace(t, x), p), p, q, name);
      Link(Unlink(Displace(t, x), p), p, q, name)
  }

  /** Where the node `y` is found after a rename, when no other node is displaced. */
  lemma MovePaths(t: Table, p: Ptr, x: Ref, q: Ptr, name: Name, y: Ptr, names: seq<Name>)
    requires Good(t) && CanRename(t, p, x, q, name) && (x.Null? || x == To(p))
    requires CanUnlink(t, p) && CanLink(Unlink(t, p).pool, p, q, name)
    ensures var pool' := Link(Unlink(t, p), p, q, name).pool;
            && (!Below(t.pool, y, p) ==> (IsPath(pool', y, names) <==> IsPath(t.pool, y, names)))
            && (forall suffix: seq<Name> | Climb(t.pool, y, suffix, p) ::
                  IsPath(pool', y, names) <==>
                  |names| > |suffix| && names == names[..|names| - |suffix| - 1] + [name] + suffix
                  && IsPath(t.pool, q, names[..|names| - |suffix| - 1]))
  {
    hide Good, CanRename, Unlink, Link, Cut, LinkedPool, CanLink, IsPath, Climb, Below;
    MoveFacts(t, p, x, q, name);
    if !Below(t.pool, y, p) { MoveElsewhere(t, p, x, q, name, y, names); }
    forall suffix: seq<Name> | Climb(t.pool, y, suffix, p)
      ensures IsPath(Link(Unlink(t, p), p, q, name).pool, y, names) <==>
              |names| > |suffix| && names == names[..|names| - |suffix| - 1] + [name] + suffix
              && IsPath(t.pool, q, names[..|names| - |suffix| - 1])
    {
      MoveBelow(t, p, x, q, name, y, suffix, names);
    }
  }

  lemma MoveFacts(t: Table, p: Ptr, x: Ref, q: Ptr, name: Name)
    requires Good(t) && CanRename(t, p, x, q, name) && CanUnlink(t, p) && CanLink(Unlink(t, p).pool, p, q, name)
    ensures |Unlink(t, p).names| == TABLE_SIZE && p in Unlink(t, p).pool && q in Unlink(t, p).pool && p != ROOT
    ensures Cut(t.pool, Unlink(t, p).pool, p)
            && LinkedPool(Unlink(t, p).pool, p, q, name, Link(Unlink(t, p), p, q, name).pool)
    ensures Linked(t.pool, p) && !Below(t.pool, q, p) && Acyclic(t.pool)
  {
    hide NodeOk, Unique, Acyclic, ChainsOk, Below, NameFree, Remove, NameHash, IdHash;
    UnlinkCuts(t, p);
  }

  lemma MoveElsewhere(t: Table, p: Ptr, x: Ref, q: Ptr, name: Name, y: Ptr, names: seq<Name>)
    requires Good(t) && CanRename(t, p, x, q, name) && CanUnlink(t, p) && CanLink(Unlink(t, p).pool, p, q, name)
    requires !Below(t.pool, y, p)
    ensures |Unlink(t, p).names| == TABLE_SIZE && p in Unlink(t, p).pool && q in Unlink(t, p).pool
    ensures IsPath(Link(Unlink(t, p), p, q, name).pool, y, names) <==> IsPath(t.pool, y, names)
  {
    hide Good, CanRename, Unlink, Link, Cut, LinkedPool, CanLink, IsPath, Climb, Below, Linked, Acyclic;
    MoveFacts(t, p, x, q, name);
    var pool2 := Unlink(t, p).pool;
    StillNotBelow(t, p, y, p);
    LinkElsewhere(pool2, Link(Unlink(t, p), p, q, name).pool, p, q, name, y, names);
    CutPaths(t.pool, pool2, p, y, names);
  }

  lemma MoveBelow(t: Table, p: Ptr, x: Ref, q: Ptr, name: Name, y: Ptr, suffix: seq<Name>, names: seq<Name>)
    requires Good(t) && CanRename(t, p, x, q, name) && CanUnlink(t, p) && CanLink(Unlink(t, p).pool, p, q, name)
    requires Climb(t.pool, y, suffix, p)
    ensures |Unlink(t, p).names| == TABLE_SIZE && p in Unlink(t, p).pool && q in Unlink(t, p).pool
    ensures IsPath(Link(Unlink(t, p), p, q, name).pool, y, names) <==>
            |names| > |suffix| && names == names[..|names| - |suffix| - 1] + [name] + suffix
            && IsPath(t.pool, q, names[..|names| - |suffix| - 1])
  {
    ParentsOf(t);
    hide Good, CanRename, Unlink, Link, Cut, LinkedPool, CanLink, IsPath, Climb, Below, Acyclic;
    MoveFacts(t, p, x, q, name);
    var pool2 := Unlink(t, p).pool;
    CutSelf(t.pool, pool2, p, y, suffix);
    LinkBelow(pool2, Link(Unlink(t, p), p, q, name).pool, p, q, name, y, suffix, names);
    if |names| > |suffix| { CutPaths(t.pool, pool2, p, q, names[..|names| - |suffix| - 1]); }
  }

  lemma ParentsOf(t: Table)
    requires Good(t)
    ensures forall z :: Linked(t.pool, z) ==> t.pool[z].parent.To? && t.pool[z].parent.p in t.pool
  {
    hide TreeOk, ChainsOk;
    ParentsKnown(t.pool);
  }

  /** A rename moves a whole subtree: what is below the renamed node is found
      under the new directory and name with the rest of its path unchanged, what
      was below a displaced node has no path any more, everything else stays. */
  lemma RenameMovesSubtree(t: Table, p: Ptr, x: Ref, q: Ptr, name: Name, y: Ptr, names: seq<Name>)
    requires Good(t) && CanRename(t, p, x, q, name)
    ensures var pool' := Renamed(t, p, x, q, name).pool;
            && (forall suffix: seq<Name> | Climb(t.pool, y, suffix, p) ::
                  IsPath(pool', y, names) <==>
                  |names| > |suffix| && names == names[..|names| - |suffix| - 1] + [name] + suffix
                  && IsPath(t.pool, q, names[..|names| - |suffix| - 1]))
            && (!Below(t.pool, y, p) && x.To? && Below(t.pool, y, x.p) ==> !IsPath(pool', y, names))
            && (!Below(t.pool, y, p) && !(x.To? && Below(t.pool, y, x.p))
               ==> (IsPath(pool', y, names) <==> IsPath(t.pool, y, names)))
  {
    if x == To(p) {
      UnlinkReady(t, p, x, q, name);
      MovePaths(t, p, x, q, name, y, names);
    } else {
      DisplaceReady(t, p, x, q, name);
      var t1 := Displace(t, x);
      UnlinkReady(t1, p, Null, q, name);
      MovePaths(t1, p, Null, q, name, y, names);
      if x.To? {
        DisplacePaths(t, p, x.p, q, name, y, names);
      }
    }
    hide Good, CanRename, Unlink, Link, IsPath, Climb, Below, CanLink;
  }

  lemma DisplacePaths(t: Table, p: Ptr, z: Ptr, q: Ptr, name: Name, y: Ptr, names: seq<Name>)
    requires Good(t) && CanRename(t, p, To(z), q, name) && z != p
    ensures CanUnlink(t, z)
    ensures var pool1 := Unlink(t, z).pool;
            && (Below(pool1, y, p) <==> Below(t.pool, y, p))
            && (forall suffix: seq<Name> :: Climb(pool1, y, suffix, p) <==> Climb(t.pool, y, suffix, p))
            && (forall d: seq<Name> :: IsPath(pool1, q, d) <==> IsPath(t.pool, q, d))
            && (IsPath(pool1, y, names) <==> IsPath(t.pool, y, names) && !Below(t.pool, y, z))
  {
    UnlinkCuts(t, z);
    var pool1 := Unlink(t, z).pool;
    NoSelfParent(t.pool, z);
    if Below(t.pool, z, p) { BelowParent(t.pool, z, p); }
    NotItself(t, z, q);
    forall suffix: seq<Name> ensures Climb(pool1, y, suffix, p) <==> Climb(t.pool, y, suffix, p) {
      CutClimb(t.pool, pool1, z, y, suffix, p);
    }
    forall d: seq<Name> ensures IsPath(pool1, q, d) <==> IsPath(t.pool, q, d) {
      CutPaths(t.pool, pool1, z, q, d);
    }
    CutPaths(t.pool, pool1, z, y, names);
  }

  // ----- find_node -----

  lemma {:induction false} LeafClimb(pool: Pool, p: Ptr, x: Ptr, suffix: seq<Name>)
    requires forall y :: Linked(pool, y) ==> pool[y].parent != To(p)
    requires Climb(pool, x, suffix, p)
    ensures suffix == []
    decreases |suffix|
  {
    if suffix != [] {
      LeafClimb(pool, p, pool[x].parent.p, suffix[..|suffix| - 1]);
    }
  }

  /** A name that the table does not know is free. */
  lemma UnknownFree(t: Table, parent: int, q: Ptr, name: Name)
    requires Good(t) && q in t.pool && t.pool[q].id == parent && LookupName(t, parent, name) == Null
    ensures NameFree(t.pool, q, name)
  {
    forall x <- t.pool ensures Linked(t.pool, x) && t.pool[x].parent == To(q) ==> t.pool[x].name != Some(name) {
      LookupNameExact(t, parent, name, x);
    }
  }

  /** A new node under a free name. */
  ghost function Added(t: Table, p: Ptr, id: int, generation: int, q: Ptr, name: Name): (t': Table)
    requires Good(t) && p !in t.pool && q in t.pool && 1 <= id < FUSE_UNKNOWN_INO
             && (forall x <- t.pool :: t.pool[x].id != id)
    requires NameFree(t.pool, q, name)
    ensures Good(t')
  {
    AddReady(t, p, id, generation, q, name);
    LinkGood(Insert(t, p, id, generation), p, q, name);
    Link(Insert(t, p, id, generation), p, q, name)
  }

  lemma AddReady(t: Table, p: Ptr, id: int, generation: int, q: Ptr, name: Name)
    requires Good(t) && p !in t.pool && q in t.pool && 1 <= id < FUSE_UNKNOWN_INO
             && (forall x <- t.pool :: t.pool[x].id != id)
    requires NameFree(t.pool, q, name)
    ensures Good(Insert(t, p, id, generation)) && CanLink(Insert(t, p, id, generation).pool, p, q, name)
  {
    InsertGood(t, p, id, generation);
    InsertedLeaf(t, p, id, generation, q);
    assert ROOT in t.pool;
    hide TreeOk, ChainsOk, Below;
  }

  lemma InsertedLeaf(t: Table, p: Ptr, id: int, generation: int, q: Ptr)
    requires Good(t) && p !in t.pool && q in t.pool
    ensures !Below(Insert(t, p, id, generation).pool, q, p)
  {
    var pool' := Insert(t, p, id, generation).pool;
    forall y | Linked(pool', y) ensures pool'[y].parent != To(p) {
      if y != p { assert NodeOk(t.pool, y); }
    }
    if Below(pool', q, p) {
      var suffix: seq<Name> :| Climb(pool', q, suffix, p);
      LeafClimb(pool', p, q, suffix);
    }
  }

  /** Two versions of a node that the invariant does not tell apart. */
  predicate SameShape(n: Node, n': Node) {
    n'.id == n.id && n'.refctr == n.refctr && n'.parent == n.parent && n'.name == n.name && n'.nlookup >= 0
    && (n'.nlookup > 0 <==> n.nlookup > 0)
  }

  lemma ShapeNodes(pool: Pool, p: Ptr, n: Node, pool': Pool)
    requires TreeOk(pool) && p in pool && SameShape(pool[p], n) && pool' == pool[p := n]
    ensures forall x <- pool' :: NodeOk(pool', x)
  {
    forall x <- pool' ensures NodeOk(pool', x) {
      assert NodeOk(pool, x);
      ChildrenAfter(pool, pool', p, x);
    }
  }

  lemma ShapeUnique(pool: Pool, p: Ptr, n: Node)
    requires Unique(pool) && p in pool && SameShape(pool[p], n)
    ensures Unique(pool[p := n])
  {
  }

  lemma ShapeChains(t: Table, p: Ptr, n: Node)
    requires Good(t) && p in t.pool && SameShape(t.pool[p], n)
    ensures ChainsOk(t.(pool := t.pool[p := n]))
  {
    hide Unique, Acyclic, Children;
    var t' := t.(pool := t.pool[p := n]);
    forall h, x | 0 <= h < TABLE_SIZE ensures x in t'.ids[h] <==> InIdChain(t'.pool, x, h) {
      assert x in t.ids[h] <==> InIdChain(t.pool, x, h);
    }
    forall h, x | 0 <= h < TABLE_SIZE ensures x in t'.names[h] <==> InNameChain(t'.pool, x, h) {
      assert x in t.names[h] <==> InNameChain(t.pool, x, h);
      if Linked(t.pool, x) { assert NodeOk(t.pool, x); }
    }
  }

  lemma ShapeGood(t: Table, p: Ptr, n: Node)
    requires Good(t) && p in t.pool && SameShape(t.pool[p], n)
    ensures Good(t.(pool := t.pool[p := n]))
  {
    hide NodeOk, Unique, Acyclic, ChainsOk;
    ShapeNodes(t.pool, p, n, t.pool[p := n]);
    ShapeUnique(t.pool, p, n);
    ShapeChains(t, p, n);
    FewerEdges(t.pool, t.pool[p := n]);
  }

  /** One more lookup of a linked node changes nothing else. */
  lemma LookupGood(t: Table, p: Ptr, n: int)
    requires Good(t) && p in t.pool && t.pool[p].nlookup > 0 && n > 0
    ensures Good(SetLookup(t, p, n))
  {
    hide Good;
    ShapeGood(t, p, t.pool[p].(nlookup := n));
  }
}
