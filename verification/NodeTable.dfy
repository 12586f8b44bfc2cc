/** The inode table of libfuse (lib/fuse.c) as it runs: methods that walk and
    change the chains in place, each proved against the value it should leave. */
module NodeTable {
  import opened Sequences
  import opened NodeTree
  import opened NodeEffects

  const EBUSY: int := 16
  const ENOMEM: int := 12
  const TWO32: int := 0x1_0000_0000

  // ----- paths as strings -----

  /** The bytes that a path of these names takes in the buffer. */
  function Size(names: seq<Name>): (n: nat)
    ensures names != [] ==> n > 0
  {
    if names == [] then 0 else |names[0]| + 1 + Size(names[1..])
  }

  function Joined(names: seq<Name>): string {
    if names == [] then "" else "/" + names[0] + Joined(names[1..])
  }

  /** The path string of a node: the root is "/". */
  function Render(names: seq<Name>): string {
    if names == [] then "/" else Joined(names)
  }

  lemma {:induction false} JoinedConcat(a: seq<Name>, b: seq<Name>)
    ensures Joined(a + b) == Joined(a) + Joined(b) && Size(a + b) == Size(a) + Size(b)
  {
    if a == [] {
      assert a + b == b;
    } else {
      assert (a + b)[1..] == a[1..] + b;
      JoinedConcat(a[1..], b);
    }
  }

  lemma {:induction false} JoinedLength(names: seq<Name>)
    ensures |Joined(names)| == Size(names)
  {
    if names != [] {
      JoinedLength(names[1..]);
    }
  }

  /** `path` is the path of `name` in the directory `y`, or of `y` itself; None
      when it has none or a too long one. */
  ghost predicate PathIs(pool: Pool, y: Ptr, name: Option<Name>, path: Option<string>) {
    match path
    case Some(p) =>
      exists names: seq<Name> ::
        IsPath(pool, y, names) && Size(Full(names, name)) < FUSE_MAX_PATH && p == Render(Full(names, name))
    case None => forall names: seq<Name> | IsPath(pool, y, names) :: Size(Full(names, name)) >= FUSE_MAX_PATH
  }

  function Full(names: seq<Name>, name: Option<Name>): seq<Name> {
    if name.Some? then names + [name.value] else names
  }

  // ----- chains -----

  lemma {:induction false} RemoveAt(s: seq<Ptr>, i: int)
    requires NoDup(s) && 0 <= i < |s|
    ensures Remove(s, s[i]) == s[..i] + s[i + 1..]
    decreases i
  {
    if i == 0 {
      NoDupTail(s);
      assert s[..0] + s[1..] == s[1..];
    } else {
      NoDupTail(s);
      RemoveAt(s[1..], i - 1);
      assert s[..i] + s[i + 1..] == [s[0]] + (s[1..][..i - 1] + s[1..][i..]);
    }
  }

  lemma {:induction false} SearchIdFrame(pool: Pool, pool': Pool, chain: seq<Ptr>, id: int)
    requires forall c <- chain :: c in pool && c in pool' && pool'[c].id == pool[c].id
    ensures SearchId(pool', chain, id) == SearchId(pool, chain, id)
  {
    if chain != [] {
      SearchIdFrame(pool, pool', chain[1..], id);
    }
  }

  // ----- ids -----

  predicate Usable(pool: Pool, id: int) {
    1 <= id < FUSE_UNKNOWN_INO && forall p <- pool :: pool[p].id != id
  }

  lemma UsableRange(pool: Pool, id: int)
    ensures Usable(pool, id) ==> 1 <= id < FUSE_UNKNOWN_INO
  {
  }

  /** How far the counter has to go to reach `id`. */
  function Gap(ctr: int, id: int): int {
    if ctr < id then id - ctr else id - ctr + TWO32
  }

  /** The counter and the generation after `pos` moves of the counter. */
  function CtrAt(pos: nat): (c: int)
    ensures 0 <= c < TWO32
  {
    pos % TWO32
  }

  function GenerationAt(pos: nat): int { pos / TWO32 % TWO32 }

  lemma NextPosition(pos: nat)
    ensures CtrAt(pos + 1) == (CtrAt(pos) + 1) % TWO32
    ensures CtrAt(pos + 1) == if CtrAt(pos) + 1 == TWO32 then 0 else CtrAt(pos) + 1
    ensures GenerationAt(pos + 1) == if CtrAt(pos + 1) == 0 then (GenerationAt(pos) + 1) % TWO32 else GenerationAt(pos)
  {
  }

  /** Positions that the generation does not wrap around before differ in
      generation or id. */
  lemma PositionsDiffer(a: nat, b: nat)
    requires a < b < TWO32 * TWO32
    ensures (GenerationAt(a), CtrAt(a)) != (GenerationAt(b), CtrAt(b))
  {
    assert a == a / TWO32 * TWO32 + CtrAt(a) && b == b / TWO32 * TWO32 + CtrAt(b);
  }

  /** What unhash_name needs not to run into its abort or an assertion. */
  ghost predicate Unhashable(t: Table, node: Ptr) {
    && CanUnlink(t, node)
    && (t.pool[node].name.Some? ==>
          var q := t.pool[node].parent.p;
          var h := NameHash(t.pool[q].id, t.pool[node].name.value);
          && node in t.names[h] && NoDup(t.names[h]) && t.pool[q].refctr > 0
          && (t.pool[q].refctr == 1 ==> t.pool[q].name == None)
          && NoDup(t.ids[IdHash(t.pool[q].id)]))
  }

  /** In a good table it never does. */
  lemma NeverAborts(t: Table, node: Ptr)
    requires Good(t) && node in t.pool && node != ROOT
    ensures Unhashable(t, node)
  {
    if t.pool[node].name.Some? {
      NoSelfParent(t.pool, node);
      var q := t.pool[node].parent.p;
      var h := NameHash(t.pool[q].id, t.pool[node].name.value);
      assert node in t.names[h] <==> InNameChain(t.pool, node, h);
      assert NodeOk(t.pool, q);
      if t.pool[q].refctr == 1 { LastReference(t.pool, q, node); }
    }
  }

  /** The id table leads to nothing that was freed. */
  ghost predicate ChainsLive(t: Table) {
    |t.ids| == TABLE_SIZE && |t.names| == TABLE_SIZE && forall h, c | 0 <= h < TABLE_SIZE && c in t.ids[h] ::
      c in t.pool
  }

  lemma GoodLive(t: Table)
    requires Good(t)
    ensures ChainsLive(t)
  {
    forall h, c | 0 <= h < TABLE_SIZE && c in t.ids[h] ensures c in t.pool {
      assert InIdChain(t.pool, c, h);
    }
  }

  /** A node that is not in the id table yet changes no lookup there. */
  lemma NewApart(t: Table, t': Table, p: Ptr, id: int)
    requires ChainsLive(t) && p !in t.pool && p in t'.pool && t' == t.(pool := t.pool[p := t'.pool[p]])
    ensures ChainsLive(t') && LookupId(t', id) == LookupId(t, id)
  {
    SearchIdFrame(t.pool, t'.pool, t.ids[IdHash(id)], id);
  }

  /** No id that was handed out before had this generation and number. */
  predicate NewIdentity(issued: set<nat>, generation: int, id: int) {
    forall i <- issued :: (GenerationAt(i), CtrAt(i)) != (generation, id)
  }

  lemma IdentityIsNew(issued: set<nat>, pos: nat)
    ensures pos < TWO32 * TWO32 && (forall i <- issued :: i < pos)
            ==> NewIdentity(issued, GenerationAt(pos), CtrAt(pos))
  {
    if pos < TWO32 * TWO32 && forall i <- issued :: i < pos {
      forall i <- issued ensures (GenerationAt(i), CtrAt(i)) != (GenerationAt(pos), CtrAt(pos)) {
        PositionsDiffer(i, pos);
      }
    }
  }

  lemma RootOnly(t: Table)
    requires t.pool == map[ROOT := Node(FUSE_ROOT_ID, 0, 1, Null, Some("/"), 1, false)]
    requires |t.ids| == |t.names| == TABLE_SIZE
    requires forall h | 0 <= h < TABLE_SIZE ::
             t.names[h] == [] && t.ids[h] == if h == IdHash(FUSE_ROOT_ID) then [ROOT] else []
    ensures Good(t)
  {
    assert Children(t.pool, ROOT) == {};
    assert Ranked(t.pool, map[ROOT := 0]);
  }

  class Fuse {
    var pool: Pool
    var idTable: seq<seq<Ptr>>
    var nameTable: seq<seq<Ptr>>
    var ctr: int
    var generation: int
    ghost var pos: nat            // how often the counter has moved in all
    ghost var issued: set<nat>    // the positions it gave ids out at

    ghost function Value(): Table
      reads this
    {
      Table(pool, idTable, nameTable)
    }

    ghost predicate Counted()
      reads this
    {
      && ctr == CtrAt(pos) && generation == GenerationAt(pos)
      && (forall i <- issued :: i <= pos)
    }

    ghost predicate Valid()
      reads this
    {
      Good(Value()) && Counted()
    }

    /** fuse_new: a table with nothing but the root. */
    constructor ()
      ensures Valid() && pool.Keys == {ROOT} && issued == {}
    {
      pool := map[ROOT := Node(FUSE_ROOT_ID, 0, 1, Null, Some("/"), 1, false)];
      idTable := seq(TABLE_SIZE, h => if h == IdHash(FUSE_ROOT_ID) then [ROOT] else []);
      nameTable := seq(TABLE_SIZE, h => []);
      ctr, generation, pos, issued := 0, 0, 0, {};
      new;
      hide Good;
      RootOnly(Value());
    }

    method GetNodeNocheck(nodeid: int) returns (node: Ref)
      requires ChainsLive(Value())
      ensures node == LookupId(Value(), nodeid)
    {
      var chain := idTable[IdHash(nodeid)];
      var i := 0;
      while i < |chain|
        invariant 0 <= i <= |chain|
        invariant SearchId(pool, chain[i..], nodeid) == LookupId(Value(), nodeid)
      {
        var c := chain[i];
        assert c in idTable[IdHash(nodeid)];
        if pool[c].id == nodeid { return To(c); }
        i := i + 1;
      }
      return Null;
    }

    method LookupNode(parent: int, name: Name) returns (node: Ref)
      requires Good(Value())
      ensures node == LookupName(Value(), parent, name)
    {
      var h := NameHash(parent, name);
      var chain := nameTable[h];
      var i := 0;
      while i < |chain|
        invariant 0 <= i <= |chain|
        invariant SearchName(pool, chain[i..], parent, name) == LookupName(Value(), parent, name)
      {
        var c := chain[i];
        assert InNameChain(pool, c, h) by { assert c in nameTable[h]; }
        if pool[pool[c].parent.p].id == parent && pool[c].name == Some(name) { return To(c); }
        i := i + 1;
      }
      return Null;
    }

    method UnhashId(node: Ptr)
      requires node in pool && |idTable| == TABLE_SIZE && NoDup(idTable[IdHash(pool[node].id)])
      modifies `idTable
      ensures var h := IdHash(pool[node].id); idTable == old(idTable)[h := Remove(old(idTable)[h], node)]
    {
      var h := IdHash(pool[node].id);
      var chain := idTable[h];
      var i := 0;
      while i < |chain|
        invariant 0 <= i <= |chain| && node !in chain[..i] && idTable == old(idTable)
      {
        if chain[i] == node {
          RemoveAt(chain, i);
          idTable := idTable[h := chain[..i] + chain[i + 1..]];
          return;
        }
        i := i + 1;
      }
      assert node !in chain;
      assert idTable == old(idTable)[h := old(idTable)[h]];
    }

    /** delete_node, with its assertion that the node has no name. */
    method DeleteNode(node: Ptr)
      requires node in pool && pool[node].name == None && |idTable| == TABLE_SIZE
               && NoDup(idTable[IdHash(pool[node].id)])
      modifies `pool, `idTable
      ensures pool == old(pool) - {node}
      ensures var h := IdHash(old(pool[node].id)); idTable == old(idTable)[h := Remove(old(idTable)[h], node)]
    {
      UnhashId(node);
      pool := pool - {node};
    }

    /** unref_node, with its assertion that there is a reference to drop. */
    method UnrefNode(node: Ptr)
      requires node in pool && pool[node].refctr > 0 && (pool[node].refctr == 1 ==> pool[node].name == None)
      requires |idTable| == TABLE_SIZE && NoDup(idTable[IdHash(pool[node].id)])
      modifies `pool, `idTable
      ensures Value() == Unref(old(Value()), node)
    {
      pool := pool[node := pool[node].(refctr := pool[node].refctr - 1)];
      if pool[node].refctr == 0 {
        DeleteNode(node);
        assert pool == old(pool) - {node};
      }
    }

    method UnhashName(node: Ptr)
      requires Unhashable(Value(), node)
      modifies `pool, `idTable, `nameTable
      ensures Value() == Unlink(old(Value()), node)
    {
      if pool[node].name.Some? {
        var q := pool[node].parent.p;
        var h := NameHash(pool[q].id, pool[node].name.value);
        var chain := nameTable[h];
        var i := 0;
        while i < |chain|
          invariant 0 <= i <= |chain| && node !in chain[..i] && Value() == old(Value()) && chain == nameTable[h]
        {
          if chain[i] == node {
            RemoveAt(chain, i);
            nameTable := nameTable[h := chain[..i] + chain[i + 1..]];
            UnrefNode(q);
            pool := pool[node := pool[node].(name := None, parent := Null)];
            return;
          }
          i := i + 1;
        }
        // the abort of unhash_name
        assert false;
      }
    }

    /** hash_name; `copied` says whether the name could be duplicated. */
    method HashName(node: Ptr, parentid: int, name: Name, copied: bool) returns (ok: bool)
      requires ChainsLive(Value())
      requires node in pool && pool[node].name == None && LookupId(Value(), parentid).To?
      modifies `pool, `nameTable
      ensures ok == copied && node in pool
      ensures !ok ==> Value() == old(Value())
      ensures ok ==> Value() == Link(old(Value()), node, LookupId(old(Value()), parentid).p, name)
    {
      var h := NameHash(parentid, name);
      var parent := GetNodeNocheck(parentid);
      SearchIdFinds(pool, idTable[IdHash(parentid)], parentid);
      if !copied { return false; }
      var q := parent.p;
      pool := pool[q := pool[q].(refctr := pool[q].refctr + 1)];
      pool := pool[node := pool[node].(name := Some(name), parent := To(q))];
      nameTable := nameTable[h := [node] + nameTable[h]];
      return true;
    }

    /** next_id: the first position after the current one whose id is free. */
    method NextId() returns (id: int)
      requires Valid() && exists free: int :: Usable(pool, free)
      modifies `ctr, `generation, `pos
      ensures Counted() && id == ctr && Usable(pool, id) && pos > old(pos)
      ensures forall k | old(pos) < k < pos :: !Usable(pool, CtrAt(k))
    {
      hide CtrAt, GenerationAt, Good, LookupId, ChainsLive, Usable;
      GoodLive(Value());
      ghost var free: int :| Usable(pool, free);
      UsableRange(pool, free);
      var busy := true;
      while busy
        invariant Counted() && pos >= old(pos) && (!busy ==> Usable(pool, ctr) && pos > old(pos))
        invariant forall k | old(pos) < k < pos :: !Usable(pool, CtrAt(k))
        invariant busy && pos > old(pos) ==> !Usable(pool, ctr)
        decreases if busy then 1 + Gap(ctr, free) else 0
      {
        NextPosition(pos);
        UsableRange(pool, (ctr + 1) % TWO32);
        ctr := (ctr + 1) % TWO32;
        if ctr == 0 { generation := (generation + 1) % TWO32; }
        pos := pos + 1;
        if ctr == 0 || ctr == FUSE_UNKNOWN_INO {
          busy := true;
        } else {
          var node := GetNodeNocheck(ctr);
          FreeIffUsable(Value(), ctr);
          busy := node != Null;
        }
      }
      return ctr;
    }

    /** The part of find_node that makes a node, with its first lookup. */
    method MakeNode(parent: int, name: Name, p: Ptr, copied: bool) returns (ok: bool)
      requires Valid() && LookupId(Value(), parent).To? && LookupName(Value(), parent, name) == Null
      requires p !in pool && exists free: int :: Usable(pool, free)
      modifies `pool, `idTable, `nameTable, `ctr, `generation, `pos, `issued
      ensures Valid() && ok == copied
      ensures FoundOrMade(old(Value()), Value(), parent, name, To(p), copied, ctr, generation,
                          if ok then To(p) else Null)
      ensures if ok then pos > old(pos) && issued == old(issued) + {pos} else issued == old(issued)
    {
      hide Good, NameFree, LookupId, LookupName, FoundOrMade, Added, CtrAt, GenerationAt, SearchId;
      ghost var t := Value();
      GoodLive(t);
      MakeFacts(t, parent, name);
      ghost var q := LookupId(t, parent).p;
      var id := NextId();
      pool := pool[p := Node(id, generation, 1, Null, None, 0, false)];
      NewApart(t, Value(), p, parent);
      ok := HashName(p, parent, name, copied);
      if !ok {
        pool := pool - {p};
        assert pool == t.pool;
        NothingMade(t, parent, name, To(p), copied, ctr, generation);
        return;
      }
      idTable := idTable[IdHash(id) := [p] + idTable[IdHash(id)]];
      pool := pool[p := pool[p].(nlookup := pool[p].nlookup + 1)];
      issued := issued + {pos};
      MadeNode(t, Value(), p, id, generation, parent, q, name);
    }

    /** find_node; `mem` is what calloc returns, `copied` whether the name could
        be duplicated. */
    method FindNode(parent: int, name: Name, mem: Ref, copied: bool) returns (node: Ref)
      requires Valid() && LookupId(Value(), parent).To? && exists free: int :: Usable(pool, free)
      requires mem.To? ==> mem.p !in pool
      modifies `pool, `idTable, `nameTable, `ctr, `generation, `pos, `issued
      ensures Valid()
      ensures FoundOrMade(old(Value()), Value(), parent, name, mem, copied, ctr, generation, node)
      ensures FindEffect(old(Value()), pool, parent, name, mem, copied, node, ctr, generation)
      ensures if LookupName(old(Value()), parent, name).Null? && mem.To? && copied
              then issued == old(issued) + {pos} && (pos < TWO32 * TWO32 ==> NewIdentity(old(issued), generation, ctr))
              else issued == old(issued)
    {
      hide Good, CtrAt, GenerationAt, LookupId, LookupName, NameFree, Added, IsEntry, Usable, FoundOrMade, FindEffect;
      ghost var t := Value();
      node := LookupNode(parent, name);
      if node == Null {
        NothingMade(t, parent, name, mem, copied, ctr, generation);
        if mem == Null {
          FindEffects(t, Value(), parent, name, mem, copied, ctr, generation, Null);
          return Null;
        }
        var ok := MakeNode(parent, name, mem.p, copied);
        IdentityIsNew(old(issued), pos);
        node := if ok then mem else Null;
        FindEffects(t, Value(), parent, name, mem, copied, ctr, generation, node);
        return node;
      }
      AgainFound(t, parent, name, mem, copied, ctr, generation, node.p);
      var p := node.p;
      pool := pool[p := pool[p].(nlookup := pool[p].nlookup + 1)];
      FindEffects(t, Value(), parent, name, mem, copied, ctr, generation, node);
    }

    /** forget_node; the kernel gives back lookups that it has, of nodes it knows. */
    method ForgetNode(nodeid: int, nlookup: int)
      requires Valid() && nlookup >= 0
      requires nodeid != FUSE_ROOT_ID ==>
               LookupId(Value(), nodeid).To? && pool[LookupId(Value(), nodeid).p].nlookup >= nlookup
               && pool[LookupId(Value(), nodeid).p].nlookup > 0
      modifies `pool, `idTable, `nameTable
      ensures Valid()
      ensures nodeid == FUSE_ROOT_ID ==> Value() == old(Value())
      ensures nodeid != FUSE_ROOT_ID ==>
              LookupId(old(Value()), nodeid).To?
              && Value() == Forgotten(old(Value()), LookupId(old(Value()), nodeid).p, nlookup)
              && ForgetEffect(old(Value()), pool, LookupId(old(Value()), nodeid).p, nlookup)
    {
      hide Good, LookupId, Unlink, CtrAt, GenerationAt, Unhashable, Unref, Forgotten, ChainsLive, ForgetEffect;
      if nodeid == FUSE_ROOT_ID { return; }
      ghost var t := Value();
      GoodLive(Value());
      var node := GetNodeNocheck(nodeid);
      var p := node.p;
      ForgetFacts(t, p, nodeid, nlookup);
      ForgetSteps(t, p, nlookup);
      ForgetEffects(t, p, nlookup);
      pool := pool[p := pool[p].(nlookup := pool[p].nlookup - nlookup)];
      assert Value() == SetLookup(t, p, t.pool[p].nlookup - nlookup);
      if pool[p].nlookup == 0 {
        UnhashName(p);
        UnrefNode(p);
      }
    }

    /** remove_node. */
    method RemoveNode(dir: int, name: Name)
      requires Valid()
      modifies `pool, `idTable, `nameTable
      ensures Valid() && Value() == Removed(old(Value()), dir, name)
      ensures RemoveEffect(old(Value()), pool, dir, name)
    {
      hide Good, LookupName, Unlink, CtrAt, GenerationAt, Unhashable, RemoveEffect;
      ghost var t := Value();
      RemoveEffects(t, dir, name);
      var node := LookupNode(dir, name);
      RemoveSteps(t, dir, name);
      if node != Null {
        UnhashName(node.p);
      }
    }

    /** rename_node; `hide` asks to keep the node when it is only renamed out of
        the way, `copied` says whether the new name could be duplicated. */
    method RenameNode(olddir: int, oldname: Name, newdir: int, newname: Name, away: bool,
                      copied: bool) returns (err: int)
      requires Valid() && MayRename(Value(), olddir, oldname, newdir)
      modifies `pool, `idTable, `nameTable
      ensures Valid()
      ensures (Value(), err) == RenameResult(old(Value()), olddir, oldname, newdir, newname, away, copied)
      ensures RenameEffect(old(Value()), pool, olddir, oldname, newdir, newname, away, copied, err)
    {
      hide RenameEffect, Good, LookupName, LookupId, Unlink, Link, CtrAt, GenerationAt, Unhashable, RenameResult,
           MayRename, ChainsLive;
      ghost var t := Value();
      RenameSteps(t, olddir, oldname, newdir, newname, away, copied);
      RenameEffects(t, olddir, oldname, newdir, newname, away, copied);
      var node := LookupNode(olddir, oldname);
      var newnode := LookupNode(newdir, newname);
      if node == Null { return 0; }
      if newnode != Null {
        if away { return -EBUSY; }
        UnhashName(newnode.p);
      }
      UnhashName(node.p);
      var ok := HashName(node.p, newdir, newname, copied);
      if !ok { return -ENOMEM; }
      if away {
        pool := pool[node.p := pool[node.p].(hidden := true)];
      }
      return 0;
    }

    /** add_name: prepends "/" and a name to what the buffer holds from `s` on. */
    method AddName(buf: array<char>, s: int, name: Name) returns (ok: bool, s': int)
      requires 0 <= s < buf.Length
      modifies buf
      ensures ok <==> s - |name| > 0
      ensures ok ==> s' == s - |name| - 1 && buf[s'..] == "/" + name + old(buf[s..])
    {
      s' := s - |name|;
      if s' <= 0 { return false, s'; }
      var k := 0;
      while k < |name|
        invariant 0 <= k <= |name| && buf[s'..s' + k] == name[..k] && buf[s..] == old(buf[s..])
      {
        buf[s' + k] := name[k];
        k := k + 1;
      }
      assert buf[s'..] == buf[s'..s' + k] + buf[s..];
      s' := s' - 1;
      buf[s'] := '/';
      return true, s';
    }

    /** get_path_name: the path of `name` in the directory `nodeid`, or of that
        node itself. Exactly the nodes that hang under the root have one, if it
        fits the buffer. */
    method GetPathName(nodeid: int, name: Option<Name>) returns (path: Option<string>)
      requires Valid() && LookupId(Value(), nodeid).To?
      ensures PathIs(pool, LookupId(Value(), nodeid).p, name, path)
    {
      hide Good, LookupId, CtrAt, GenerationAt, IsPath, Climb, Ranked, ChainsLive, PathIs, Size, Joined, Full, Render;
      var buf := new char[FUSE_MAX_PATH];
      var s := FUSE_MAX_PATH - 1;
      ghost var t := Value();
      GoodLive(t);
      ghost var start := LookupId(t, nodeid).p;
      ghost var suffix: seq<Name> := [];    // what was climbed
      NoNames(name);
      buf[s] := '\0';
      if name.Some? {
        var ok;
        ok, s := AddName(buf, s, name.value);
        if !ok {
          NameTooLong(pool, start, name.value);
          return None;
        }
      }
      var node := GetNodeNocheck(nodeid);
      ghost var rank := StartClimb(t, start, nodeid);
      while node.To? && pool[node.p].id != FUSE_ROOT_ID
        invariant node.To? && node.p in pool && node.p in rank && rank[node.p] >= 0
                  && Climb(t.pool, start, suffix, node.p)
        invariant 0 <= s < FUSE_MAX_PATH && s == FUSE_MAX_PATH - 1 - Size(Full(suffix, name))
        invariant buf[s..] == Joined(Full(suffix, name)) + ['\0']
        decreases if node.To? then rank[node.p] else -1
      {
        var n := pool[node.p];
        ClimbOn(t, rank, start, suffix, node.p, name);
        if n.name == None { return None; }
        var ok;
        ok, s := AddName(buf, s, n.name.value);
        if !ok {
          TooLong(pool, start, [n.name.value] + suffix, name);
          return None;
        }
        suffix := [n.name.value] + suffix;
        node := n.parent;
      }
      AtRoot(t, start, suffix, node.p);
      JoinedLength(Full(suffix, name));
      FoundPath(pool, start, suffix, name);
      Terminated(buf, s, Joined(Full(suffix, name)));
      if buf[s] == '\0' { return Some("/"); }
      return Some(buf[s..FUSE_MAX_PATH - 1]);
    }
  }

  /** Forgetting lookups; with the last one the node loses its name and that
      reference. */
  ghost function Forgotten(t: Table, p: Ptr, nlookup: int): (t': Table)
    requires Good(t) && p in t.pool && p != ROOT && 0 <= nlookup <= t.pool[p].nlookup && t.pool[p].nlookup > 0
    ensures Good(t')
  {
    if nlookup < t.pool[p].nlookup then
      LookupGood(t, p, t.pool[p].nlookup - nlookup);
      SetLookup(t, p, t.pool[p].nlookup - nlookup)
    else
      Unlinkable(t, p);
      DropGood(Unlink(t, p), p);
      Unref(SetLookup(Unlink(t, p), p, 0), p)
  }

  lemma Unlinkable(t: Table, p: Ptr)
    requires Good(t) && p in t.pool && p != ROOT && t.pool[p].nlookup > 0
    ensures CanUnlink(t, p) && Good(Unlink(t, p)) && Droppable(Unlink(t, p).pool, p)
    ensures Unlink(t, p).pool[p].refctr > 0
  {
    assert NodeOk(t.pool, p);
    if Linked(t.pool, p) {
      UnlinkGood(t, p);
      UnlinkPool(t, p);
    }
    assert NodeOk(Unlink(t, p).pool, p);
    hide ChainsOk;
  }

  /** What find_node makes of the table: one more lookup of the node under the
      name, or a new node there, or nothing when there is no memory for it. */
  ghost predicate FoundOrMade(t: Table, t': Table, parent: int, name: Name, mem: Ref, copied: bool, id: int,
                              generation: int, node: Ref)
    requires Good(t) && LookupId(t, parent).To?
  {
    match LookupName(t, parent, name)
    case To(p) => node == To(p) && p in t.pool && t' == SetLookup(t, p, t.pool[p].nlookup + 1)
    case Null =>
      if mem.To? && copied then
        var q := LookupId(t, parent).p;
        node == mem && mem.p !in t.pool && Usable(t.pool, id) && NameFree(t.pool, q, name)
          && t' == Added(t, mem.p, id, generation, q, name)
      else node == Null && t' == t
  }

  /** The steps of find_node in their own order come to the same. */
  lemma AddedValue(t: Table, t': Table, p: Ptr, id: int, generation: int, q: Ptr, name: Name)
    requires Good(t) && p !in t.pool && q in t.pool && Usable(t.pool, id) && NameFree(t.pool, q, name)
    requires var linked := Link(t.(pool := t.pool[p := Node(id, generation, 1, Null, None, 0, false)]), p, q, name);
             && t'.pool == linked.pool[p := linked.pool[p].(nlookup := 1)] && t'.names == linked.names
             && t'.ids == linked.ids[IdHash(id) := [p] + linked.ids[IdHash(id)]]
    ensures t' == Added(t, p, id, generation, q, name)
  {
    hide TreeOk, NameFree;
    assert t'.pool == Link(Insert(t, p, id, generation), p, q, name).pool;
  }

  lemma MadeNode(t: Table, t': Table, p: Ptr, id: int, generation: int, parent: int, q: Ptr, name: Name)
    requires Good(t) && p !in t.pool && LookupId(t, parent) == To(q) && Usable(t.pool, id) && NameFree(t.pool, q, name)
    requires LookupName(t, parent, name) == Null
    requires var linked := Link(t.(pool := t.pool[p := Node(id, generation, 1, Null, None, 0, false)]), p, q, name);
             && t'.pool == linked.pool[p := linked.pool[p].(nlookup := 1)] && t'.names == linked.names
             && t'.ids == linked.ids[IdHash(id) := [p] + linked.ids[IdHash(id)]]
    ensures Good(t') && FoundOrMade(t, t', parent, name, To(p), true, id, generation, To(p))
  {
    hide TreeOk, NameFree, SearchId, LookupName;
    AddedValue(t, t', p, id, generation, q, name);
  }

  lemma MakeFacts(t: Table, parent: int, name: Name)
    requires Good(t) && LookupId(t, parent).To? && LookupName(t, parent, name) == Null
    ensures LookupId(t, parent).p in t.pool && NameFree(t.pool, LookupId(t, parent).p, name)
  {
    UnknownFree(t, parent, LookupId(t, parent).p, name);
  }

  lemma NothingMade(t: Table, parent: int, name: Name, mem: Ref, copied: bool, id: int, generation: int)
    requires Good(t) && LookupId(t, parent).To? && LookupName(t, parent, name) == Null
    ensures mem.Null? || !copied ==> FoundOrMade(t, t, parent, name, mem, copied, id, generation, Null)
  {
  }

  lemma AgainFound(t: Table, parent: int, name: Name, mem: Ref, copied: bool, id: int, generation: int, p: Ptr)
    requires Good(t) && LookupId(t, parent).To?
    requires LookupName(t, parent, name) == To(p)
    ensures p in t.pool && Good(SetLookup(t, p, t.pool[p].nlookup + 1))
    ensures FoundOrMade(t, SetLookup(t, p, t.pool[p].nlookup + 1), parent, name, mem, copied, id, generation, To(p))
  {
    assert NodeOk(t.pool, p);
    LookupGood(t, p, t.pool[p].nlookup + 1);
    hide SetLookup, ChainsOk, LookupId, SearchName;
  }

  lemma FreeIffUsable(t: Table, id: int)
    requires Good(t) && 1 <= id < FUSE_UNKNOWN_INO
    ensures LookupId(t, id) == Null <==> Usable(t.pool, id)
  {
    var r := LookupId(t, id);
    SearchIdFinds(t.pool, t.ids[IdHash(id)], id);
    if !Usable(t.pool, id) {
      var p :| p in t.pool && t.pool[p].id == id;
      LookupIdExact(t, id, p);
    }
  }

  lemma ForgetFacts(t: Table, p: Ptr, id: int, nlookup: int)
    requires Good(t) && LookupId(t, id) == To(p) && id != FUSE_ROOT_ID
    ensures p in t.pool && p != ROOT
  {
    LookupIdExact(t, id, p);
    assert NodeOk(t.pool, p);
  }

  /** The count of lookups does not matter to unhash_name. */
  lemma LookupsApart(t: Table, p: Ptr)
    requires CanUnlink(t, p)
    ensures CanUnlink(SetLookup(t, p, 0), p) && p in Unlink(t, p).pool
    ensures Unlink(SetLookup(t, p, 0), p) == SetLookup(Unlink(t, p), p, 0)
  {
    hide Remove, NameHash, IdHash;
    if t.pool[p].name.Some? {
      var q := t.pool[p].parent.p;
      var a, b := Unlink(SetLookup(t, p, 0), p), SetLookup(Unlink(t, p), p, 0);
      assert a.pool.Keys == b.pool.Keys;
      assert a.pool[p] == b.pool[p];
      assert forall x <- a.pool :: x != p && x != q ==> a.pool[x] == t.pool[x] == b.pool[x];
      assert a.pool == b.pool;
    }
  }

  /** Forgetting the last lookup trips no assertion. */
  lemma LastForgotten(t: Table, p: Ptr)
    requires Good(t) && p in t.pool && p != ROOT && t.pool[p].nlookup > 0
    ensures CanUnlink(t, p) && Unhashable(SetLookup(t, p, 0), p)
    ensures var t2 := SetLookup(Unlink(t, p), p, 0);
            && p in t2.pool && t2.pool[p].refctr > 0 && t2.pool[p].name == None && |t2.ids| == TABLE_SIZE
            && NoDup(t2.ids[IdHash(t2.pool[p].id)])
  {
    hide TreeOk, ChainsOk, Unlink, NameHash, Droppable;
    TableSizes(t);
    NeverAborts(t, p);
    Unlinkable(t, p);
    LookupUnhashable(t, p);
    UnlinkedAlone(Unlink(t, p), p);
  }

  lemma LookupUnhashable(t: Table, p: Ptr)
    requires Unhashable(t, p)
    ensures Unhashable(SetLookup(t, p, 0), p)
  {
    hide NameHash, IdHash;
  }

  lemma UnlinkedAlone(t: Table, p: Ptr)
    requires Good(t) && Droppable(t.pool, p) && t.pool[p].refctr > 0
    ensures var t2 := SetLookup(t, p, 0);
            && p in t2.pool && t2.pool[p].refctr > 0 && t2.pool[p].name == None && |t2.ids| == TABLE_SIZE
            && NoDup(t2.ids[IdHash(t2.pool[p].id)])
  {
    hide TreeOk;
  }

  /** forget_node step by step. */
  lemma ForgetSteps(t: Table, p: Ptr, nlookup: int)
    requires Good(t) && p in t.pool && p != ROOT && 0 <= nlookup <= t.pool[p].nlookup && t.pool[p].nlookup > 0
    ensures Good(Forgotten(t, p, nlookup))
    ensures nlookup < t.pool[p].nlookup ==> Forgotten(t, p, nlookup) == SetLookup(t, p, t.pool[p].nlookup - nlookup)
    ensures nlookup == t.pool[p].nlookup ==>
              && CanUnlink(SetLookup(t, p, 0), p) && Unhashable(SetLookup(t, p, 0), p)
              && var t2 := Unlink(SetLookup(t, p, 0), p);
                && p in t2.pool && t2.pool[p].refctr > 0 && t2.pool[p].name == None && |t2.ids| == TABLE_SIZE
                && NoDup(t2.ids[IdHash(t2.pool[p].id)]) && Forgotten(t, p, nlookup) == Unref(t2, p)
  {
    hide Good, Unlink, Unhashable, Unref;
    if nlookup == t.pool[p].nlookup {
      LastForgotten(t, p);
      LookupsApart(t, p);
    }
  }

  // ----- remove_node -----

  ghost function Removed(t: Table, dir: int, name: Name): (t': Table)
    requires Good(t)
    ensures Good(t')
  {
    match LookupName(t, dir, name)
    case Null => t
    case To(p) => UnlinkGood(t, p); Unlink(t, p)
  }

  lemma RemoveSteps(t: Table, dir: int, name: Name)
    requires Good(t)
    ensures LookupName(t, dir, name) == Null ==> Removed(t, dir, name) == t
    ensures LookupName(t, dir, name).To? ==>
              var p := LookupName(t, dir, name).p;
              Unhashable(t, p) && CanUnlink(t, p) && Removed(t, dir, name) == Unlink(t, p)
  {
    GoodLive(t);
    hide TreeOk, ChainsOk, SearchName, Unlink;
    if LookupName(t, dir, name).To? {
      NeverAborts(t, LookupName(t, dir, name).p);
    }
  }

  // ----- rename_node -----

  /** What the kernel sees to before it renames: it knows the new directory, and
      that is not inside what is renamed. */
  ghost predicate MayRename(t: Table, olddir: int, oldname: Name, newdir: int)
    requires Good(t)
  {
    && LookupId(t, newdir).To? && t.pool[LookupId(t, newdir).p].nlookup > 0
    && (LookupName(t, olddir, oldname).To? ==> !Below(t.pool, LookupId(t, newdir).p, LookupName(t, olddir, oldname).p))
  }

  function SetHidden(t: Table, p: Ptr): Table
    requires p in t.pool
  {
    t.(pool := t.pool[p := t.pool[p].(hidden := true)])
  }

  ghost function RenameResult(t: Table, olddir: int, oldname: Name, newdir: int, newname: Name, away: bool,
                              copied: bool): (Table, int)
    requires Good(t) && MayRename(t, olddir, oldname, newdir)
  {
    var q := LookupId(t, newdir).p;
    match LookupName(t, olddir, oldname)
    case Null => (t, 0)
    case To(p) =>
      var x := LookupName(t, newdir, newname);
      if x.To? && away then (t, -EBUSY)
      else
        RenameAllowed(t, olddir, oldname, newdir, newname);
        if !copied then (Unnamed(t, p, x, q, newname), -ENOMEM)
        else if away then (SetHidden(Renamed(t, p, x, q, newname), p), 0)
        else (Renamed(t, p, x, q, newname), 0)
  }

  /** A rename that runs out of memory leaves both nodes without a name. */
  ghost function Unnamed(t: Table, p: Ptr, x: Ref, q: Ptr, name: Name): (t': Table)
    requires Good(t) && CanRename(t, p, x, q, name)
    ensures Good(t')
  {
    if x == To(p) then
      UnlinkReady(t, p, x, q, name);
      Unlink(t, p)
    else
      DisplaceReady(t, p, x, q, name);
      UnlinkReady(Displace(t, x), p, Null, q, name);
      Unlink(Displace(t, x), p)
  }

  lemma RenameAllowed(t: Table, olddir: int, oldname: Name, newdir: int, newname: Name)
    requires Good(t) && MayRename(t, olddir, oldname, newdir) && LookupName(t, olddir, oldname).To?
    ensures CanRename(t, LookupName(t, olddir, oldname).p, LookupName(t, newdir, newname), LookupId(t, newdir).p,
            newname)
  {
    var q := LookupId(t, newdir).p;
    var x := LookupName(t, newdir, newname);
    if x.Null? {
      UnknownFree(t, newdir, q, newname);
    } else {
      LookupIdExact(t, newdir, t.pool[x.p].parent.p);
    }
    hide Below;
  }

  /** Taking both nodes off their names trips no abort, and the new directory is
      still found afterwards. */
  lemma RenameReady(t: Table, p: Ptr, x: Ref, q: Ptr, newdir: int, name: Name)
    requires Good(t) && CanRename(t, p, x, q, name) && LookupId(t, newdir) == To(q)
    ensures x.To? ==> Unhashable(t, x.p)
    ensures var t1 := Displace(t, x);
            && Unhashable(t1, p) && p in Unlink(t1, p).pool && Unlink(t1, p).pool[p].name == None
            && Unlink(t1, p) == Unnamed(t, p, x, q, name)
            && ChainsLive(Unlink(t1, p)) && LookupId(Unlink(t1, p), newdir) == To(q)
            && q in Unlink(t1, p).pool && Link(Unlink(t1, p), p, q, name) == Renamed(t, p, x, q, name)
  {
    hide TreeOk, ChainsOk, Below, Unlink, Link, NameFree, LookupId, Children, ChildOf;
    if x.To? { NeverAborts(t, x.p); }
    var t1 := Displace(t, x);
    if x == To(p) {
      UnlinkReady(t, p, x, q, name);
      UnlinkAgain(t, p);
    } else {
      DisplaceReady(t, p, x, q, name);
      NeverAborts(t1, p);
      UnlinkReady(t1, p, Null, q, name);
    }
    GoodLive(Unlink(t1, p));
    StillFound(t, p, x, q, newdir, name);
  }

  lemma UnlinkAgain(t: Table, p: Ptr)
    requires Good(t) && Linked(t.pool, p)
    ensures CanUnlink(t, p) && Unhashable(Unlink(t, p), p) && Unlink(Unlink(t, p), p) == Unlink(t, p)
  {
    NoSelfParent(t.pool, p);
    hide TreeOk;
  }

  lemma StillFound(t: Table, p: Ptr, x: Ref, q: Ptr, newdir: int, name: Name)
    requires Good(t) && CanRename(t, p, x, q, name) && LookupId(t, newdir) == To(q)
    ensures |Unnamed(t, p, x, q, name).ids| == TABLE_SIZE && LookupId(Unnamed(t, p, x, q, name), newdir) == To(q)
  {
    GoodLive(Unnamed(t, p, x, q, name));
    hide TreeOk, ChainsOk, Below, Unlink, NameFree, LookupId, Climb;
    LookupIdExact(t, newdir, q);
    NotBelowApart(t, q, p);
    if x == To(p) {
      UnlinkReady(t, p, x, q, name);
      HeldSurvives(t, p, q);
      LookupIdExact(Unlink(t, p), newdir, q);
    } else {
      DisplaceReady(t, p, x, q, name);
      if x.To? {
        NotItself(t, x.p, q);
        HeldSurvives(t, x.p, q);
      }
      UnlinkReady(Displace(t, x), p, Null, q, name);
      HeldSurvives(Displace(t, x), p, q);
      LookupIdExact(Unlink(Displace(t, x), p), newdir, q);
    }
  }

  lemma NotBelowApart(t: Table, q: Ptr, p: Ptr)
    requires !Below(t.pool, q, p)
    ensures q != p
  {
    assert Climb(t.pool, p, [], p);
  }

  /** rename_node step by step. */
  lemma RenameSteps(t: Table, olddir: int, oldname: Name, newdir: int, newname: Name, away: bool, copied: bool)
    requires Good(t) && MayRename(t, olddir, oldname, newdir)
    ensures Good(RenameResult(t, olddir, oldname, newdir, newname, away, copied).0) && LookupId(t, newdir).To?
    ensures var node, x, q := LookupName(t, olddir, oldname), LookupName(t, newdir, newname), LookupId(t, newdir).p;
            var result := RenameResult(t, olddir, oldname, newdir, newname, away, copied);
            && (node.Null? ==> result == (t, 0))
            && (node.To? && x.To? && away ==> result == (t, -EBUSY))
            && (node.To? && !(x.To? && away) ==>
                  && (x.To? ==> Unhashable(t, x.p))
                  && var t1 := Displace(t, x);
                    && Unhashable(t1, node.p)
                    && var t2 := Unlink(t1, node.p);
                      && node.p in t2.pool && t2.pool[node.p].name == None && ChainsLive(t2)
                      && LookupId(t2, newdir) == To(q)
                      && q in t2.pool && node.p in Link(t2, node.p, q, newname).pool
                      && result == if !copied then (t2, -ENOMEM)
                                   else if away then (SetHidden(Link(t2, node.p, q, newname), node.p), 0)
                                   else (Link(t2, node.p, q, newname), 0))
  {
    GoodLive(t);
    hide TreeOk, ChainsOk, Below, Unlink, NameFree, SearchId, SearchName;
    var node := LookupName(t, olddir, oldname);
    if node.To? {
      RenameAllowed(t, olddir, oldname, newdir, newname);
      var x, q := LookupName(t, newdir, newname), LookupId(t, newdir).p;
      RenameReady(t, node.p, x, q, newdir, newname);
      ShapeGood(Renamed(t, node.p, x, q, newname), node.p,
        Renamed(t, node.p, x, q, newname).pool[node.p].(hidden := true));
    }
  }

  // ----- what each node is afterwards -----

  /** find_node gives the node under the name one more lookup, or makes one with
      the first lookup there, which is not hidden. */
  ghost predicate FindEffect(t: Table, pool': Pool, parent: int, name: Name, mem: Ref, copied: bool, node: Ref,
                             id: int, generation: int)
    requires |t.ids| == TABLE_SIZE && |t.names| == TABLE_SIZE
  {
    match LookupName(t, parent, name)
    case To(p) =>
      && node == To(p) && p in t.pool && p in pool' && Others(t.pool, pool', {p})
      && pool'[p] == t.pool[p].(nlookup := t.pool[p].nlookup + 1)
    case Null =>
      if mem.To? && copied then
        && node == mem && mem.p !in t.pool && mem.p in pool' && Others(t.pool, pool', {mem.p})
        && (forall x <- t.pool :: t.pool[x].id != id)
        && pool'[mem.p] == Node(id, generation, pool'[mem.p].refctr, LookupId(t, parent), Some(name), 1, false)
      else node == Null && pool' == t.pool
  }

  lemma FindEffects(t: Table, t': Table, parent: int, name: Name, mem: Ref, copied: bool, id: int, generation: int,
                    node: Ref)
    requires Good(t) && LookupId(t, parent).To?
    requires FoundOrMade(t, t', parent, name, mem, copied, id, generation, node)
    ensures |t.ids| == TABLE_SIZE && |t.names| == TABLE_SIZE
    ensures FindEffect(t, t'.pool, parent, name, mem, copied, node, id, generation)
  {
    TableSizes(t);
    hide Good, NameFree, Added, LookupId, LookupName;
    if LookupName(t, parent, name).Null? && mem.To? && copied {
      AddedEffect(t, mem.p, id, generation, LookupId(t, parent).p, name);
    }
  }

  /** forget_node takes lookups off; without any left the node loses its name, and
      stays only as long as it has children. */
  ghost predicate ForgetEffect(t: Table, pool': Pool, p: Ptr, nlookup: int) {
    && p in t.pool && Others(t.pool, pool', {p})
    && if nlookup < t.pool[p].nlookup then
         p in pool' && pool'[p] == t.pool[p].(nlookup := t.pool[p].nlookup - nlookup)
       else
         && (p in pool' <==> Children(t.pool, p) != {})
         && (p in pool' ==> Moved(t.pool[p].(nlookup := 0), pool'[p], None, Null))
  }

  lemma ForgetEffects(t: Table, p: Ptr, nlookup: int)
    requires Good(t) && p in t.pool && p != ROOT && 0 <= nlookup <= t.pool[p].nlookup && t.pool[p].nlookup > 0
    ensures ForgetEffect(t, Forgotten(t, p, nlookup).pool, p, nlookup)
  {
    hide Good, Unlink, Children, Unref, Moved;
    LastLookupEffect(t, p);
    if nlookup < t.pool[p].nlookup {
      assert Others(t.pool, SetLookup(t, p, t.pool[p].nlookup - nlookup).pool, {p});
    }
  }

  /** remove_node takes the node off its name. */
  ghost predicate RemoveEffect(t: Table, pool': Pool, dir: int, name: Name)
    requires |t.ids| == TABLE_SIZE && |t.names| == TABLE_SIZE
  {
    match LookupName(t, dir, name)
    case Null => pool' == t.pool
    case To(p) =>
      p in t.pool && p in pool' && Others(t.pool, pool', {p}) && Moved(t.pool[p], pool'[p], None, Null)
  }

  lemma RemoveEffects(t: Table, dir: int, name: Name)
    requires Good(t)
    ensures |t.ids| == TABLE_SIZE && |t.names| == TABLE_SIZE && RemoveEffect(t, Removed(t, dir, name).pool, dir, name)
  {
    TableSizes(t);
    if LookupName(t, dir, name).To? { UnlinkEffect(t, LookupName(t, dir, name).p); }
    hide TreeOk, ChainsOk, Unlink, SearchName;
  }

  /** rename_node gives the node its new place, and hides it when it is only
      renamed out of the way; what had the new name has none. When something is in
      the way of a hidden name nothing changes, and without memory both nodes are
      without a name. */
  ghost predicate RenameEffect(t: Table, pool': Pool, olddir: int, oldname: Name, newdir: int, newname: Name,
                               away: bool, copied: bool, err: int)
    requires |t.ids| == TABLE_SIZE && |t.names| == TABLE_SIZE
  {
    var x := LookupName(t, newdir, newname);
    match LookupName(t, olddir, oldname)
    case Null => err == 0 && pool' == t.pool
    case To(p) =>
      if x.To? && away then err == -EBUSY && pool' == t.pool
      else if !copied then err == -ENOMEM && OnlyMoved(t.pool, pool', p, x, None, Null)
      else err == 0 && HiddenIf(t.pool, pool', p, x, Some(newname), LookupId(t, newdir), away)
  }

  /** Node `p` is moved, and hidden if it was or if it is asked to be. */
  ghost predicate HiddenIf(pool: Pool, pool': Pool, p: Ptr, x: Ref, name: Option<Name>, parent: Ref, away: bool) {
    && p in pool && p in pool' && pool'[p].hidden == (pool[p].hidden || away)
    && OnlyMoved(pool, pool'[p := pool'[p].(hidden := pool[p].hidden)], p, x, name, parent)
  }

  lemma RenameEffects(t: Table, olddir: int, oldname: Name, newdir: int, newname: Name, away: bool, copied: bool)
    requires Good(t) && MayRename(t, olddir, oldname, newdir)
    ensures |t.ids| == TABLE_SIZE && |t.names| == TABLE_SIZE
    ensures var result := RenameResult(t, olddir, oldname, newdir, newname, away, copied);
            RenameEffect(t, result.0.pool, olddir, oldname, newdir, newname, away, copied, result.1)
  {
    hide Good, LookupName, LookupId, CanRename, Unlink, Renamed, Unnamed, OnlyMoved, MayRename, HiddenIf;
    TableSizes(t);
    NewDirLooked(t, olddir, oldname, newdir);
    if LookupName(t, olddir, oldname).To? {
      var p, x, q := LookupName(t, olddir, oldname).p, LookupName(t, newdir, newname), LookupId(t, newdir).p;
      RenameAllowed(t, olddir, oldname, newdir, newname);
      UnnamedIs(t, p, x, q, newname);
      RenamedEffect(t, p, x, q, newname);
      HiddenBack(t.pool, Renamed(t, p, x, q, newname).pool, p, x, Some(newname), To(q));
    }
  }

  lemma NewDirLooked(t: Table, olddir: int, oldname: Name, newdir: int)
    requires Good(t) && MayRename(t, olddir, oldname, newdir) && |t.ids| == TABLE_SIZE
    ensures LookupId(t, newdir).To?
  {
  }

  lemma UnnamedIs(t: Table, p: Ptr, x: Ref, q: Ptr, name: Name)
    requires Good(t) && CanRename(t, p, x, q, name)
    ensures OnlyMoved(t.pool, Unnamed(t, p, x, q, name).pool, p, x, None, Null)
  {
    hide Good, CanRename, Unlink, OnlyMoved;
    UnnamedEffect(t, p, x, q, name);
  }

  lemma HiddenBack(pool: Pool, pool': Pool, p: Ptr, x: Ref, name: Option<Name>, parent: Ref)
    requires OnlyMoved(pool, pool', p, x, name, parent)
    ensures p in pool' && HiddenIf(pool, pool', p, x, name, parent, false)
    ensures HiddenIf(pool, pool'[p := pool'[p].(hidden := true)], p, x, name, parent, true)
  {
    hide Others;
    assert pool'[p].(hidden := pool[p].hidden) == pool'[p];
    assert pool'[p := pool'[p]] == pool';
    assert pool'[p := pool'[p].(hidden := true)][p := pool'[p]] == pool';
  }

  // ----- get_path_name -----

  lemma Terminated(buf: array<char>, s: nat, text: string)
    requires s < buf.Length && buf[s..] == text + ['\0']
    ensures buf[s..buf.Length - 1] == text && buf[s] == (text + ['\0'])[0]
  {
    assert buf[s..buf.Length - 1] == buf[s..][..|text|];
    assert buf[s..][0] == buf[s];
  }

  lemma NoNames(name: Option<Name>)
    ensures Joined(Full([], name)) == if name.Some? then "/" + name.value else ""
    ensures Size(Full([], name)) == if name.Some? then |name.value| + 1 else 0
  {
  }

  lemma NameTooLong(pool: Pool, y: Ptr, name: Name)
    requires |name| >= FUSE_MAX_PATH - 1
    ensures PathIs(pool, y, Some(name), None)
  {
    hide IsPath;
    forall names: seq<Name> ensures Size(Full(names, Some(name))) > |name| {
      JoinedConcat(names, [name]);
    }
  }

  /** All paths of a node are at least as long as what was climbed. */
  lemma TooLong(pool: Pool, y: Ptr, suffix: seq<Name>, name: Option<Name>)
    requires Size(Full(suffix, name)) >= FUSE_MAX_PATH
    requires forall names: seq<Name> | IsPath(pool, y, names) :: Size(Full(names, name)) >= Size(Full(suffix, name))
    ensures PathIs(pool, y, name, None)
  {
    hide IsPath;
  }

  lemma FoundPath(pool: Pool, y: Ptr, names: seq<Name>, name: Option<Name>)
    requires IsPath(pool, y, names) && Size(Full(names, name)) < FUSE_MAX_PATH
    ensures var joined := Joined(Full(names, name));
            && PathIs(pool, y, name, Some(if joined == "" then "/" else joined))
            && (joined != "" ==> joined[0] == '/')
  {
    hide IsPath;
  }

  lemma StartClimb(t: Table, start: Ptr, nodeid: int) returns (rank: map<Ptr, int>)
    requires Good(t) && LookupId(t, nodeid) == To(start)
    ensures Ranked(t.pool, rank) && start in t.pool && start in rank && rank[start] >= 0
            && Climb(t.pool, start, [], start)
  {
    rank :| Ranked(t.pool, rank);
  }

  lemma {:induction false} ClimbUp(pool: Pool, x: Ptr, suffix: seq<Name>, p: Ptr)
    requires Climb(pool, x, suffix, p) && Linked(pool, p) && pool[p].parent.To?
    ensures Climb(pool, x, [pool[p].name.value] + suffix, pool[p].parent.p)
    decreases |suffix|
  {
    var longer := [pool[p].name.value] + suffix;
    if suffix == [] {
      assert longer[..|longer| - 1] == [];
    } else {
      ClimbUp(pool, pool[x].parent.p, suffix[..|suffix| - 1], p);
      assert longer[..|longer| - 1] == [pool[p].name.value] + suffix[..|suffix| - 1];
    }
  }

  /** One turn of the loop of get_path_name. */
  lemma ClimbOn(t: Table, rank: map<Ptr, int>, x: Ptr, suffix: seq<Name>, p: Ptr, name: Option<Name>)
    requires Good(t) && Ranked(t.pool, rank) && Climb(t.pool, x, suffix, p) && p in t.pool
             && t.pool[p].id != FUSE_ROOT_ID
    ensures p in rank && t.pool[p].name == None ==> PathIs(t.pool, x, name, None)
    ensures t.pool[p].name.Some? ==>
              && t.pool[p].parent.To?
              && var q := t.pool[p].parent.p;
                var n := t.pool[p].name.value;
                && q in t.pool && q in rank && 0 <= rank[q] < rank[p] && Climb(t.pool, x, [n] + suffix, q)
                && Size(Full([n] + suffix, name)) == |n| + 1 + Size(Full(suffix, name))
                && Joined(Full([n] + suffix, name)) == "/" + n + Joined(Full(suffix, name))
                && forall names: seq<Name> | IsPath(t.pool, x, names) ::
                   Size(Full(names, name)) >= Size(Full([n] + suffix, name))
  {
    ClimbFacts(t, rank, p);
    if t.pool[p].name == None {
      ClimbStuck(t.pool, x, suffix, p, name);
    } else {
      hide Good, Climb, IsPath, Size, Joined, Full, Ranked;
      var n := t.pool[p].name.value;
      ClimbUp(t.pool, x, suffix, p);
      OneNameMore(n, suffix, name);
      forall names: seq<Name> | IsPath(t.pool, x, names)
        ensures Size(Full(names, name)) >= Size(Full([n] + suffix, name)) {
        PathsLonger(t.pool, x, names, [n] + suffix, t.pool[p].parent.p, name);
      }
    }
  }

  lemma ClimbFacts(t: Table, rank: map<Ptr, int>, p: Ptr)
    requires Good(t) && Ranked(t.pool, rank) && p in t.pool && t.pool[p].id != FUSE_ROOT_ID
    ensures p in rank && p != ROOT
    ensures t.pool[p].name.Some? ==>
              && Linked(t.pool, p) && t.pool[p].parent.To?
              && var q := t.pool[p].parent.p; q in t.pool && q in rank && 0 <= rank[q] < rank[p]
  {
    hide ChainsOk, Unique;
    assert NodeOk(t.pool, p);
  }

  lemma ClimbStuck(pool: Pool, x: Ptr, suffix: seq<Name>, p: Ptr, name: Option<Name>)
    requires Climb(pool, x, suffix, p) && p in pool && p != ROOT && pool[p].name == None
    ensures PathIs(pool, x, name, None)
  {
    forall names: seq<Name> ensures !IsPath(pool, x, names) {
      if IsPath(pool, x, names) { PathsAgree(pool, x, names, suffix, p); }
    }
  }

  lemma OneNameMore(n: Name, suffix: seq<Name>, name: Option<Name>)
    ensures Size(Full([n] + suffix, name)) == |n| + 1 + Size(Full(suffix, name))
    ensures Joined(Full([n] + suffix, name)) == "/" + n + Joined(Full(suffix, name))
  {
    assert Full([n] + suffix, name) == [n] + Full(suffix, name);
  }

  lemma PathsLonger(pool: Pool, x: Ptr, names: seq<Name>, suffix: seq<Name>, p: Ptr, name: Option<Name>)
    requires Climb(pool, x, suffix, p) && IsPath(pool, x, names)
    ensures Size(Full(names, name)) >= Size(Full(suffix, name))
  {
    hide Climb, IsPath;
    PathsAgree(pool, x, names, suffix, p);
    var d := names[..|names| - |suffix|];
    assert Full(names, name) == d + Full(suffix, name);
    JoinedConcat(d, Full(suffix, name));
  }

  lemma AtRoot(t: Table, x: Ptr, suffix: seq<Name>, p: Ptr)
    requires Good(t) && p in t.pool && t.pool[p].id == FUSE_ROOT_ID && Climb(t.pool, x, suffix, p)
    ensures IsPath(t.pool, x, suffix)
  {
    assert NodeOk(t.pool, p);
  }
}
