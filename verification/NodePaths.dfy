/** What a rename does to the paths that libfuse hands to the file system. */
module NodePaths {
  import opened Sequences
  import opened NodeTree
  import opened NodeTable

  const ENOENT: int := 2

  /** A node has one path, so its string is determined. */
  lemma OnePath(pool: Pool, y: Ptr, names: seq<Name>, name: Option<Name>, path: Option<string>)
    requires IsPath(pool, y, names) && PathIs(pool, y, name, path)
    ensures path == if Size(Full(names, name)) < FUSE_MAX_PATH then Some(Render(Full(names, name))) else None
  {
    if path.Some? {
      var other: seq<Name> :| IsPath(pool, y, other) && Size(Full(other, name)) < FUSE_MAX_PATH
        && path.value == Render(Full(other, name));
      PathsAgree(pool, y, names, other, ROOT);
      PathsAgree(pool, y, other, names, ROOT);
      assert names == other;
    }
  }

  lemma NoPath(pool: Pool, y: Ptr, name: Option<Name>, path: Option<string>)
    requires (forall names: seq<Name> :: !IsPath(pool, y, names)) && PathIs(pool, y, name, path)
    ensures path == None
  {
  }

  /** The path of a node below a linked one goes through that one. */
  lemma PathThrough(pool: Pool, y: Ptr, p: Ptr, suffix: seq<Name>, names: seq<Name>) returns (front: seq<Name>)
    requires Climb(pool, y, suffix, p) && IsPath(pool, y, names) && Linked(pool, p) && pool[p].parent.To?
    ensures IsPath(pool, pool[p].parent.p, front) && names == Full(front, pool[p].name) + suffix
  {
    PathsAgree(pool, y, names, suffix, p);
    var here := names[..|names| - |suffix|];
    front := here[..|here| - 1];
    assert here == front + [here[|here| - 1]];
  }

  lemma RenderJoined(names: seq<Name>, name: Name, suffix: seq<Name>)
    ensures Size(names + [name] + suffix) == |Render(names + [name])| + |Joined(suffix)|
    ensures Render(names + [name] + suffix) == Render(names + [name]) + Joined(suffix)
    ensures |Render(names + [name])| == Size(names + [name])
  {
    JoinedConcat(names + [name], suffix);
    JoinedLength(names + [name]);
    JoinedLength(suffix);
  }

  /** What became of the path string of a node below the renamed one: the old
      path in front of it has turned into the new one. */
  predicate PathMoved(oldpath: Option<string>, newpath: Option<string>, before: string, after: Option<string>) {
    && oldpath.Some? && oldpath.value <= before
    && var tail := before[|oldpath.value|..];
      after == if newpath.Some? && |newpath.value| + |tail| < FUSE_MAX_PATH then Some(newpath.value + tail) else None
  }

  /** The path of a node below the renamed one, where the new directory has `d`. */
  lemma MovedTo(t: Table, p: Ptr, x: Ref, q: Ptr, name: Name, y: Ptr, suffix: seq<Name>, d: seq<Name>,
                newpath: Option<string>, after: Option<string>)
    requires Good(t) && CanRename(t, p, x, q, name) && Climb(t.pool, y, suffix, p) && IsPath(t.pool, q, d)
    requires PathIs(t.pool, q, Some(name), newpath) && PathIs(Renamed(t, p, x, q, name).pool, y, None, after)
    ensures after == if newpath.Some? && |newpath.value| + |Joined(suffix)| < FUSE_MAX_PATH
            then Some(newpath.value + Joined(suffix)) else None
  {
    hide Good, CanRename, Renamed, Climb, IsPath, PathIs, Render, Joined, Size;
    var names := d + [name] + suffix;
    assert names[..|names| - |suffix| - 1] == d;
    RenameMovesSubtree(t, p, x, q, name, y, names);
    OnePath(Renamed(t, p, x, q, name).pool, y, names, None, after);
    OnePath(t.pool, q, d, Some(name), newpath);
    RenderJoined(d, name, suffix);
  }

  lemma MovedNowhere(t: Table, p: Ptr, x: Ref, q: Ptr, name: Name, y: Ptr, suffix: seq<Name>, newpath: Option<string>,
                     after: Option<string>)
    requires Good(t) && CanRename(t, p, x, q, name) && Climb(t.pool, y, suffix, p) && forall d: seq<Name> ::
             !IsPath(t.pool, q, d)
    requires PathIs(t.pool, q, Some(name), newpath) && PathIs(Renamed(t, p, x, q, name).pool, y, None, after)
    ensures newpath == None && after == None
  {
    hide Good, CanRename, Renamed, Climb, IsPath, PathIs;
    forall names: seq<Name> ensures !IsPath(Renamed(t, p, x, q, name).pool, y, names) {
      RenameMovesSubtree(t, p, x, q, name, y, names);
    }
    NoPath(t.pool, q, Some(name), newpath);
    NoPath(Renamed(t, p, x, q, name).pool, y, None, after);
  }

  lemma BelowMoves(t: Table, p: Ptr, x: Ref, q: Ptr, name: Name, y: Ptr,
                   oldpath: Option<string>, newpath: Option<string>, before: string, after: Option<string>)
    requires Good(t) && CanRename(t, p, x, q, name) && Below(t.pool, y, p) && t.pool[p].parent.To?
    requires PathIs(t.pool, t.pool[p].parent.p, t.pool[p].name, oldpath) && PathIs(t.pool, q, Some(name), newpath)
    requires PathIs(t.pool, y, None, Some(before)) && PathIs(Renamed(t, p, x, q, name).pool, y, None, after)
    ensures PathMoved(oldpath, newpath, before, after)
  {
    hide Good, Renamed, Climb, IsPath, Render, Joined, Size;
    var suffix: seq<Name> :| Climb(t.pool, y, suffix, p);
    var names: seq<Name> :| IsPath(t.pool, y, names) && Size(names) < FUSE_MAX_PATH && before == Render(names);
    var front := PathThrough(t.pool, y, p, suffix, names);
    OnePath(t.pool, t.pool[p].parent.p, front, t.pool[p].name, oldpath);
    RenderJoined(front, t.pool[p].name.value, suffix);
    if d: seq<Name> :| IsPath(t.pool, q, d) {
      MovedTo(t, p, x, q, name, y, suffix, d, newpath, after);
    } else {
      MovedNowhere(t, p, x, q, name, y, suffix, newpath, after);
    }
  }

  lemma ElsewhereStays(t: Table, p: Ptr, x: Ref, q: Ptr, name: Name, y: Ptr, before: Option<string>,
                       after: Option<string>)
    requires Good(t) && CanRename(t, p, x, q, name) && !Below(t.pool, y, p)
    requires PathIs(t.pool, y, None, before) && PathIs(Renamed(t, p, x, q, name).pool, y, None, after)
    ensures after == if x.To? && Below(t.pool, y, x.p) then None else before
  {
    hide Good, CanRename, Renamed, Climb, IsPath, Below, PathIs;
    var pool' := Renamed(t, p, x, q, name).pool;
    forall names: seq<Name>
      ensures IsPath(pool', y, names) <==> IsPath(t.pool, y, names) && !(x.To? && Below(t.pool, y, x.p))
    {
      RenameMovesSubtree(t, p, x, q, name, y, names);
    }
    if names: seq<Name> :| IsPath(pool', y, names) {
      OnePath(pool', y, names, None, after);
      OnePath(t.pool, y, names, None, before);
    } else {
      NoPath(pool', y, None, after);
      if !(x.To? && Below(t.pool, y, x.p)) { NoPath(t.pool, y, None, before); }
    }
  }

  // ----- the code -----

  /** A node that the kernel holds is still there after a rename. */
  lemma HeldInRenamed(t: Table, p: Ptr, x: Ref, q: Ptr, name: Name, y: Ptr)
    requires Good(t) && CanRename(t, p, x, q, name) && y in t.pool && t.pool[y].nlookup > 0
    ensures y in Renamed(t, p, x, q, name).pool && Renamed(t, p, x, q, name).pool[y].id == t.pool[y].id
  {
    hide TreeOk, ChainsOk, Below, NameFree, Climb;
    if x == To(p) {
      UnlinkReady(t, p, x, q, name);
      HeldUnlinked(t, p, y);
      HeldLinked(Unlink(t, p), p, q, name, y);
    } else {
      DisplaceReady(t, p, x, q, name);
      if x.To? { HeldUnlinked(t, x.p, y); }
      var t1 := Displace(t, x);
      UnlinkReady(t1, p, Null, q, name);
      HeldUnlinked(t1, p, y);
      HeldLinked(Unlink(t1, p), p, q, name, y);
    }
  }

  lemma HeldUnlinked(t: Table, p: Ptr, y: Ptr)
    requires Good(t) && Linked(t.pool, p) && y in t.pool && t.pool[y].nlookup > 0
    ensures CanUnlink(t, p) && y in Unlink(t, p).pool && Unlink(t, p).pool[y].nlookup == t.pool[y].nlookup
    ensures Unlink(t, p).pool[y].id == t.pool[y].id
  {
    hide Good, Unlink;
    UnlinkPool(t, p);
    if y != p { HeldSurvives(t, p, y); }
  }

  lemma HeldLinked(t: Table, p: Ptr, q: Ptr, name: Name, y: Ptr)
    requires Good(t) && CanLink(t.pool, p, q, name) && y in t.pool
    ensures y in Link(t, p, q, name).pool && Link(t, p, q, name).pool[y].id == t.pool[y].id
  {
    hide Good, CanLink, Link;
    LinkGood(t, p, q, name);
  }

  lemma NewDirKnown(t: Table, olddir: int, oldname: Name, newdir: int)
    requires Good(t) && MayRename(t, olddir, oldname, newdir)
    ensures |t.ids| == TABLE_SIZE && LookupId(t, newdir).To?
  {
  }

  lemma RenameFacts(t: Table, olddir: int, oldname: Name, newdir: int, newname: Name, nodeid: int)
    requires Good(t) && MayRename(t, olddir, oldname, newdir) && LookupName(t, olddir, oldname).To?
    requires LookupId(t, nodeid).To? && t.pool[LookupId(t, nodeid).p].nlookup > 0
    ensures var p, x, q, y := LookupName(t, olddir, oldname).p, LookupName(t, newdir, newname), LookupId(t, newdir).p,
            LookupId(t, nodeid).p;
            && CanRename(t, p, x, q, newname)
            && p in t.pool && t.pool[p].name == Some(oldname) && t.pool[p].parent.To?
            && LookupId(t, olddir) == t.pool[p].parent
            && RenameResult(t, olddir, oldname, newdir, newname, false, true) == (Renamed(t, p, x, q, newname), 0)
            && |Renamed(t, p, x, q, newname).ids| == TABLE_SIZE
            && LookupId(Renamed(t, p, x, q, newname), nodeid) == To(y)
  {
    TableSizes(t);
    NewDirKnown(t, olddir, oldname, newdir);
    RenameAllowed(t, olddir, oldname, newdir, newname);
    hide Good, MayRename, CanRename, Renamed, LookupId, LookupName;
    var p, x, q, y := LookupName(t, olddir, oldname).p, LookupName(t, newdir, newname), LookupId(t, newdir).p,
      LookupId(t, nodeid).p;
    LookupNameExact(t, olddir, oldname, p);
    LookupIdExact(t, olddir, t.pool[p].parent.p);
    LookupIdExact(t, nodeid, y);
    HeldInRenamed(t, p, x, q, newname, y);
    TableSizes(Renamed(t, p, x, q, newname));
    LookupIdExact(Renamed(t, p, x, q, newname), nodeid, y);
  }

  /** fuse_lib_rename around the file system's part, between two questions for
      the path of a node that the kernel holds. Without a path on either side it
      fails and changes nothing. Else, below the renamed node the old path in
      front has turned into the new one, below a displaced node there is no path
      any more, and everywhere else the path is the same. */
  method RenameBetween(f: Fuse, olddir: int, oldname: Name, newdir: int, newname: Name, nodeid: int)
    returns (err: int, oldpath: Option<string>, newpath: Option<string>, before: Option<string>, after: Option<string>)
    requires f.Valid() && MayRename(f.Value(), olddir, oldname, newdir) && LookupName(f.Value(), olddir, oldname).To?
    requires LookupId(f.Value(), nodeid).To? && f.pool[LookupId(f.Value(), nodeid).p].nlookup > 0
    modifies f
    ensures f.Valid()
    ensures err == if oldpath.Some? && newpath.Some? then 0 else -ENOENT
    ensures err != 0 ==> f.Value() == old(f.Value()) && after == before
    ensures var t := old(f.Value());
            var p, x, y := LookupName(t, olddir, oldname).p, LookupName(t, newdir, newname), LookupId(t, nodeid).p;
            err == 0 ==>
              && (Below(t.pool, y, p) && before.Some? ==> PathMoved(oldpath, newpath, before.value, after))
              && (!Below(t.pool, y, p) ==> after == if x.To? && Below(t.pool, y, x.p) then None else before)
  {
    ghost var t := f.Value();
    RenameFacts(t, olddir, oldname, newdir, newname, nodeid);
    NewDirKnown(t, olddir, oldname, newdir);
    TableSizes(t);
    hide Good, LookupId, LookupName, MayRename, CanRename, RenameResult, Renamed, PathIs, PathMoved, Below, CtrAt,
         GenerationAt;
    ghost var p, x, q, y := LookupName(t, olddir, oldname).p, LookupName(t, newdir, newname), LookupId(t, newdir).p,
      LookupId(t, nodeid).p;
    before := f.GetPathName(nodeid, None);
    after := before;
    oldpath := f.GetPathName(olddir, Some(oldname));
    newpath := f.GetPathName(newdir, Some(newname));
    if oldpath == None || newpath == None { return -ENOENT, oldpath, newpath, before, after; }
    err := f.RenameNode(olddir, oldname, newdir, newname, false, true);
    after := f.GetPathName(nodeid, None);
    if Below(t.pool, y, p) {
      if before.Some? { BelowMoves(t, p, x, q, newname, y, oldpath, newpath, before.value, after); }
    } else {
      ElsewhereStays(t, p, x, q, newname, y, before, after);
    }
  }
}
