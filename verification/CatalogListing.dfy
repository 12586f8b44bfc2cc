/** The breadth-first walk that writes a catalog (generate_catalog.c). */
module CatalogListing {
  import opened Sequences
  import opened CatalogOrder

  /** What lstat says of a file. */
  datatype Stat = Stat(mode: int, nlink: int, uid: int, gid: int, size: int, atime: int, mtime: int, ctime: int)

  /** A file with what readlink and scandir find there; the names come from
      scandir in byte order, without "." and "..". */
  datatype Entry = Entry(name: string, stat: Stat, target: string, kids: seq<Entry>)

  const DT_FIFO: int := 1
  const DT_CHR: int := 2
  const DT_DIR: int := 4
  const DT_BLK: int := 6
  const DT_REG: int := 8
  const DT_LNK: int := 10
  const DT_SOCK: int := 12

  function TypeOf(mode: int): int { mode / 0x1000 % 0x10 }
  predicate IsDir(e: Entry) { TypeOf(e.stat.mode) == DT_DIR }

  predicate ValidName(name: string) { name != "" && Slashless(name) }

  ghost predicate SortedNames(kids: seq<Entry>) {
    forall i, j :: 0 <= i < j < |kids| ==> StrLess(kids[i].name, kids[j].name)
  }

  /** A directory tree as the file system keeps it. */
  ghost predicate ValidTree(e: Entry) {
    && (!IsDir(e) ==> e.kids == []) && SortedNames(e.kids)
    && forall k <- e.kids :: ValidName(k.name) && ValidTree(k)
  }

  /** One entry of the catalog: the names of its path and the file it describes. */
  datatype Rec = Rec(key: seq<string>, entry: Entry)

  /** A directory that waits in the queue. */
  datatype DirAt = DirAt(key: seq<string>, dir: Entry)

  // ----- the walk -----

  function Weight(e: Entry): nat { 1 + KidsWeight(e.kids) }

  function KidsWeight(kids: seq<Entry>): nat {
    if kids == [] then 0 else Weight(kids[0]) + KidsWeight(kids[1..])
  }

  function QueueWeight(q: seq<DirAt>): nat {
    if q == [] then 0 else Weight(q[0].dir) + QueueWeight(q[1..])
  }

  /** The entries for the files of a directory. */
  function KidRecs(key: seq<string>, kids: seq<Entry>): seq<Rec> {
    if kids == [] then [] else [Rec(key + [kids[0].name], kids[0])] + KidRecs(key, kids[1..])
  }

  /** The directories among them. */
  function KidDirs(key: seq<string>, kids: seq<Entry>): (q: seq<DirAt>)
    ensures QueueWeight(q) <= KidsWeight(kids)
  {
    if kids == [] then []
    else if IsDir(kids[0]) then
      assert ([DirAt(key + [kids[0].name], kids[0])] + KidDirs(key, kids[1..]))[1..] == KidDirs(key, kids[1..]);
      [DirAt(key + [kids[0].name], kids[0])] + KidDirs(key, kids[1..])
    else KidDirs(key, kids[1..])
  }

  /** What the walk writes when it comes to a directory: itself with a slash,
      then its files. */
  function Emit(d: DirAt): seq<Rec> { [Rec(d.key + [""], d.dir)] + KidRecs(d.key, d.dir.kids) }

  lemma {:induction false} QueueWeightConcat(a: seq<DirAt>, b: seq<DirAt>)
    ensures QueueWeight(a + b) == QueueWeight(a) + QueueWeight(b)
  {
    if a == [] {
      assert a + b == b;
    } else {
      assert (a + b)[1..] == a[1..] + b;
      QueueWeightConcat(a[1..], b);
    }
  }

  /** The walk from a queue: the whole catalog. */
  function Walk(q: seq<DirAt>): seq<Rec>
    decreases QueueWeight(q)
  {
    if q == [] then []
    else
      QueueWeightConcat(q[1..], KidDirs(q[0].key, q[0].dir.kids));
      Emit(q[0]) + Walk(q[1..] + KidDirs(q[0].key, q[0].dir.kids))
  }

  lemma WalkUnfolds(q: seq<DirAt>)
    requires q != []
    ensures Walk(q) == Emit(q[0]) + Walk(q[1..] + KidDirs(q[0].key, q[0].dir.kids))
  {
    hide Emit, KidDirs, QueueWeight;
  }

  function Listing(root: Entry): seq<Rec> { Walk([DirAt([], root)]) }

  // ----- level by level -----

  function Level(q: seq<DirAt>): seq<Rec> {
    if q == [] then [] else Emit(q[0]) + Level(q[1..])
  }

  function Next(q: seq<DirAt>): (n: seq<DirAt>)
    ensures q != [] ==> QueueWeight(n) < QueueWeight(q)
  {
    if q == [] then []
    else
      QueueWeightConcat(KidDirs(q[0].key, q[0].dir.kids), Next(q[1..]));
      KidDirs(q[0].key, q[0].dir.kids) + Next(q[1..])
  }

  lemma WalkHead(q: seq<DirAt>, n: seq<DirAt>)
    requires q != []
    ensures Walk(q + n) == Emit(q[0]) + Walk(q[1..] + (n + KidDirs(q[0].key, q[0].dir.kids)))
  {
    hide KidDirs, Emit, QueueWeight;
    var subs := KidDirs(q[0].key, q[0].dir.kids);
    assert (q + n)[1..] == q[1..] + n;
    Associate(q[1..], n, subs);
  }

  lemma LevelStep(q: seq<DirAt>)
    ensures Level(q) == if q == [] then [] else Emit(q[0]) + Level(q[1..])
  {
    hide Emit;
  }

  lemma {:induction false} WalkSplits(q: seq<DirAt>, n: seq<DirAt>)
    ensures Walk(q + n) == Level(q) + Walk(n + Next(q))
    decreases |q|
  {
    hide Walk, KidDirs, KidRecs, Emit, Next, Level, QueueWeight;
    LevelStep(q);
    if q == [] {
      NextNone();
      assert q + n == n && n + Next(q) == n && [] + Walk(n) == Walk(n);
    } else {
      var subs := KidDirs(q[0].key, q[0].dir.kids);
      WalkHead(q, n);
      WalkSplits(q[1..], n + subs);
      NextStep(q);
      Associate(n, subs, Next(q[1..]));
      Associate(Emit(q[0]), Level(q[1..]), Walk(n + Next(q)));
    }
  }

  /** The walk writes one level of the tree after the other. */
  lemma WalkByLevels(q: seq<DirAt>)
    ensures Walk(q) == Level(q) + Walk(Next(q))
  {
    WalkSplits(q, []);
    assert q + [] == q && [] + Next(q) == Next(q);
  }

  // ----- the order of the catalog -----

  /** Each level of the queue: keys of one length, in order. */
  ghost predicate LevelOk(q: seq<DirAt>, k: nat) {
    && (forall d <- q :: |d.key| == k && Names(d.key) && IsDir(d.dir) && ValidTree(d.dir))
    && (forall i, j :: 0 <= i < j < |q| ==> CompLess(q[i].key, q[j].key))
  }

  ghost predicate Ascending(recs: seq<Rec>) {
    forall i, j :: 0 <= i < j < |recs| ==> KeyLess(recs[i].key, recs[j].key)
  }

  /** `key` is one name under the directory `d`. */
  predicate Under(key: seq<string>, d: seq<string>) { |key| == |d| + 1 && key[..|d|] == d }

  lemma {:induction false} KidRecsAre(key: seq<string>, kids: seq<Entry>)
    ensures |KidRecs(key, kids)| == |kids|
    ensures forall i :: 0 <= i < |kids| ==> KidRecs(key, kids)[i] == Rec(key + [kids[i].name], kids[i])
  {
    if kids != [] {
      KidRecsAre(key, kids[1..]);
    }
  }

  lemma EmitOrdered(d: DirAt)
    requires ValidTree(d.dir) && Names(d.key)
    ensures Ascending(Emit(d)) && forall r <- Emit(d) :: Under(r.key, d.key) && Names(r.key)
  {
    KidRecsAre(d.key, d.dir.kids);
    var recs := Emit(d);
    forall i, j | 0 <= i < j < |recs| ensures KeyLess(recs[i].key, recs[j].key) {
      if i == 0 {
        CompLessLast(d.key, "", d.dir.kids[j - 1].name);
      } else {
        CompLessLast(d.key, d.dir.kids[i - 1].name, d.dir.kids[j - 1].name);
      }
    }
  }

  lemma AscendingConcat(a: seq<Rec>, b: seq<Rec>)
    requires Ascending(a) && Ascending(b) && forall x, y | x in a && y in b :: KeyLess(x.key, y.key)
    ensures Ascending(a + b)
  {
  }

  /** Names under an earlier directory come before names under a later one. */
  lemma UnderOrder(x: seq<string>, y: seq<string>, a: seq<string>, b: seq<string>)
    requires Under(x, a) && Under(y, b) && CompLess(a, b)
    ensures CompLess(x, y)
  {
    CompLessExtend(a, b, x[|a|..], y[|b|..]);
    assert x == a + x[|a|..] && y == b + y[|b|..];
  }

  lemma {:induction false} LevelOrdered(q: seq<DirAt>, k: nat)
    requires LevelOk(q, k)
    ensures Ascending(Level(q))
    ensures forall r <- Level(q) :: Names(r.key) && exists d <- q :: Under(r.key, d.key)
  {
    if q != [] {
      EmitOrdered(q[0]);
      LevelOrdered(q[1..], k);
      forall x, y | x in Emit(q[0]) && y in Level(q[1..]) ensures KeyLess(x.key, y.key) {
        var d :| d in q[1..] && Under(y.key, d.key);
        var j :| 0 <= j < |q[1..]| && q[1..][j] == d;
        assert q[j + 1] == d;
        UnderOrder(x.key, y.key, q[0].key, d.key);
      }
      AscendingConcat(Emit(q[0]), Level(q[1..]));
    }
  }

  lemma {:induction false} KidDirsAre(key: seq<string>, kids: seq<Entry>, d: DirAt)
    ensures d in KidDirs(key, kids) <==> d.dir in kids && IsDir(d.dir) && d.key == key + [d.dir.name]
  {
    if kids != [] {
      KidDirsAre(key, kids[1..], d);
    }
  }

  lemma {:induction false} KidDirsOk(key: seq<string>, kids: seq<Entry>)
    requires SortedNames(kids) && Names(key) && forall e <- kids :: ValidName(e.name) && ValidTree(e)
    ensures LevelOk(KidDirs(key, kids), |key| + 1)
    ensures forall d <- KidDirs(key, kids) :: Under(d.key, key)
  {
    if kids != [] {
      KidDirsOk(key, kids[1..]);
      var rest := KidDirs(key, kids[1..]);
      forall d | d in rest ensures CompLess(key + [kids[0].name], d.key) {
        KidDirsAre(key, kids[1..], d);
        CompLessLast(key, kids[0].name, d.dir.name);
      }
    }
  }

  lemma {:induction false} NextOk(q: seq<DirAt>, k: nat)
    requires LevelOk(q, k)
    ensures LevelOk(Next(q), k + 1)
    ensures forall n <- Next(q) :: exists d <- q :: Under(n.key, d.key)
  {
    if q != [] {
      var subs := KidDirs(q[0].key, q[0].dir.kids);
      LevelTail(q, k);
      KidDirsOk(q[0].key, q[0].dir.kids);
      NextOk(q[1..], k);
      hide KidDirs, Next, ValidTree, LevelOk, CompLess, Under;
      forall x, y | x in subs && y in Next(q[1..]) ensures CompLess(x.key, y.key) {
        var d :| d in q[1..] && Under(y.key, d.key);
        UnderOrder(x.key, y.key, q[0].key, d.key);
      }
      LevelConcat(subs, Next(q[1..]), k + 1);
      NextStep(q);
    }
  }

  lemma NextNone()
    ensures Next([]) == []
  {
  }

  lemma NextStep(q: seq<DirAt>)
    requires q != []
    ensures Next(q) == KidDirs(q[0].key, q[0].dir.kids) + Next(q[1..])
  {
  }

  lemma LevelTail(q: seq<DirAt>, k: nat)
    requires LevelOk(q, k) && q != []
    ensures LevelOk(q[1..], k) && IsDir(q[0].dir) && ValidTree(q[0].dir) && Names(q[0].key) && |q[0].key| == k
    ensures forall d <- q[1..] :: d in q && CompLess(q[0].key, d.key)
    ensures q[0] in q && q == [q[0]] + q[1..]
  {
    hide ValidTree, CompLess;
    forall d <- q[1..] ensures d in q && CompLess(q[0].key, d.key) {
      var j :| 0 <= j < |q[1..]| && q[1..][j] == d;
      assert q[j + 1] == d;
    }
  }

  lemma LevelConcat(a: seq<DirAt>, b: seq<DirAt>, k: nat)
    requires LevelOk(a, k) && LevelOk(b, k) && forall x, y | x in a && y in b :: CompLess(x.key, y.key)
    ensures LevelOk(a + b, k)
  {
  }

  lemma {:induction false} WalkOrdered(q: seq<DirAt>, k: nat)
    requires LevelOk(q, k)
    ensures Ascending(Walk(q)) && forall r <- Walk(q) :: Names(r.key) && |r.key| > k
    decreases QueueWeight(q)
  {
    if q != [] {
      WalkByLevels(q);
      LevelOrdered(q, k);
      NextOk(q, k);
      WalkOrdered(Next(q), k + 1);
      AscendingConcat(Level(q), Walk(Next(q)));
    }
  }

  /** The catalog lists its entries level by level and, within a level, name by
      name; so no key comes twice. */
  lemma ListingOrdered(root: Entry)
    requires ValidTree(root) && IsDir(root)
    ensures Ascending(Listing(root))
    ensures forall i, j :: 0 <= i < j < |Listing(root)| ==> Listing(root)[i].key != Listing(root)[j].key
  {
    var q := [DirAt([], root)];
    WalkOrdered(q, 0);
    forall i, j | 0 <= i < j < |Listing(root)| ensures Listing(root)[i].key != Listing(root)[j].key {
      CompLessStrict(Listing(root)[i].key);
    }
  }

  // ----- what the catalog holds -----

  /** The file under a name. */
  function Kid(kids: seq<Entry>, name: string): Option<Entry> {
    if kids == [] then None else if kids[0].name == name then Some(kids[0]) else Kid(kids[1..], name)
  }

  /** The file that a key leads to from the directory `e`; a last empty name
      stands for the directory itself. */
  function Find(e: Entry, key: seq<string>): Option<Entry>
    decreases |key|
  {
    if key == [] then None
    else if key == [""] then Some(e)
    else
      var k := Kid(e.kids, key[0]);
      if |key| == 1 || k.None? then k else if IsDir(k.value) then Find(k.value, key[1..]) else None
  }

  lemma {:induction false} KidIs(kids: seq<Entry>, name: string, e: Entry)
    requires SortedNames(kids)
    ensures Kid(kids, name) == Some(e) <==> e in kids && e.name == name
  {
    if kids != [] {
      if kids[0].name == name && e in kids && e.name == name && e != kids[0] {
        var j :| 0 <= j < |kids| && kids[j] == e;
        StrLessStrict(name, name);
      }
      KidIs(kids[1..], name, e);
    }
  }

  predicate Extends(key: seq<string>, d: seq<string>) { |d| < |key| && key[..|d|] == d }

  /** `r` describes what its key leads to from the queued directory. */
  predicate Leads(d: DirAt, r: Rec) {
    Extends(r.key, d.key) && Find(d.dir, r.key[|d.key|..]) == Some(r.entry)
  }

  lemma {:induction false} KidRecsIn(key: seq<string>, kids: seq<Entry>, r: Rec)
    ensures r in KidRecs(key, kids) <==> r.entry in kids && r.key == key + [r.entry.name]
  {
    if kids != [] {
      KidRecsIn(key, kids[1..], r);
    }
  }

  lemma EmitIs(d: DirAt, r: Rec)
    requires ValidTree(d.dir)
    ensures r in Emit(d) <==> |r.key| == |d.key| + 1 && Leads(d, r)
  {
    KidRecsIn(d.key, d.dir.kids, r);
    if Under(r.key, d.key) {
      var name := r.key[|d.key|];
      assert r.key[|d.key|..] == [name] && r.key == d.key + [name];
      KidIs(d.dir.kids, name, r.entry);
      if r.entry in d.dir.kids { assert ValidName(r.entry.name); }
    } else if r.key == d.key + [""] || r.key == d.key + [r.entry.name] {
      assert false;
    }
  }

  lemma KidDirsLead(d: DirAt, r: Rec)
    requires ValidTree(d.dir)
    ensures (exists n <- KidDirs(d.key, d.dir.kids) :: Leads(n, r)) <==> |r.key| > |d.key| + 1 && Leads(d, r)
  {
    hide KidDirs, Leads, ValidTree;
    if n: DirAt :| n in KidDirs(d.key, d.dir.kids) && Leads(n, r) {
      KidDirsAre(d.key, d.dir.kids, n);
      StepDown(d, n, r);
    }
    if |r.key| > |d.key| + 1 && Leads(d, r) {
      var n := StepUp(d, r);
      KidDirsAre(d.key, d.dir.kids, n);
    }
  }

  lemma StepUp(d: DirAt, r: Rec) returns (n: DirAt)
    requires ValidTree(d.dir) && |r.key| > |d.key| + 1 && Leads(d, r)
    ensures n.dir in d.dir.kids && IsDir(n.dir) && n.key == d.key + [n.dir.name] && Leads(n, r)
  {
    hide ValidTree;
    var rest := r.key[|d.key|..];
    var k := Kid(d.dir.kids, rest[0]).value;
    KidsSorted(d.dir);
    KidIs(d.dir.kids, rest[0], k);
    n := DirAt(d.key + [k.name], k);
    assert r.key[..|n.key|] == r.key[..|d.key|] + [rest[0]] && rest[1..] == r.key[|n.key|..];
  }

  lemma KidsSorted(e: Entry)
    requires ValidTree(e)
    ensures SortedNames(e.kids)
  {
  }

  lemma StepDown(d: DirAt, n: DirAt, r: Rec)
    requires ValidTree(d.dir) && n.dir in d.dir.kids && IsDir(n.dir) && n.key == d.key + [n.dir.name] && Leads(n, r)
    ensures |r.key| > |d.key| + 1 && Leads(d, r)
  {
    var rest := r.key[|d.key|..];
    assert r.key[..|d.key|] == r.key[..|n.key|][..|d.key|];
    assert rest[0] == r.key[..|n.key|][|d.key|] == n.dir.name && rest[1..] == r.key[|n.key|..];
    KidIs(d.dir.kids, n.dir.name, n.dir);
  }

  lemma {:induction false} LevelIs(q: seq<DirAt>, k: nat, r: Rec)
    requires forall d <- q :: |d.key| == k && ValidTree(d.dir)
    ensures r in Level(q) <==> |r.key| == k + 1 && exists d <- q :: Leads(d, r)
  {
    if q != [] {
      EmitIs(q[0], r);
      LevelIs(q[1..], k, r);
      hide Leads;
      assert q == [q[0]] + q[1..];
    }
  }

  lemma {:induction false} NextIs(q: seq<DirAt>, k: nat, r: Rec)
    requires forall d <- q :: |d.key| == k && ValidTree(d.dir)
    ensures (exists n <- Next(q) :: Leads(n, r)) <==> |r.key| > k + 1 && exists d <- q :: Leads(d, r)
  {
    hide Leads, KidDirs, Next, ValidTree;
    if q != [] {
      NextStep(q);
      KidDirsLead(q[0], r);
      NextIs(q[1..], k, r);
      assert q == [q[0]] + q[1..];
    } else {
      assert Next(q) == [] by { NextNone(); }
    }
  }

  lemma {:induction false} WalkIs(q: seq<DirAt>, k: nat, r: Rec)
    requires LevelOk(q, k)
    ensures r in Walk(q) <==> exists d <- q :: Leads(d, r)
    decreases QueueWeight(q)
  {
    if q != [] {
      WalkByLevels(q);
      LevelIs(q, k, r);
      NextIs(q, k, r);
      NextOk(q, k);
      WalkIs(Next(q), k + 1, r);
      if d: DirAt :| d in q && Leads(d, r) {
        assert |r.key| > k;
      }
    }
  }

  /** The catalog holds exactly the files of the tree: each under its path, and
      each directory once more under its path with a slash behind it. */
  lemma ListingIs(root: Entry, r: Rec)
    requires ValidTree(root) && IsDir(root)
    ensures r in Listing(root) <==> Find(root, r.key) == Some(r.entry)
  {
    var q := [DirAt([], root)];
    WalkIs(q, 0, r);
    assert r.key[0..] == r.key;
    assert q[0] in q;
  }

  // ----- when the catalog is sorted for the search -----

  /** No directory's name is a sibling directory's name followed by a byte
      below the slash. */
  ghost predicate NoClash(e: Entry) {
    && (forall a, b | a in e.kids && b in e.kids && IsDir(a) && IsDir(b) :: !Clash(a.name, b.name))
    && forall k <- e.kids :: NoClash(k)
  }

  ghost predicate SortedPaths(recs: seq<Rec>) {
    forall i, j :: 0 <= i < j < |recs| ==> PathLess(Join(recs[i].key), Join(recs[j].key))
  }

  /** Keys that clash lead to directories that do. */
  lemma {:induction false} ClashFound(e: Entry, a: seq<string>, b: seq<string>)
    requires ValidTree(e) && Find(e, a).Some? && Find(e, b).Some? && KeysClash(a, b)
    ensures !NoClash(e)
    decreases |a|
  {
    var x, y := Kid(e.kids, a[0]).value, Kid(e.kids, b[0]).value;
    KidIs(e.kids, a[0], x);
    KidIs(e.kids, b[0], y);
    if a[0] == b[0] {
      ClashFound(x, a[1..], b[1..]);
    }
  }

  lemma {:induction false} ClashLess(a: string, b: string)
    requires Clash(a, b)
    ensures StrLess(a, b)
  {
    if a != "" {
      assert b[0] == b[..|a|][0] && b[1..][..|a[1..]|] == b[..|a|][1..] == a[1..];
      ClashLess(a[1..], b[1..]);
    }
  }

  lemma SiblingKeys(e: Entry, x: Entry, y: Entry) returns (a: seq<string>, b: seq<string>)
    requires ValidTree(e) && x in e.kids && y in e.kids && IsDir(x) && IsDir(y) && Clash(x.name, y.name)
    ensures Find(e, a).Some? && Find(e, b).Some? && CompLess(a, b) && KeysClash(a, b)
  {
    KidIs(e.kids, x.name, x);
    KidIs(e.kids, y.name, y);
    ClashLess(x.name, y.name);
    a, b := [x.name, ""], [y.name, ""];
    assert a[1..] == [""] && b[1..] == [""];
  }

  lemma DeeperKeys(e: Entry, k: Entry, a: seq<string>, b: seq<string>)
    requires ValidTree(e) && k in e.kids && IsDir(k) && Find(k, a).Some? && Find(k, b).Some? && CompLess(a, b)
             && KeysClash(a, b)
    ensures Find(e, [k.name] + a).Some? && Find(e, [k.name] + b).Some?
    ensures CompLess([k.name] + a, [k.name] + b) && KeysClash([k.name] + a, [k.name] + b)
  {
    KidIs(e.kids, k.name, k);
    assert ([k.name] + a)[1..] == a && ([k.name] + b)[1..] == b;
  }

  /** Two keys of one length that are in the order of the walk but clash. */
  lemma {:induction false} ClashKeys(e: Entry) returns (a: seq<string>, b: seq<string>)
    requires ValidTree(e) && !NoClash(e)
    ensures Find(e, a).Some? && Find(e, b).Some? && CompLess(a, b) && KeysClash(a, b)
  {
    if x, y: Entry :| x in e.kids && y in e.kids && IsDir(x) && IsDir(y) && Clash(x.name, y.name) {
      a, b := SiblingKeys(e, x, y);
    } else {
      var k :| k in e.kids && !NoClash(k);
      a, b := ClashKeys(k);
      DirHasKids(k);
      DeeperKeys(e, k, a, b);
      a, b := [k.name] + a, [k.name] + b;
    }
  }

  lemma DirHasKids(e: Entry)
    requires ValidTree(e) && !NoClash(e)
    ensures IsDir(e)
  {
  }

  /** The catalog is sorted by depth and path, as the search needs it, exactly
      when no two sibling directories clash. */
  lemma SortedIffNoClash(root: Entry)
    requires ValidTree(root) && IsDir(root)
    ensures SortedPaths(Listing(root)) <==> NoClash(root)
  {
    var recs := Listing(root);
    ListingOrdered(root);
    WalkOrdered([DirAt([], root)], 0);
    if NoClash(root) {
      forall i, j | 0 <= i < j < |recs| ensures PathLess(Join(recs[i].key), Join(recs[j].key)) {
        PairSorted(root, recs[i], recs[j]);
      }
    } else {
      var a, b := ClashKeys(root);
      ClashUnsorted(root, a, b);
    }
  }

  lemma PairSorted(root: Entry, x: Rec, y: Rec)
    requires ValidTree(root) && IsDir(root) && NoClash(root) && x in Listing(root) && y in Listing(root)
             && KeyLess(x.key, y.key)
    requires Names(x.key) && Names(y.key) && x.key != [] && y.key != []
    ensures PathLess(Join(x.key), Join(y.key))
  {
    JoinDepth(x.key);
    JoinDepth(y.key);
    ListingIs(root, x);
    ListingIs(root, y);
    if CompLess(x.key, y.key) {
      JoinOrder(x.key, y.key);
      if KeysClash(x.key, y.key) { ClashFound(root, x.key, y.key); }
    }
  }

  lemma ClashUnsorted(root: Entry, a: seq<string>, b: seq<string>)
    requires ValidTree(root) && IsDir(root) && Find(root, a).Some? && Find(root, b).Some? && CompLess(a, b)
             && KeysClash(a, b)
    ensures !SortedPaths(Listing(root))
  {
    var recs := Listing(root);
    var x, y := Rec(a, Find(root, a).value), Rec(b, Find(root, b).value);
    ListingIs(root, x);
    ListingIs(root, y);
    ListingOrdered(root);
    WalkOrdered([DirAt([], root)], 0);
    var i :| 0 <= i < |recs| && recs[i] == x;
    var j :| 0 <= j < |recs| && recs[j] == y;
    JoinDepth(a);
    JoinDepth(b);
    JoinOrder(a, b);
    CompLessAsym(a, b);
    assert i < j;
  }

  lemma {:induction false} CompLessAsym(a: seq<string>, b: seq<string>)
    requires CompLess(a, b)
    ensures !CompLess(b, a)
    decreases |a|
  {
    StrLessStrict(a[0], b[0]);
    if a[0] == b[0] && CompLess(a[1..], b[1..]) {
      CompLessAsym(a[1..], b[1..]);
    }
  }
}
