/** From a directory tree to a mounted catalog of it, and that the two agree. */
module CatalogAgreement {
  import opened Sequences
  import opened CatalogOrder
  import opened CatalogListing
  import opened CatalogText
  import opened CatalogGenerator
  import opened CatalogSearch

  // ----- the conditions on the tree -----

  predicate PlainName(name: string) { SEPARATOR !in name && LINK_SEPARATOR !in name && NEWLINE !in name }

  /** Names and link targets leave the separators of the format alone. */
  ghost predicate PlainTree(e: Entry) {
    ValidTarget(e.target) && forall k <- e.kids :: PlainName(k.name) && PlainTree(k)
  }

  /** The trees whose catalogs work. */
  ghost predicate Catalogable(root: Entry) {
    ValidTree(root) && IsDir(root) && PlainTree(root) && NoClash(root)
  }

  // ----- the entries of the catalog -----

  function RecordOf(r: Rec): Record { Recorded(r.entry.stat, Join(r.key), r.entry.target) }

  function Records(recs: seq<Rec>): (es: seq<Record>)
    ensures |es| == |recs| && forall i :: 0 <= i < |es| ==> es[i] == RecordOf(recs[i])
  {
    if recs == [] then [] else [RecordOf(recs[0])] + Records(recs[1..])
  }

  function Catalogued(root: Entry): seq<Record> { Records(Listing(root)) }

  /** The file under a path of names. */
  function FileAt(e: Entry, names: seq<string>): Option<Entry>
    decreases |names|
  {
    if names == [] then Some(e)
    else if Kid(e.kids, names[0]).None? then None
    else FileAt(Kid(e.kids, names[0]).value, names[1..])
  }

  ghost predicate ValidNames(names: seq<string>) { forall n <- names :: ValidName(n) }

  lemma {:induction false} FindIsFileAt(e: Entry, names: seq<string>)
    requires ValidTree(e) && ValidNames(names) && names != []
    ensures Find(e, names) == FileAt(e, names)
    decreases |names|
  {
    var k := Kid(e.kids, names[0]);
    assert names[0] in names && names[0] != "";
    if k.Some? {
      KidIs(e.kids, names[0], k.value);
      if |names| == 1 {
        assert FileAt(k.value, names[1..]) == k;
      } else {
        FindIsFileAt(k.value, names[1..]);
      }
    }
  }

  lemma {:induction false} FindIsDir(e: Entry, names: seq<string>)
    requires ValidTree(e) && ValidNames(names) && IsDir(e)
    ensures var f := FileAt(e, names);
            Find(e, names + [""]) == if f.Some? && IsDir(f.value) then f else None
    decreases |names|
  {
    if names == [] {
      assert names + [""] == [""];
    } else {
      var k := Kid(e.kids, names[0]);
      assert (names + [""])[1..] == names[1..] + [""];
      if k.Some? {
        KidIs(e.kids, names[0], k.value);
        if IsDir(k.value) {
          FindIsDir(k.value, names[1..]);
        } else if names[1..] != [] {
          assert FileAt(k.value, names[1..]) == None;
        }
      }
    }
  }

  // ----- the catalog can be printed, read back and searched -----

  lemma {:induction false} FindPlain(e: Entry, key: seq<string>)
    requires ValidTree(e) && PlainTree(e) && Find(e, key).Some?
    ensures forall n <- key :: PlainName(n) && Slashless(n)
    ensures ValidTarget(Find(e, key).value.target)
    decreases |key|
  {
    if key != [""] {
      var k := Kid(e.kids, key[0]).value;
      KidIs(e.kids, key[0], k);
      assert key == [key[0]] + key[1..];
      if |key| > 1 { FindPlain(k, key[1..]); }
    }
  }

  lemma {:induction false} JoinPlain(key: seq<string>)
    requires forall n <- key :: PlainName(n)
    ensures PlainName(Join(key))
  {
    assert '/' != SEPARATOR && '/' != LINK_SEPARATOR && '/' != NEWLINE;
    if key != [] {
      JoinPlain(key[1..]);
      assert PlainName(key[0]) && PlainName("/");
    }
  }

  lemma CatalogPrintable(root: Entry)
    requires ValidTree(root) && IsDir(root) && PlainTree(root)
    ensures AllPrintable(Listing(root))
  {
    forall r <- Listing(root) ensures Printable(r) {
      ListingIs(root, r);
      FindPlain(root, r.key);
      JoinPlain(r.key);
    }
  }

  lemma CatalogSorted(root: Entry)
    requires Catalogable(root)
    ensures Sorted(Catalogued(root))
  {
    hide Listing, ValidTree, PlainTree, NoClash, Depth, Recorded, PathLess;
    SortedIffNoClash(root);
    var es := Catalogued(root);
    forall e <- es ensures e.depth == Depth(e.path) && e.depth >= 1 {
      var i :| 0 <= i < |es| && es[i] == e;
      KeyKnown(root, Listing(root)[i]);
    }
    forall i, j | 0 <= i < j < |es| ensures PathLess(es[i].path, es[j].path) {
      KeyKnown(root, Listing(root)[i]);
      KeyKnown(root, Listing(root)[j]);
    }
  }

  lemma KeyKnown(root: Entry, r: Rec)
    requires ValidTree(root) && IsDir(root) && r in Listing(root)
    ensures Names(r.key) && r.key != [] && Depth(Join(r.key)) == |r.key|
    ensures RecordOf(r).path == Join(r.key) && RecordOf(r).depth == |r.key|
  {
    WalkOrdered([DirAt([], root)], 0);
    JoinDepth(r.key);
  }

  /** The padded file holds the entries of the tree. */
  lemma FileHolds(root: Entry)
    requires Catalogable(root)
    ensures var text := PrintAll(Listing(root));
            MaxLine(text) > 0 && Holds(PadAll(text, MaxLine(text)), MaxLine(text), Catalogued(root))
  {
    hide Listing, MaxLine, PadAll, PrintAll, Parse, NoClash, PlainTree, ValidTree, Offset, Recorded, Printable;
    CatalogPrintable(root);
    ListingNotEmpty(root);
    CatalogRoundTrip(Listing(root), 0);
    var text, es := PrintAll(Listing(root)), Catalogued(root);
    var m := MaxLine(text);
    var file := PadAll(text, m);
    forall i | 0 <= i < |es|
      ensures Offset(m, i) + m <= |file| && Parse(file[Offset(m, i)..Offset(m, i) + m]) == Some(es[i]) {
      CatalogRoundTrip(Listing(root), i);
    }
  }

  lemma ListingNotEmpty(root: Entry)
    ensures Listing(root) != []
  {
    assert Walk([DirAt([], root)]) != [];
  }

  /** generate_catalog on a tree, and catalogfs mounted on its output. */
  method Mount(root: Entry, inputDir: string) returns (c: Catalog)
    requires Catalogable(root) && inputDir != ""
    ensures fresh(c) && c.Valid() && c.es == Catalogued(root)
  {
    hide Listing, MaxLine, PadAll, PrintAll, Parse, Catalogable, Holds, Sorted;
    var g := new Generator(inputDir);
    g.CatalogListing(root);
    g.PadEachLine();
    FileHolds(root);
    CatalogSorted(root);
    var entrySize, catalogLen := MaxLine(g.output), |Listing(root)|;
    c := new Catalog(g.padded, entrySize, catalogLen, Catalogued(root));
  }

  // ----- getattr -----

  lemma {:induction false} LookupFinds(recs: seq<Rec>, path: string)
    ensures var l := Lookup(Records(recs), path);
            && (l.Some? ==> exists r <- recs :: RecordOf(r) == l.value && Join(r.key) == path)
            && (l.None? ==> forall r <- recs :: Join(r.key) != path)
  {
    hide Recorded, Join, Records, RecordOf;
    RecordsStep(recs);
    if recs != [] {
      var rest := recs[1..];
      LookupFinds(rest, path);
      RecordPath(recs[0]);
      assert forall r <- recs :: r == recs[0] || r in rest;
      if Join(recs[0].key) != path {
        assert Lookup(Records(recs), path) == Lookup(Records(rest), path);
      }
    }
  }

  lemma RecordsStep(recs: seq<Rec>)
    ensures Records(recs) == if recs == [] then [] else [RecordOf(recs[0])] + Records(recs[1..])
    ensures recs != [] ==>
            Records(recs) != [] && Records(recs)[0] == RecordOf(recs[0]) && Records(recs)[1..] == Records(recs[1..])
  {
  }

  lemma RecordPath(r: Rec)
    ensures RecordOf(r).path == Join(r.key)
  {
  }

  /** Looking up the path of a key finds just what the key leads to. */
  lemma LookupKey(root: Entry, key: seq<string>)
    requires ValidTree(root) && IsDir(root) && Names(key)
    ensures Lookup(Catalogued(root), Join(key)) ==
            if Find(root, key).Some? then Some(RecordOf(Rec(key, Find(root, key).value))) else None
  {
    hide Listing, ValidTree, Find, Lookup;
    LookupFinds(Listing(root), Join(key));
    var l := Lookup(Catalogued(root), Join(key));
    if Find(root, key).Some? {
      ListingIs(root, Rec(key, Find(root, key).value));
    }
    if l.Some? {
      var r :| r in Listing(root) && RecordOf(r) == l.value && Join(r.key) == Join(key);
      KeyKnown(root, r);
      JoinInjective(r.key, key);
      ListingIs(root, r);
    }
  }

  lemma NamesOf(names: seq<string>)
    requires ValidNames(names)
    ensures Names(names) && Names(names + [""])
  {
  }

  /** getattr agrees with the tree: each path of names has the attributes of its
      file, and a path of names without a file has none. */
  lemma GetattrAgrees(root: Entry, names: seq<string>)
    requires ValidTree(root) && IsDir(root) && ValidNames(names) && names != []
    ensures var f := FileAt(root, names);
            Lookup(Catalogued(root), Join(names)) ==
            if f.Some? then
              Some(Record(Kept(f.value.stat), |names|, Join(names),
                          if IsLink(f.value.stat) then f.value.target else ""))
            else None
  {
    NamesOf(names);
    LookupKey(root, names);
    FindIsFileAt(root, names);
    JoinDepth(names);
  }

  /** The same for a directory asked for with a slash behind its path, and for
      the root. */
  lemma GetattrOfDirectory(root: Entry, names: seq<string>)
    requires ValidTree(root) && IsDir(root) && ValidNames(names)
    ensures var f := FileAt(root, names);
            Lookup(Catalogued(root), Join(names) + "/") ==
            if f.Some? && IsDir(f.value) then Some(Record(Kept(f.value.stat), |names| + 1, Join(names) + "/", ""))
            else None
  {
    NamesOf(names);
    LookupKey(root, names + [""]);
    FindIsDir(root, names);
    JoinDepth(names + [""]);
    JoinConcat(names, [""]);
    assert Join([""]) == "/";
  }

  lemma {:induction false} FindShape(e: Entry, key: seq<string>) returns (names: seq<string>)
    requires ValidTree(e) && IsDir(e) && Find(e, key).Some?
    ensures ValidNames(names) && FileAt(e, names) == Find(e, key)
    ensures (key == names && names != []) || (key == names + [""] && IsDir(FileAt(e, names).value))
    decreases |key|
  {
    if key == [""] {
      names := [];
    } else {
      var k := Kid(e.kids, key[0]).value;
      KidIs(e.kids, key[0], k);
      assert key == [key[0]] + key[1..];
      if |key| == 1 {
        names := key;
        assert FileAt(k, names[1..]) == Some(k);
      } else {
        names := FindShape(k, key[1..]);
        assert ([key[0]] + names)[1..] == names;
        assert [key[0]] + (names + [""]) == ([key[0]] + names) + [""];
        names := [key[0]] + names;
      }
    }
  }

  /** No other path is found: what is found is the path of a file, or that of a
      directory with a slash behind it. */
  lemma NothingElse(root: Entry, path: string)
    requires ValidTree(root) && IsDir(root) && Lookup(Catalogued(root), path).Some?
    ensures exists names: seq<string> :: ValidNames(names) && FileAt(root, names).Some?
              && ((path == Join(names) && names != [])
                 || (path == Join(names) + "/" && IsDir(FileAt(root, names).value)))
  {
    hide Listing, ValidTree, Lookup, Find, FileAt, RecordOf;
    LookupFinds(Listing(root), path);
    var r :| r in Listing(root) && Join(r.key) == path;
    ListingIs(root, r);
    var names := FindShape(root, r.key);
    JoinConcat(names, [""]);
    assert Join([""]) == "/";
  }

  // ----- readdir -----

  /** Each directory's entries stand together in the walk. */
  lemma {:induction false} EmitInWalk(q: seq<DirAt>, d: DirAt) returns (a: seq<Rec>, c: seq<Rec>)
    requires (forall x <- q :: ValidTree(x.dir)) && exists x <- q :: Leads(x, Rec(d.key + [""], d.dir))
    ensures Walk(q) == a + (Emit(d) + c)
    decreases QueueWeight(q)
  {
    hide Walk, Emit, KidDirs, QueueWeight, ValidTree, Leads;
    var subs := KidDirs(q[0].key, q[0].dir.kids);
    WalkShrinks(q);
    WalkUnfolds(q);
    if q[0] == d {
      a, c := [], Walk(q[1..] + subs);
    } else {
      LeadsOn(q, d);
      a, c := EmitInWalk(q[1..] + subs, d);
      a := Emit(q[0]) + a;
    }
  }

  lemma LeadsSelf(x: DirAt, d: DirAt)
    requires Leads(x, Rec(d.key + [""], d.dir)) && |d.key| <= |x.key|
    ensures x == d
  {
    var key := d.key + [""];
    assert key[|x.key|..] == [""] && key[..|x.key|] == d.key;
  }

  lemma LeadsOn(q: seq<DirAt>, d: DirAt)
    requires q != [] && (forall x <- q :: ValidTree(x.dir)) && q[0] != d
    requires exists x <- q :: Leads(x, Rec(d.key + [""], d.dir))
    ensures var rest := q[1..] + KidDirs(q[0].key, q[0].dir.kids);
            (forall x <- rest :: ValidTree(x.dir)) && exists x <- rest :: Leads(x, Rec(d.key + [""], d.dir))
  {
    var r := Rec(d.key + [""], d.dir);
    var subs := KidDirs(q[0].key, q[0].dir.kids);
    forall x <- subs ensures ValidTree(x.dir) {
      KidDirsAre(q[0].key, q[0].dir.kids, x);
    }
    var x :| x in q && Leads(x, r);
    if x == q[0] {
      if |d.key| <= |x.key| { LeadsSelf(x, d); }
      KidDirsLead(q[0], r);
      var n :| n in subs && Leads(n, r);
      assert n in q[1..] + subs;
    } else {
      assert q == [q[0]] + q[1..];
    }
  }

  lemma PrefixTail(c: char, s: string, d: char, p: string)
    ensures HasPrefix([c] + s, [d] + p) <==> c == d && HasPrefix(s, p)
  {
    if |p| <= |s| {
      assert ([c] + s)[..|[d] + p|] == [c] + s[..|p|];
      assert ([d] + p)[0] == d && ([d] + p)[1..] == p && ([c] + s[..|p|])[1..] == s[..|p|];
    }
  }

  lemma {:induction false} NamesPrefix(a: string, b: string, x: string, y: string)
    requires Slashless(a) && Slashless(b) && HasPrefix(a + x, b + y) && y != "" && y[0] == '/'
             && (x == "" || x[0] == '/')
    ensures a == b && HasPrefix(x, y)
    decreases |a|
  {
    hide HasPrefix;
    FirstOf(a, x);
    FirstOf(b, y);
    SamePrefixStart(a + x, b + y);
    if a != "" && b != "" {
      PrefixTail(a[0], a[1..] + x, b[0], b[1..] + y);
      NamesPrefix(a[1..], b[1..], x, y);
      assert a == [a[0]] + a[1..] && b == [b[0]] + b[1..];
    }
  }

  lemma SamePrefixStart(s: string, p: string)
    requires HasPrefix(s, p) && p != ""
    ensures s != "" && s[0] == p[0]
  {
    assert s[..|p|][0] == p[0];
  }

  /** One more name, and the path of a directory in front: that is all that
      being in it takes. */
  lemma {:induction false} PrefixKeys(key: seq<string>, names: seq<string>)
    requires Names(key) && Names(names) && |key| == |names| + 1 && HasPrefix(Join(key), Join(names + [""]))
    ensures key[..|names|] == names
    decreases |names|
  {
    if names != [] {
      var x, y := Join(key[1..]), Join(names[1..] + [""]);
      assert (names + [""])[1..] == names[1..] + [""];
      assert Join(key) == ['/'] + (key[0] + x) && Join(names + [""]) == ['/'] + (names[0] + y);
      PrefixTail('/', key[0] + x, '/', names[0] + y);
      NamesPrefix(key[0], names[0], x, y);
      PrefixKeys(key[1..], names[1..]);
      assert key[..|names|] == [key[0]] + key[1..][..|names[1..]|];
      assert names == [names[0]] + names[1..];
    }
  }

  /** Which records lie in a directory. */
  lemma ContentKeys(root: Entry, names: seq<string>, r: Rec)
    requires ValidTree(root) && IsDir(root) && ValidNames(names) && r in Listing(root)
    ensures IsContent(RecordOf(r), Join(names + [""])) <==> Under(r.key, names) && r.key[|names|] != ""
  {
    hide Listing, ValidTree, Join, HasPrefix, Depth, RecordOf;
    NamesOf(names);
    KeyKnown(root, r);
    JoinDepth(names + [""]);
    var dir := Join(names + [""]);
    if Under(r.key, names) {
      var x := r.key[|names|];
      assert r.key == names + [x];
      InsidePath(names, x);
    }
    if IsContent(RecordOf(r), dir) {
      PrefixKeys(r.key, names);
      assert r.key == names + [r.key[|names|]];
    }
  }

  lemma InsidePath(names: seq<string>, x: string)
    ensures HasPrefix(Join(names + [x]), Join(names + [""])) && (Join(names + [x]) == Join(names + [""]) <==> x == "")
  {
    JoinConcat(names, [""]);
    JoinConcat(names, [x]);
    assert Join([""]) == "/" && Join([x]) == "/" + x;
    assert Join(names + [x]) == Join(names + [""]) + x;
  }

  function KidAnswers(kids: seq<Entry>): seq<(string, Stat)> {
    if kids == [] then [] else [(kids[0].name, Kept(kids[0].stat))] + KidAnswers(kids[1..])
  }

  lemma {:induction false} BaseNameOf(front: string, name: string)
    requires ValidName(name)
    ensures BaseName(front + "/" + name) == name
    decreases |front|
  {
    var path := front + "/" + name;
    if front == "" {
      assert path[1..] == name;
      BaseNameSlashless(name);
    } else {
      assert path[1..] == front[1..] + "/" + name;
      assert path[1..][|front| - 1] == '/';
      BaseNameOf(front[1..], name);
    }
  }

  lemma BaseNameSlashless(name: string)
    requires Slashless(name)
    ensures BaseName(name) == name
  {
  }

  lemma {:induction false} KidsListed(names: seq<string>, kids: seq<Entry>)
    requires forall k <- kids :: ValidName(k.name)
    ensures Listed(Records(KidRecs(names, kids))) == KidAnswers(kids)
  {
    if kids != [] {
      hide BaseName, Kept, Depth;
      var r := Rec(names + [kids[0].name], kids[0]);
      JoinConcat(names, [kids[0].name]);
      assert Join([kids[0].name]) == "/" + kids[0].name;
      BaseNameOf(Join(names), kids[0].name);
      assert Join(r.key) == Join(names) + "/" + kids[0].name;
      assert KidRecs(names, kids)[1..] == KidRecs(names, kids[1..]);
      assert Records(KidRecs(names, kids))[1..] == Records(KidRecs(names, kids[1..]));
      KidsListed(names, kids[1..]);
    }
  }

  /** readdir agrees with the tree: for a directory it lists exactly the files
      in it, once each, in order, with their attributes; for anything else its
      entry with the slash is not found. */
  lemma ReaddirAgrees(root: Entry, names: seq<string>)
    requires ValidTree(root) && IsDir(root) && ValidNames(names)
    ensures var f := FileAt(root, names);
            if f.Some? && IsDir(f.value) then
              Listed(Contents(Catalogued(root), Join(names) + "/")) == KidAnswers(f.value.kids)
            else Lookup(Catalogued(root), Join(names) + "/") == None
  {
    var f := FileAt(root, names);
    GetattrOfDirectory(root, names);
    if f.Some? && IsDir(f.value) {
      hide Listing, Listed, Contents, Emit, Walk;
      var d := DirAt(names, f.value);
      DirectoryBlock(root, d);
      JoinConcat(names, [""]);
      assert Join([""]) == "/";
      FoundValid(root, names);
      KidsListed(names, f.value.kids);
    }
  }

  lemma {:induction false} FoundValid(e: Entry, names: seq<string>)
    requires ValidTree(e) && FileAt(e, names).Some?
    ensures ValidTree(FileAt(e, names).value)
    decreases |names|
  {
    if names != [] {
      KidIs(e.kids, names[0], Kid(e.kids, names[0]).value);
      FoundValid(Kid(e.kids, names[0]).value, names[1..]);
    }
  }

  lemma {:induction false} RecordsConcat(a: seq<Rec>, b: seq<Rec>)
    ensures Records(a + b) == Records(a) + Records(b)
  {
  }

  lemma DirectoryBlock(root: Entry, d: DirAt)
    requires ValidTree(root) && IsDir(root) && ValidNames(d.key) && FileAt(root, d.key) == Some(d.dir) && IsDir(d.dir)
    ensures Contents(Catalogued(root), Join(d.key + [""])) == Records(KidRecs(d.key, d.dir.kids))
  {
    hide Listing, ValidTree, KidRecs, IsContent, Records, RecordOf, Join, Ascending, FileAt, ValidNames, Contents;
    var a, c := BlockOf(root, d);
    FoundValid(root, d.key);
    ListingOrdered(root);
    var dir := Join(d.key + [""]);
    var own, kids := [Rec(d.key + [""], d.dir)], KidRecs(d.key, d.dir.kids);
    BlockParts(a, d, c);
    forall r <- a + own ensures !IsContent(RecordOf(r), dir) {
      OutsideBlock(root, d, a, c, r);
    }
    forall r <- kids ensures IsContent(RecordOf(r), dir) {
      InsideBlock(root, d, r);
    }
    forall r <- c ensures !IsContent(RecordOf(r), dir) {
      OutsideBlock(root, d, a, c, r);
    }
    BlockRecords(a + own, kids, c, dir);
  }

  lemma BlockParts(a: seq<Rec>, d: DirAt, c: seq<Rec>)
    ensures a + (Emit(d) + c) == (a + [Rec(d.key + [""], d.dir)]) + (KidRecs(d.key, d.dir.kids) + c)
    ensures forall r <- KidRecs(d.key, d.dir.kids) :: r in a + (Emit(d) + c)
  {
    hide KidRecs;
  }

  /** Where the walk comes to a directory of the tree. */
  lemma BlockOf(root: Entry, d: DirAt) returns (a: seq<Rec>, c: seq<Rec>)
    requires ValidTree(root) && IsDir(root) && ValidNames(d.key) && FileAt(root, d.key) == Some(d.dir) && IsDir(d.dir)
    ensures Listing(root) == a + (Emit(d) + c)
  {
    var q := [DirAt([], root)];
    FindIsDir(root, d.key);
    assert (d.key + [""])[0..] == d.key + [""];
    assert Leads(q[0], Rec(d.key + [""], d.dir)) && q[0] in q;
    a, c := EmitInWalk(q, d);
  }

  lemma BlockRecords(x: seq<Rec>, y: seq<Rec>, z: seq<Rec>, dir: string)
    requires forall r <- x :: !IsContent(RecordOf(r), dir)
    requires forall r <- y :: IsContent(RecordOf(r), dir)
    requires forall r <- z :: !IsContent(RecordOf(r), dir)
    ensures Contents(Records(x + (y + z)), dir) == Records(y)
  {
    hide IsContent, Records, RecordOf, Contents;
    RecordsConcat(x, y + z);
    RecordsConcat(y, z);
    RecordsIn(x);
    RecordsIn(y);
    RecordsIn(z);
    ContentsMiddle(Records(x), Records(y), Records(z), dir);
  }

  lemma RecordsIn(recs: seq<Rec>)
    ensures forall e <- Records(recs) :: exists r <- recs :: e == RecordOf(r)
  {
    forall e <- Records(recs) ensures exists r <- recs :: e == RecordOf(r) {
      var i :| 0 <= i < |recs| && Records(recs)[i] == e;
      assert recs[i] in recs;
    }
  }

  lemma InsideBlock(root: Entry, d: DirAt, r: Rec)
    requires ValidTree(root) && IsDir(root) && ValidNames(d.key) && r in KidRecs(d.key, d.dir.kids)
             && r in Listing(root) && ValidTree(d.dir)
    ensures IsContent(RecordOf(r), Join(d.key + [""]))
  {
    hide Listing;
    KidRecsIn(d.key, d.dir.kids, r);
    assert r.key[..|d.key|] == d.key;
    ContentKeys(root, d.key, r);
  }

  /** A record outside the block of a directory is not of a file in it. */
  lemma OutsideBlock(root: Entry, d: DirAt, a: seq<Rec>, c: seq<Rec>, r: Rec)
    requires ValidTree(root) && IsDir(root) && ValidNames(d.key) && ValidTree(d.dir)
             && Listing(root) == a + (Emit(d) + c)
    requires r in a || r in c || r == Rec(d.key + [""], d.dir)
    requires FileAt(root, d.key) == Some(d.dir) && IsDir(d.dir)
    requires forall i, j :: 0 <= i < j < |Listing(root)| ==> Listing(root)[i].key != Listing(root)[j].key
    ensures !IsContent(RecordOf(r), Join(d.key + [""]))
  {
    hide Listing, IsContent, Records;
    assert r in Listing(root) by { assert Rec(d.key + [""], d.dir) in Emit(d); }
    ContentKeys(root, d.key, r);
    if Under(r.key, d.key) && r.key[|d.key|] != "" {
      KidOfDirectory(root, d, r);
      TwiceListed(a, Emit(d), c, r);
    }
  }

  lemma TwiceListed(a: seq<Rec>, b: seq<Rec>, c: seq<Rec>, r: Rec)
    requires r in b && (r in a || r in c)
    ensures var all := a + (b + c); exists i, j :: 0 <= i < j < |all| && all[i].key == all[j].key
  {
    var all := a + (b + c);
    var k :| 0 <= k < |b| && b[k] == r;
    assert all[|a| + k] == r;
    if r in a {
      var i :| 0 <= i < |a| && a[i] == r;
      assert all[i] == r;
    } else {
      var i :| 0 <= i < |c| && c[i] == r;
      assert all[|a| + |b| + i] == r;
    }
  }

  lemma KidOfDirectory(root: Entry, d: DirAt, r: Rec)
    requires ValidTree(root) && IsDir(root) && ValidNames(d.key) && ValidTree(d.dir) && r in Listing(root)
    requires FileAt(root, d.key) == Some(d.dir) && IsDir(d.dir) && Under(r.key, d.key) && r.key[|d.key|] != ""
    ensures r in Emit(d)
  {
    hide Listing;
    ListingIs(root, r);
    FindLast(root, d.key, r.key[|d.key|], d.dir);
    assert r.key == d.key + [r.key[|d.key|]];
    assert r.key[|d.key|..] == [r.key[|d.key|]];
    EmitIs(d, r);
  }

  lemma DirOnWay(e: Entry, names: seq<string>, dir: Entry)
    requires ValidTree(e) && FileAt(e, names) == Some(dir) && IsDir(dir)
    ensures IsDir(e)
  {
  }

  lemma {:induction false} FindLast(e: Entry, names: seq<string>, x: string, dir: Entry)
    requires ValidTree(e) && IsDir(e) && ValidNames(names) && FileAt(e, names) == Some(dir) && IsDir(dir) && x != ""
    ensures Find(e, names + [x]) == Find(dir, [x])
    decreases |names|
  {
    if names == [] {
      assert names + [x] == [x];
    } else {
      var k := Kid(e.kids, names[0]).value;
      KidIs(e.kids, names[0], k);
      assert (names + [x])[1..] == names[1..] + [x];
      DirOnWay(k, names[1..], dir);
      FindLast(k, names[1..], x, dir);
    }
  }

  // ----- from the tree to the answers -----

  /** The path under which the kernel asks for a file. */
  function Asked(names: seq<string>): string { if names == [] then "/" else Join(names) }

  lemma GetattrOfAsked(root: Entry, names: seq<string>)
    requires ValidTree(root) && IsDir(root) && ValidNames(names)
    ensures var f, l := FileAt(root, names), Lookup(Catalogued(root), Asked(names));
            (f.Some? <==> l.Some?) && (f.Some? ==> l.value.stat == Kept(f.value.stat))
  {
    hide Listing, Lookup, ValidTree, Kept;
    if names == [] {
      GetattrOfDirectory(root, names);
      assert Join(names) + "/" == "/";
    } else {
      GetattrAgrees(root, names);
    }
  }

  /** The whole way: a tree is listed into a catalog, the catalog is mounted, and
      getattr gives each file of the tree its attributes and nothing else any. */
  method ServeGetattr(root: Entry, inputDir: string, names: seq<string>) returns (err: int, stat: Option<Stat>)
    requires Catalogable(root) && inputDir != "" && ValidNames(names)
    ensures match FileAt(root, names)
            case Some(f) => err == 0 && stat == Some(Kept(f.stat))
            case None => err == -ENOENT && stat == None
  {
    hide Catalogued, Asked, FileAt, Lookup, NoClash, PlainTree, ValidTree, Kept;
    var c := Mount(root, inputDir);
    GetattrOfAsked(root, names);
    err, stat := c.GetattrByPath(Asked(names));
  }

  lemma AskedDir(names: seq<string>)
    requires ValidNames(names)
    ensures (if Asked(names) == "/" then Asked(names) else Asked(names) + "/") == Join(names) + "/"
  {
    if names != [] {
      assert names[0] in names && |Join(names)| > 1;
    }
  }

  /** The whole way for readdir: a directory of the tree is listed with exactly
      its files, in order, each once and with its attributes; anything else is
      refused. */
  method ServeReaddir(root: Entry, inputDir: string, names: seq<string>)
    returns (err: int, filled: seq<string>, entries: seq<(string, Stat)>)
    requires Catalogable(root) && inputDir != "" && ValidNames(names)
    ensures filled == [".", ".."]
    ensures var f := FileAt(root, names);
            if f.Some? && IsDir(f.value) then err == 0 && entries == KidAnswers(f.value.kids)
            else err == -ENOENT && entries == []
  {
    hide Catalogued, Asked, FileAt, Lookup, NoClash, PlainTree, ValidTree, Listed, Contents, KidAnswers;
    var c := Mount(root, inputDir);
    AskedDir(names);
    ReaddirAgrees(root, names);
    GetattrOfDirectory(root, names);
    err, filled, entries := c.Readdir(Asked(names));
  }
}
