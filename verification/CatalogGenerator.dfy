/** generate_catalog.c as it runs: the queue, the walk that prints records, and
    the two passes that pad them. */
module CatalogGenerator {
  import opened Sequences
  import opened CatalogOrder
  import opened CatalogListing
  import opened CatalogText

  /** A name in the queue, with what scandir will find there. */
  datatype Queued = Queued(dirname: string, dir: Entry)

  // ----- the text of a catalog -----

  function PrintRec(r: Rec): string { Print(r.entry.stat, Join(r.key), r.entry.target) }

  function PrintAll(recs: seq<Rec>): string {
    if recs == [] then "" else PrintRec(recs[0]) + [NEWLINE] + PrintAll(recs[1..])
  }

  lemma {:induction false} PrintAllConcat(a: seq<Rec>, b: seq<Rec>)
    ensures PrintAll(a + b) == PrintAll(a) + PrintAll(b)
  {
    if a == [] {
      assert a + b == b;
    } else {
      assert (a + b)[1..] == a[1..] + b;
      PrintAllConcat(a[1..], b);
    }
  }

  /** What getline reads: up to the newline, and that. */
  function Line(s: string): (l: string)
    ensures |l| <= |s| && (s != "" ==> l != "") && l == s[..|l|]
  {
    if s == "" then "" else if s[0] == NEWLINE then [NEWLINE] else [s[0]] + Line(s[1..])
  }

  function Max(a: int, b: int): int { if a > b then a else b }

  /** The length of the longest line. */
  function MaxLine(s: string): (m: int)
    ensures m >= 0
    decreases |s|
  {
    if s == "" then 0 else Max(|Line(s)|, MaxLine(s[|Line(s)|..]))
  }

  function Fill(n: int): (s: string)
    ensures |s| == Max(n, 0)
    decreases n
  {
    if n <= 0 then "" else [SEPARATOR] + Fill(n - 1)
  }

  /** A line brought to length `m`. */
  function PadLine(line: string, m: int): string
    requires line != ""
  {
    line[..|line| - 1] + Fill(m - |line|) + [NEWLINE]
  }

  function PadAll(s: string, m: int): string
    decreases |s|
  {
    if s == "" then "" else PadLine(Line(s), m) + PadAll(s[|Line(s)|..], m)
  }

  lemma {:induction false} FillMore(n: int)
    requires n >= 0
    ensures Fill(n) + [SEPARATOR] == Fill(n + 1)
    decreases n
  {
    if n > 0 {
      FillMore(n - 1);
    }
  }

  /** struct bf_queue. */
  class Cell {
    var queued: Queued
    var next: Cell?

    constructor (queued: Queued)
      ensures this.queued == queued && next == null
    {
      this.queued, next := queued, null;
    }
  }

  /** The breadth-first queue: a chain of cells between `head` and `tail`. Once
      the chain is empty, `tail` means nothing. */
  class Queue {
    var head: Cell?
    var tail: Cell?
    ghost var cells: seq<Cell>         // the chain
    ghost var contents: seq<Queued>    // what the cells hold

    ghost predicate Valid()
      reads this, cells
    {
      && (head == null <==> cells == [])
      && (cells != [] ==> head == cells[0] && tail == cells[|cells| - 1] && tail.next == null)
      && (forall i | 0 <= i < |cells| - 1 :: cells[i].next == cells[i + 1])
      && (forall i, j | 0 <= i < j < |cells| :: cells[i] != cells[j])
      && |contents| == |cells| && (forall i | 0 <= i < |cells| :: cells[i].queued == contents[i])
    }

    /** init_queue. */
    constructor ()
      ensures Valid() && contents == []
    {
      head, tail, cells, contents := null, null, [], [];
    }

    /** insert_queue: hangs a new cell behind the last one. */
    method Insert(dirname: string, dir: Entry)
      requires Valid()
      modifies this, if head == null then {} else {tail}
      ensures Valid() && contents == old(contents) + [Queued(dirname, dir)]
      ensures head != null && tail != null && fresh(tail)
    {
      var temp := new Cell(Queued(dirname, dir));
      if head == null {
        head := temp;
        tail := temp;
      } else {
        tail.next := temp;
        tail := tail.next;
      }
      cells := cells + [temp];
      contents := contents + [temp.queued];
    }

    /** remove_queue: takes the cell at the head, if there is one. */
    method Remove() returns (first: Option<Queued>)
      requires Valid()
      modifies this
      ensures Valid()
      ensures first == if old(contents) == [] then None else Some(old(contents)[0])
      ensures contents == if first.None? then [] else old(contents)[1..]
      ensures tail == old(tail)
    {
      if head == null { return None; }
      var temp := head;
      if |cells| > 1 { assert cells[0].next == cells[0 + 1]; }
      head := head.next;
      assert forall i | 0 <= i < |cells| - 1 :: cells[1..][i] == cells[i + 1];
      cells, contents := cells[1..], contents[1..];
      return Some(temp.queued);
    }
  }

  class Generator {
    const inputDir: string
    const queue: Queue
    var output: string       // the catalog file
    var padded: string       // the temporary file that replaces it

    constructor (inputDir: string)
      requires inputDir != ""
      ensures this.inputDir == inputDir && fresh(queue) && queue.Valid() && queue.contents == []
      ensures output == "" && padded == ""
    {
      this.inputDir := inputDir;
      output, padded := "", "";
      queue := new Queue();
    }

    /** print_to_catalog, with what lstat and readlink say of the file. */
    method PrintToCatalog(path: string, ghost r: Rec, e: Entry)
      requires path == inputDir + Join(r.key) && r.entry == e
      modifies `output
      ensures output == old(output) + PrintRec(r) + [NEWLINE]
    {
      var relative := path[|inputDir|..];
      output := output + Print(e.stat, relative, e.target) + [NEWLINE];
    }

    /** One entry of a directory: its record, and a place in the queue for a
        directory. */
    method ListEntry(dirname: string, ghost key: seq<string>, kid: Entry, ghost q: seq<DirAt>)
      requires queue.Valid() && Represents(q) && dirname == inputDir + Join(key)
      modifies queue, (if queue.head == null then {} else {queue.tail}), `output
      ensures output == old(output) + PrintRec(Rec(key + [kid.name], kid)) + [NEWLINE]
      ensures queue.Valid()
      ensures if IsDir(kid) then queue.head != null && queue.tail != null && fresh(queue.tail)
              else queue.head == old(queue.head) && queue.tail == old(queue.tail)
      ensures Represents(if IsDir(kid) then q + [DirAt(key + [kid.name], kid)] else q)
    {
      hide Join, PrintRec;
      JoinSlash(inputDir, key, kid.name);
      PrintToCatalog(dirname + "/" + kid.name, Rec(key + [kid.name], kid), kid);
      if IsDir(kid) {
        queue.Insert(dirname + "/" + kid.name, kid);
      }
    }

    /** The queue holds the directories of `q` under their paths. */
    ghost predicate Represents(q: seq<DirAt>)
      reads queue
    {
      && |queue.contents| == |q|
      && forall i | 0 <= i < |q| :: queue.contents[i] == Queued(inputDir + Join(q[i].key), q[i].dir)
    }

    /** What scandir found in a directory: each entry is listed in turn. */
    method ListEntries(dirname: string, ghost key: seq<string>, kids: seq<Entry>, ghost q: seq<DirAt>)
      requires queue.Valid() && Represents(q) && dirname == inputDir + Join(key)
      modifies queue, (if queue.head == null then {} else {queue.tail}), `output
      ensures output == old(output) + PrintAll(KidRecs(key, kids))
      ensures queue.Valid() && Represents(q + KidDirs(key, kids))
      ensures queue.head == null || fresh(queue.tail) || (old(queue.head) != null && queue.tail == old(queue.tail))
    {
      hide PrintRec, KidDirs, KidRecs, Join, PrintAll, IsDir, Represents, Queue.Valid;
      ghost var dirs, recs := [], [];
      var i := 0;
      EntriesBegin(key, kids, q, output);
      while i < |kids|
        invariant 0 <= i <= |kids| && queue.Valid() && Represents(q + dirs)
        invariant queue.head == null || fresh(queue.tail) || (old(queue.head) != null && queue.tail == old(queue.tail))
        invariant output == old(output) + PrintAll(recs) && recs + KidRecs(key, kids[i..]) == KidRecs(key, kids)
        invariant dirs + KidDirs(key, kids[i..]) == KidDirs(key, kids)
      {
        KidStep(key, kids, i, recs, dirs);
        Append(recs, Rec(key + [kids[i].name], kids[i]));
        Associate(old(output), PrintAll(recs), PrintRec(Rec(key + [kids[i].name], kids[i])) + [NEWLINE]);
        ListEntry(dirname, key, kids[i], q + dirs);
        recs := recs + [Rec(key + [kids[i].name], kids[i])];
        if IsDir(kids[i]) {
          Associate(q, dirs, [DirAt(key + [kids[i].name], kids[i])]);
          dirs := dirs + [DirAt(key + [kids[i].name], kids[i])];
        }
        i := i + 1;
      }
      KidsOver(key, kids, i);
      assert recs + [] == recs && dirs + [] == dirs;
    }

    /** catalog_listing writes the whole walk. */
    method CatalogListing(root: Entry)
      requires queue.Valid() && queue.contents == [] && output == ""
      modifies queue, `output
      ensures output == PrintAll(Listing(root)) && queue.Valid() && queue.contents == []
    {
      hide PrintRec, Walk, KidDirs, KidRecs, QueueWeight, Weight, Join, PrintAll, Listing, Emit;
      ghost var q, done := [DirAt([], root)], [];
      queue.Insert(inputDir, root);
      WalkBegins(root);
      while queue.head != null
        invariant queue.Valid() && (queue.head == null || fresh(queue.tail)) && Represents(q)
        invariant output == PrintAll(done) && done + Walk(q) == Listing(root)
        decreases QueueWeight(q)
      {
        ghost var d := q[0];
        WalkStep(q, done);
        WalkShrinks(q);
        JoinSlash(inputDir, d.key, "");
        PrintEmitted(done, d);
        var first := queue.Remove();
        var current := first.value;
        assert Represents(q[1..]);
        PrintToCatalog(current.dirname + "/", Rec(d.key + [""], d.dir), current.dir);
        ListEntries(current.dirname, d.key, current.dir.kids, q[1..]);
        q, done := q[1..] + KidDirs(d.key, d.dir.kids), done + Emit(d);
      }
      WalkOver();
      assert q == [] && done == Listing(root);
    }

    /** pad_each_line: one pass for the longest line, one to write the padded ones. */
    method PadEachLine()
      modifies `padded
      ensures padded == PadAll(output, MaxLine(output))
    {
      hide Line, MaxLine, PadAll, PadLine, Fill;
      var maxLen, pos := 0, 0;
      assert output[0..] == output;
      while pos < |output|
        invariant 0 <= pos <= |output| && maxLen >= 0
        invariant Max(maxLen, MaxLine(output[pos..])) == MaxLine(output)
      {
        LineStep(output, pos, maxLen, "");
        var line := Line(output[pos..]);
        maxLen := if |line| > maxLen then |line| else maxLen;
        pos := pos + |line|;
      }
      TextOver(output, pos, maxLen);
      pos := 0;
      padded := "";
      while pos < |output|
        invariant 0 <= pos <= |output|
        invariant padded + PadAll(output[pos..], maxLen) == PadAll(output, maxLen)
      {
        LineStep(output, pos, maxLen, padded);
        var line := Line(output[pos..]);
        ghost var before := padded + line[..|line| - 1];
        padded := padded + line[..|line| - 1];
        var i := 0;
        FillNone();
        while i < maxLen - |line|
          invariant 0 <= i <= Max(maxLen - |line|, 0)
          invariant padded == before + Fill(i)
        {
          FillMore(i);
          padded := padded + [SEPARATOR];
          i := i + 1;
        }
        FillNegative(maxLen - |line|);
        padded := padded + [NEWLINE];
        pos := pos + |line|;
      }
      TextOver(output, pos, maxLen);
    }
  }

  lemma FillNone()
    ensures Fill(0) == ""
  {
  }

  lemma FillNegative(n: int)
    ensures Fill(n) == Fill(Max(n, 0))
  {
  }

  lemma TextOver(s: string, pos: nat, m: int)
    requires pos == |s|
    ensures MaxLine(s[pos..]) == 0 && PadAll(s[pos..], m) == ""
  {
  }

  lemma LineStep(s: string, pos: nat, m: int, padded: string)
    requires pos < |s|
    ensures var line := Line(s[pos..]);
            && line != "" && pos + |line| <= |s|
            && MaxLine(s[pos..]) == Max(|line|, MaxLine(s[pos + |line|..]))
            && padded + PadAll(s[pos..], m)
               == padded + line[..|line| - 1] + Fill(m - |line|) + [NEWLINE] + PadAll(s[pos + |line|..], m)
  {
    hide Fill, Line;
    assert s[pos..][|Line(s[pos..])|..] == s[pos + |Line(s[pos..])|..];
  }

  lemma WalkBegins(root: Entry)
    ensures Join([]) == "" && PrintAll([]) == "" && [] + Walk([DirAt([], root)]) == Listing(root)
  {
    hide Walk;
  }

  lemma PrintEmitted(done: seq<Rec>, d: DirAt)
    ensures PrintAll(done + Emit(d)) == PrintAll(done) + PrintRec(Rec(d.key + [""], d.dir)) + [NEWLINE]
            + PrintAll(KidRecs(d.key, d.dir.kids))
  {
    hide PrintRec, KidRecs, PrintAll;
    var own, kids := Rec(d.key + [""], d.dir), KidRecs(d.key, d.dir.kids);
    Associate(done, [own], kids);
    PrintAllConcat(done + [own], kids);
    Append(done, own);
  }

  lemma EntriesBegin(key: seq<string>, kids: seq<Entry>, q: seq<DirAt>, output: string)
    ensures kids[0..] == kids && q + [] == q && output + PrintAll([]) == output
    ensures [] + KidRecs(key, kids) == KidRecs(key, kids) && [] + KidDirs(key, kids) == KidDirs(key, kids)
  {
    hide KidRecs, KidDirs;
  }

  lemma WalkOver()
    ensures Walk([]) == []
  {
  }

  lemma Append(done: seq<Rec>, r: Rec)
    ensures PrintAll(done + [r]) == PrintAll(done) + PrintRec(r) + [NEWLINE]
  {
    hide PrintRec;
    PrintAllConcat(done, [r]);
    assert PrintAll([r]) == PrintRec(r) + [NEWLINE] + PrintAll([]);
  }

  /** The path that the walk builds with strcat. */
  lemma JoinSlash(dir: string, key: seq<string>, name: string)
    ensures dir + Join(key) + "/" + name == dir + Join(key + [name])
    ensures name == "" ==> dir + Join(key) + "/" == dir + Join(key + [name])
  {
    JoinConcat(key, [name]);
    assert Join([name]) == "/" + name + Join([]);
    assert dir + Join(key) + "/" + name == dir + (Join(key) + ("/" + name));
  }

  lemma WalkStep(q: seq<DirAt>, done: seq<Rec>)
    requires q != []
    ensures done + Walk(q) == done + Emit(q[0]) + Walk(q[1..] + KidDirs(q[0].key, q[0].dir.kids))
  {
    hide Walk, Emit, KidDirs;
    WalkUnfolds(q);
    Associate(done, Emit(q[0]), Walk(q[1..] + KidDirs(q[0].key, q[0].dir.kids)));
  }

  lemma WalkShrinks(q: seq<DirAt>)
    requires q != []
    ensures QueueWeight(q[1..] + KidDirs(q[0].key, q[0].dir.kids)) < QueueWeight(q)
  {
    QueueWeightConcat(q[1..], KidDirs(q[0].key, q[0].dir.kids));
  }

  lemma KidsOver(key: seq<string>, kids: seq<Entry>, i: nat)
    requires i == |kids|
    ensures KidDirs(key, kids[i..]) == [] && KidRecs(key, kids[i..]) == []
  {
  }

  lemma KidStep(key: seq<string>, kids: seq<Entry>, i: nat, done: seq<Rec>, q: seq<DirAt>)
    requires i < |kids|
    ensures done + KidRecs(key, kids[i..]) == done + [Rec(key + [kids[i].name], kids[i])] + KidRecs(key, kids[i + 1..])
    ensures q + KidDirs(key, kids[i..])
            == (if IsDir(kids[i]) then q + [DirAt(key + [kids[i].name], kids[i])] else q) + KidDirs(key, kids[i + 1..])
  {
    assert kids[i..][1..] == kids[i + 1..];
  }

  // ----- padded catalogs -----

  function PadRec(r: Rec, m: int): string { PadLine(PrintRec(r) + [NEWLINE], m) }

  function PadRecs(recs: seq<Rec>, m: int): string {
    if recs == [] then "" else PadRec(recs[0], m) + PadRecs(recs[1..], m)
  }

  /** Names and link targets that the format can carry. */
  predicate Printable(r: Rec) { ValidPath(Join(r.key)) && ValidTarget(r.entry.target) }

  lemma {:induction false} LineIs(l: string, rest: string)
    requires NEWLINE !in l
    ensures Line(l + [NEWLINE] + rest) == l + [NEWLINE]
  {
    var s := l + [NEWLINE] + rest;
    if l == "" {
      assert s[0] == NEWLINE;
    } else {
      assert s[0] == l[0] && s[1..] == l[1..] + [NEWLINE] + rest;
      LineIs(l[1..], rest);
    }
  }

  lemma {:induction false} DigitsPlain(n: nat, base: Base)
    ensures NEWLINE !in Digits(n, base)
    decreases n
  {
    if base.Quotient(n) != 0 {
      DigitsPlain(base.Quotient(n), base);
    }
  }

  lemma {:induction false} DecsPlain(xs: seq<int>)
    ensures NEWLINE !in Decs(xs)
  {
    if xs != [] {
      DigitsPlain(if xs[0] < 0 then -xs[0] else xs[0], Decimal);
      DecsPlain(xs[1..]);
    }
  }

  /** A record takes one line. */
  lemma RecordPlain(r: Rec)
    requires Printable(r)
    ensures NEWLINE !in PrintRec(r)
  {
    hide Digits, Decs, Join;
    DigitsPlain(r.entry.stat.mode % 0x1000, Octal);
    DecsPlain(Numbers(r.entry.stat, Depth(Join(r.key))));
  }

  ghost predicate AllPrintable(recs: seq<Rec>) { forall r <- recs :: Printable(r) }

  lemma LinesOf(recs: seq<Rec>)
    requires AllPrintable(recs) && recs != []
    ensures var text := PrintAll(recs);
            && Line(text) == PrintRec(recs[0]) + [NEWLINE] && text[|Line(text)|..] == PrintAll(recs[1..])
  {
    hide PrintRec, Line;
    RecordPlain(recs[0]);
    LineIs(PrintRec(recs[0]), PrintAll(recs[1..]));
  }

  lemma {:induction false} PaddedText(recs: seq<Rec>, m: int)
    requires AllPrintable(recs)
    ensures PadAll(PrintAll(recs), m) == PadRecs(recs, m)
  {
    if recs != [] {
      hide PrintRec, Line, PrintAll, PadLine;
      LinesOf(recs);
      PaddedText(recs[1..], m);
    } else {
      assert PrintAll(recs) == "";
    }
  }

  lemma WidthStep(recs: seq<Rec>)
    requires AllPrintable(recs) && recs != []
    ensures MaxLine(PrintAll(recs)) == Max(|PrintRec(recs[0])| + 1, MaxLine(PrintAll(recs[1..])))
    ensures |recs| == 1 ==> MaxLine(PrintAll(recs[1..])) == 0
  {
    LinesOf(recs);
    hide PrintRec, Line;
  }

  /** The width of the catalog is the length of its longest line. */
  lemma {:induction false} WidthIs(recs: seq<Rec>)
    requires AllPrintable(recs)
    ensures forall r <- recs :: |PrintRec(r)| + 1 <= MaxLine(PrintAll(recs))
    ensures recs != [] ==> exists r <- recs :: |PrintRec(r)| + 1 == MaxLine(PrintAll(recs))
  {
    hide PrintRec, Line, PrintAll, Printable, MaxLine;
    if recs != [] {
      WidthStep(recs);
      WidthIs(recs[1..]);
      assert recs == [recs[0]] + recs[1..];
    }
  }

  /** The place of entry `i` in a file of entries of length `m`. */
  function Offset(m: nat, i: nat): nat { if i == 0 then 0 else m + Offset(m, i - 1) }

  lemma {:induction false} OffsetIs(m: nat, i: nat)
    ensures Offset(m, i) == m * i
  {
    if i > 0 {
      OffsetIs(m, i - 1);
    }
  }

  lemma {:induction false} SliceOf(recs: seq<Rec>, m: nat, i: nat)
    requires i < |recs| && forall r <- recs :: |PadRec(r, m)| == m
    ensures |PadRecs(recs, m)| == Offset(m, |recs|) && Offset(m, i) + m <= |PadRecs(recs, m)|
    ensures PadRecs(recs, m)[Offset(m, i)..Offset(m, i) + m] == PadRec(recs[i], m)
  {
    hide PadRec;
    var head, rest := PadRec(recs[0], m), PadRecs(recs[1..], m);
    assert PadRecs(recs, m) == head + rest;
    PadRecsLength(recs, m);
    if i > 0 {
      SliceOf(recs[1..], m, i - 1);
      var o := Offset(m, i - 1);
      assert (head + rest)[m + o..m + o + m] == rest[o..o + m];
    }
  }

  lemma {:induction false} PadRecsLength(recs: seq<Rec>, m: nat)
    requires forall r <- recs :: |PadRec(r, m)| == m
    ensures |PadRecs(recs, m)| == Offset(m, |recs|)
  {
    hide PadRec;
    if recs != [] {
      PadRecsLength(recs[1..], m);
    }
  }

  /** From walk to file and back: every line of the padded catalog has the
      length of the longest unpadded one, and the slice of entry `i` reads back
      as the record of the i-th file of the walk. */
  lemma CatalogRoundTrip(recs: seq<Rec>, i: nat)
    requires AllPrintable(recs) && i < |recs|
    ensures var m := MaxLine(PrintAll(recs));
            var file := PadAll(PrintAll(recs), m);
            && m > 0 && |file| == m * |recs| && Offset(m, i) == m * i && Offset(m, i) + m <= |file|
            && file[Offset(m, i) + m - 1] == NEWLINE
            && Parse(file[Offset(m, i)..Offset(m, i) + m])
               == Some(Recorded(recs[i].entry.stat, Join(recs[i].key), recs[i].entry.target))
  {
    hide Parse, PrintRec, MaxLine, PrintAll, PadRec, PadRecs, PadAll, Offset, Printable;
    var m := MaxLine(PrintAll(recs));
    PaddedText(recs, m);
    PaddedWidth(recs);
    SliceOf(recs, m, i);
    OffsetIs(m, i);
    OffsetIs(m, |recs|);
    RecordParses(recs[i], m);
    var file := PadAll(PrintAll(recs), m);
    assert file[Offset(m, i)..Offset(m, i) + m][m - 1] == file[Offset(m, i) + m - 1];
  }

  /** Every padded line has the width of the catalog and ends its line. */
  lemma PaddedWidth(recs: seq<Rec>)
    requires AllPrintable(recs) && recs != []
    ensures var m := MaxLine(PrintAll(recs));
            m > 0 && forall r <- recs :: |PadRec(r, m)| == m && PadRec(r, m)[m - 1] == NEWLINE
  {
    hide PrintRec, MaxLine, PrintAll, Printable;
    WidthIs(recs);
    assert recs[0] in recs;
  }

  lemma RecordParses(r: Rec, m: int)
    requires Printable(r)
    ensures Parse(PadRec(r, m)) == Some(Recorded(r.entry.stat, Join(r.key), r.entry.target))
  {
    hide Parse, Print, Join, Fill;
    var more := Fill(m - |PrintRec(r)| - 1) + [NEWLINE];
    assert PadRec(r, m) == PrintRec(r) + more;
    RecordRoundTrip(r.entry.stat, Join(r.key), r.entry.target, more);
  }
}
