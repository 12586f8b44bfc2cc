/** The directory stream, from the packing to the parsing of a listing. */
module DirStream {
  // libfuse packs a listing into a buffer and hands out slices of it
  // (lib/fuse.c, lib/fuse_lowlevel.c); the kernel parses each slice and
  // remembers where to go on (kernel/dir.c).
  import opened Sequences

  type Bytes = seq<int>

  const FUSE_NAME_OFFSET: int := 24
  const FUSE_NAME_MAX: int := 1024
  const PAGE_SIZE: int := 4096
  const EIO: int := 5
  const ENOENT: int := 2

  /** A name of a directory with what goes along in its record. */
  datatype Ent = Ent(name: Bytes, ino: nat, typ: nat)

  // ----- fixed-width numbers, low byte first -----

  function Le(v: nat, k: nat): (b: Bytes)
    ensures |b| == k
    decreases k
  {
    if k == 0 then [] else [v % 0x100] + Le(v / 0x100, k - 1)
  }

  function UnLe(b: Bytes): int {
    if b == [] then 0 else b[0] + 0x100 * UnLe(b[1..])
  }

  predicate Fits(v: nat, k: nat) { if k == 0 then v == 0 else Fits(v / 0x100, k - 1) }

  lemma {:induction false} LeRoundTrip(v: nat, k: nat)
    requires Fits(v, k)
    ensures UnLe(Le(v, k)) == v
    decreases k
  {
    if k > 0 {
      LeRoundTrip(v / 0x100, k - 1);
      assert Le(v, k)[1..] == Le(v / 0x100, k - 1);
    }
  }

  lemma {:induction false} FitsMore(v: nat, k: nat, j: nat)
    requires Fits(v, k) && k <= j
    ensures Fits(v, j)
    decreases j
  {
    if k > 0 {
      FitsMore(v / 0x100, k - 1, j - 1);
    } else if j > 0 {
      FitsMore(v / 0x100, 0, j - 1);
    }
  }

  lemma FitsWord(v: nat)
    requires v < 0x1_0000_0000
    ensures Fits(v, 4) && Fits(v, 8)
  {
    assert Fits(v / 0x100 / 0x100 / 0x100, 1);
    assert Fits(v / 0x100 / 0x100, 2);
    assert Fits(v / 0x100, 3);
    FitsMore(v, 4, 8);
  }

  // ----- records -----

  /** fuse_dirent_size: header and name, rounded up to eight. */
  function DirentSize(namelen: int): (n: int)
    ensures namelen >= 0 ==> n >= FUSE_NAME_OFFSET + namelen
    ensures namelen <= FUSE_NAME_MAX ==> n <= 1048
  {
    (FUSE_NAME_OFFSET + namelen + 7) / 8 * 8
  }

  function Zeros(n: int): (b: Bytes)
    ensures |b| == if n < 0 then 0 else n
    decreases n
  {
    if n <= 0 then [] else [0] + Zeros(n - 1)
  }

  /** The bytes that fuse_add_dirent writes. */
  function Dirent(e: Ent, off: nat): (b: Bytes)
    ensures |b| == DirentSize(|e.name|) && |b| >= FUSE_NAME_OFFSET + |e.name|
  {
    Le(e.ino, 8) + Le(off, 8) + Le(|e.name|, 4) + Le(e.typ, 4) + e.name
    + Zeros(DirentSize(|e.name|) - FUSE_NAME_OFFSET - |e.name|)
  }

  predicate ValidEnt(e: Ent) {
    1 <= |e.name| <= FUSE_NAME_MAX && Fits(e.ino, 8) && Fits(e.typ, 4)
  }

  ghost predicate ValidListing(es: seq<Ent>) {
    (forall e <- es :: ValidEnt(e)) && Total(es) < 0x1_0000_0000
  }

  /** The length of the packed entries; the offset of what follows them. */
  function Total(es: seq<Ent>): (n: nat) {
    if es == [] then 0 else DirentSize(|es[0].name|) + Total(es[1..])
  }

  /** A packed listing whose first record starts at offset `base`. */
  function Pack(es: seq<Ent>, base: nat): (b: Bytes)
    ensures |b| == Total(es)
  {
    if es == [] then []
    else
      var next := base + DirentSize(|es[0].name|);
      Dirent(es[0], next) + Pack(es[1..], next)
  }

  lemma {:induction false} TotalConcat(a: seq<Ent>, b: seq<Ent>)
    ensures Total(a + b) == Total(a) + Total(b)
  {
    if a == [] {
      assert a + b == b;
    } else {
      assert (a + b)[1..] == a[1..] + b;
      TotalConcat(a[1..], b);
    }
  }

  lemma PackHead(es: seq<Ent>, base: nat)
    requires es != []
    ensures var next := base + DirentSize(|es[0].name|);
            && Pack(es, base) == Dirent(es[0], next) + Pack(es[1..], next)
            && base + Total(es) == next + Total(es[1..])
  {
  }

  lemma PackNothing(es: seq<Ent>, base: nat)
    ensures Total([]) == 0 && Pack([], base) + Pack(es, base) == Pack(es, base)
  {
    hide Dirent, DirentSize;
  }

  lemma {:induction false} PackConcat(a: seq<Ent>, b: seq<Ent>, base: nat)
    ensures Pack(a + b, base) == Pack(a, base) + Pack(b, base + Total(a))
  {
    hide Dirent, DirentSize, Pack, Total;
    if a == [] {
      PackNothing(b, base);
      assert a + b == b;
    } else {
      PackHead(a, base);
      PackHead(a + b, base);
      var next := base + DirentSize(|a[0].name|);
      assert (a + b)[0] == a[0] && (a + b)[1..] == a[1..] + b;
      PackConcat(a[1..], b, next);
      Associate(Dirent(a[0], next), Pack(a[1..], next), Pack(b, next + Total(a[1..])));
    }
  }

  // ----- what file systems pass to the filler -----

  /** One call of the filler; an offset of 0 leaves the offsets to libfuse. */
  datatype Fill = Fill(e: Ent, off: nat)

  function Ents(fs: seq<Fill>): (es: seq<Ent>)
    ensures |es| == |fs| && forall i | 0 <= i < |fs| :: es[i] == fs[i].e
  {
    if fs == [] then [] else [fs[0].e] + Ents(fs[1..])
  }

  /** A directory: of a file system that passes all of it without offsets
      whenever it is asked, or of one that numbers its entries and goes on behind
      the offset it is given. */
  datatype Directory = Plain(es: seq<Ent>) | Numbered(fs: seq<Fill>) {
    function Names(): seq<Ent> { if Plain? then es else Ents(fs) }
  }

  ghost predicate ValidFills(fs: seq<Fill>) {
    && (forall f <- fs :: ValidEnt(f.e) && f.off != 0 && Fits(f.off, 8))
    && forall i, j :: 0 <= i < j < |fs| ==> fs[i].off != fs[j].off
  }

  ghost predicate ValidDirectory(d: Directory) {
    match d
    case Plain(es) => ValidListing(es)
    case Numbered(fs) => ValidFills(fs)
  }

  /** The entries behind the one with offset `off`. */
  function From(fs: seq<Fill>, off: nat): seq<Fill> {
    if off == 0 || fs == [] then fs else if fs[0].off == off then fs[1..] else From(fs[1..], off)
  }

  /** Packed records with the offsets of the file system. */
  function PackFills(fs: seq<Fill>): (b: Bytes)
    ensures |b| == Total(Ents(fs))
  {
    if fs == [] then [] else Dirent(fs[0].e, fs[0].off) + PackFills(fs[1..])
  }

  /** The records that lie whole in `size` bytes. */
  function Fitting(fs: seq<Fill>, size: nat): seq<Fill> { fs[..Whole(Ents(fs), size, |fs|)] }

  // ----- libfuse -----

  /** What a request for `size` bytes from `off` gets of the packed listing. */
  function Slice(packed: Bytes, off: nat, size: nat): Bytes {
    if off >= |packed| then [] else if off + size > |packed| then packed[off..] else packed[off..off + size]
  }

  class DirHandle {
    var contents: array<int>
    var len: int
    var needlen: int
    var filled: bool

    constructor ()
      ensures Valid() && fresh(contents) && len == 0 && !filled
    {
      contents := new int[0];
      len, needlen, filled := 0, 0, false;
    }

    ghost predicate Valid()
      reads this
    {
      0 <= len <= contents.Length
    }

    /** extend_contents: doubles the buffer until it is large enough. */
    method ExtendContents(minsize: int)
      requires Valid()
      modifies this`contents
      ensures Valid() && contents.Length >= minsize && contents[..len] == old(contents[..len])
      ensures contents == old(contents) || fresh(contents)
    {
      if minsize > contents.Length {
        var newsize := contents.Length;
        if newsize == 0 { newsize := 1024; }
        while newsize < minsize
          invariant newsize >= contents.Length && newsize > 0 && contents == old(contents)
          decreases minsize - newsize
        {
          newsize := newsize * 2;
        }
        var bigger := new int[newsize];
        var k := 0;
        while k < len
          invariant 0 <= k <= len && contents == old(contents) && bigger[..k] == contents[..k]
        {
          bigger[k] := contents[k];
          k := k + 1;
        }
        contents := bigger;
      }
    }

    /** fuse_add_dirent at the end of what is there. */
    method AddDirent(e: Ent, off: nat)
      requires Valid() && ValidEnt(e) && len + DirentSize(|e.name|) <= contents.Length
      modifies contents
      ensures contents[..len] == old(contents[..len])
      ensures contents[len..len + DirentSize(|e.name|)] == Dirent(e, off)
    {
      hide Dirent;
      var record := Dirent(e, off);
      var k := 0;
      while k < |record|
        invariant 0 <= k <= |record| && contents[len..len + k] == record[..k] && contents[..len] == old(contents[..len])
      {
        contents[len + k] := record[k];
        k := k + 1;
      }
    }

    /** fill_dir, for an entry with offset 0: the record carries the offset of
        what follows it in the buffer. */
    method FillPlain(e: Ent)
      requires Valid() && ValidEnt(e)
      modifies this`contents, this`len, contents
      ensures Valid() && (contents == old(contents) || fresh(contents))
      ensures len == old(len) + DirentSize(|e.name|)
      ensures contents[..len] == old(contents[..len]) + Dirent(e, len)
    {
      hide Dirent;
      var newlen := len + DirentSize(|e.name|);
      ExtendContents(newlen);
      AddDirent(e, newlen);
      ghost var before := contents[..len];
      assert contents[..newlen] == before + contents[len..newlen];
      len := newlen;
    }

    /** fill_dir, for an entry with an offset of its own: it has to fit what the
        request asked for. */
    method FillNumbered(e: Ent, off: nat) returns (full: bool)
      requires Valid() && ValidEnt(e) && len <= needlen
      modifies this`contents, this`len, this`filled, contents
      ensures Valid() && (contents == old(contents) || fresh(contents)) && !filled && len <= needlen
      ensures full <==> old(len) + DirentSize(|e.name|) > needlen
      ensures len == if full then old(len) else old(len) + DirentSize(|e.name|)
      ensures contents[..len] == if full then old(contents[..len]) else old(contents[..len]) + Dirent(e, off)
    {
      hide Dirent;
      ExtendContents(needlen);
      filled := false;
      var newlen := len + DirentSize(|e.name|);
      if newlen > needlen { return true; }
      AddDirent(e, off);
      ghost var before := contents[..len];
      assert contents[..newlen] == before + contents[len..newlen];
      len := newlen;
      return false;
    }

    /** A file system without offsets passes its entries. */
    method PassPlain(es: seq<Ent>)
      requires Valid() && ValidListing(es) && len == 0
      modifies this`contents, this`len, contents
      ensures Valid() && (contents == old(contents) || fresh(contents))
      ensures contents[..len] == Pack(es, 0)
    {
      hide Pack, Total, Dirent, DirentSize, ValidEnt;
      var i := 0;
      NonePacked(es);
      while i < |es|
        invariant 0 <= i <= |es| && Valid() && (contents == old(contents) || fresh(contents))
        invariant len == Total(es[..i]) && contents[..len] == Pack(es[..i], 0)
      {
        FillPlain(es[i]);
        PackOneMore(es, i);
        i := i + 1;
      }
      assert es[..i] == es;
    }

    /** A file system with offsets does, until the filler is full. */
    method PassNumbered(fs: seq<Fill>)
      requires Valid() && (forall f <- fs :: ValidEnt(f.e)) && len == 0 <= needlen && filled
      modifies this`contents, this`len, this`filled, contents
      ensures Valid() && (contents == old(contents) || fresh(contents))
      ensures filled <==> fs == []
      ensures contents[..len] == PackFills(Fitting(fs, needlen))
    {
      hide Dirent, DirentSize, Whole, Fits, PackFills, Ents, Total, StillFit, ValidEnt;
      var i, full := 0, false;
      NoFills(fs);
      AllStillFit(fs, needlen);
      while i < |fs| && !full
        invariant 0 <= i <= |fs| && Valid() && (contents == old(contents) || fresh(contents))
        invariant len <= needlen == old(needlen) && (filled <==> i == 0 && !full) && (full ==> i < |fs|)
        invariant contents[..len] == PackFills(fs[..i]) && len == Total(Ents(fs[..i]))
        invariant Whole(Ents(fs), needlen, |fs|) == i + if full then 0 else StillFit(fs, i, needlen - len)
        decreases |fs| - i, !full
      {
        FillOneMore(fs, i);
        WholeStep(fs, i, needlen - len);
        full := FillNumbered(fs[i].e, fs[i].off);
        if !full { i := i + 1; }
      }
      if !full { NoneLeft(fs, i, needlen - len); }
    }

    /** readdir_fill: the file system passes what it has from `off` on; `known`
        says whether the node has a path, `result` what the file system returns. */
    method ReaddirFill(d: Directory, size: nat, off: nat, known: bool, result: int) returns (err: int)
      requires Valid() && ValidDirectory(d)
      modifies this, contents
      ensures Valid() && (contents == old(contents) || fresh(contents))
      ensures !known ==> err == -ENOENT && filled == old(filled) && contents[..len] == old(contents[..len])
      ensures known && result != 0 ==> err == result && !filled
      ensures known && result == 0 ==>
                && err == 0
                && (d.Plain? ==> filled && contents[..len] == Pack(d.es, 0))
                && (d.Numbered? ==>
                   (filled <==> From(d.fs, off) == []) && contents[..len] == PackFills(Fitting(From(d.fs, off), size)))
    {
      hide Pack, Total, Fits, PackFills, Fitting;
      if !known { return -ENOENT; }
      len, needlen, filled := 0, size, true;
      match d {
        case Plain(es) => PassPlain(es);
        case Numbered(fs) => FromValid(fs, off); PassNumbered(From(fs, off));
      }
      if result != 0 { filled := false; }
      return result;
    }

    /** What a filled buffer holds. */
    ghost predicate Holds(d: Directory)
      requires Valid()
      reads this, contents
    {
      filled ==> contents[..len] == if d.Plain? then Pack(d.es, 0) else []
    }

    /** fuse_lib_readdir. The file system is asked unless the buffer is filled;
        one with offsets leaves it filled when it has come to its end, and is not
        asked again before the directory is rewound. */
    method LibReaddir(d: Directory, size: nat, off: nat, known: bool, result: int) returns (err: int, reply: Bytes)
      requires Valid() && ValidDirectory(d) && Holds(d)
      modifies this, contents
      ensures Valid() && Holds(d) && (contents == old(contents) || fresh(contents))
      ensures err == if off != 0 && old(filled) then 0 else if !known then -ENOENT else result
      ensures err != 0 ==> reply == [] && !filled
      ensures err == 0 && d.Plain? ==> reply == Slice(Pack(d.es, 0), off, size) && filled
      ensures err == 0 && d.Numbered? ==>
                && reply == (if off != 0 && old(filled) then [] else PackFills(Fitting(From(d.fs, off), size)))
                && (filled ==> (off != 0 && old(filled)) || From(d.fs, off) == [])
    {
      hide Pack, Total, ValidEnt, PackFills, Fitting, From;
      if off == 0 { filled := false; }
      if !filled {
        err := ReaddirFill(d, size, off, known, result);
        NothingPacked();
        if err != 0 { return err, []; }
      }
      err := 0;
      var n, at := size, off;
      if filled {
        if at < len {
          if at + n > len { n := len - at; }
        } else {
          n := 0;
        }
      } else {
        n, at := len, 0;
      }
      if n == 0 { return err, []; }
      reply := contents[at..at + n];
      SliceOfArray(contents, len, at, n);
    }
  }

  lemma SliceOfArray(a: array<int>, len: nat, at: nat, n: nat)
    requires at + n <= len <= a.Length
    ensures a[at..at + n] == a[..len][at..at + n]
  {
  }

  lemma NothingPacked()
    ensures forall size: nat :: PackFills(Fitting([], size)) == []
  {
  }

  lemma NoFills(fs: seq<Fill>)
    ensures PackFills([]) == [] && Total(Ents([])) == 0 && fs[..0] == [] && fs[0..] == fs
    ensures forall n: int, room: nat :: Whole([], n, room) == 0
  {
  }

  lemma {:induction false} FromValid(fs: seq<Fill>, off: nat)
    ensures forall f <- From(fs, off) :: f in fs
  {
    if off != 0 && fs != [] {
      FromValid(fs[1..], off);
    }
  }

  lemma {:induction false} EntsConcat(a: seq<Fill>, b: seq<Fill>)
    ensures Ents(a + b) == Ents(a) + Ents(b)
  {
  }

  lemma PackFillsHead(fs: seq<Fill>)
    requires fs != []
    ensures PackFills(fs) == Dirent(fs[0].e, fs[0].off) + PackFills(fs[1..])
  {
  }

  lemma {:induction false} PackFillsConcat(a: seq<Fill>, b: seq<Fill>)
    ensures PackFills(a + b) == PackFills(a) + PackFills(b)
  {
    hide Dirent, PackFills;
    if a == [] {
      NoFills(b);
      assert a + b == b && [] + PackFills(b) == PackFills(b);
    } else {
      assert (a + b)[0] == a[0] && (a + b)[1..] == a[1..] + b;
      PackFillsHead(a);
      PackFillsHead(a + b);
      PackFillsConcat(a[1..], b);
      Associate(Dirent(a[0].e, a[0].off), PackFills(a[1..]), PackFills(b));
    }
  }

  lemma FillOneMore(fs: seq<Fill>, i: nat)
    requires i < |fs|
    ensures PackFills(fs[..i + 1]) == PackFills(fs[..i]) + Dirent(fs[i].e, fs[i].off)
    ensures Total(Ents(fs[..i + 1])) == Total(Ents(fs[..i])) + DirentSize(|fs[i].e.name|)
  {
    hide Dirent, DirentSize, PackFills;
    var one := [fs[i]];
    assert fs[..i + 1] == fs[..i] + one && one[1..] == [];
    PackFillsConcat(fs[..i], one);
    PackFillsHead(one);
    NoFills([]);
    EntsConcat(fs[..i], one);
    TotalConcat(Ents(fs[..i]), Ents(one));
    TotalOne(fs[i]);
  }

  lemma TotalOne(f: Fill)
    ensures Total(Ents([f])) == DirentSize(|f.e.name|)
  {
    hide DirentSize;
    assert Ents([f]) == [f.e] && [f.e][1..] == [];
  }

  /** How many of the fills from `i` on fit whole in `n` bytes. */
  function StillFit(fs: seq<Fill>, i: nat, n: int): nat
    requires i <= |fs|
  {
    Whole(Ents(fs[i..]), n, |fs| - i)
  }

  lemma AllStillFit(fs: seq<Fill>, n: int)
    ensures StillFit(fs, 0, n) == Whole(Ents(fs), n, |fs|)
  {
    assert fs[0..] == fs;
  }

  lemma NoneLeft(fs: seq<Fill>, i: nat, n: int)
    requires i == |fs|
    ensures StillFit(fs, i, n) == 0 && fs[..i] == fs
  {
  }

  lemma WholeStep(fs: seq<Fill>, i: nat, n: int)
    requires i < |fs|
    ensures StillFit(fs, i, n)
            == if DirentSize(|fs[i].e.name|) > n then 0 else 1 + StillFit(fs, i + 1, n - DirentSize(|fs[i].e.name|))
  {
    hide DirentSize;
    assert fs[i..][1..] == fs[i + 1..];
  }

  lemma NonePacked(es: seq<Ent>)
    ensures Total(es[..0]) == 0 && Pack(es[..0], 0) == []
  {
  }

  lemma PackOneMore(es: seq<Ent>, i: nat)
    requires i < |es|
    ensures Total(es[..i + 1]) == Total(es[..i]) + DirentSize(|es[i].name|)
    ensures Pack(es[..i + 1], 0) == Pack(es[..i], 0) + Dirent(es[i], Total(es[..i + 1]))
  {
    hide Total, Pack, Dirent;
    assert es[..i + 1] == es[..i] + [es[i]];
    TotalConcat(es[..i], [es[i]]);
    PackConcat(es[..i], [es[i]], 0);
    PackOne(es[i], Total(es[..i]));
  }

  lemma PackOne(e: Ent, base: nat)
    ensures Pack([e], base) == Dirent(e, base + DirentSize(|e.name|)) && Total([e]) == DirentSize(|e.name|)
  {
    hide Dirent, DirentSize;
    PackHead([e], base);
    assert [e][1..] == [];
  }

  // ----- the kernel -----

  /** What parse_dirfile does with a buffer: an error code, the names it passed
      on, and the position to go on from. `room` says how many names filldir
      takes before it asks to stop. */
  datatype Parsed = Parsed(err: int, taken: seq<Ent>, pos: int)

  function ParsePage(buf: Bytes, room: nat, pos: int): Parsed
    decreases |buf|
  {
    if |buf| < FUSE_NAME_OFFSET then Parsed(0, [], pos)
    else
      var namelen := UnLe(buf[16..20]);
      var reclen := DirentSize(namelen);
      if namelen <= 0 || namelen > FUSE_NAME_MAX then Parsed(-EIO, [], pos)
      else if reclen > |buf| || room == 0 then Parsed(0, [], pos)
      else
        var e := Ent(buf[24..24 + namelen], Nat(UnLe(buf[..8])), Nat(UnLe(buf[20..24])));
        var rest := ParsePage(buf[reclen..], room - 1, UnLe(buf[8..16]));
        Parsed(rest.err, [e] + rest.taken, rest.pos)
  }

  function Nat(v: int): nat { if v < 0 then 0 else v }

  /** parse_dirfile. */
  method ParseDirfile(buf: Bytes, room: nat, fpos: int) returns (result: Parsed)
    ensures result == ParsePage(buf, room, fpos)
  {
    hide ParsePage, UnLe, DirentSize;
    var at, left, pos := 0, room, fpos;
    var taken: seq<Ent> := [];
    assert buf[0..] == buf;
    while |buf| - at >= FUSE_NAME_OFFSET
      invariant 0 <= at <= |buf|
      invariant var rest := ParsePage(buf[at..], left, pos);
                ParsePage(buf, room, fpos) == Parsed(rest.err, taken + rest.taken, rest.pos)
      decreases |buf| - at
    {
      ParseAt(buf, at, left, pos);
      var namelen := UnLe(buf[at + 16..at + 20]);
      var reclen := DirentSize(namelen);
      if namelen <= 0 || namelen > FUSE_NAME_MAX { return Parsed(-EIO, taken, pos); }
      if reclen > |buf| - at { break; }
      if left == 0 { break; }
      var e := Ent(buf[at + 24..at + 24 + namelen], Nat(UnLe(buf[at..at + 8])), Nat(UnLe(buf[at + 20..at + 24])));
      ghost var rest := ParsePage(buf[at + reclen..], left - 1, UnLe(buf[at + 8..at + 16]));
      assert taken + ([e] + rest.taken) == (taken + [e]) + rest.taken;
      pos := UnLe(buf[at + 8..at + 16]);
      taken := taken + [e];
      left := left - 1;
      at := at + reclen;
    }
    if |buf| - at < FUSE_NAME_OFFSET { ParseShort(buf[at..], left, pos); }
    return Parsed(0, taken, pos);
  }

  lemma ParseShort(buf: Bytes, room: nat, pos: int)
    requires |buf| < FUSE_NAME_OFFSET
    ensures ParsePage(buf, room, pos) == Parsed(0, [], pos)
  {
  }

  lemma SliceOfRest(buf: Bytes, at: nat, i: nat, j: nat)
    requires i <= j && at + j <= |buf|
    ensures buf[at..][i..j] == buf[at + i..at + j] && buf[at..][j..] == buf[at + j..]
  {
  }

  /** One turn of the loop of parse_dirfile. */
  lemma ParseAt(buf: Bytes, at: nat, room: nat, pos: int)
    requires at <= |buf| && |buf| - at >= FUSE_NAME_OFFSET
    ensures var namelen := UnLe(buf[at + 16..at + 20]);
            var reclen := DirentSize(namelen);
            ParsePage(buf[at..], room, pos) ==
            if namelen <= 0 || namelen > FUSE_NAME_MAX then Parsed(-EIO, [], pos)
            else if reclen > |buf| - at || room == 0 then Parsed(0, [], pos)
            else
              var e := Ent(buf[at + 24..at + 24 + namelen], Nat(UnLe(buf[at..at + 8])),
                Nat(UnLe(buf[at + 20..at + 24])));
              var rest := ParsePage(buf[at + reclen..], room - 1, UnLe(buf[at + 8..at + 16]));
              Parsed(rest.err, [e] + rest.taken, rest.pos)
  {
    hide UnLe;
    var namelen := UnLe(buf[at + 16..at + 20]);
    SliceOfRest(buf, at, 0, 8);
    SliceOfRest(buf, at, 8, 16);
    SliceOfRest(buf, at, 16, 20);
    SliceOfRest(buf, at, 20, 24);
    if 0 < namelen <= FUSE_NAME_MAX && DirentSize(namelen) <= |buf| - at {
      SliceOfRest(buf, at, 24, 24 + namelen);
      SliceOfRest(buf, at, 24, DirentSize(namelen));
    }
  }

  // ----- the stream -----

  lemma {:induction false} DirentFields(e: Ent, off: nat)
    requires ValidEnt(e) && Fits(off, 8)
    ensures var b := Dirent(e, off);
            && UnLe(b[..8]) == e.ino && UnLe(b[8..16]) == off && UnLe(b[16..20]) == |e.name| && UnLe(b[20..24]) == e.typ
            && b[24..24 + |e.name|] == e.name
  {
    hide Le, UnLe, Fits, Zeros, DirentSize;
    var b := Dirent(e, off);
    FitsWord(|e.name|);
    LeRoundTrip(e.ino, 8);
    LeRoundTrip(off, 8);
    LeRoundTrip(|e.name|, 4);
    LeRoundTrip(e.typ, 4);
    assert b[..8] == Le(e.ino, 8) && b[8..16] == Le(off, 8) && b[16..20] == Le(|e.name|, 4)
      && b[20..24] == Le(e.typ, 4);
  }

  /** A packed record is filled up with zeros to the next multiple of eight. */
  lemma DirentPadded(e: Ent, off: nat)
    requires ValidEnt(e) && Fits(off, 8)
    ensures var b := Dirent(e, off);
            |b| % 8 == 0 && |b| < 24 + |e.name| + 8 && forall i | 24 + |e.name| <= i < |b| :: b[i] == 0
  {
    var n := DirentSize(|e.name|) - FUSE_NAME_OFFSET - |e.name|;
    assert DirentSize(|e.name|) % 8 == 0 && n < 8;
    hide Le, Fits, Zeros, DirentSize;
    AllZeros(n);
    var b := Dirent(e, off);
    assert b[24 + |e.name|..] == Zeros(n);
    assert forall i | 24 + |e.name| <= i < |b| :: b[i] == b[24 + |e.name|..][i - 24 - |e.name|];
  }

  lemma {:induction false} AllZeros(n: nat)
    ensures forall i | 0 <= i < n :: Zeros(n)[i] == 0
  {
    if n > 0 { AllZeros(n - 1); }
  }

  /** How many entries of a listing lie whole in the first `n` bytes, when no
      more than `room` are wanted. */
  function Whole(es: seq<Ent>, n: int, room: nat): (k: nat)
    ensures k <= |es| && k <= room
  {
    if es == [] || room == 0 || DirentSize(|es[0].name|) > n then 0
    else 1 + Whole(es[1..], n - DirentSize(|es[0].name|), room - 1)
  }

  /** Where the kernel goes on behind the first `k` fills. */
  function Behind(fs: seq<Fill>, k: nat, pos: int): int
    requires k <= |fs|
  {
    if k == 0 then pos else fs[k - 1].off
  }

  /** Parsing the beginning of packed records takes exactly the ones that lie
      whole in it, in order, and goes on at the offset of the last one. */
  lemma {:induction false} PageParses(fs: seq<Fill>, n: nat, room: nat, pos: int)
    requires (forall f <- fs :: ValidEnt(f.e) && Fits(f.off, 8)) && n <= |PackFills(fs)|
    ensures var k := Whole(Ents(fs), n, room);
            ParsePage(PackFills(fs)[..n], room, pos) == Parsed(0, Ents(fs)[..k], Behind(fs, k, pos))
    decreases |fs|
  {
    hide ParsePage, ValidEnt, DirentSize, Dirent, PackFills, Fits, Ents, Whole;
    if n < FUSE_NAME_OFFSET {
      ParseShort(PackFills(fs)[..n], room, pos);
      NoneWhole(Ents(fs), n, room);
    } else {
      NoFills(fs);
      PackFillsHead(fs);
      WholeHead(fs, n, room);
      var f, size := fs[0], DirentSize(|fs[0].e.name|);
      ParseHead(f.e, f.off, PackFills(fs[1..]), n, room, pos);
      if size <= n && room > 0 {
        PageParses(fs[1..], n - size, room - 1, f.off);
      }
    }
  }

  lemma WholeHead(fs: seq<Fill>, n: int, room: nat)
    requires fs != []
    ensures var size, k := DirentSize(|fs[0].e.name|), Whole(Ents(fs), n, room);
            if size <= n && room > 0 then
              var m := Whole(Ents(fs[1..]), n - size, room - 1);
              k == m + 1 && Ents(fs)[..k] == [fs[0].e] + Ents(fs[1..])[..m]
            else k == 0 && Ents(fs)[..k] == []
  {
    hide DirentSize;
    assert Ents(fs) == [fs[0].e] + Ents(fs[1..]) && Ents(fs)[1..] == Ents(fs[1..]);
  }

  /** A plain listing is packed as if its entries were numbered by the lengths
      in front of them. */
  function Placed(es: seq<Ent>, base: nat): (fs: seq<Fill>)
    ensures Ents(fs) == es
  {
    if es == [] then []
    else [Fill(es[0], base + DirentSize(|es[0].name|))] + Placed(es[1..], base + DirentSize(|es[0].name|))
  }

  lemma {:induction false} PackPlaced(es: seq<Ent>, base: nat)
    ensures PackFills(Placed(es, base)) == Pack(es, base)
  {
    hide Dirent, DirentSize;
    if es != [] {
      PackPlaced(es[1..], base + DirentSize(|es[0].name|));
    }
  }

  lemma {:induction false} PlacedOffsets(es: seq<Ent>, base: nat, k: nat)
    requires k <= |es|
    ensures |Placed(es, base)| == |es| && Behind(Placed(es, base), k, base) == base + Total(es[..k])
    ensures k > 0 ==> Placed(es, base)[k - 1] == Fill(es[k - 1], base + Total(es[..k]))
    decreases |es|
  {
    hide DirentSize;
    if k > 0 {
      var next := base + DirentSize(|es[0].name|);
      PlacedOffsets(es[1..], next, k - 1);
      assert es[..k][0] == es[0] && es[..k][1..] == es[1..][..k - 1];
      assert es[1..][..0] == [];
    } else {
      assert es[..0] == [];
    }
  }

  lemma PlacedFits(es: seq<Ent>, base: nat)
    requires (forall e <- es :: ValidEnt(e)) && base + Total(es) < 0x1_0000_0000
    ensures forall f <- Placed(es, base) :: ValidEnt(f.e) && Fits(f.off, 8)
  {
    hide ValidEnt, Fits, Total, Placed;
    var fs := Placed(es, base);
    forall f <- fs ensures ValidEnt(f.e) && Fits(f.off, 8) {
      var i :| 0 <= i < |fs| && fs[i] == f;
      PlacedOffsets(es, base, i + 1);
      TotalConcat(es[..i + 1], es[i + 1..]);
      assert es == es[..i + 1] + es[i + 1..] && es[i] in es;
      FitsWord(f.off);
    }
  }

  lemma NoneWhole(es: seq<Ent>, n: nat, room: nat)
    requires n < FUSE_NAME_OFFSET
    ensures Whole(es, n, room) == 0 && es[..0] == []
  {
  }

  /** Parsing a buffer that begins with a record. */
  lemma ParseHead(e: Ent, next: nat, more: Bytes, n: nat, room: nat, pos: int)
    requires ValidEnt(e) && Fits(next, 8) && FUSE_NAME_OFFSET <= n <= DirentSize(|e.name|) + |more|
    ensures ParsePage((Dirent(e, next) + more)[..n], room, pos) ==
            if DirentSize(|e.name|) > n || room == 0 then Parsed(0, [], pos)
            else
              var rest := ParsePage(more[..n - DirentSize(|e.name|)], room - 1, next);
              Parsed(rest.err, [e] + rest.taken, rest.pos)
  {
    hide Dirent, Le, UnLe, Fits;
    DirentFields(e, next);
    HeaderKept(e, next, more, n);
  }

  /** Cutting the buffer off behind the header leaves the fields. */
  lemma HeaderKept(e: Ent, off: nat, more: Bytes, n: nat)
    requires FUSE_NAME_OFFSET <= n <= DirentSize(|e.name|) + |more|
    ensures var b, buf := Dirent(e, off), (Dirent(e, off) + more)[..n];
            && buf[..8] == b[..8] && buf[8..16] == b[8..16] && buf[16..20] == b[16..20] && buf[20..24] == b[20..24]
            && (DirentSize(|e.name|) <= n ==> buf[24..24 + |e.name|] == b[24..24 + |e.name|]
                                              && buf[DirentSize(|e.name|)..] == more[..n - DirentSize(|e.name|)])
  {
    hide Dirent;
    var b := Dirent(e, off);
    CutField(b, more, n, 0, 8);
    CutField(b, more, n, 8, 16);
    CutField(b, more, n, 16, 20);
    CutField(b, more, n, 20, 24);
    if |b| <= n {
      CutField(b, more, n, 24, 24 + |e.name|);
      CutTail(b, more, n);
    }
  }

  lemma CutField(b: Bytes, more: Bytes, n: nat, i: nat, j: nat)
    requires i <= j <= |b| && j <= n <= |b| + |more|
    ensures (b + more)[..n][i..j] == b[i..j] && (i == 0 ==> (b + more)[..n][..j] == b[..j])
  {
  }

  lemma CutTail(b: Bytes, more: Bytes, n: nat)
    requires |b| <= n <= |b| + |more|
    ensures (b + more)[..n][|b|..] == more[..n - |b|]
  {
  }

  // ----- calls of readdir -----

  /** What libfuse replies to a page-sized request from `off`. */
  function Reply(d: Directory, off: nat): Bytes {
    match d
    case Plain(es) => Slice(Pack(es, 0), off, PAGE_SIZE)
    case Numbered(fs) => PackFills(Fitting(From(fs, off), PAGE_SIZE))
  }

  /** One readdir call of the kernel from position `fpos`. */
  function Call(d: Directory, fpos: nat, room: nat): Parsed { ParsePage(Reply(d, fpos), room, fpos) }

  /** The position behind the first `k` entries. */
  function Position(d: Directory, k: nat): (pos: nat)
    requires k <= |d.Names()|
  {
    match d
    case Plain(es) => Total(es[..k])
    case Numbered(fs) => if k == 0 then 0 else fs[k - 1].off
  }

  lemma TotalSplit(es: seq<Ent>, k: nat)
    requires k <= |es|
    ensures Total(es) == Total(es[..k]) + Total(es[k..])
            && Pack(es, 0) == Pack(es[..k], 0) + Pack(es[k..], Total(es[..k]))
  {
    hide Total, Pack;
    assert es == es[..k] + es[k..];
    TotalConcat(es[..k], es[k..]);
    PackConcat(es[..k], es[k..], 0);
  }

  lemma {:induction false} FromPosition(fs: seq<Fill>, k: nat)
    requires ValidFills(fs) && k <= |fs|
    ensures From(fs, if k == 0 then 0 else fs[k - 1].off) == fs[k..]
    decreases |fs|
  {
    hide Fits, ValidEnt;
    if k > 1 {
      assert fs[0].off != fs[k - 1].off;
      assert forall f <- fs[1..] :: f in fs;
      assert forall i, j :: 0 <= i < j < |fs[1..]| ==> fs[1..][i] == fs[i + 1] && fs[1..][j] == fs[j + 1];
      FromPosition(fs[1..], k - 1);
    } else if k == 1 {
      assert fs[0] in fs;
    }
  }

  /** What libfuse has at the position behind entry `k`. */
  lemma ReplyAt(d: Directory, k: nat)
    requires ValidDirectory(d) && k <= |d.Names()|
    ensures d.Numbered? ==> From(d.fs, Position(d, k)) == d.fs[k..]
    ensures d.Numbered? && k == |d.fs| ==> Reply(d, Position(d, k)) == []
    ensures d.Numbered? ==>
              Reply(d, Position(d, k)) == PackFills(Fitting(From(d.fs, Position(d, k)), PAGE_SIZE))
    ensures d.Plain? ==> Reply(d, Position(d, k)) == Slice(Pack(d.es, 0), Position(d, k), PAGE_SIZE)
  {
    hide PackFills, Fitting, Pack, From, Total, Slice;
    if d.Numbered? {
      FromPosition(d.fs, k);
      NothingPacked();
    }
  }

  /** How many entries a call from entry `k` delivers. */
  function Delivered(d: Directory, k: nat, room: nat): (n: nat)
    requires k <= |d.Names()|
    ensures k + n <= |d.Names()|
  {
    match d
    case Plain(es) => Whole(es[k..], Min(PAGE_SIZE, Total(es[k..])), room)
    case Numbered(fs) => Min(room, Whole(Ents(fs[k..]), PAGE_SIZE, |fs| - k))
  }

  lemma PlainDelivers(es: seq<Ent>, k: nat, room: nat)
    requires ValidListing(es) && k <= |es|
    ensures var n := Delivered(Plain(es), k, room);
            Call(Plain(es), Total(es[..k]), room) == Parsed(0, es[k..k + n], Total(es[..k + n]))
  {
    hide Pack, Total, ParsePage, Fits, PackFills, Placed, Whole, ValidListing, ValidEnt, Slice, Behind, Ents;
    var size, base, rest := Min(PAGE_SIZE, Total(es[k..])), Total(es[..k]), es[k..];
    PlainReply(es, k);
    PlacedValid(es, k);
    PackPlaced(rest, base);
    PageParses(Placed(rest, base), size, room, base);
    PlainTaken(es, k, Whole(rest, size, room));
  }

  lemma PlainReply(es: seq<Ent>, k: nat)
    requires k <= |es|
    ensures Slice(Pack(es, 0), Total(es[..k]), PAGE_SIZE)
            == Pack(es[k..], Total(es[..k]))[..Min(PAGE_SIZE, Total(es[k..]))]
  {
    hide Pack, Total, Slice;
    TotalSplit(es, k);
    SliceBehind(Pack(es[..k], 0), Pack(es[k..], Total(es[..k])), PAGE_SIZE);
  }

  lemma SliceBehind(a: Bytes, b: Bytes, n: nat)
    ensures Slice(a + b, |a|, n) == b[..Min(n, |b|)]
  {
  }

  lemma PlacedValid(es: seq<Ent>, k: nat)
    requires ValidListing(es) && k <= |es|
    ensures forall f <- Placed(es[k..], Total(es[..k])) :: ValidEnt(f.e) && Fits(f.off, 8)
  {
    hide ValidEnt, Fits, Total, Placed;
    TotalSplit(es, k);
    assert forall e <- es[k..] :: e in es;
    PlacedFits(es[k..], Total(es[..k]));
  }

  lemma PlainTaken(es: seq<Ent>, k: nat, n: nat)
    requires k + n <= |es|
    ensures es[k..][..n] == es[k..k + n] && |Placed(es[k..], Total(es[..k]))| == |es| - k
    ensures Behind(Placed(es[k..], Total(es[..k])), n, Total(es[..k])) == Total(es[..k + n])
  {
    hide Total, Placed;
    var rest := es[k..];
    PlacedOffsets(rest, Total(es[..k]), n);
    assert es[..k + n] == es[..k] + es[k..k + n] && rest[..n] == es[k..k + n];
    TotalConcat(es[..k], es[k..k + n]);
  }

  /** All of the records that fit are whole in the reply. */
  lemma {:induction false} FittingWhole(es: seq<Ent>, n: int, k: nat, room: nat)
    requires k <= Whole(es, n, |es|)
    ensures Whole(es[..k], Total(es[..k]), room) == Min(room, k) && Total(es[..k]) <= Max0(n)
    decreases k
  {
    hide DirentSize;
    if k > 0 {
      FittingWhole(es[1..], n - DirentSize(|es[0].name|), k - 1, if room > 0 then room - 1 else 0);
      assert es[..k][0] == es[0] && es[..k][1..] == es[1..][..k - 1];
      SizePositive(es[0]);
    }
  }

  lemma SizePositive(e: Ent)
    ensures DirentSize(|e.name|) > 0
  {
  }

  function Max0(n: int): nat { if n < 0 then 0 else n }

  /** A reply that holds what fits is parsed to the end, unless filldir stops. */
  lemma FittingParses(fs: seq<Fill>, room: nat, pos: int)
    requires forall f <- fs :: ValidEnt(f.e) && Fits(f.off, 8)
    ensures var n := Min(room, Whole(Ents(fs), PAGE_SIZE, |fs|));
            ParsePage(PackFills(Fitting(fs, PAGE_SIZE)), room, pos) == Parsed(0, Ents(fs)[..n], Behind(fs, n, pos))
  {
    hide Total, ParsePage, DirentSize, Fits, PackFills, Whole, ValidEnt, Ents;
    var fit := Whole(Ents(fs), PAGE_SIZE, |fs|);
    var some := fs[..fit];
    EntsTake(fs, fit);
    FittingWhole(Ents(fs), PAGE_SIZE, fit, room);
    PageParses(some, |PackFills(some)|, room, pos);
    var all := PackFills(some);
    assert all[..|all|] == all;
    var n := Min(room, fit);
    assert Ents(some)[..n] == Ents(fs)[..n];
  }

  lemma EntsTake(fs: seq<Fill>, k: nat)
    requires k <= |fs|
    ensures Ents(fs[..k]) == Ents(fs)[..k]
  {
  }

  lemma NumberedDelivers(fs: seq<Fill>, k: nat, room: nat)
    requires ValidFills(fs) && k <= |fs|
    ensures var d := Numbered(fs);
            var n := Delivered(d, k, room);
            Call(d, Position(d, k), room) == Parsed(0, Ents(fs)[k..k + n], Position(d, k + n))
  {
    hide ParsePage, Fits, PackFills, From, Whole, ValidEnt, Fitting, ValidFills, Behind, Position, Ents, Slice, Pack;
    var d, rest := Numbered(fs), fs[k..];
    ReplyAt(d, k);
    RestValid(fs, k);
    FittingParses(rest, room, Position(d, k));
    var n := Delivered(d, k, room);
    RestTaken(fs, k, n);
  }

  lemma RestValid(fs: seq<Fill>, k: nat)
    requires ValidFills(fs) && k <= |fs|
    ensures forall f <- fs[k..] :: ValidEnt(f.e) && Fits(f.off, 8)
  {
    hide ValidEnt, Fits;
    assert forall f <- fs[k..] :: f in fs;
  }

  lemma RestTaken(fs: seq<Fill>, k: nat, n: nat)
    requires k + n <= |fs|
    ensures Ents(fs[k..])[..n] == Ents(fs)[k..k + n]
    ensures Behind(fs[k..], n, Position(Numbered(fs), k)) == Position(Numbered(fs), k + n)
  {
    hide Ents;
    TakenFrom(fs, k, n);
    assert n > 0 ==> fs[k..][n - 1] == fs[k + n - 1];
  }

  lemma TakenFrom(fs: seq<Fill>, k: nat, n: nat)
    requires k + n <= |fs|
    ensures Ents(fs[k..])[..n] == Ents(fs)[k..k + n]
  {
    hide Ents;
    var taken, there := Ents(fs[k..])[..n], Ents(fs)[k..k + n];
    forall i | 0 <= i < n ensures taken[i] == there[i] {
      assert taken[i] == fs[k..][i].e == fs[k + i].e;
    }
  }

  lemma DeliversSome(d: Directory, k: nat, room: nat)
    requires ValidDirectory(d) && k < |d.Names()| && room > 0
    ensures Delivered(d, k, room) > 0
  {
    hide Total, DirentSize, Fits, Whole, ValidEnt;
    match d {
      case Plain(es) =>
        assert es[k..][0] == es[k] && es[k] in es;
        FirstFits(es[k..], room);
      case Numbered(fs) =>
        assert Ents(fs[k..])[0] == fs[k].e && fs[k] in fs;
        FirstFits(Ents(fs[k..]), |fs| - k);
    }
  }

  /** A call from the position behind entry `k` delivers the entries from there on
      that a page holds and filldir takes; at least one, unless there is none or
      filldir takes none. */
  lemma CallDelivers(d: Directory, k: nat, room: nat)
    requires ValidDirectory(d) && k <= |d.Names()|
    ensures var n := Delivered(d, k, room);
            && Call(d, Position(d, k), room) == Parsed(0, d.Names()[k..k + n], Position(d, k + n))
            && (room > 0 && k < |d.Names()| ==> n > 0)
  {
    hide Call, Total, Delivered, ValidListing, ValidFills;
    if room > 0 && k < |d.Names()| { DeliversSome(d, k, room); }
    if d.Plain? { PlainDelivers(d.es, k, room); } else { NumberedDelivers(d.fs, k, room); }
  }

  lemma FirstFits(es: seq<Ent>, room: nat)
    requires es != [] && ValidEnt(es[0]) && room > 0
    ensures Whole(es, Min(PAGE_SIZE, Total(es)), room) > 0 && Whole(es, PAGE_SIZE, room) > 0
  {
  }

  function Min(a: int, b: int): int { if a < b then a else b }

  /** A sequence of calls, each from where the one before left off. */
  function Stream(d: Directory, fpos: nat, rooms: seq<nat>): Parsed
    decreases |rooms|
  {
    if rooms == [] then Parsed(0, [], fpos)
    else
      var first := Call(d, fpos, rooms[0]);
      if first.err != 0 then first
      else
        var others := Stream(d, Nat(first.pos), rooms[1..]);
        Parsed(others.err, first.taken + others.taken, others.pos)
  }

  function Useful(rooms: seq<nat>): nat {
    if rooms == [] then 0 else (if rooms[0] > 0 then 1 else 0) + Useful(rooms[1..])
  }

  lemma StreamStep(d: Directory, fpos: nat, rooms: seq<nat>)
    ensures rooms == [] ==> Stream(d, fpos, rooms) == Parsed(0, [], fpos) && Useful(rooms) == 0
    ensures rooms != [] ==>
              && Useful(rooms) == (if rooms[0] > 0 then 1 else 0) + Useful(rooms[1..])
              && var first := Call(d, fpos, rooms[0]);
                var others := Stream(d, Nat(first.pos), rooms[1..]);
                first.err == 0 ==> Stream(d, fpos, rooms) == Parsed(others.err, first.taken + others.taken, others.pos)
  {
    hide Call;
  }

  lemma Joined<T>(s: seq<T>, k: nat, m: nat, j: nat)
    requires k <= m <= j <= |s|
    ensures s[k..m] + s[m..j] == s[k..j] && s[k..k] == []
  {
  }

  /** Whatever filldir takes from call to call, the calls deliver the directory in
      order and without gap or repetition, always stand on the boundary of a
      record, and come to its end. */
  lemma {:induction false} StreamDelivers(d: Directory, k: nat, rooms: seq<nat>) returns (j: nat)
    requires ValidDirectory(d) && k <= |d.Names()|
    ensures k <= j <= |d.Names()| && Stream(d, Position(d, k), rooms) == Parsed(0, d.Names()[k..j], Position(d, j))
    ensures j >= Min(|d.Names()|, k + Useful(rooms))
    decreases |rooms|
  {
    hide Call, ValidDirectory, Delivered, Position, Stream, Useful, Directory.Names;
    StreamStep(d, Position(d, k), rooms);
    if rooms == [] {
      j := k;
    } else {
      CallDelivers(d, k, rooms[0]);
      var m := k + Delivered(d, k, rooms[0]);
      j := StreamDelivers(d, m, rooms[1..]);
      Joined(d.Names(), k, m, j);
    }
  }

  // ----- both sides together -----

  lemma StartPosition(d: Directory)
    ensures Position(d, 0) == 0 && d.Names()[..0] == [] && d.Names()[0..] == d.Names()
    ensures d.Numbered? ==> |d.Names()| == |d.fs|
  {
    if d.Plain? { assert d.es[..0] == []; }
  }

  lemma CallStep(d: Directory, fpos: nat, rooms: seq<nat>, i: nat, done: seq<Ent>)
    requires i < |rooms| && Call(d, fpos, rooms[i]).err == 0 && Call(d, fpos, rooms[i]).pos >= 0
    ensures var first := Call(d, fpos, rooms[i]);
            var now, rest := Stream(d, fpos, rooms[i..]), Stream(d, first.pos, rooms[i + 1..]);
            Parsed(now.err, done + now.taken, now.pos) == Parsed(rest.err, (done + first.taken) + rest.taken, rest.pos)
  {
    hide Call;
    assert rooms[i..][1..] == rooms[i + 1..];
  }

  lemma StreamOver(d: Directory, fpos: nat, rooms: seq<nat>, i: nat)
    requires i == |rooms|
    ensures Stream(d, fpos, rooms[i..]) == Parsed(0, [], fpos)
  {
  }

  /** fuse_readdir: a page-sized request to libfuse, and the parsing of its reply.
      A file system that numbers its entries is at its end when the handle says
      that it is filled. */
  method ReaddirCall(dh: DirHandle, d: Directory, ghost k: nat, fpos: nat, room: nat) returns (parsed: Parsed)
    requires ValidDirectory(d) && dh.Valid() && dh.Holds(d)
    requires k <= |d.Names()| && fpos == Position(d, k) && (dh.filled && d.Numbered? ==> k == |d.fs|)
    modifies dh, dh.contents
    ensures dh.Valid() && dh.Holds(d) && (dh.contents == old(dh.contents) || fresh(dh.contents))
    ensures dh.filled && d.Numbered? ==> k == |d.fs|
    ensures parsed == Call(d, fpos, room)
  {
    hide ValidDirectory, Position, Pack, PackFills, From, Fitting, Reply, ParsePage, Slice;
    ReplyAt(d, k);
    var err, reply := dh.LibReaddir(d, PAGE_SIZE, fpos, true, 0);
    parsed := ParseDirfile(reply, room, fpos);
  }

  /** A directory is opened and read by one call after the other: a request to
      libfuse, and the parsing of its reply. */
  method ReadDirectory(d: Directory, rooms: seq<nat>) returns (err: int, delivered: seq<Ent>, fpos: int)
    requires ValidDirectory(d)
    ensures Parsed(err, delivered, fpos) == Stream(d, 0, rooms)
    ensures err == 0 && delivered <= d.Names() && |delivered| >= Min(|d.Names()|, Useful(rooms))
  {
    hide ValidDirectory, Delivered, Position, Pack, Stream, Call, Useful, Directory.Names;
    var dh := new DirHandle();
    fpos, delivered := 0, [];
    ghost var k: nat := 0;
    StartPosition(d);
    ghost var j := StreamDelivers(d, 0, rooms);
    var i := 0;
    assert rooms[0..] == rooms;
    while i < |rooms|
      invariant 0 <= i <= |rooms| && fresh(dh) && fresh(dh.contents) && dh.Valid() && dh.Holds(d)
      invariant k <= |d.Names()| && fpos == Position(d, k) && (dh.filled && d.Numbered? ==> k == |d.fs|)
      invariant var rest := Stream(d, fpos, rooms[i..]);
                Stream(d, 0, rooms) == Parsed(rest.err, delivered + rest.taken, rest.pos)
    {
      CallDelivers(d, k, rooms[i]);
      CallStep(d, fpos, rooms, i, delivered);
      var parsed := ReaddirCall(dh, d, k, fpos, rooms[i]);
      k := k + Delivered(d, k, rooms[i]);
      delivered, fpos, i := delivered + parsed.taken, parsed.pos, i + 1;
    }
    StreamOver(d, fpos, rooms, i);
    return 0, delivered, fpos;
  }
}
