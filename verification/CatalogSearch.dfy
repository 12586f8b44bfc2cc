/** The mounted catalog (catalogfs.c): the two-level binary search over the
    entries of a file, and the file system operations on top of it. */
module CatalogSearch {
  import opened Sequences
  import opened CatalogOrder
  import opened CatalogListing
  import opened CatalogText
  import opened CatalogGenerator

  const ENOENT: int := 2

  /** What the search needs of a catalog: right depths, and entries in strictly
      ascending order by depth and path. */
  ghost predicate Sorted(es: seq<Record>) {
    && (forall e <- es :: e.depth == Depth(e.path) && e.depth >= 1)
    && forall i, j :: 0 <= i < j < |es| ==> PathLess(es[i].path, es[j].path)
  }

  /** The file holds these entries, one after the other. */
  ghost predicate Holds(file: string, entrySize: nat, es: seq<Record>) {
    forall i | 0 <= i < |es| ::
      Offset(entrySize, i) + entrySize <= |file|
        && Parse(file[Offset(entrySize, i)..Offset(entrySize, i) + entrySize]) == Some(es[i])
  }

  // ----- what the operations should answer -----

  /** The entry of a path. */
  function Lookup(es: seq<Record>, path: string): Option<Record> {
    if es == [] then None else if es[0].path == path then Some(es[0]) else Lookup(es[1..], path)
  }

  /** `e` lies in the directory with path `dir`, which ends with a slash. */
  predicate IsContent(e: Record, dir: string) {
    e.depth == Depth(dir) && HasPrefix(e.path, dir) && e.path != dir
  }

  /** The entries for the immediate contents of a directory. */
  function Contents(es: seq<Record>, dir: string): seq<Record> {
    if es == [] then [] else (if IsContent(es[0], dir) then [es[0]] else []) + Contents(es[1..], dir)
  }

  /** What follows the last slash. */
  function BaseName(path: string): string
    decreases |path|
  {
    if path == "" then "" else if '/' in path[1..] || path[0] == '/' then BaseName(path[1..]) else path
  }

  function Listed(es: seq<Record>): seq<(string, Stat)> {
    if es == [] then [] else [(BaseName(es[0].path), es[0].stat)] + Listed(es[1..])
  }

  const NUL: char := 0 as char

  /** What strncpy(_, s, n) writes: the characters up to a terminator, and
      terminators from there on. */
  function StrNCpy(s: string, n: nat): (r: string)
    ensures |r| == n
    decreases n
  {
    if n == 0 then ""
    else if s == "" || s[0] == NUL then [NUL] + StrNCpy("", n - 1)
    else [s[0]] + StrNCpy(s[1..], n - 1)
  }

  /** The C string at the beginning of a buffer. */
  function CString(buf: string): string {
    if buf == "" || buf[0] == NUL then "" else [buf[0]] + CString(buf[1..])
  }

  lemma {:induction false} StrNCpyMore(s: string, n: nat)
    ensures |CString(s)| <= |s| && (|CString(s)| < |s| ==> s[|CString(s)|] == NUL)
    ensures n < |CString(s)| ==> s[n] != NUL
    ensures StrNCpy(s, n + 1) == StrNCpy(s, n) + [if n < |CString(s)| then s[n] else NUL]
    decreases |s| + n
  {
    if s == "" || s[0] == NUL {
      if n > 0 { StrNCpyMore("", n - 1); }
    } else {
      StrNCpyMore(s[1..], if n > 0 then n - 1 else 0);
    }
  }

  /** strncpy. */
  method CopyString(buf: array<char>, s: string, n: nat)
    requires n <= buf.Length
    modifies buf
    ensures buf[..n] == StrNCpy(s, n) && buf[n..] == old(buf[n..])
  {
    hide StrNCpy, CString;
    var i, over := 0, false;
    while i < n
      invariant 0 <= i <= n && (if over then i > |CString(s)| else i <= |CString(s)|)
      invariant buf[..i] == StrNCpy(s, i) && buf[n..] == old(buf[n..])
    {
      StrNCpyMore(s, i);
      if !over && (i == |s| || s[i] == NUL) { over := true; }
      buf[i] := if over then NUL else s[i];
      i := i + 1;
    }
  }

  /** With a terminator behind the bytes that strncpy wrote, which is what the
      caller of catalog_readlink sees to, they read as the beginning of the link;
      as the whole link exactly when that is short enough. */
  lemma {:induction false} LinkReadBack(link: string, n: nat, more: string)
    requires NUL !in link
    ensures CString(StrNCpy(link, n) + [NUL] + more) == if |link| <= n then link else link[..n]
    ensures CString(StrNCpy(link, n) + [NUL] + more) == link <==> |link| <= n
  {
    var buf := StrNCpy(link, n) + [NUL] + more;
    if n == 0 || link == "" {
      assert buf[0] == NUL;
    } else {
      assert buf[1..] == StrNCpy(link[1..], n - 1) + [NUL] + more;
      LinkReadBack(link[1..], n - 1, more);
      assert link == [link[0]] + link[1..];
      if |link| > n { assert link[..n] == [link[0]] + link[1..][..n - 1]; }
    }
  }

  function CalculateMid(low: int, high: int): (mid: int)
    ensures low <= high ==> low <= mid <= high
  {
    low + (high - low) / 2
  }

  class Catalog {
    const file: string
    const entrySize: nat
    const catalogLen: nat
    ghost const es: seq<Record>

    constructor (file: string, entrySize: nat, catalogLen: nat, ghost es: seq<Record>)
      requires entrySize > 0 && Holds(file, entrySize, es) && |es| == catalogLen && Sorted(es)
      ensures this.file == file && this.es == es && this.entrySize == entrySize && Valid()
    {
      this.file, this.entrySize, this.catalogLen, this.es := file, entrySize, catalogLen, es;
    }

    ghost predicate Valid() {
      entrySize > 0 && Holds(file, entrySize, es) && |es| == catalogLen && Sorted(es)
    }

    /** getEntry_from_catalog. */
    method GetEntry(location: int) returns (e: Record)
      requires Valid() && 0 <= location < catalogLen
      ensures e == es[location]
    {
      hide Parse, Sorted, Offset;
      var offset := entrySize * location;
      OffsetIs(entrySize, location);
      e := Parse(file[offset..offset + entrySize]).value;
    }

    /** find_index: narrows the bounds around some entry of the depth. */
    method FindIndex(searchDepth: int, low0: int, high0: int) returns (low: int, high: int, mid: int, depth: int)
      requires Valid() && 0 <= low0 && high0 < catalogLen
      ensures low0 <= low && high <= high0
      ensures low <= high ==> low <= mid <= high && depth == searchDepth && es[mid].depth == searchDepth
      ensures forall i | low0 <= i <= high0 && es[i].depth == searchDepth :: low <= i <= high
    {
      hide Sorted, Holds;
      DepthsAscend(es);
      low, high, mid, depth := low0, high0, 0, 0;
      while low <= high
        invariant low0 <= low && high <= high0
        invariant forall i | low0 <= i <= high0 && es[i].depth == searchDepth :: low <= i <= high
        decreases high - low
      {
        mid := CalculateMid(low, high);
        var e := GetEntry(mid);
        depth := e.depth;
        if depth == searchDepth {
          break;
        } else if depth < searchDepth {
          low := mid + 1;
        } else {
          high := mid - 1;
        }
      }
    }

    /** find_lowest_index: walks down to where the depth begins. */
    method FindLowestIndex(searchDepth: int, low0: int, mid: int, depth0: int) returns (low: int, depth: int)
      requires Valid() && 0 <= low0 <= mid < catalogLen && es[mid].depth == searchDepth == depth0
      ensures low0 <= low <= mid
      ensures forall i | low0 <= i <= mid :: es[i].depth == searchDepth <==> low <= i
    {
      hide Sorted, Holds;
      DepthsAscend(es);
      low, depth := mid, depth0;
      while depth == searchDepth
        invariant low0 <= low <= mid && es[low].depth == depth
        invariant depth == searchDepth ==> forall i | low <= i <= mid :: es[i].depth == searchDepth
        invariant depth != searchDepth ==> low < mid && forall i | low < i <= mid :: es[i].depth == searchDepth
        decreases low + (if depth == searchDepth then 1 else 0)
      {
        low := low - 1;
        if low < low0 { break; }
        var e := GetEntry(low);
        depth := e.depth;
      }
      low := low + 1;
    }

    /** find_highest_index: walks up to where the depth ends. */
    method FindHighestIndex(searchDepth: int, high0: int, mid: int, depth0: int) returns (high: int, depth: int)
      requires Valid() && 0 <= mid <= high0 < catalogLen && es[mid].depth == searchDepth == depth0
      ensures mid <= high <= high0
      ensures forall i | mid <= i <= high0 :: es[i].depth == searchDepth <==> i <= high
    {
      hide Sorted, Holds;
      DepthsAscend(es);
      high, depth := mid, depth0;
      while depth == searchDepth
        invariant mid <= high <= high0 && es[high].depth == depth
        invariant depth == searchDepth ==> forall i | mid <= i <= high :: es[i].depth == searchDepth
        invariant depth != searchDepth ==> mid < high && forall i | mid <= i < high :: es[i].depth == searchDepth
        decreases high0 - high + (if depth == searchDepth then 1 else 0)
      {
        high := high + 1;
        if high > high0 { break; }
        var e := GetEntry(high);
        depth := e.depth;
      }
      high := high - 1;
    }

    /** binSearch: the place of a path, or -1. */
    method BinSearch(searchPath: string) returns (result: int)
      requires Valid()
      ensures -1 <= result < catalogLen
      ensures result >= 0 ==> es[result].path == searchPath
      ensures result < 0 ==> forall e <- es :: e.path != searchPath
    {
      hide Sorted, Holds, Depth;
      DepthsKnown(es);
      result := -1;
      var searchDepth := Depth(searchPath);
      if searchDepth <= 0 { return; }
      var low, high, mid, depth := FindIndex(searchDepth, 0, catalogLen - 1);
      if low > high { return; }
      var all0, all1 := low, high;
      low, depth := FindLowestIndex(searchDepth, low, mid, depth);
      depth := searchDepth;
      high, depth := FindHighestIndex(searchDepth, high, mid, depth);
      assert forall i | 0 <= i < catalogLen && es[i].depth == searchDepth :: low <= i <= high;
      while low <= high
        invariant 0 <= low && high < catalogLen
        invariant forall i | low <= i <= high :: es[i].depth == searchDepth
        invariant forall i | 0 <= i < catalogLen && es[i].path == searchPath :: low <= i <= high
        decreases high - low
      {
        mid := CalculateMid(low, high);
        var e := GetEntry(mid);
        var comp := StrCmp(e.path, searchPath);
        if comp == 0 { return mid; }
        Narrows(es, mid, searchPath);
        if comp < 0 {
          low := mid + 1;
        } else {
          high := mid - 1;
        }
      }
    }

    /** get_directory_contents: the bounds of the block of a directory's entries;
        its own entry is at `low`. */
    method GetDirectoryContents(path: string, high0: int) returns (err: int, low: int, high: int)
      requires Valid()
      ensures path == "" || path[|path| - 1] != '/' ==> err == -1 && low == -1 && high == -1
      ensures path != "" && path[|path| - 1] == '/' ==>
                if Lookup(es, path) == None then err == -ENOENT
                else err == 0 && 0 <= low <= high < catalogLen && Contents(es, path) == es[low + 1..high + 1]
    {
      hide Sorted, Holds, Lookup, Contents, Depth, HasPrefix;
      high := high0;
      if path == "" || path[|path| - 1] != '/' { return -1, -1, -1; }
      low := BinSearch(path);
      LookupAt(es, path, low);
      if low < 0 { return -ENOENT, low, high; }
      var depth := Depth(path);
      var i := low + 1;
      while i < catalogLen
        invariant low < i <= catalogLen
        invariant forall k | low < k < i :: IsContent(es[k], path)
      {
        var e := GetEntry(i);
        if e.depth != depth || !HasPrefix(e.path, path) {
          break;
        }
        NotItself(es, low, i);
        ContentIs(e, path);
        i := i + 1;
      }
      high := i - 1;
      BlockIsContents(es, path, low, high);
      return 0, low, high;
    }

    /** getattr_by_path and getattr_by_location. */
    method GetattrByPath(path: string) returns (err: int, stat: Option<Stat>)
      requires Valid()
      ensures Lookup(es, path) == None ==> err == -ENOENT && stat == None
      ensures Lookup(es, path).Some? ==> err == 0 && stat == Some(Lookup(es, path).value.stat)
    {
      var location := BinSearch(path);
      LookupAt(es, path, location);
      if location < 0 { return -ENOENT, None; }
      var e := GetEntry(location);
      return 0, Some(e.stat);
    }

    /** catalog_readlink: strncpy into all of the buffer but its last byte. */
    method Readlink(path: string, buf: array<char>, size: nat) returns (err: int)
      requires Valid() && 0 < size <= buf.Length
      modifies buf
      ensures Lookup(es, path) == None ==> err == -ENOENT && buf[..] == old(buf[..])
      ensures Lookup(es, path).Some? ==>
                err == 0 && buf[..size - 1] == StrNCpy(Lookup(es, path).value.link, size - 1)
                  && buf[size - 1..] == old(buf[size - 1..])
    {
      hide Sorted, Holds, Lookup, StrNCpy;
      var location := BinSearch(path);
      LookupAt(es, path, location);
      if location < 0 { return -ENOENT; }
      var e := GetEntry(location);
      CopyString(buf, e.link, size - 1);
      return 0;
    }

    /** catalog_readdir, when the filler takes everything: "." and "..", then
        each entry of the block under its last name. */
    method Readdir(path: string) returns (err: int, filled: seq<string>, entries: seq<(string, Stat)>)
      requires Valid()
      ensures filled == [".", ".."]
      ensures var dir := if path == "/" then path else path + "/";
              if Lookup(es, dir) == None then err == -ENOENT && entries == []
              else err == 0 && entries == Listed(Contents(es, dir))
    {
      hide Holds, Sorted, Lookup, Contents, BaseName, Listed;
      filled, entries := [".", ".."], [];
      var dir := if path == "/" then path else path + "/";
      var ret, low, high := GetDirectoryContents(dir, -1);
      if ret < 0 || low < 0 || high < 0 { return -ENOENT, filled, entries; }
      ghost var block := es[low + 1..high + 1];
      assert block[0..] == block && [] + Listed(block) == Listed(block);
      var location := low + 1;
      while location <= high
        invariant low < location <= high + 1
        invariant entries + Listed(block[location - low - 1..]) == Listed(block)
      {
        var e := GetEntry(location);
        ListedStep(block, location - low - 1, entries);
        entries := entries + [(BaseName(e.path), e.stat)];
        location := location + 1;
      }
      ListedOver(block, location - low - 1, entries);
      return 0, filled, entries;
    }
  }

  // ----- lemmas about sorted entries -----

  lemma DepthsAscend(es: seq<Record>)
    requires Sorted(es)
    ensures forall i, j | 0 <= i <= j < |es| :: es[i].depth <= es[j].depth
  {
  }

  lemma ContentIs(e: Record, dir: string)
    ensures IsContent(e, dir) <==> e.depth == Depth(dir) && HasPrefix(e.path, dir) && e.path != dir
  {
  }

  lemma ListedStep(block: seq<Record>, i: nat, entries: seq<(string, Stat)>)
    requires i < |block|
    ensures entries + Listed(block[i..]) == entries + [(BaseName(block[i].path), block[i].stat)]
            + Listed(block[i + 1..])
  {
    hide BaseName;
    assert block[i..][1..] == block[i + 1..];
  }

  lemma ListedOver(block: seq<Record>, i: nat, entries: seq<(string, Stat)>)
    requires i == |block|
    ensures entries + Listed(block[i..]) == entries
  {
  }

  lemma DepthsKnown(es: seq<Record>)
    requires Sorted(es)
    ensures forall i | 0 <= i < |es| :: es[i].depth == Depth(es[i].path) && es[i].depth >= 1
  {
  }

  lemma Narrows(es: seq<Record>, mid: nat, path: string)
    requires Sorted(es) && mid < |es| && es[mid].depth == Depth(path) && es[mid].path != path
    ensures StrLess(es[mid].path, path) ==> forall i | 0 <= i < |es| && es[i].path == path :: i > mid
    ensures !StrLess(es[mid].path, path) ==> forall i | 0 <= i < |es| && es[i].path == path :: i < mid
  {
    StrLessTotal(es[mid].path, path);
    StrLessStrict(es[mid].path, path);
  }

  lemma {:induction false} LookupAt(es: seq<Record>, path: string, i: int)
    requires Sorted(es) && -1 <= i < |es|
    requires i >= 0 ==> es[i].path == path
    requires i < 0 ==> forall e <- es :: e.path != path
    ensures Lookup(es, path) == if i < 0 then None else Some(es[i])
    decreases |es|
  {
    if i == 0 || es == [] {
    } else if i < 0 {
      LookupAt(es[1..], path, i);
    } else {
      StrLessStrict(path, path);
      assert PathLess(es[0].path, es[i].path);
      LookupAt(es[1..], path, i - 1);
    }
  }

  lemma NotItself(es: seq<Record>, i: nat, j: nat)
    requires Sorted(es) && i < j < |es|
    ensures es[i].path != es[j].path
  {
    StrLessStrict(es[i].path, es[i].path);
  }

  lemma {:induction false} ContentsNone(es: seq<Record>, dir: string)
    requires forall e <- es :: !IsContent(e, dir)
    ensures Contents(es, dir) == []
  {
    if es != [] {
      ContentsNone(es[1..], dir);
    }
  }

  lemma {:induction false} ContentsAll(es: seq<Record>, dir: string)
    requires forall e <- es :: IsContent(e, dir)
    ensures Contents(es, dir) == es
  {
    if es != [] {
      ContentsAll(es[1..], dir);
    }
  }

  lemma ContentsStep(es: seq<Record>, dir: string)
    ensures Contents(es, dir) ==
            if es == [] then [] else (if IsContent(es[0], dir) then [es[0]] else []) + Contents(es[1..], dir)
  {
    hide IsContent;
  }

  lemma {:induction false} ContentsConcat(a: seq<Record>, b: seq<Record>, dir: string)
    ensures Contents(a + b, dir) == Contents(a, dir) + Contents(b, dir)
  {
    hide IsContent, Contents;
    ContentsStep(a, dir);
    ContentsStep(a + b, dir);
    if a == [] {
      assert a + b == b && [] + Contents(b, dir) == Contents(b, dir);
    } else {
      assert (a + b)[0] == a[0] && (a + b)[1..] == a[1..] + b;
      ContentsConcat(a[1..], b, dir);
      Associate(if IsContent(a[0], dir) then [a[0]] else [], Contents(a[1..], dir), Contents(b, dir));
    }
  }

  lemma {:induction false} PrefixNotLess(s: string, p: string)
    requires HasPrefix(s, p)
    ensures !StrLess(s, p)
  {
    if p != "" {
      assert s[0] == s[..|p|][0] == p[0] && s[1..][..|p[1..]|] == s[..|p|][1..] == p[1..];
      PrefixNotLess(s[1..], p[1..]);
    }
  }

  /** Right behind a directory's own entry, its contents lie together. */
  lemma BlockIsContents(es: seq<Record>, dir: string, low: nat, high: nat)
    requires Sorted(es) && low <= high < |es| && es[low].path == dir
    requires forall k | low < k <= high :: IsContent(es[k], dir)
    requires high + 1 < |es| ==> es[high + 1].depth != Depth(dir) || !HasPrefix(es[high + 1].path, dir)
    ensures Contents(es, dir) == es[low + 1..high + 1]
  {
    hide IsContent, Contents, Sorted, Depth, HasPrefix;
    var a, b, c := es[..low + 1], es[low + 1..high + 1], es[high + 1..];
    forall e <- a ensures !IsContent(e, dir) {
      var i :| 0 <= i < |a| && a[i] == e;
      NotBefore(es, dir, low, i);
    }
    forall e <- c ensures !IsContent(e, dir) {
      var i :| 0 <= i < |c| && c[i] == e;
      NotBehind(es, dir, low, high, high + 1 + i);
    }
    ContentsMiddle(a, b, c, dir);
    assert es == a + (b + c);
  }

  lemma ContentsMiddle(a: seq<Record>, b: seq<Record>, c: seq<Record>, dir: string)
    requires (forall e <- a :: !IsContent(e, dir)) && (forall e <- b :: IsContent(e, dir))
             && (forall e <- c :: !IsContent(e, dir))
    ensures Contents(a + (b + c), dir) == b
  {
    hide IsContent, Contents;
    ContentsNone(a, dir);
    ContentsAll(b, dir);
    ContentsNone(c, dir);
    ContentsConcat(b, c, dir);
    ContentsConcat(a, b + c, dir);
  }

  lemma NotBefore(es: seq<Record>, dir: string, low: nat, i: nat)
    requires Sorted(es) && i <= low < |es| && es[low].path == dir
    ensures !IsContent(es[i], dir)
  {
    if HasPrefix(es[i].path, dir) { PrefixNotLess(es[i].path, dir); }
  }

  lemma NotBehind(es: seq<Record>, dir: string, low: nat, high: nat, i: nat)
    requires Sorted(es) && low <= high < i < |es| && es[low].path == dir
    requires es[high + 1].depth != Depth(dir) || !HasPrefix(es[high + 1].path, dir)
    ensures !IsContent(es[i], dir)
  {
    if i > high + 1 && IsContent(es[i], dir) {
      AfterBlock(es[high + 1], es[i], es[low]);
    }
  }

  /** An entry between a directory and one of its contents is one of them. */
  lemma AfterBlock(x: Record, e: Record, dir: Record)
    requires x.depth == Depth(x.path) && e.depth == Depth(e.path)
    requires PathLess(dir.path, x.path) && PathLess(x.path, e.path) && IsContent(e, dir.path)
    ensures x.depth == Depth(dir.path) && HasPrefix(x.path, dir.path)
  {
    StrLessStrict(dir.path, x.path);
    StrLessStrict(x.path, e.path);
    PrefixBetween(dir.path, x.path, e.path);
  }
}
