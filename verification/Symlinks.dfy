/** The subdir module of libfuse (lib/modules/subdir.c): absolute symbolic links
    below the base directory are rewritten in place into relative ones. */
module Symlinks {
  import opened Sequences

  const NUL: char := 0 as char

  // ----- paths as components -----

  function SkipSlashes(s: string): (u: string)
    ensures |u| <= |s| && (u == "" || u[0] != '/')
  {
    if s != "" && s[0] == '/' then SkipSlashes(s[1..]) else s
  }

  /** The characters before the next slash. */
  function First(s: string): (w: string)
    ensures |w| <= |s| && w == s[..|w|] && '/' !in w && (|w| == |s| || s[|w|] == '/')
    ensures s != "" && s[0] != '/' ==> w != ""
  {
    if s == "" || s[0] == '/' then "" else [s[0]] + First(s[1..])
  }

  /** The components of a path; repeated slashes count once. */
  function Comps(s: string): (cs: seq<string>)
    decreases |s|
  {
    var u := SkipSlashes(s);
    if u == "" then [] else [First(u)] + Comps(u[|First(u)|..])
  }

  /** What is left after `k` components and the slashes behind them. */
  function Drop(s: string, k: nat): (u: string)
    ensures |u| <= |s| && (u == "" || u[0] != '/')
    decreases k
  {
    var u := SkipSlashes(s);
    if k == 0 || u == "" then u else Drop(u[|First(u)|..], k - 1)
  }

  function Common(a: seq<string>, b: seq<string>): (n: nat)
    ensures n <= |a| && n <= |b| && a[..n] == b[..n]
  {
    if a == [] || b == [] || a[0] != b[0] then 0 else 1 + Common(a[1..], b[1..])
  }

  predicate EndsInSlash(s: string) { s != "" && s[|s| - 1] == '/' }

  /** How many components strip_common strips: the common ones, but for the last
      when both paths end with it. */
  function CommonCount(s: string, t: string): (k: nat)
    ensures k <= |Comps(s)| && k <= |Comps(t)|
  {
    var n := Common(Comps(s), Comps(t));
    if n > 0 && n == |Comps(s)| && n == |Comps(t)| && !EndsInSlash(s) && !EndsInSlash(t) then n - 1 else n
  }

  // ----- what a link means -----

  /** Following names from a directory, without looking at further links. */
  function Resolve(dir: seq<string>, names: seq<string>): seq<string>
    decreases |names|
  {
    if names == [] then dir
    else if names[0] == "." then Resolve(dir, names[1..])
    else if names[0] == ".." then Resolve(if dir == [] then [] else dir[..|dir| - 1], names[1..])
    else Resolve(dir + [names[0]], names[1..])
  }

  /** The place that a link in directory `dir` names. */
  function Meaning(dir: seq<string>, link: string): seq<string> {
    Resolve(if link != "" && link[0] == '/' then [] else dir, Comps(link))
  }

  predicate Plain(names: seq<string>) { forall n <- names :: n != "." && n != ".." }

  // ----- the rewriting -----

  function Dots(n: nat): (s: string)
    ensures |s| == 3 * n
  {
    if n == 0 then "" else "../" + Dots(n - 1)
  }

  /** What transform_symlink leaves in a buffer of `size` bytes. */
  function Rewritten(base: string, path: string, link: string, size: nat): string {
    if link == "" || link[0] != '/' || base == "" || base[0] != '/' then link
    else
      var k := CommonCount(link, path);
      var rest, there := Drop(link, k), Comps(Drop(path, k));
      if |link| - |rest| < |base| || there == [] then link
      else
        var dotdots := |there| - 1;
        if dotdots * 3 + |rest| + 2 > size then link
        else if rest == "" && dotdots == 0 then "."
        else Dots(dotdots) + rest
  }

  // ----- components and their rests -----

  lemma {:induction false} SkipAgain(s: string)
    ensures SkipSlashes(SkipSlashes(s)) == SkipSlashes(s) && Comps(SkipSlashes(s)) == Comps(s)
  {
    if s != "" && s[0] == '/' {
      SkipAgain(s[1..]);
    }
  }

  lemma CommonCountShared(s: string, t: string)
    ensures var k := CommonCount(s, t); Comps(s)[..k] == Comps(t)[..k]
  {
    hide Comps;
    var n := Common(Comps(s), Comps(t));
    assert n > 0 ==> Comps(s)[..n - 1] == Comps(s)[..n][..n - 1] && Comps(t)[..n - 1] == Comps(t)[..n][..n - 1];
  }

  /** The first `k` components and those of the rest make up the whole. */
  lemma {:induction false} DropComps(s: string, k: nat)
    requires k <= |Comps(s)|
    ensures Comps(Drop(s, k)) == Comps(s)[k..]
    decreases k
  {
    SkipAgain(s);
    CompsStep(s);
    DropStep(s, k);
    hide Comps, Drop, First, SkipSlashes;
    var u := SkipSlashes(s);
    if k > 0 {
      DropComps(u[|First(u)|..], k - 1);
      assert Comps(s)[k..] == Comps(s)[1..][k - 1..];
    }
  }

  lemma CompsStep(s: string)
    ensures var u := SkipSlashes(s); Comps(s) == if u == "" then [] else [First(u)] + Comps(u[|First(u)|..])
  {
  }

  lemma DropStep(s: string, k: nat)
    ensures var u := SkipSlashes(s); Drop(s, k) == if k == 0 || u == "" then u else Drop(u[|First(u)|..], k - 1)
  {
  }

  /** One component more. */
  lemma {:induction false} DropOneMore(s: string, k: nat)
    requires k < |Comps(s)|
    ensures var u := Drop(s, k);
            && u != "" && First(u) == Comps(s)[k] && Drop(s, k + 1) == SkipSlashes(u[|First(u)|..])
    decreases k
  {
    hide Comps, Drop, First, SkipSlashes;
    CompsStep(s);
    DropStep(s, k);
    DropStep(s, k + 1);
    var u := SkipSlashes(s);
    if k > 0 {
      DropOneMore(u[|First(u)|..], k - 1);
    } else {
      DropStep(u[|First(u)|..], 0);
    }
  }

  lemma {:induction false} CommonTail(a: seq<string>, b: seq<string>, k: nat)
    requires k <= |a| && k <= |b| && a[..k] == b[..k]
    ensures Common(a, b) == k + Common(a[k..], b[k..])
    decreases k
  {
    if k == 0 {
      assert a[0..] == a && b[0..] == b;
    } else {
      assert a[0] == a[..k][0] == b[..k][0] == b[0];
      assert a[1..][..k - 1] == a[..k][1..] && b[1..][..k - 1] == b[..k][1..];
      CommonTail(a[1..], b[1..], k - 1);
      assert a[1..][k - 1..] == a[k..] && b[1..][k - 1..] == b[k..];
    }
  }

  // ----- the rewriting keeps the meaning -----

  lemma {:induction false} ResolveConcat(dir: seq<string>, a: seq<string>, b: seq<string>)
    ensures Resolve(dir, a + b) == Resolve(Resolve(dir, a), b)
    decreases |a|
  {
    if a == [] {
      assert a + b == b;
    } else {
      assert (a + b)[1..] == a[1..] + b;
      ResolveConcat(if a[0] == "." then dir
                    else if a[0] == ".." then (if dir == [] then [] else dir[..|dir| - 1])
                    else dir + [a[0]],
                    a[1..], b);
    }
  }

  lemma {:induction false} ResolvePlain(dir: seq<string>, names: seq<string>)
    requires Plain(names)
    ensures Resolve(dir, names) == dir + names
    decreases |names|
  {
    if names == [] {
      assert dir + names == dir;
    } else {
      assert names[0] in names && forall n <- names[1..] :: n in names;
      ResolvePlain(dir + [names[0]], names[1..]);
      assert dir + [names[0]] + names[1..] == dir + names;
    }
  }

  function UpNames(n: nat): seq<string> { if n == 0 then [] else [".."] + UpNames(n - 1) }

  lemma {:induction false} ResolveUp(dir: seq<string>, below: seq<string>)
    ensures Resolve(dir + below, UpNames(|below|)) == dir
    decreases |below|
  {
    if below == [] {
      assert dir + below == dir;
    } else {
      var shorter := below[..|below| - 1];
      assert (dir + below)[..|dir + below| - 1] == dir + shorter;
      assert UpNames(|below|)[1..] == UpNames(|below| - 1);
      ResolveUp(dir, shorter);
    }
  }

  lemma {:induction false} DotsComps(n: nat, rest: string)
    requires rest == "" || rest[0] != '/'
    ensures Comps(Dots(n) + rest) == UpNames(n) + Comps(rest)
  {
    hide Comps;
    if n == 0 {
      assert Dots(0) + rest == rest && UpNames(0) + Comps(rest) == Comps(rest);
    } else {
      Associate("../", Dots(n - 1), rest);
      UpFirst(Dots(n - 1) + rest);
      DotsComps(n - 1, rest);
      Associate([".."], UpNames(n - 1), Comps(rest));
    }
  }

  lemma UpFirst(s: string)
    ensures Comps("../" + s) == [".."] + Comps(s)
  {
    var t := "../" + s;
    assert t[0] == '.' && t[1] == '.' && t[2] == '/';
    assert SkipSlashes(t) == t;
    assert t[1..][1..] == "/" + s;
    assert First(t[1..][1..]) == "" && First(t[1..]) == "." && First(t) == "..";
    assert t[2..] == "/" + s;
    assert ("/" + s)[1..] == s;
    assert SkipSlashes("/" + s) == SkipSlashes(s);
  }

  /** The directory that a path lies in. */
  function DirOf(path: string): seq<string>
    requires Comps(path) != []
  {
    Resolve([], Comps(path)[..|Comps(path)| - 1])
  }

  /** When no "." or ".." stands in the path behind what it shares with the
      link, the rewritten link names the same place from the link's directory as
      the original did. */
  lemma RewriteKeepsMeaning(base: string, path: string, link: string, size: nat)
    requires Comps(path) != [] && Plain(Comps(path)[CommonCount(link, path)..])
    ensures Meaning(DirOf(path), Rewritten(base, path, link, size)) == Meaning(DirOf(path), link)
  {
    hide Comps, Drop, CommonCount, Meaning, Rewritten, Dots, Plain, Resolve;
    Rewrites(base, path, link, size);
    var k := CommonCount(link, path);
    DropComps(link, k);
    DropComps(path, k);
    CommonCountShared(link, path);
    if Rewritten(base, path, link, size) != link {
      var shared, rest, there := Comps(path)[..k], Drop(link, k), Comps(path)[k..];
      var below := there[..|there| - 1];
      PlainTake(there, |there| - 1);
      assert Comps(path)[..|Comps(path)| - 1] == shared + below && Comps(link) == shared + Comps(rest);
      ResolveConcat([], shared, below);
      ResolvePlain(Resolve([], shared), below);
      RelativeMeaning(Resolve([], shared), below, rest);
      AbsoluteMeaning(DirOf(path), shared, rest, link);
    }
  }

  lemma PlainTake(names: seq<string>, k: nat)
    requires Plain(names) && k <= |names|
    ensures Plain(names[..k])
  {
    forall n <- names[..k] ensures n != "." && n != ".." {
      assert n in names;
    }
  }

  lemma AbsoluteMeaning(dir: seq<string>, shared: seq<string>, rest: string, link: string)
    requires link != "" && link[0] == '/' && Comps(link) == shared + Comps(rest)
    ensures Meaning(dir, link) == Resolve(Resolve([], shared), Comps(rest))
  {
    hide Comps, Resolve;
    ResolveConcat([], shared, Comps(rest));
  }

  /** So for a normalised path, whatever the link. */
  lemma NormalisedPathKeepsMeaning(base: string, path: string, link: string, size: nat)
    requires Comps(path) != [] && Plain(Comps(path))
    ensures var dir := Comps(path)[..|Comps(path)| - 1];
            Meaning(dir, Rewritten(base, path, link, size)) == Meaning(dir, link)
  {
    hide Comps, CommonCount, Meaning, Rewritten, Resolve;
    var names := Comps(path);
    forall n <- names[CommonCount(link, path)..] ensures n != "." && n != ".." {
      assert n in names;
    }
    PlainTake(names, |names| - 1);
    ResolvePlain([], names[..|names| - 1]);
    assert [] + names[..|names| - 1] == names[..|names| - 1];
    RewriteKeepsMeaning(base, path, link, size);
  }

  lemma RelativeMeaning(shared: seq<string>, below: seq<string>, rest: string)
    requires rest == "" || rest[0] != '/'
    ensures var link := Dots(|below|) + if rest == "" && |below| == 0 then "." else rest;
            Meaning(shared + below, link) == Resolve(shared, Comps(rest))
  {
    if rest == "" && |below| == 0 {
      assert shared + below == shared && Dots(0) + "." == ".";
      DotComps();
    } else {
      DotsComps(|below|, rest);
      ResolveUp(shared, below);
      ResolveConcat(shared + below, UpNames(|below|), Comps(rest));
      hide Comps, Resolve;
      assert below != [] ==> Dots(|below|)[0] == '.';
    }
  }

  lemma DotComps()
    ensures Comps(".") == ["."] && Comps("") == []
  {
    assert First(".") == ".";
  }

  // ----- which links become relative -----

  lemma {:induction false} SkipConcat(s: string, r: string)
    ensures SkipSlashes(s + r) == if SkipSlashes(s) == "" then SkipSlashes(r) else SkipSlashes(s) + r
    ensures EndsInSlash(s) && SkipSlashes(s) != "" ==> EndsInSlash(SkipSlashes(s))
  {
    if s == "" {
      assert s + r == r;
    } else if s[0] == '/' {
      assert (s + r)[1..] == s[1..] + r;
      SkipConcat(s[1..], r);
    }
  }

  /** A first component with a slash behind it is the same whatever follows. */
  lemma FirstConcat(u: string, r: string)
    requires u != "" && u[0] != '/' && EndsInSlash(u)
    ensures First(u + r) == First(u) && EndsInSlash(u[|First(u)|..]) && (u + r)[|First(u)|..] == u[|First(u)|..] + r
  {
    var w := First(u);
    assert u[|u| - 1] == '/' && u[|u| - 1] in u;
    assert |w| == |u| ==> w == u;
    assert u + r == w + (u[|w|..] + r);
    FirstIs(w, u[|w|..] + r);
  }

  /** The components of a path behind a directory. */
  lemma {:induction false} CompsBelow(base: string, r: string, j: nat)
    requires EndsInSlash(base) || base == ""
    ensures Comps(base + r) == Comps(base) + Comps(r) && Drop(base + r, |Comps(base)| + j) == Drop(r, j)
    decreases |base|
  {
    hide *;
    var u := SkipSlashes(base);
    SkipConcat(base, r);
    CompsStep(base);
    if u == "" {
      SameBehind(base + r, r, j);
    } else {
      FirstConcat(u, r);
      var tail := u[|First(u)|..];
      Shorter(u);
      CompsBelow(tail, r, j);
      FirstBehind(base + r, u + r, First(u), tail + r, |Comps(tail)| + j);
      Associate([First(u)], Comps(tail), Comps(r));
    }
  }

  lemma Shorter(u: string)
    requires u != "" && u[0] != '/'
    ensures |u[|First(u)|..]| < |u|
  {
  }

  lemma SameBehind(s: string, r: string, j: nat)
    requires SkipSlashes(s) == SkipSlashes(r)
    ensures Comps(s) == Comps(r) && [] + Comps(r) == Comps(r)
    ensures Drop(s, j) == Drop(r, j) && Drop(s, 0 + j) == Drop(r, j)
  {
    CompsStep(s);
    CompsStep(r);
    DropStep(s, j);
    DropStep(r, j);
    hide Comps, Drop;
  }

  lemma FirstBehind(s: string, u: string, w: string, tail: string, k: nat)
    requires SkipSlashes(s) == u && u != "" && First(u) == w && u[|w|..] == tail
    ensures Comps(s) == [w] + Comps(tail) && Drop(s, 1 + k) == Drop(tail, k)
  {
    hide Comps, Drop;
    CompsStep(s);
    DropStep(s, 1 + k);
  }

  lemma {:induction false} CommonBelow(a: seq<string>, b: seq<string>, c: seq<string>)
    ensures Common(a + b, a + c) == |a| + Common(b, c)
  {
    CommonTail(a + b, a + c, |a|);
    assert (a + b)[..|a|] == a == (a + c)[..|a|];
    assert (a + b)[|a|..] == b && (a + c)[|a|..] == c;
  }

  lemma CountBelow(base: string, rest: string, more: string)
    requires EndsInSlash(base) && Comps(more) != []
    ensures CommonCount(base + rest, base + more) == |Comps(base)| + CommonCount(rest, more)
  {
    hide Comps, CommonCount, EndsInSlash;
    CompsBelow(base, rest, 0);
    CompsBelow(base, more, 0);
    CommonBelow(Comps(base), Comps(rest), Comps(more));
    CountIs(rest, more);
    CountIs(base + rest, base + more);
    NothingEmpty();
    SlashBehind(base, rest);
    SlashBehind(base, more);
  }

  lemma SlashBehind(base: string, s: string)
    ensures s != "" ==> (EndsInSlash(base + s) <==> EndsInSlash(s))
  {
  }

  lemma CountIs(s: string, t: string)
    ensures var n := Common(Comps(s), Comps(t));
            CommonCount(s, t) ==
            if n > 0 && n == |Comps(s)| && n == |Comps(t)| && !EndsInSlash(s) && !EndsInSlash(t) then n - 1 else n
  {
  }

  lemma NothingEmpty()
    ensures Comps("") == []
  {
  }

  /** A link to somewhere below the base directory becomes relative, unless it leads
      through the link itself or the result does not fit. */
  lemma BelowBaseIsRelative(base: string, rest: string, more: string, size: nat)
    requires base != "" && base[0] == '/' && EndsInSlash(base) && Comps(more) != []
    ensures var k := CommonCount(rest, more);
            var r := Rewritten(base, base + more, base + rest, size);
            var through := Comps(more) <= Comps(rest)
                           && !(Comps(more) == Comps(rest) && !EndsInSlash(rest) && !EndsInSlash(more));
            r != "" && r[0] == '/' <==> through || 3 * (|Comps(more)| - k - 1) + |Drop(rest, k)| + 2 > size
  {
    hide Comps, Drop, CommonCount, EndsInSlash, Common, Dots, Rewritten;
    var k, rest' := CommonCount(rest, more), Drop(rest, CommonCount(rest, more));
    CountBelow(base, rest, more);
    CompsBelow(base, rest, k);
    CompsBelow(base, more, k);
    DropShorter(rest, k);
    DropComps(more, k);
    NotThrough(rest, more);
    assert (base + rest)[0] == '/';
    var n := |Comps(more)| - k;
    RewrittenIs(base, base + more, base + rest, size, |Comps(base)| + k, rest', n);
    if n > 0 { RelativeStart(n - 1, rest'); }
  }

  lemma RewrittenIs(base: string, path: string, link: string, size: nat, k: nat, rest: string, n: nat)
    requires link != "" && link[0] == '/' && base != "" && base[0] == '/' && k == CommonCount(link, path)
    requires rest == Drop(link, k) && n == |Comps(Drop(path, k))| && |link| - |rest| >= |base|
    ensures Rewritten(base, path, link, size) ==
            if n == 0 || 3 * (n - 1) + |rest| + 2 > size then link
            else if rest == "" && n == 1 then "." else Dots(n - 1) + rest
  {
    hide Comps, Drop, CommonCount, Dots;
  }

  lemma DropShorter(s: string, k: nat)
    ensures |Drop(s, k)| <= |s| && (Drop(s, k) == "" || Drop(s, k)[0] != '/')
  {
  }

  lemma RelativeStart(n: nat, rest: string)
    requires rest == "" || rest[0] != '/'
    ensures var r := if rest == "" && n == 0 then "." else Dots(n) + rest; r != "" ==> r[0] != '/'
  {
    if n > 0 {
      assert Dots(n) == "../" + Dots(n - 1) && (Dots(n) + rest)[0] == '.';
    } else {
      assert Dots(0) + rest == rest;
    }
  }

  /** What is stripped leaves a component of `t`, unless `t` leads to `s`. */
  lemma NotThrough(s: string, t: string)
    requires Comps(t) != []
    ensures CommonCount(s, t) <= |Comps(t)|
    ensures CommonCount(s, t) == |Comps(t)| <==>
              Comps(t) <= Comps(s) && !(Comps(t) == Comps(s) && !EndsInSlash(s) && !EndsInSlash(t))
  {
    hide Comps, CommonCount, EndsInSlash;
    CountIs(s, t);
    ThroughItself(Comps(s), Comps(t));
  }

  lemma {:induction false} ThroughItself(a: seq<string>, b: seq<string>)
    ensures Common(a, b) == |b| <==> b <= a
  {
    if a != [] && b != [] && a[0] == b[0] {
      ThroughItself(a[1..], b[1..]);
      assert b <= a <==> b[1..] <= a[1..];
    }
  }

  /** The result fits the buffer, with its terminator. */
  lemma RewriteFits(base: string, path: string, link: string, size: nat)
    requires |link| < size
    ensures |Rewritten(base, path, link, size)| < size
  {
  }

  // ----- the code -----

  lemma {:induction false} FirstIs(w: string, more: string)
    requires '/' !in w && (more == "" || more[0] == '/')
    ensures First(w + more) == w
  {
    if w == "" {
      assert w + more == more;
    } else {
      assert (w + more)[1..] == w[1..] + more;
      FirstIs(w[1..], more);
    }
  }

  lemma {:induction false} FirstLonger(w: string, c: char, more: string)
    requires '/' !in w && c != '/'
    ensures |First(w + [c] + more)| > |w| && First(w + [c] + more)[|w|] == c
  {
    var s := w + [c] + more;
    if w == "" {
      assert s == [c] + more && s[1..] == more;
    } else {
      assert s[0] == w[0] && s[1..] == w[1..] + [c] + more;
      FirstLonger(w[1..], c, more);
    }
  }

  /** count_components. */
  method CountComponents(p: string) returns (ctr: nat)
    ensures ctr == |Comps(p)|
  {
    hide First, SkipSlashes, Comps;
    var i := 0;
    SkipAgain(p);
    i := SkipFrom(p, 0);
    assert p[0..] == p;
    ctr := 0;
    while i < |p|
      invariant 0 <= i <= |p| && p[i..] == SkipSlashes(p[i..])
      invariant ctr + |Comps(p[i..])| == |Comps(p)|
    {
      ghost var start := i;
      while i < |p| && p[i] != '/'
        invariant start <= i <= |p| && '/' !in p[start..i]
      {
        i := i + 1;
      }
      assert p[start..] == p[start..i] + p[i..];
      FirstIs(p[start..i], p[i..]);
      CompsStep(p[start..]);
      assert p[start..][i - start..] == p[i..];
      SkipAgain(p[i..]);
      i := SkipFrom(p, i);
      ctr := ctr + 1;
    }
    CompsStep(p[i..]);
  }

  method SkipFrom(p: string, from: nat) returns (i: nat)
    requires from <= |p|
    ensures from <= i <= |p| && p[i..] == SkipSlashes(p[from..]) && SkipSlashes(p[i..]) == p[i..]
    ensures i > from ==> p[i - 1] == '/'
  {
    i := from;
    while i < |p| && p[i] == '/'
      invariant from <= i <= |p| && SkipSlashes(p[i..]) == SkipSlashes(p[from..])
      invariant i > from ==> p[i - 1] == '/'
    {
      assert p[i..][1..] == p[i + 1..];
      i := i + 1;
    }
  }

  /** Where strip_common stands after `k` common components. */
  ghost predicate Stripped(s: string, t: string, i: nat, j: nat, k: nat) {
    && i <= |s| && j <= |t| && k <= |Comps(s)| && k <= |Comps(t)|
    && s[i..] == Drop(s, k) && t[j..] == Drop(t, k) && Comps(s)[..k] == Comps(t)[..k]
    && (i == |s| && j == |t| && k > 0 ==> EndsInSlash(s) || EndsInSlash(t))
  }

  /** Where strip_common stands behind `k` common components, before it skips
      slashes. */
  ghost predicate Between(s: string, t: string, a: nat, b: nat, k: nat) {
    && a <= |s| && b <= |t| && k <= |Comps(s)| && k <= |Comps(t)|
    && SkipSlashes(s[a..]) == Drop(s, k) && SkipSlashes(t[b..]) == Drop(t, k) && Comps(s)[..k] == Comps(t)[..k]
    && (k > 0 ==> (a < |s| && s[a] == '/') || (b < |t| && t[b] == '/'))
  }

  lemma StripBegins(s: string, t: string)
    ensures Between(s, t, 0, 0, 0)
  {
    assert s[0..] == s && t[0..] == t;
    DropStep(s, 0);
    DropStep(t, 0);
  }

  lemma StripSkips(s: string, t: string, a0: nat, b0: nat, a: nat, b: nat, k: nat)
    requires Between(s, t, a0, b0, k) && a0 <= a <= |s| && b0 <= b <= |t|
    requires s[a..] == SkipSlashes(s[a0..]) && t[b..] == SkipSlashes(t[b0..])
    requires (a > a0 ==> s[a - 1] == '/') && (b > b0 ==> t[b - 1] == '/')
    ensures Stripped(s, t, a, b, k)
  {
    hide Comps, Drop, SkipSlashes;
    SlashesBehind(s, t, a0, b0, a, b);
  }

  /** The comparison of two names: how far they agree. */
  method SameFrom(s: string, t: string, i: nat, j: nat) returns (a: nat, b: nat)
    requires i <= |s| && j <= |t|
    ensures i <= a <= |s| && j <= b <= |t| && s[i..a] == t[j..b] && '/' !in s[i..a]
    ensures !(a < |s| && b < |t| && s[a] == t[b] && s[a] != '/')
  {
    a, b := i, j;
    while a < |s| && b < |t| && s[a] == t[b] && s[a] != '/'
      invariant i <= a <= |s| && j <= b <= |t| && s[i..a] == t[j..b] && '/' !in s[i..a]
    {
      assert s[i..a + 1] == s[i..a] + [s[a]] && t[j..b + 1] == t[j..b] + [t[b]];
      a, b := a + 1, b + 1;
    }
  }

  /** strip_common. */
  method StripCommon(s: string, t: string) returns (i: nat, j: nat)
    ensures i <= |s| && j <= |t|
    ensures var k := CommonCount(s, t); s[i..] == Drop(s, k) && t[j..] == Drop(t, k)
  {
    hide First, SkipSlashes, Comps, Drop, CommonCount, EndsInSlash, Between, Stripped;
    i, j := 0, 0;
    var a, b := 0, 0;
    ghost var k := 0;
    var more := true;
    StripBegins(s, t);
    while more
      invariant 0 <= a <= |s| && 0 <= b <= |t| && i <= |s| && j <= |t|
      invariant more ==> Between(s, t, a, b, k)
      invariant !more ==> k == CommonCount(s, t) && s[i..] == Drop(s, k) && t[j..] == Drop(t, k)
      decreases |s| - a + |t| - b + if more then 1 else 0
    {
      ghost var a0, b0 := a, b;
      i := SkipFrom(s, a);
      j := SkipFrom(t, b);
      StripSkips(s, t, a0, b0, i, j, k);
      a, b := SameFrom(s, t, i, j);
      more := (a < |s| && b < |t| && s[a] == t[b]) || (a == |s| && b < |t| && t[b] == '/')
        || (a < |s| && s[a] == '/' && b == |t|);
      if more {
        StripMore(s, t, i, j, a, b, k);
        k := k + 1;
      } else {
        StripEnds(s, t, i, j, a, b, k);
      }
    }
  }

  lemma SlashesBehind(s: string, t: string, a0: nat, b0: nat, a: nat, b: nat)
    requires a0 <= a <= |s| && b0 <= b <= |t| && (a > a0 ==> s[a - 1] == '/') && (b > b0 ==> t[b - 1] == '/')
    ensures a == |s| && b == |t| && ((a0 < |s| && s[a0] == '/') || (b0 < |t| && t[b0] == '/'))
            ==> EndsInSlash(s) || EndsInSlash(t)
  {
  }

  /** One more common component. */
  lemma StripMore(s: string, t: string, i: nat, j: nat, a: nat, b: nat, k: nat)
    requires Stripped(s, t, i, j, k) && i <= a <= |s| && j <= b <= |t| && s[i..a] == t[j..b] && '/' !in s[i..a]
    requires (a < |s| && b < |t| && s[a] == t[b] == '/') || (a == |s| && b < |t| && t[b] == '/')
             || (a < |s| && s[a] == '/' && b == |t|)
    ensures a > i && Between(s, t, a, b, k + 1)
  {
    hide Comps, Drop, EndsInSlash, First, SkipSlashes;
    SplitAt(s, i, a);
    SplitAt(t, j, b);
    FirstIs(s[i..a], s[a..]);
    FirstIs(t[j..b], t[b..]);
    DropComps(s, k);
    DropComps(t, k);
    CompsStep(s[i..]);
    CompsStep(t[j..]);
    NoSkip(s, k);
    NoSkip(t, k);
    SomethingThere(s, t, i, j, a, b, k);
    DropOneMore(s, k);
    DropOneMore(t, k);
    assert s[i..][a - i..] == s[a..] && t[j..][b - j..] == t[b..];
    assert Comps(s)[..k + 1] == Comps(s)[..k] + [Comps(s)[k]] && Comps(t)[..k + 1] == Comps(t)[..k] + [Comps(t)[k]];
  }

  /** Neither path is over. */
  lemma SomethingThere(s: string, t: string, i: nat, j: nat, a: nat, b: nat, k: nat)
    requires Stripped(s, t, i, j, k) && i <= a <= |s| && j <= b <= |t| && s[i..a] == t[j..b] && '/' !in s[i..a]
    requires (a < |s| && b < |t| && s[a] == t[b] == '/') || (a == |s| && b < |t| && t[b] == '/')
             || (a < |s| && s[a] == '/' && b == |t|)
    ensures a > i && s[i..] != "" && t[j..] != ""
  {
    hide Comps, EndsInSlash;
    assert i < |s| ==> s[i..][0] == s[i];
    assert j < |t| ==> t[j..][0] == t[j];
  }

  lemma NoSkip(s: string, k: nat)
    ensures SkipSlashes(Drop(s, k)) == Drop(s, k)
  {
  }

  /** Where the loop stops, the count is right. */
  lemma StripEnds(s: string, t: string, i: nat, j: nat, a: nat, b: nat, k: nat)
    requires Stripped(s, t, i, j, k) && i <= a <= |s| && j <= b <= |t| && s[i..a] == t[j..b] && '/' !in s[i..a]
    requires a < |s| && b < |t| ==> s[a] != t[b]
    requires a == |s| && b < |t| ==> t[b] != '/'
    requires a < |s| && b == |t| ==> s[a] != '/'
    ensures k == CommonCount(s, t) && s[i..] == Drop(s, k) && t[j..] == Drop(t, k)
  {
    hide Comps, Drop, First, SkipSlashes, EndsInSlash, Common;
    var x, y, w := s[i..], t[j..], s[i..a];
    NoSkip(s, k);
    NoSkip(t, k);
    CountBehind(s, t, k);
    OnlyEmpty(x);
    OnlyEmpty(y);
    SplitAt(s, i, a);
    SplitAt(t, j, b);
    if a == |s| && b == |t| {
      assert x == w && y == w;
      if w != "" {
        OneComponent(w);
        NoSlashEnd(s, i);
        NoSlashEnd(t, j);
      }
      CommonSelf(Comps(w));
    } else {
      FirstsDiffer(w, s[a..], t[b..]);
      CommonNone(x, y);
    }
  }

  lemma SplitAt(s: string, i: nat, a: nat)
    requires i <= a <= |s|
    ensures s[i..] == s[i..a] + s[a..]
  {
  }

  lemma CountBehind(s: string, t: string, k: nat)
    requires k <= |Comps(s)| && k <= |Comps(t)| && Comps(s)[..k] == Comps(t)[..k]
    ensures var a, b := Comps(Drop(s, k)), Comps(Drop(t, k));
            |Comps(s)| == k + |a| && |Comps(t)| == k + |b| && Common(Comps(s), Comps(t)) == k + Common(a, b)
  {
    hide Comps, Drop, Common;
    DropComps(s, k);
    DropComps(t, k);
    CommonTail(Comps(s), Comps(t), k);
  }

  lemma OnlyEmpty(x: string)
    requires SkipSlashes(x) == x
    ensures Comps(x) == [] <==> x == ""
  {
  }

  lemma OneComponent(w: string)
    requires w != "" && '/' !in w
    ensures Comps(w) == [w]
  {
    FirstIs(w, "");
    assert w + "" == w;
    assert Comps("") == [];
    assert w[|w|..] == "";
  }

  lemma NoSlashEnd(s: string, i: nat)
    requires i < |s| && '/' !in s[i..]
    ensures !EndsInSlash(s)
  {
    assert s[i..][|s| - 1 - i] == s[|s| - 1];
  }

  lemma {:induction false} CommonSelf(a: seq<string>)
    ensures Common(a, a) == |a|
  {
    if a != [] {
      CommonSelf(a[1..]);
    }
  }

  lemma CommonNone(x: string, y: string)
    requires SkipSlashes(x) == x && SkipSlashes(y) == y
    requires x != "" && y != "" ==> First(x) != First(y)
    ensures Common(Comps(x), Comps(y)) == 0
  {
  }

  /** Behind what they share, one name ends and the other goes on, or they go on
      differently. */
  lemma FirstsDiffer(w: string, x: string, y: string)
    requires '/' !in w && !(x == "" && y == "")
    requires x != "" && y != "" ==> x[0] != y[0]
    requires x == "" && y != "" ==> y[0] != '/'
    requires x != "" && y == "" ==> x[0] != '/'
    ensures First(w + x) != First(w + y)
  {
    FirstAfter(w, x);
    FirstAfter(w, y);
  }

  lemma FirstAfter(w: string, x: string)
    requires '/' !in w
    ensures x == "" || x[0] == '/' ==> First(w + x) == w
    ensures x != "" && x[0] != '/' ==> |First(w + x)| > |w| && First(w + x)[|w|] == x[0]
  {
    if x == "" || x[0] == '/' {
      FirstIs(w, x);
    } else {
      FirstLonger(w, x[0], x[1..]);
      hide First;
      Associate(w, [x[0]], x[1..]);
      assert [x[0]] + x[1..] == x;
    }
  }

  /** The buffer holds the string `s` and its terminator. */
  ghost predicate Holds(buf: seq<char>, s: string) {
    |s| < |buf| && buf[..|s|] == s && buf[|s|] == NUL && NUL !in s
  }

  lemma NoNulInside(buf: seq<char>, s: string)
    requires Holds(buf, s)
    ensures forall k | 0 <= k < |s| :: buf[k] != NUL
  {
    forall k | 0 <= k < |s| ensures buf[k] != NUL {
      assert buf[..|s|][k] == s[k] && s[k] in s;
    }
  }

  /** strlen. */
  method StrLen(buf: array<char>, from: nat, ghost s: string) returns (n: nat)
    requires Holds(buf[..], s) && from <= |s|
    ensures n == |s| - from
  {
    NoNulInside(buf[..], s);
    n := 0;
    while buf[from + n] != NUL
      invariant from + n <= |s|
      decreases |s| - n
    {
      n := n + 1;
    }
  }

  /** memmove within the buffer. */
  method MemMove(buf: array<char>, dst: nat, src: nat, n: nat)
    requires dst + n <= buf.Length && src + n <= buf.Length
    modifies buf
    ensures forall x | dst <= x < dst + n :: buf[x] == old(buf[x - dst + src])
    ensures forall x | 0 <= x < buf.Length && !(dst <= x < dst + n) :: buf[x] == old(buf[x])
  {
    if dst <= src {
      var k := dst;
      while k < dst + n
        invariant dst <= k <= dst + n && forall x | dst <= x < k :: buf[x] == old(buf[x - dst + src])
        invariant forall x | 0 <= x < buf.Length && !(dst <= x < k) :: buf[x] == old(buf[x])
      {
        buf[k] := buf[k - dst + src];
        k := k + 1;
      }
    } else {
      var k := dst + n;
      while k > dst
        invariant dst <= k <= dst + n && forall x | k <= x < dst + n :: buf[x] == old(buf[x - dst + src])
        invariant forall x | 0 <= x < buf.Length && !(k <= x < dst + n) :: buf[x] == old(buf[x])
      {
        k := k - 1;
        buf[k] := buf[k - dst + src];
      }
    }
  }

  lemma {:induction false} DotsMore(n: nat)
    ensures Dots(n) + "../" == Dots(n + 1)
  {
    if n > 0 {
      DotsMore(n - 1);
      Associate("../", Dots(n - 1), "../");
    }
  }

  /** What is left of the link goes to its place; an empty rest needs a dot when
      nothing stands before it. */
  method PlaceRest(buf: array<char>, s: nat, l: nat, llen: nat, alone: bool, ghost link: string)
    requires Holds(buf[..], link) && l + llen == |link| && s + llen + 1 < buf.Length && (alone ==> s == 0)
    modifies buf
    ensures var tail := if llen == 0 && alone then "." else link[l..];
            && (forall x | s <= x < s + |tail| :: buf[x] == tail[x - s]) && buf[s + |tail|] == NUL
            && forall x | s + |tail| < x < buf.Length :: buf[x] == old(buf[x])
  {
    ghost var before := buf[..];
    assert forall x | 0 <= x < |link| :: before[x] == before[..|link|][x] == link[x];
    if llen > 0 {
      MemMove(buf, s, l, llen + 1);
    } else if alone {
      buf[s] := '.';
      buf[s + 1] := NUL;
    } else {
      buf[s] := NUL;
    }
  }

  /** transform_symlink: the link in the buffer, rewritten in place. No byte at
      or behind `size` changes. */
  method TransformSymlink(base: string, path: string, buf: array<char>, size: nat, ghost link: string)
    requires |link| < size <= buf.Length && Holds(buf[..], link)
    modifies buf
    ensures Holds(buf[..], Rewritten(base, path, link, size)) && |Rewritten(base, path, link, size)| < size
    ensures buf[size..] == old(buf[size..])
  {
    hide First, SkipSlashes, Comps, Drop, CommonCount, Dots, Rewritten;
    RewriteFits(base, path, link, size);
    Rewrites(base, path, link, size);
    var n := StrLen(buf, 0, link);
    if n == 0 || buf[0] != '/' || base == "" || base[0] != '/' { return; }
    var l, p := StripCommon(buf[..n], path);
    if l < |base| { return; }
    var dotdots := CountComponents(path[p..]);
    if dotdots == 0 { return; }
    dotdots := dotdots - 1;
    var llen := n - l;
    if dotdots * 3 + llen + 2 > size { return; }
    Place(buf, dotdots, l, llen, size, link);
  }

  /** The moves of transform_symlink, once it is clear that there is room. */
  method Place(buf: array<char>, dotdots: nat, l: nat, llen: nat, size: nat, ghost link: string)
    requires Holds(buf[..], link) && l + llen == |link| && dotdots * 3 + llen + 2 <= size <= buf.Length
    modifies buf
    ensures Holds(buf[..], Dots(dotdots) + if llen == 0 && dotdots == 0 then "." else link[l..])
    ensures buf[size..] == old(buf[size..])
  {
    hide Dots;
    ghost var tail := if llen == 0 && dotdots == 0 then "." else link[l..];
    ghost var before := buf[..];
    NoNulRest(link, l);
    PlaceRest(buf, dotdots * 3, l, llen, dotdots == 0, link);
    PlaceDots(buf, dotdots);
    Assembled(buf[..], dotdots, tail);
    assert buf[size..] == before[size..];
  }

  lemma NoNulRest(link: string, l: nat)
    requires NUL !in link && l <= |link|
    ensures NUL !in link[l..] && NUL !in "."
  {
  }

  /** The loop that puts "../" in front, once for each directory to leave. */
  method PlaceDots(buf: array<char>, dotdots: nat)
    requires 3 * dotdots <= buf.Length
    modifies buf
    ensures buf[..3 * dotdots] == Dots(dotdots) && forall x | 3 * dotdots <= x < buf.Length :: buf[x] == old(buf[x])
  {
    hide Dots;
    DotsNone();
    var i := 0;
    while i < dotdots
      invariant 0 <= i <= dotdots
      invariant buf[..3 * i] == Dots(i) && forall x | 3 * dotdots <= x < buf.Length :: buf[x] == old(buf[x])
    {
      DotsMore(i);
      ghost var front := buf[..3 * i];
      buf[3 * i] := '.';
      buf[3 * i + 1] := '.';
      buf[3 * i + 2] := '/';
      assert buf[..3 * i + 3] == front + "../";
      i := i + 1;
    }
  }

  lemma DotsNone()
    ensures Dots(0) == ""
  {
  }

  /** Rewritten, from its parts. */
  lemma Rewrites(base: string, path: string, link: string, size: nat)
    ensures var k := CommonCount(link, path);
            var rest, there := Drop(link, k), Comps(Drop(path, k));
            Rewritten(base, path, link, size) ==
            if link == "" || link[0] != '/' || base == "" || base[0] != '/' || |link| - |rest| < |base| || there == []
               || (|there| - 1) * 3 + |rest| + 2 > size then link
            else Dots(|there| - 1) + if rest == "" && |there| == 1 then "." else rest
  {
    hide Comps, Drop, CommonCount;
    assert Dots(0) + "." == ".";
  }

  lemma Assembled(buf: seq<char>, n: nat, tail: string)
    requires 3 * n + |tail| < |buf| && buf[..3 * n] == Dots(n)
             && (forall x | 3 * n <= x < 3 * n + |tail| :: buf[x] == tail[x - 3 * n])
    requires buf[3 * n + |tail|] == NUL && NUL !in tail
    ensures Holds(buf, Dots(n) + tail)
  {
    assert buf[..3 * n + |tail|] == buf[..3 * n] + buf[3 * n..3 * n + |tail|];
    assert buf[3 * n..3 * n + |tail|] == tail;
    DotsNoNul(n);
  }

  lemma {:induction false} DotsNoNul(n: nat)
    ensures NUL !in Dots(n)
  {
    if n > 0 {
      DotsNoNul(n - 1);
    }
  }
}
