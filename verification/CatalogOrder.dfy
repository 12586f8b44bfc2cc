/** The orders behind a catalog: strcmp on path strings, and the order on
    sequences of names that a breadth-first walk follows. */
module CatalogOrder {
  import opened Sequences

  // ----- strcmp -----

  /** strcmp(a, b) < 0. */
  predicate StrLess(a: string, b: string)
    decreases |a|
  {
    b != [] && (a == [] || a[0] < b[0] || (a[0] == b[0] && StrLess(a[1..], b[1..])))
  }

  /** What strcmp returns, up to its sign. */
  function StrCmp(a: string, b: string): (c: int)
    ensures c == 0 <==> a == b
    ensures c < 0 <==> StrLess(a, b)
  {
    if a == [] then (if b == [] then 0 else -1)
    else if b == [] then 1
    else if a[0] != b[0] then a[0] as int - b[0] as int
    else
      assert a == [a[0]] + a[1..] && b == [b[0]] + b[1..];
      StrCmp(a[1..], b[1..])
  }

  lemma {:induction false} StrLessStrict(a: string, b: string)
    ensures !(StrLess(a, b) && StrLess(b, a)) && !StrLess(a, a)
    decreases |a|
  {
    if a != [] {
      StrLessStrict(a[1..], if b == [] then [] else b[1..]);
    }
  }

  lemma {:induction false} StrLessTotal(a: string, b: string)
    ensures StrLess(a, b) || a == b || StrLess(b, a)
    decreases |a|
  {
    if a != [] && b != [] && a[0] == b[0] {
      StrLessTotal(a[1..], b[1..]);
      assert a == [a[0]] + a[1..] && b == [b[0]] + b[1..];
    }
  }

  lemma {:induction false} SharedPrefix(p: string, a: string, b: string)
    ensures StrLess(p + a, p + b) <==> StrLess(a, b)
    decreases |p|
  {
    if p == [] {
      assert p + a == a && p + b == b;
    } else {
      assert (p + a)[1..] == p[1..] + a && (p + b)[1..] == p[1..] + b;
      SharedPrefix(p[1..], a, b);
    }
  }

  predicate HasPrefix(s: string, p: string) { |p| <= |s| && s[..|p|] == p }

  /** The strings with a prefix lie together, right from the prefix itself. */
  lemma {:induction false} PrefixBetween(p: string, a: string, b: string)
    requires !StrLess(a, p) && !StrLess(b, a) && HasPrefix(b, p)
    ensures HasPrefix(a, p)
    decreases |p|
  {
    if p != [] {
      assert a != [] && b[0] == p[0];
      if a[0] == p[0] {
        assert b[1..][..|p[1..]|] == p[1..];
        PrefixBetween(p[1..], a[1..], b[1..]);
        assert p == [p[0]] + p[1..] && a[..|p|] == [a[0]] + a[1..][..|p[1..]|];
      }
    }
  }

  // ----- paths as sequences of names -----

  predicate Slashless(name: string) { '/' !in name }

  ghost predicate Names(key: seq<string>) { forall n <- key :: Slashless(n) }

  /** The path of a key: each name after a slash. A last empty name gives the
      trailing slash of a directory's own entry. */
  function Join(key: seq<string>): string {
    if key == [] then "" else "/" + key[0] + Join(key[1..])
  }

  function Slashes(s: string): nat {
    if s == "" then 0 else (if s[0] == '/' then 1 else 0) + Slashes(s[1..])
  }

  /** findDepth. */
  function Depth(path: string): int {
    if path == "" || path[0] != '/' then -1 else Slashes(path)
  }

  lemma {:induction false} SlashesConcat(a: string, b: string)
    ensures Slashes(a + b) == Slashes(a) + Slashes(b)
  {
    if a == "" {
      assert a + b == b;
    } else {
      assert (a + b)[1..] == a[1..] + b;
      SlashesConcat(a[1..], b);
    }
  }

  lemma {:induction false} SlashlessName(name: string)
    requires Slashless(name)
    ensures Slashes(name) == 0
  {
    if name != "" {
      SlashlessName(name[1..]);
    }
  }

  lemma {:induction false} JoinSlashes(key: seq<string>)
    requires Names(key)
    ensures Slashes(Join(key)) == |key|
  {
    if key != [] {
      JoinSlashes(key[1..]);
      SlashlessName(key[0]);
      SlashesConcat("/" + key[0], Join(key[1..]));
      SlashesConcat("/", key[0]);
      assert Slashes("/") == 1;
    }
  }

  lemma JoinDepth(key: seq<string>)
    requires Names(key) && key != []
    ensures Depth(Join(key)) == |key|
  {
    JoinSlashes(key);
  }

  lemma {:induction false} JoinConcat(a: seq<string>, b: seq<string>)
    ensures Join(a + b) == Join(a) + Join(b)
  {
    if a == [] {
      assert a + b == b;
    } else {
      assert (a + b)[1..] == a[1..] + b;
      JoinConcat(a[1..], b);
    }
  }

  lemma FirstOf(a: string, x: string)
    ensures a + x == if a == "" then x else [a[0]] + (a[1..] + x)
    ensures a != "" ==> (a + x)[0] == a[0] && (a + x)[1..] == a[1..] + x
  {
  }

  /** Two names that go on differently, the first one with a slash, tell apart
      where the names differ. */
  lemma {:induction false} NamesApart(a: string, b: string, x: string, y: string)
    requires Slashless(a) && Slashless(b) && a + x == b + y
    requires (x == "" || x[0] == '/') && (y == "" || y[0] == '/')
    ensures a == b && x == y
    decreases |a|
  {
    FirstOf(a, x);
    FirstOf(b, y);
    if a != "" && b != "" {
      NamesApart(a[1..], b[1..], x, y);
      assert a == [a[0]] + a[1..] && b == [b[0]] + b[1..];
    }
  }

  /** A path stands for one key. */
  lemma {:induction false} JoinInjective(a: seq<string>, b: seq<string>)
    requires Names(a) && Names(b) && Join(a) == Join(b)
    ensures a == b
    decreases |a|
  {
    if a != [] && b != [] {
      assert Join(a)[1..] == a[0] + Join(a[1..]) && Join(b)[1..] == b[0] + Join(b[1..]);
      NamesApart(a[0], b[0], Join(a[1..]), Join(b[1..]));
      JoinInjective(a[1..], b[1..]);
      assert a == [a[0]] + a[1..] && b == [b[0]] + b[1..];
    }
  }

  // ----- the order of the walk -----

  /** The first names that differ are in order. */
  predicate CompLess(a: seq<string>, b: seq<string>) {
    |a| == |b| && a != [] && (StrLess(a[0], b[0]) || (a[0] == b[0] && CompLess(a[1..], b[1..])))
  }

  /** Shorter keys first, then name by name. */
  predicate KeyLess(a: seq<string>, b: seq<string>) {
    |a| < |b| || CompLess(a, b)
  }

  /** The order that the search relies on: by depth, then by strcmp. */
  predicate PathLess(p: string, q: string) {
    Depth(p) < Depth(q) || (Depth(p) == Depth(q) && StrLess(p, q))
  }

  /** `b` is `a` followed by a byte below the slash. */
  predicate Clash(a: string, b: string) {
    |a| < |b| && b[..|a|] == a && b[|a|] < '/'
  }

  /** The first names that differ are of directories and clash. */
  predicate KeysClash(a: seq<string>, b: seq<string>) {
    |a| > 1 && |b| > 1 && (if a[0] == b[0] then KeysClash(a[1..], b[1..]) else Clash(a[0], b[0]))
  }

  lemma {:induction false} CompLessStrict(a: seq<string>)
    ensures !CompLess(a, a)
  {
    if a != [] {
      StrLessStrict(a[0], a[0]);
      CompLessStrict(a[1..]);
    }
  }

  lemma {:induction false} CompLessExtend(a: seq<string>, b: seq<string>, x: seq<string>, y: seq<string>)
    requires CompLess(a, b) && |x| == |y|
    ensures CompLess(a + x, b + y)
    decreases |a|
  {
    assert (a + x)[1..] == a[1..] + x && (b + y)[1..] == b[1..] + y;
    if !StrLess(a[0], b[0]) {
      CompLessExtend(a[1..], b[1..], x, y);
    }
  }

  lemma {:induction false} CompLessLast(a: seq<string>, x: string, y: string)
    requires StrLess(x, y)
    ensures CompLess(a + [x], a + [y])
  {
    if a != [] {
      assert (a + [x])[1..] == a[1..] + [x] && (a + [y])[1..] == a[1..] + [y];
      CompLessLast(a[1..], x, y);
    }
  }

  /** Where two names differ decides, unless one is the other with something
      low behind it. */
  lemma {:induction false} NameOrder(a: string, b: string, x: string, y: string)
    requires Slashless(a) && Slashless(b) && StrLess(a, b) && (x == "" || x[0] == '/')
    ensures StrLess(a + x, b + y) <==> x == "" || !Clash(a, b)
    decreases |a|
  {
    if a == "" {
      assert a + x == x && (b + y)[0] == b[0];
      assert b[0] != '/' && b[..0] == "";
    } else {
      assert (a + x)[0] == a[0] && (b + y)[0] == b[0];
      assert (a + x)[1..] == a[1..] + x && (b + y)[1..] == b[1..] + y;
      if a[0] == b[0] {
        NameOrder(a[1..], b[1..], x, y);
        if |a| < |b| { assert b[..|a|] == [b[0]] + b[1..][..|a[1..]|] && a == [a[0]] + a[1..]; }
      } else if |a| < |b| {
        assert b[..|a|][0] != a[0];
      }
    }
  }

  lemma JoinSteps(a: seq<string>)
    requires a != []
    ensures Join(a) == "/" + (a[0] + Join(a[1..]))
    ensures (Join(a[1..]) == "" <==> |a| == 1) && (|a| > 1 ==> Join(a[1..])[0] == '/')
  {
    JoinStart(a[1..]);
    assert Join(a) == "/" + a[0] + Join(a[1..]);
    hide Join;
    Associate("/", a[0], Join(a[1..]));
  }

  lemma JoinStart(a: seq<string>)
    ensures (Join(a) == "" <==> a == []) && (a != [] ==> Join(a)[0] == '/')
  {
  }

  /** The order of the walk is the order of the path strings, except exactly
      where directories clash. */
  lemma {:induction false} JoinOrder(a: seq<string>, b: seq<string>)
    requires Names(a) && Names(b) && CompLess(a, b)
    ensures StrLess(Join(a), Join(b)) <==> !KeysClash(a, b)
    decreases |a|
  {
    var x, y := Join(a[1..]), Join(b[1..]);
    JoinSteps(a);
    JoinSteps(b);
    SharedPrefix("/", a[0] + x, b[0] + y);
    hide Join, StrLess, Clash;
    if StrLess(a[0], b[0]) {
      StrLessStrict(a[0], b[0]);
      NameOrder(a[0], b[0], x, y);
    } else {
      SharedPrefix(a[0], x, y);
      JoinOrder(a[1..], b[1..]);
    }
  }
}
