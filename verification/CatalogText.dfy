/** The catalog as text: how generate_catalog.c prints a record, how catalogfs.c
    reads one back, and the padding in between. */
module CatalogText {
  import opened Sequences
  import opened CatalogOrder
  import opened CatalogListing

  const SEPARATOR: char := 1 as char
  const LINK_SEPARATOR: char := 2 as char
  const NEWLINE: char := 10 as char

  // ----- numbers -----

  function DigitChar(d: int): char
    requires 0 <= d < 10
  {
    (48 + d) as char
  }

  datatype Base = Octal | Decimal {
    function Quotient(n: nat): nat { if Octal? then n / 8 else n / 10 }
    function Rest(n: nat): (d: nat)
      ensures d < 10
    {
      if Octal? then n % 8 else n % 10
    }
    function Append(n: int, d: int): int { if Octal? then n * 8 + d else n * 10 + d }
    predicate IsDigit(c: char) { 48 <= c as int < if Octal? then 56 else 58 }
  }

  /** The digits of a number that is not negative. */
  function Digits(n: nat, base: Base): (s: string)
    ensures s != "" && base.IsDigit(s[0])
  {
    if base.Quotient(n) == 0 then [DigitChar(base.Rest(n))]
      else Digits(base.Quotient(n), base) + [DigitChar(base.Rest(n))]
  }

  /** %ld and %d. */
  function Dec(n: int): string { if n < 0 then "-" + Digits(-n, Decimal) else Digits(n, Decimal) }

  /** %lo. */
  function Oct(n: nat): string { Digits(n, Octal) }

  predicate IsSpace(c: char) { c == ' ' || 9 <= c as int <= 13 }

  function SkipSpace(s: string): string {
    if s != "" && IsSpace(s[0]) then SkipSpace(s[1..]) else s
  }

  function ScanDigits(s: string, base: Base, acc: int): (int, string)
    decreases |s|
  {
    if s != "" && base.IsDigit(s[0]) then ScanDigits(s[1..], base, base.Append(acc, s[0] as int - 48)) else (acc, s)
  }

  /** sscanf's number conversions: white space, a sign, digits. */
  function ScanInt(s: string, base: Base): Option<(int, string)> {
    var t := SkipSpace(s);
    var negative := t != "" && t[0] == '-';
    var u := if t != "" && (t[0] == '-' || t[0] == '+') then t[1..] else t;
    if u == "" || !base.IsDigit(u[0]) then None
    else
      var (v, rest) := ScanDigits(u, base, 0);
      Some((if negative then -v else v, rest))
  }

  predicate NoDigitNext(s: string) { s == "" || !Decimal.IsDigit(s[0]) }

  lemma {:induction false} DigitsScan(n: nat, base: Base, rest: string)
    ensures ScanDigits(Digits(n, base) + rest, base, 0) == ScanDigits(rest, base, n)
    decreases n
  {
    var tail := [DigitChar(base.Rest(n))] + rest;
    assert tail[1..] == rest;
    if base.Quotient(n) == 0 {
      assert Digits(n, base) + rest == tail;
    } else {
      assert Digits(n, base) + rest == Digits(base.Quotient(n), base) + tail;
      DigitsScan(base.Quotient(n), base, tail);
    }
    assert base.Append(base.Quotient(n), base.Rest(n)) == n;
  }

  function Written(n: int, base: Base): string
    requires base.Octal? ==> n >= 0
  {
    if base.Octal? then Oct(n) else Dec(n)
  }

  lemma IntScan(n: int, base: Base, rest: string)
    requires (base.Octal? ==> n >= 0) && NoDigitNext(rest)
    ensures ScanInt(" " + Written(n, base) + rest, base) == Some((n, rest))
  {
    hide ScanDigits, Digits;
    var word := Written(n, base);
    var s := " " + word + rest;
    assert s[1..] == word + rest;
    assert SkipSpace(s) == word + rest;
    var digits := Digits(if n < 0 then -n else n, base);
    DigitsScan(if n < 0 then -n else n, base, rest);
    ScanStops(rest, base, if n < 0 then -n else n);
    if n < 0 {
      assert (word + rest)[1..] == digits + rest;
    } else {
      assert (word + rest)[0] == digits[0];
    }
  }

  lemma ScanStops(rest: string, base: Base, n: int)
    requires NoDigitNext(rest)
    ensures ScanDigits(rest, base, n) == (n, rest)
  {
  }

  /** Numbers one after the other, each after a space. */
  function Decs(xs: seq<int>): string {
    if xs == [] then "" else " " + Dec(xs[0]) + Decs(xs[1..])
  }

  function ScanInts(s: string, k: nat): Option<(seq<int>, string)>
    decreases k
  {
    if k == 0 then Some(([], s))
    else
      var first := ScanInt(s, Decimal);
      if first.None? then None
      else
        var others := ScanInts(first.value.1, k - 1);
        if others.None? then None else Some(([first.value.0] + others.value.0, others.value.1))
  }

  lemma {:induction false} DecsScan(xs: seq<int>, rest: string)
    requires rest != "" && rest[0] == ' '
    ensures ScanInts(Decs(xs) + rest, |xs|) == Some((xs, rest))
  {
    if xs == [] {
      assert Decs(xs) + rest == rest;
    } else {
      DecsScan(xs[1..], rest);
      var tail := Decs(xs[1..]) + rest;
      NumbersStart(xs[1..], rest);
      assert Decs(xs) == " " + Dec(xs[0]) + Decs(xs[1..]);
      hide Decs, Dec, ScanInt;
      Associate(" " + Dec(xs[0]), Decs(xs[1..]), rest);
      IntScan(xs[0], Decimal, tail);
      assert [xs[0]] + xs[1..] == xs;
    }
  }

  // ----- records -----

  /** A record of the catalog as the mounted file system sees it. */
  datatype Record = Record(stat: Stat, depth: int, path: string, link: string)

  function TypeChar(mode: int): char {
    var t := TypeOf(mode);
    if t == DT_FIFO then 'p' else if t == DT_CHR then 'c' else if t == DT_DIR then 'd' else if t == DT_BLK then 'b'
    else if t == DT_REG then 'f' else if t == DT_LNK then 'l' else if t == DT_SOCK then 's' else 'f'
  }

  /** The type bits that getEntry_from_catalog puts back. */
  function TypeBits(c: char): int {
    if c == 'd' then DT_DIR else if c == 'l' then DT_LNK else if c == 'f' then DT_REG else if c == 'b' then DT_BLK
    else if c == 'c' then DT_CHR else if c == 'p' then DT_FIFO else if c == 's' then DT_SOCK else 0
  }

  predicate IsLink(stat: Stat) { TypeOf(stat.mode) == DT_LNK }

  function Numbers(stat: Stat, depth: int): seq<int> {
    [stat.nlink, stat.uid, stat.gid, stat.size, stat.atime, stat.mtime, stat.ctime, depth]
  }

  /** print_entry_to_catalog, but for the newline. */
  function Print(stat: Stat, path: string, target: string): string {
    [TypeChar(stat.mode)] + " " + Oct(stat.mode % 0x1000) + Decs(Numbers(stat, Depth(path))) + " " + [SEPARATOR]
    + Body(stat, path, target) + [SEPARATOR]
  }

  /** %[^\\1], and the part of a string before a character. */
  function Until(s: string, c: char): string {
    if s == "" || s[0] == c then "" else [s[0]] + Until(s[1..], c)
  }

  /** getEntry_from_catalog on the text of one entry. */
  function Parse(s: string): Option<Record> {
    if s == "" then None
    else
      var mode := ScanInt(s[1..], Octal);
      if mode.None? then None
      else
        var numbers := ScanInts(mode.value.1, 8);
        if numbers.None? then None
        else
          var x := numbers.value.0;
          var t := SkipSpace(numbers.value.1);
          if |x| != 8 || t == "" || t[0] != SEPARATOR then None
          else
            var body := Until(t[1..], SEPARATOR);
            if body == "" then None
            else
              var stat := Stat(TypeBits(s[0]) * 0x1000 + mode.value.0, x[0], x[1], x[2], x[3], x[4], x[5], x[6]);
              if s[0] == 'l' then
                var path := Until(body, LINK_SEPARATOR);
                Some(Record(stat, x[7], path, if |path| < |body| then body[|path| + 1..] else ""))
              else Some(Record(stat, x[7], body, ""))
  }

  /** What becomes of a file's attributes in the catalog: a file of an unknown
      type counts as regular, and only type and permission bits are kept. */
  function Kept(stat: Stat): Stat {
    stat.(mode := TypeBits(TypeChar(stat.mode)) * 0x1000 + stat.mode % 0x1000)
  }

  function Recorded(stat: Stat, path: string, target: string): Record {
    Record(Kept(stat), Depth(path), path, if IsLink(stat) then target else "")
  }

  /** Types that the catalog knows keep their whole mode, all others count as
      regular files. */
  lemma KeptMode(stat: Stat)
    requires 0 <= stat.mode < 0x1_0000
    ensures if TypeOf(stat.mode) in {DT_FIFO, DT_CHR, DT_DIR, DT_BLK, DT_REG, DT_LNK, DT_SOCK} then Kept(stat) == stat
            else Kept(stat) == stat.(mode := DT_REG * 0x1000 + stat.mode % 0x1000)
  {
  }

  function Field(d: int): string { if 0 <= d < 10 then [' ', (48 + d) as char] else "" }

  /** The text of a record whose numbers have one digit and whose permissions
      three. */
  lemma PrintedText(stat: Stat, a: int, b: int, c: int, path: string, target: string)
    requires 1 <= a < 8 && 0 <= b < 8 && 0 <= c < 8 && stat.mode % 0x1000 == 64 * a + 8 * b + c
    requires 0 <= stat.nlink < 10 && 0 <= stat.uid < 10 && 0 <= stat.gid < 10 && 0 <= stat.size < 10
    requires 0 <= stat.atime < 10 && 0 <= stat.mtime < 10 && 0 <= stat.ctime < 10 && 0 <= Depth(path) < 10
    ensures Print(stat, path, target) ==
            [TypeChar(stat.mode), ' ', (48 + a) as char, (48 + b) as char, (48 + c) as char]
            + (Field(stat.nlink) + (Field(stat.uid) + (Field(stat.gid) + (Field(stat.size) + (Field(stat.atime)
               + (Field(stat.mtime) + (Field(stat.ctime) + Field(Depth(path)))))))))
            + " " + [SEPARATOR] + (if IsLink(stat) then path + [LINK_SEPARATOR] + target else path) + [SEPARATOR]
    ensures var t := TypeOf(stat.mode);
            TypeChar(stat.mode) == if t == DT_DIR then 'd' else if t == DT_LNK then 'l' else if t == DT_BLK then 'b'
                                   else if t == DT_CHR then 'c' else if t == DT_FIFO then 'p'
                                   else if t == DT_SOCK then 's' else 'f'
  {
    hide Decs, Oct, Depth, TypeChar, Field;
    ThreeDigits(a, b, c);
    TypeLetters(stat.mode);
    var d := Depth(path);
    DecsField(d, []);
    DecsField(stat.ctime, [d]);
    DecsField(stat.mtime, [stat.ctime, d]);
    DecsField(stat.atime, [stat.mtime, stat.ctime, d]);
    DecsField(stat.size, [stat.atime, stat.mtime, stat.ctime, d]);
    DecsField(stat.gid, [stat.size, stat.atime, stat.mtime, stat.ctime, d]);
    DecsField(stat.uid, [stat.gid, stat.size, stat.atime, stat.mtime, stat.ctime, d]);
    DecsField(stat.nlink, [stat.uid, stat.gid, stat.size, stat.atime, stat.mtime, stat.ctime, d]);
    assert Numbers(stat, d) == [stat.nlink] + [stat.uid, stat.gid, stat.size, stat.atime, stat.mtime, stat.ctime, d];
    assert [stat.uid] + [stat.gid, stat.size, stat.atime, stat.mtime, stat.ctime, d]
           == [stat.uid, stat.gid, stat.size, stat.atime, stat.mtime, stat.ctime, d];
    assert [stat.gid] + [stat.size, stat.atime, stat.mtime, stat.ctime, d]
           == [stat.gid, stat.size, stat.atime, stat.mtime, stat.ctime, d];
    assert [stat.size] + [stat.atime, stat.mtime, stat.ctime, d] == [stat.size, stat.atime, stat.mtime, stat.ctime, d];
    assert [stat.atime] + [stat.mtime, stat.ctime, d] == [stat.atime, stat.mtime, stat.ctime, d];
    assert [stat.mtime] + [stat.ctime, d] == [stat.mtime, stat.ctime, d];
    assert [stat.ctime] + [d] == [stat.ctime, d];
    assert [d] + [] == [d];
    assert Field(d) + "" == Field(d);
    assert [TypeChar(stat.mode)] + " " + Oct(stat.mode % 0x1000)
           == [TypeChar(stat.mode), ' ', (48 + a) as char, (48 + b) as char, (48 + c) as char];
  }

  lemma TypeLetters(mode: int)
    ensures var t := TypeOf(mode);
            TypeChar(mode) == if t == DT_DIR then 'd' else if t == DT_LNK then 'l' else if t == DT_BLK then 'b'
                              else if t == DT_CHR then 'c' else if t == DT_FIFO then 'p'
                              else if t == DT_SOCK then 's' else 'f'
  {
  }

  lemma ThreeDigits(a: int, b: int, c: int)
    requires 1 <= a < 8 && 0 <= b < 8 && 0 <= c < 8
    ensures Oct(64 * a + 8 * b + c) == [(48 + a) as char, (48 + b) as char, (48 + c) as char]
  {
    var n := 64 * a + 8 * b + c;
    assert n / 8 == 8 * a + b && n % 8 == c && (8 * a + b) / 8 == a && (8 * a + b) % 8 == b;
    assert Digits(a, Octal) == [(48 + a) as char];
    assert Digits(8 * a + b, Octal) == Digits(a, Octal) + [(48 + b) as char];
    assert Digits(n, Octal) == Digits(8 * a + b, Octal) + [(48 + c) as char];
  }

  /** A number of one digit after the space. */
  lemma DecsField(x: int, xs: seq<int>)
    requires 0 <= x < 10
    ensures Decs([x] + xs) == Field(x) + Decs(xs) && Decs([]) == "" && [x] + xs != []
  {
    assert ([x] + xs)[1..] == xs;
    assert Dec(x) == [(48 + x) as char];
    assert " " + Dec(x) == Field(x);
  }

  predicate ValidPath(path: string) {
    path != "" && SEPARATOR !in path && LINK_SEPARATOR !in path && NEWLINE !in path
  }

  predicate ValidTarget(target: string) { SEPARATOR !in target && NEWLINE !in target }

  lemma {:induction false} UntilStops(s: string, c: char, rest: string)
    requires c !in s && (rest == "" || rest[0] == c)
    ensures Until(s + rest, c) == s
  {
    if s == "" {
      assert s + rest == rest;
    } else {
      assert (s + rest)[1..] == s[1..] + rest;
      UntilStops(s[1..], c, rest);
    }
  }

  /** Reading back what was printed, whatever is behind the record. */
  lemma RecordRoundTrip(stat: Stat, path: string, target: string, more: string)
    requires ValidPath(path) && ValidTarget(target)
    ensures Parse(Print(stat, path, target) + more) == Some(Recorded(stat, path, target))
  {
    hide Oct, Decs, ScanInt, ScanInts, Until;
    var body := Body(stat, path, target);
    var tail := [SEPARATOR] + more;
    var end := " " + [SEPARATOR] + body + tail;
    var numbers := Decs(Numbers(stat, Depth(path))) + end;
    var s := Print(stat, path, target) + more;
    assert s == [TypeChar(stat.mode)] + (" " + Oct(stat.mode % 0x1000) + numbers);
    assert s[1..] == " " + Oct(stat.mode % 0x1000) + numbers;
    NumbersStart(Numbers(stat, Depth(path)), end);
    IntScan(stat.mode % 0x1000, Octal, numbers);
    DecsScan(Numbers(stat, Depth(path)), end);
    assert end[1..] == [SEPARATOR] + body + tail;
    assert SkipSpace(end) == [SEPARATOR] + body + tail;
    assert ([SEPARATOR] + body + tail)[1..] == body + tail;
    UntilStops(body, SEPARATOR, tail);
    BodySplits(stat, path, target);
  }

  lemma NumbersStart(xs: seq<int>, end: string)
    requires end != "" && end[0] == ' '
    ensures Decs(xs) + end != "" && (Decs(xs) + end)[0] == ' '
  {
  }

  /** What is printed between the separators. */
  function Body(stat: Stat, path: string, target: string): string {
    if IsLink(stat) then path + [LINK_SEPARATOR] + target else path
  }

  lemma BodySplits(stat: Stat, path: string, target: string)
    requires ValidPath(path) && ValidTarget(target)
    ensures var body := Body(stat, path, target);
            && body != "" && SEPARATOR !in body && (TypeChar(stat.mode) == 'l' <==> IsLink(stat))
            && (IsLink(stat) ==> Until(body, LINK_SEPARATOR) == path && |path| < |body| && body[|path| + 1..] == target)
  {
    var body := Body(stat, path, target);
    if IsLink(stat) {
      UntilStops(path, LINK_SEPARATOR, [LINK_SEPARATOR] + target);
      assert body == path + ([LINK_SEPARATOR] + target);
    }
  }
}
