/** Sequences used as linked lists, and what every module shares. */
module Sequences {

  datatype Option<T> = None | Some(value: T)

  function B(b: bool): nat { if b then 1 else 0 }

  lemma Associate<T>(a: seq<T>, b: seq<T>, c: seq<T>)
    ensures (a + b) + c == a + (b + c)
  {
  }

  ghost predicate NoDup<T>(s: seq<T>) {
    forall i, j :: 0 <= i < j < |s| ==> s[i] != s[j]
  }

  /** list_del: `s` without `x`. */
  function Remove<T(==,!new)>(s: seq<T>, x: T): (t: seq<T>)
    ensures forall y :: y in t <==> y in s && y != x
    ensures x !in s ==> t == s
  {
    if s == [] then []
    else if s[0] == x then Remove(s[1..], x)
    else [s[0]] + Remove(s[1..], x)
  }

  lemma {:induction false} NoDupRemove<T(!new)>(s: seq<T>, x: T)
    requires NoDup(s)
    ensures NoDup(Remove(s, x))
    ensures |Remove(s, x)| == if x in s then |s| - 1 else |s|
  {
    if s != [] {
      assert forall i, j :: 0 <= i < j < |s[1..]| ==> s[1..][i] == s[i + 1] && s[1..][j] == s[j + 1];
      NoDupRemove(s[1..], x);
      var t := Remove(s[1..], x);
      if s[0] == x {
        assert s[0] !in s[1..];
      } else {
        assert s[0] !in t by { assert s[0] !in s[1..]; }
      }
    }
  }

  lemma NoDupPrepend<T(!new)>(x: T, s: seq<T>)
    requires NoDup(s) && x !in s
    ensures NoDup([x] + s) && NoDup(s + [x])
  {
  }

  lemma NoDupTail<T(!new)>(s: seq<T>)
    requires NoDup(s) && s != []
    ensures NoDup(s[1..]) && s[0] !in s[1..]
    ensures forall y :: y in s[1..] <==> y in s && y != s[0]
    ensures s[1..] == Remove(s, s[0])
  {
    assert s == [s[0]] + s[1..];
  }
}
