/** Small facts about lists without repetitions, and a stable sort. */
module Lists {
  ghost predicate NoDup<T>(s: seq<T>) {
    forall i, j :: 0 <= i < j < |s| ==> s[i] != s[j]
  }

  /** list.remove: the list without the first x. */
  function Remove<T(==)>(s: seq<T>, x: T): seq<T> {
    if s == [] then [] else if s[0] == x then s[1..] else [s[0]] + Remove(s[1..], x)
  }

  lemma {:induction false} RemoveMembers<T>(s: seq<T>, x: T)
    requires NoDup(s)
    ensures NoDup(Remove(s, x))
    ensures forall y :: y in Remove(s, x) <==> y in s && y != x
  {
    if s != [] {
      assert s == [s[0]] + s[1..];
      if s[0] != x {
        RemoveMembers(s[1..], x);
        assert s[0] !in s[1..];
      } else {
        assert x !in s[1..];
      }
    }
  }

  lemma NoDupJoin<T>(a: seq<T>, b: seq<T>)
    requires NoDup(a) && NoDup(b) && forall x :: x in a ==> x !in b
    ensures NoDup(a + b)
  {
    forall i, j | 0 <= i < j < |a + b|
      ensures (a + b)[i] != (a + b)[j]
    {
      if i < |a| && j >= |a| { assert a[i] in a && b[j - |a|] in b; }
    }
  }

  /** Each entry is an index below n. */
  predicate Indices(s: seq<nat>, n: nat) {
    forall i :: 0 <= i < |s| ==> s[i] < n
  }

  /** 0, 1, ..., n - 1. */
  function Upto(n: nat): (r: seq<nat>)
    ensures |r| == n && forall i :: 0 <= i < n ==> r[i] == i
  {
    seq(n, i => i)
  }

  // A stable sort: each element goes behind the earlier ones with a key no larger than its own.

  function InsertStable<T>(s: seq<T>, x: T, key: T -> real): seq<T> {
    if s == [] then [x]
    else if key(s[|s| - 1]) <= key(x) then s + [x]
    else InsertStable(s[..|s| - 1], x, key) + [s[|s| - 1]]
  }

  function SortStable<T>(s: seq<T>, key: T -> real): seq<T> {
    if s == [] then [] else InsertStable(SortStable(s[..|s| - 1], key), s[|s| - 1], key)
  }

  predicate Ascending<T>(s: seq<T>, key: T -> real) {
    forall i, j :: 0 <= i < j < |s| ==> key(s[i]) <= key(s[j])
  }

  lemma {:induction false} InsertStableKeeps<T>(s: seq<T>, x: T, key: T -> real)
    ensures multiset(InsertStable(s, x, key)) == multiset(s) + multiset{x}
  {
    if s != [] {
      var front, last := s[..|s| - 1], s[|s| - 1];
      assert s == front + [last];
      if key(last) > key(x) { InsertStableKeeps(front, x, key); }
    }
  }

  lemma {:induction false} SortStableKeeps<T>(s: seq<T>, key: T -> real)
    ensures multiset(SortStable(s, key)) == multiset(s)
  {
    hide InsertStable;
    if s != [] {
      var front, last := s[..|s| - 1], s[|s| - 1];
      SortStableKeeps(front, key);
      InsertStableKeeps(SortStable(front, key), last, key);
      assert s == front + [last];
    }
  }

  lemma {:induction false} InsertStableAscends<T>(s: seq<T>, x: T, key: T -> real)
    requires Ascending(s, key)
    ensures Ascending(InsertStable(s, x, key), key)
  {
    if s != [] {
      var front, last := s[..|s| - 1], s[|s| - 1];
      if key(last) > key(x) {
        InsertStableAscends(front, x, key);
        InsertStableKeeps(front, x, key);
        var r := InsertStable(front, x, key);
        forall i | 0 <= i < |r|
          ensures key(r[i]) <= key(last)
        {
          assert r[i] in multiset(r);
          assert r[i] in multiset(front) || r[i] == x;
        }
      }
    }
  }

  lemma {:induction false} SortStableAscends<T>(s: seq<T>, key: T -> real)
    ensures Ascending(SortStable(s, key), key)
  {
    if s != [] {
      SortStableAscends(s[..|s| - 1], key);
      InsertStableAscends(SortStable(s[..|s| - 1], key), s[|s| - 1], key);
    }
  }

  lemma NoDupByMultiset<T>(s: seq<T>, t: seq<T>)
    requires NoDup(s) && multiset(s) == multiset(t)
    ensures NoDup(t)
    ensures forall x :: x in s <==> x in t
  {
    forall x
      ensures x in s <==> x in t
    {
      assert x in s <==> x in multiset(s);
      assert x in t <==> x in multiset(t);
    }
    forall i, j | 0 <= i < j < |t|
      ensures t[i] != t[j]
    {
      if t[i] == t[j] {
        CountTwo(t, i, j);
        NoDupCount(s, t[i]);
        assert false;
      }
    }
  }

  lemma CountTwo<T>(t: seq<T>, i: nat, j: nat)
    requires i < j < |t| && t[i] == t[j]
    ensures multiset(t)[t[i]] >= 2
  {
    assert t == t[..i] + [t[i]] + t[i + 1..j] + [t[j]] + t[j + 1..];
  }

  lemma {:induction false} NoDupCount<T>(s: seq<T>, x: T)
    requires NoDup(s)
    ensures multiset(s)[x] <= 1
  {
    if s != [] {
      NoDupCount(s[1..], x);
      assert s == [s[0]] + s[1..];
      assert s[0] == x ==> x !in s[1..];
    }
  }
}
