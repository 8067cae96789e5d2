/** Non-maximum suppression, and one run of it per label. Boxes are known by their index; what counts as
    overlapping is given, and the order of falling scores is numpy's argsort, an input. */
module Suppression {
  import opened Lists

  /** over(i, j): box j overlaps box i by more than the threshold. */
  type Over = (nat, nat) -> bool

  /** The boxes of rest that i leaves. */
  function Left(over: Over, i: nat, rest: seq<nat>): (r: seq<nat>)
    ensures |r| <= |rest|
    ensures forall j :: j in r <==> j in rest && !over(i, j)
    ensures NoDup(rest) ==> NoDup(r)
  {
    if rest == [] then []
    else
      var front, last := rest[..|rest| - 1], rest[|rest| - 1];
      assert rest == front + [last] && (NoDup(rest) ==> NoDup(front) && last !in front);
      Left(over, i, front) + (if over(i, last) then [] else [last])
  }

  /** The boxes kept: the best, then those kept of what it leaves. */
  function Keep(over: Over, order: seq<nat>): (r: seq<nat>)
    ensures forall i :: i in r ==> i in order
    ensures order != [] ==> r != [] && r[0] == order[0]
    decreases |order|
  {
    if order == [] then []
    else
      assert order == [order[0]] + order[1..];
      [order[0]] + Keep(over, Left(over, order[0], order[1..]))
  }

  method Nms(over: Over, ranked: seq<nat>) returns (keep: seq<nat>)
    ensures keep == Keep(over, ranked)
  {
    keep := [];
    var order := ranked;
    assert [] + Keep(over, order) == Keep(over, order);
    while order != []
      invariant keep + Keep(over, order) == Keep(over, ranked)
      decreases |order|
    {
      var i := order[0];
      assert keep + ([i] + Keep(over, Left(over, i, order[1..]))) == keep + [i] + Keep(over, Left(over, i, order[1..]));
      keep := keep + [i];
      order := Left(over, i, order[1..]);
    }
  }

  /** A list of boxes by falling score. */
  ghost predicate Falling(order: seq<nat>, score: nat -> real) {
    forall a, b :: 0 <= a < b < |order| ==> score(order[a]) >= score(order[b])
  }

  lemma {:induction false} LeftFalls(over: Over, i: nat, rest: seq<nat>, score: nat -> real)
    requires Falling(rest, score)
    ensures Falling(Left(over, i, rest), score)
  {
    if rest != [] {
      var front, last := rest[..|rest| - 1], rest[|rest| - 1];
      LeftFalls(over, i, front, score);
      forall j | j in Left(over, i, front)
        ensures score(j) >= score(last)
      {
        var a :| 0 <= a < |front| && front[a] == j;
        assert rest[a] == j;
      }
    }
  }

  /** i was suppressed by a kept box of no lower score. */
  ghost predicate SuppressedBy(over: Over, kept: seq<nat>, score: nat -> real, i: nat) {
    exists k :: k in kept && over(k, i) && score(k) >= score(i)
  }

  /** What suppression guarantees: no kept box is overlapped by one kept before it, and every other box
      is overlapped by a kept one of no lower score. */
  lemma {:induction false} KeepContract(over: Over, order: seq<nat>, score: nat -> real)
    requires NoDup(order) && Falling(order, score)
    ensures var r := Keep(over, order);
            && NoDup(r)
            && (forall a, b :: 0 <= a < b < |r| ==> !over(r[a], r[b]))
            && (forall i :: i in order && i !in r ==> SuppressedBy(over, r, score, i))
    decreases |order|
  {
    if order != [] {
      var best, rest := order[0], order[1..];
      assert order == [best] + rest;
      var left := Left(over, best, rest);
      LeftFalls(over, best, rest, score);
      KeepContract(over, left, score);
      var kept, r := Keep(over, left), Keep(over, order);
      forall b | 0 <= b < |kept|
        ensures !over(best, kept[b]) && kept[b] != best
      {
        assert kept[b] in left;
      }
      forall i | i in order && i !in r
        ensures SuppressedBy(over, r, score, i)
      {
        if i in left {
          var k :| k in kept && over(k, i) && score(k) >= score(i);
          assert k in r;
        } else {
          var a :| 0 <= a < |order| && order[a] == i;
          assert best in r && over(best, i);
        }
      }
    }
  }

  // ----- one run per label ------------------------------------------------------------------------

  /** The indices below n with a label, in order. */
  function Group<L(==)>(labels: seq<L>, name: L, n: nat): (r: seq<nat>)
    requires n <= |labels|
    ensures forall i: nat :: i in r <==> i < n && labels[i] == name
    ensures NoDup(r)
  {
    if n == 0 then []
    else Group(labels, name, n - 1) + (if labels[n - 1] == name then [n - 1] else [])
  }

  /** The ranking of a group: its members by falling score. */
  ghost predicate Ranks(rank: seq<nat> -> seq<nat>, score: nat -> real) {
    forall g: seq<nat> :: multiset(rank(g)) == multiset(g) && Falling(rank(g), score)
  }

  /** What is kept of the first labels of names. */
  function KeepEach<L(==)>(labels: seq<L>, names: seq<L>, over: L -> Over, rank: seq<nat> -> seq<nat>): seq<nat> {
    if names == [] then []
    else
      var last := names[|names| - 1];
      KeepEach(labels, names[..|names| - 1], over, rank) + Keep(over(last), rank(Group(labels, last, |labels|)))
  }

  method NmsEach<L(==)>(labels: seq<L>, names: seq<L>, over: L -> Over, rank: seq<nat> -> seq<nat>)
    returns (r: seq<nat>)
    ensures r == KeepEach(labels, names, over, rank)
  {
    r := [];
    for k := 0 to |names|
      invariant r == KeepEach(labels, names[..k], over, rank)
    {
      assert names[..k + 1][..k] == names[..k];
      var keep := Nms(over(names[k]), rank(Group(labels, names[k], |labels|)));
      r := r + keep;
    }
    assert names[..|names|] == names;
  }

  /** i was suppressed by a kept box of its label and no lower score. */
  ghost predicate SuppressedInLabel<L>(labels: seq<L>, over: L -> Over, kept: seq<nat>, score: nat -> real, i: nat)
    requires i < |labels|
  {
    exists k :: k in kept && k < |labels| && labels[k] == labels[i] && over(labels[i])(k, i) && score(k) >= score(i)
  }

  /** One label's run. */
  lemma KeepInLabel<L>(labels: seq<L>, name: L, over: Over, rank: seq<nat> -> seq<nat>, score: nat -> real)
    requires Ranks(rank, score)
    ensures var group := Group(labels, name, |labels|);
            var r := Keep(over, rank(group));
            && NoDup(r)
            && (forall i :: i in r ==> i < |labels| && labels[i] == name)
            && (name in labels ==> r != [])
            && (forall a, b :: 0 <= a < b < |r| ==> !over(r[a], r[b]))
            && (forall i: nat :: i < |labels| && labels[i] == name && i !in r ==> SuppressedBy(over, r, score, i))
  {
    var group := Group(labels, name, |labels|);
    assert multiset(rank(group)) == multiset(group) && Falling(rank(group), score);
    NoDupByMultiset(group, rank(group));
    KeepContract(over, rank(group), score);
    if name in labels {
      var i: nat :| i < |labels| && labels[i] == name;
      assert i in group && i in rank(group);
    }
  }

  /** No kept box of a label is overlapped by another one (over is symmetric). */
  ghost predicate Apart<L>(labels: seq<L>, over: L -> Over, kept: seq<nat>) {
    forall i, j :: i in kept && j in kept && i != j && i < |labels| && j < |labels| && labels[i] == labels[j] ==>
      !over(labels[i])(i, j)
  }

  ghost predicate Symmetric(over: Over) {
    forall i: nat, j: nat :: over(i, j) == over(j, i)
  }

  ghost predicate HasLabel<L>(labels: seq<L>, kept: seq<nat>, name: L) {
    exists i :: i in kept && i < |labels| && labels[i] == name
  }

  /** Per-label suppression invents nothing, loses no label, keeps boxes apart, and every box it drops is
      overlapped by a kept one of its label and no lower score. */
  ghost predicate Suppressed<L(!new)>(labels: seq<L>, names: seq<L>, over: L -> Over, score: nat -> real, r: seq<nat>) {
    && NoDup(r)
    && (forall i :: i in r ==> i < |labels| && labels[i] in names)
    && (forall l :: l in names && l in labels ==> HasLabel(labels, r, l))
    && Apart(labels, over, r)
    && (forall i: nat :: i < |labels| && labels[i] in names && i !in r ==> SuppressedInLabel(labels, over, r, score, i))
  }

  lemma {:induction false} KeepEachContract<L(!new)>(labels: seq<L>, names: seq<L>, over: L -> Over,
                                               rank: seq<nat> -> seq<nat>, score: nat -> real)
    requires Ranks(rank, score) && NoDup(names) && forall l :: Symmetric(over(l))
    ensures Suppressed(labels, names, over, score, KeepEach(labels, names, over, rank))
  {
    if names != [] {
      var front, last := names[..|names| - 1], names[|names| - 1];
      assert names == front + [last] && last !in front;
      KeepEachContract(labels, front, over, rank, score);
      KeepInLabel(labels, last, over(last), rank, score);
      var more := Keep(over(last), rank(Group(labels, last, |labels|)));
      assert Symmetric(over(last));
      hide Keep, Ranks, Suppressed;
      SuppressedMore(labels, front, last, over, KeepEach(labels, front, over, rank), more, score);
    }
  }

  lemma ApartInLabel<L>(labels: seq<L>, name: L, over: L -> Over, more: seq<nat>)
    requires Symmetric(over(name)) && forall i :: i in more ==> i < |labels| && labels[i] == name
    requires forall a, b :: 0 <= a < b < |more| ==> !over(name)(more[a], more[b])
    ensures Apart(labels, over, more)
  {
    forall i, j | i in more && j in more && i != j
      ensures !over(name)(i, j)
    {
      var a :| 0 <= a < |more| && more[a] == i;
      var b :| 0 <= b < |more| && more[b] == j;
      assert over(name)(i, j) == over(name)(j, i);
      if a < b { assert !over(name)(more[a], more[b]); } else { assert !over(name)(more[b], more[a]); }
    }
  }

  lemma SuppressedMore<L(!new)>(labels: seq<L>, front: seq<L>, last: L, over: L -> Over, before: seq<nat>, more: seq<nat>,
                          score: nat -> real)
    requires last !in front && Symmetric(over(last)) && Suppressed(labels, front, over, score, before)
    requires NoDup(more) && forall i :: i in more ==> i < |labels| && labels[i] == last
    requires last in labels ==> more != []
    requires forall a, b :: 0 <= a < b < |more| ==> !over(last)(more[a], more[b])
    requires forall i: nat :: i < |labels| && labels[i] == last && i !in more ==> SuppressedBy(over(last), more, score, i)
    ensures Suppressed(labels, front + [last], over, score, before + more)
  {
    var r := before + more;
    NoDupJoin(before, more);
    ApartInLabel(labels, last, over, more);
    forall l | l in front + [last] && l in labels
      ensures HasLabel(labels, r, l)
    {
      if l == last {
        assert more[0] in r;
      } else {
        assert HasLabel(labels, before, l);
      }
    }
    forall i: nat | i < |labels| && labels[i] in front + [last] && i !in r
      ensures SuppressedInLabel(labels, over, r, score, i)
    {
      if labels[i] == last {
        assert SuppressedBy(over(last), more, score, i);
        var k :| k in more && over(last)(k, i) && score(k) >= score(i);
        assert k in r;
      } else {
        assert SuppressedInLabel(labels, over, before, score, i);
        var k :| k in before && k < |labels| && labels[k] == labels[i] && over(labels[i])(k, i) && score(k) >= score(i);
        assert k in r;
      }
    }
  }
}
