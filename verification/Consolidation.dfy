/** Merging the detections of overlapping regions: suppression per label, then a box mostly inside a
    larger comparable one of its label is dropped. And the detectors' own suppression per class. */
module Consolidation {
  import opened Lists
  import opened Reals
  import opened Suppression
  import opened Regions

  datatype Det = Det(name: string, score: real, box: Box, region: Square)

  const CLIPPED_CONFIDENCE := 0.6

  function NmsLimit(name: string): real {
    if name == "car" then 0.6 else 0.4
  }

  function InsideLimit(name: string): real {
    if name == "car" then 0.8 else if name == "face" then 0.5 else if name == "person" then 0.75 else 0.9
  }

  /** The box touches its region's edge where that is not the frame's. */
  predicate Clipped(h: nat, w: nat, d: Det) {
    || (d.region.x1 > 5 && d.box.x1 - d.region.x1 as real <= 5.0)
    || (d.region.y1 > 5 && d.box.y1 - d.region.y1 as real <= 5.0)
    || (w - d.region.x2 > 5 && d.region.x2 as real - d.box.x2 <= 5.0)
    || (h - d.region.y2 > 5 && d.region.y2 as real - d.box.y2 <= 5.0)
  }

  /** A box clipped by its region competes at a fixed confidence. */
  function Confidence(h: nat, w: nat, dets: seq<Det>): nat -> real {
    (i: nat) => if i >= |dets| then 0.0 else if Clipped(h, w, dets[i]) then CLIPPED_CONFIDENCE else dets[i].score
  }

  function NotNegative(v: real): real {
    Max(0.0, v)
  }

  function Overlap(a: Box, b: Box): real {
    NotNegative(Min(a.x2, b.x2) - Max(a.x1, b.x1)) * NotNegative(Min(a.y2, b.y2) - Max(a.y1, b.y1))
  }

  function Iou(a: Box, b: Box): real {
    Overlap(a, b)
    / Max((a.x2 - a.x1) * (a.y2 - a.y1) + (b.x2 - b.x1) * (b.y2 - b.y1) - Overlap(a, b), 0.000000001)
  }

  lemma IouSymmetric(a: Box, b: Box)
    ensures Iou(a, b) == Iou(b, a)
  {
    OverlapSymmetric(a, b);
    hide Overlap;
  }

  lemma OverlapSymmetric(a: Box, b: Box)
    ensures Overlap(a, b) == Overlap(b, a)
  {}

  /** Which box another one suppresses, for a label. */
  function OverIn(dets: seq<Det>): string -> Over {
    (name: string) => ((i: nat, j: nat) =>
      i < |dets| && j < |dets| && Iou(dets[i].box, dets[j].box) > NmsLimit(name))
  }

  function LabelsOf(dets: seq<Det>): (r: seq<string>)
    ensures |r| == |dets| && forall i :: 0 <= i < |dets| ==> r[i] == dets[i].name
  {
    seq(|dets|, i requires 0 <= i < |dets| => dets[i].name)
  }

  /** The labels of the first n detections, as they first come up. */
  function Names(labels: seq<string>, n: nat): (r: seq<string>)
    requires n <= |labels|
    ensures NoDup(r) && forall l :: l in r <==> l in labels[..n]
  {
    if n == 0 then []
    else
      assert labels[..n] == labels[..n - 1] + [labels[n - 1]];
      Names(labels, n - 1) + (if labels[n - 1] in Names(labels, n - 1) then [] else [labels[n - 1]])
  }

  /** The first half: what suppression selects. */
  function Selected(dets: seq<Det>, rank: seq<nat> -> seq<nat>): seq<nat> {
    KeepEach(LabelsOf(dets), Names(LabelsOf(dets), |dets|), OverIn(dets), rank)
  }

  lemma SelectedContract(h: nat, w: nat, dets: seq<Det>, rank: seq<nat> -> seq<nat>)
    requires Ranks(rank, Confidence(h, w, dets))
    ensures Suppressed(LabelsOf(dets), Names(LabelsOf(dets), |dets|), OverIn(dets), Confidence(h, w, dets), Selected(dets, rank))
  {
    forall name
      ensures Symmetric(OverIn(dets)(name))
    {
      forall i: nat, j: nat
        ensures OverIn(dets)(name)(i, j) == OverIn(dets)(name)(j, i)
      {
        if i < |dets| && j < |dets| { IouSymmetric(dets[i].box, dets[j].box); }
      }
    }
    hide Names;
    KeepEachContract(LabelsOf(dets), Names(LabelsOf(dets), |dets|), OverIn(dets), rank, Confidence(h, w, dets));
  }

  // ----- mostly inside ----------------------------------------------------------------------------

  /** Boxes that share a point meet in a box. */
  predicate Meets(a: Box, b: Box) {
    !(a.x2 < b.x1 || a.x1 > b.x2 || a.y1 > b.y2 || a.y2 < b.y1)
  }

  function Intersection(a: Box, b: Box): Box {
    Box(Max(a.x1, b.x1), Max(a.y1, b.y1), Min(a.x2, b.x2), Min(a.y2, b.y2))
  }

  /** b holds more of a than the limit, and a is no less than 5% of b. */
  predicate MostlyInside(a: Box, b: Box, limit: real)
    requires Area(a) != 0.0 && Area(b) != 0.0
  {
    Area(a) / Area(b) >= 0.05 && Meets(a, b) && Area(Intersection(a, b)) / Area(a) > limit
  }

  ghost predicate Sized(dets: seq<Det>) {
    forall i :: 0 <= i < |dets| ==> Area(dets[i].box) != 0.0
  }

  /** One of the boxes behind the k-th holds most of it. */
  predicate InsideLater(dets: seq<Det>, ordered: seq<nat>, k: nat)
    requires Sized(dets) && k < |ordered| && Indices(ordered, |dets|)
  {
    exists m :: k < m < |ordered|
      && MostlyInside(dets[ordered[k]].box, dets[ordered[m]].box, InsideLimit(dets[ordered[k]].name))
  }

  /** The boxes of ordered from the k-th on that no later one holds. */
  function Outer(dets: seq<Det>, ordered: seq<nat>, k: nat): (r: seq<nat>)
    requires Sized(dets) && k <= |ordered| && Indices(ordered, |dets|)
    ensures forall i :: i in r <==> exists m :: k <= m < |ordered| && ordered[m] == i && !InsideLater(dets, ordered, m)
    decreases |ordered| - k
  {
    if k == |ordered| then []
    else (if InsideLater(dets, ordered, k) then [] else [ordered[k]]) + Outer(dets, ordered, k + 1)
  }

  function AreaOf(dets: seq<Det>): nat -> real {
    (i: nat) => if i < |dets| then Area(dets[i].box) else 0.0
  }

  /** The selected boxes of a label, smallest first. */
  function BySize(dets: seq<Det>, selected: seq<nat>, name: string): seq<nat> {
    SortStable(OfLabel(dets, selected, name), AreaOf(dets))
  }

  function OfLabel(dets: seq<Det>, selected: seq<nat>, name: string): (r: seq<nat>)
    ensures forall i :: i in r <==> i in selected && i < |dets| && dets[i].name == name
    ensures NoDup(selected) ==> NoDup(r)
  {
    if selected == [] then []
    else
      var front, last := selected[..|selected| - 1], selected[|selected| - 1];
      assert selected == front + [last] && (NoDup(selected) ==> NoDup(front) && last !in front);
      OfLabel(dets, front, name) + (if last < |dets| && dets[last].name == name then [last] else [])
  }

  lemma BySizeMembers(dets: seq<Det>, selected: seq<nat>, name: string)
    requires NoDup(selected)
    ensures var r := BySize(dets, selected, name);
            && NoDup(r) && Indices(r, |dets|)
            && (forall i :: i in r <==> i in selected && i < |dets| && dets[i].name == name)
            && (forall a, b :: 0 <= a < b < |r| ==> Area(dets[r[a]].box) <= Area(dets[r[b]].box))
  {
    var s, r := OfLabel(dets, selected, name), BySize(dets, selected, name);
    SortStableKeeps(s, AreaOf(dets));
    NoDupByMultiset(s, r);
    SortStableAscends(s, AreaOf(dets));
    forall k | 0 <= k < |r|
      ensures r[k] < |dets|
    {
      assert r[k] in s;
    }
    forall a, b | 0 <= a < b < |r|
      ensures Area(dets[r[a]].box) <= Area(dets[r[b]].box)
    {
      assert AreaOf(dets)(r[a]) <= AreaOf(dets)(r[b]);
    }
  }

  /** The second half, over the first labels. */
  function Merge(dets: seq<Det>, selected: seq<nat>, names: seq<string>): seq<nat>
    requires Sized(dets) && NoDup(selected)
  {
    if names == [] then []
    else
      var last := names[|names| - 1];
      BySizeMembers(dets, selected, last);
      Merge(dets, selected, names[..|names| - 1]) + Outer(dets, BySize(dets, selected, last), 0)
  }

  /** A box of b's label and no smaller holds most of i. */
  ghost predicate HeldByLarger(dets: seq<Det>, selected: seq<nat>, i: nat)
    requires Sized(dets) && i < |dets|
  {
    exists j :: j in selected && j < |dets| && j != i && dets[j].name == dets[i].name
      && Area(dets[i].box) <= Area(dets[j].box) && MostlyInside(dets[i].box, dets[j].box, InsideLimit(dets[i].name))
  }

  /** Of two survivors of a label the larger does not hold most of the smaller. */
  ghost predicate NoneInside(dets: seq<Det>, r: seq<nat>)
    requires Sized(dets)
  {
    forall i, j :: i in r && j in r && i < |dets| && j < |dets| && dets[i].name == dets[j].name
                   && Area(dets[i].box) < Area(dets[j].box) ==>
      !MostlyInside(dets[i].box, dets[j].box, InsideLimit(dets[i].name))
  }

  lemma {:induction false} OuterNoDup(dets: seq<Det>, ordered: seq<nat>, k: nat)
    requires Sized(dets) && k <= |ordered| && Indices(ordered, |dets|) && NoDup(ordered)
    ensures NoDup(Outer(dets, ordered, k))
    decreases |ordered| - k
  {
    if k < |ordered| {
      OuterNoDup(dets, ordered, k + 1);
      assert ordered[k] !in Outer(dets, ordered, k + 1);
    }
  }

  /** What merging promises of the selected boxes whose label is among names. */
  ghost predicate Merged(dets: seq<Det>, selected: seq<nat>, names: seq<string>, r: seq<nat>)
    requires Sized(dets)
  {
    && NoDup(r)
    && (forall i :: i in r ==> i in selected && i < |dets| && dets[i].name in names)
    && (forall i :: i in selected && i < |dets| && dets[i].name in names ==> Has(dets, r, dets[i].name))
    && NoneInside(dets, r)
    && (forall i :: i in selected && i < |dets| && dets[i].name in names && i !in r ==> HeldByLarger(dets, selected, i))
  }

  ghost predicate Has(dets: seq<Det>, r: seq<nat>, name: string) {
    exists i :: i in r && i < |dets| && dets[i].name == name
  }

  lemma LargestStays(dets: seq<Det>, s: seq<nat>)
    requires Sized(dets) && s != [] && Indices(s, |dets|)
    ensures s[|s| - 1] in Outer(dets, s, 0)
  {
    assert !InsideLater(dets, s, |s| - 1);
  }

  lemma DroppedIsHeld(dets: seq<Det>, selected: seq<nat>, name: string, i: nat)
    requires Sized(dets) && NoDup(selected) && i in selected && i < |dets| && dets[i].name == name
    ensures Indices(BySize(dets, selected, name), |dets|)
    ensures i in Outer(dets, BySize(dets, selected, name), 0) || HeldByLarger(dets, selected, i)
  {
    BySizeMembers(dets, selected, name);
    var s := BySize(dets, selected, name);
    hide BySize, MostlyInside, Area;
    assert i in s;
    var k :| 0 <= k < |s| && s[k] == i;
    if InsideLater(dets, s, k) {
      var m :| k < m < |s| && MostlyInside(dets[s[k]].box, dets[s[m]].box, InsideLimit(dets[s[k]].name));
      assert s[m] in selected && s[m] != i;
    }
  }

  lemma SurvivorsAreApart(dets: seq<Det>, s: seq<nat>, i: nat, j: nat)
    requires Sized(dets) && Indices(s, |dets|) && NoDup(s)
    requires forall a, b :: 0 <= a < b < |s| ==> Area(dets[s[a]].box) <= Area(dets[s[b]].box)
    requires i in Outer(dets, s, 0) && j in Outer(dets, s, 0) && i < |dets| && j < |dets|
    requires Area(dets[i].box) < Area(dets[j].box)
    ensures !MostlyInside(dets[i].box, dets[j].box, InsideLimit(dets[i].name))
  {
    hide MostlyInside, Area;
    var k :| 0 <= k < |s| && s[k] == i && !InsideLater(dets, s, k);
    var m :| 0 <= m < |s| && s[m] == j && !InsideLater(dets, s, m);
    assert k < m;
  }

  lemma OuterNoneInside(dets: seq<Det>, s: seq<nat>)
    requires Sized(dets) && Indices(s, |dets|) && NoDup(s)
    requires forall a, b :: 0 <= a < b < |s| ==> Area(dets[s[a]].box) <= Area(dets[s[b]].box)
    ensures NoneInside(dets, Outer(dets, s, 0))
  {
    hide MostlyInside, Area, Outer;
    forall i, j | i in Outer(dets, s, 0) && j in Outer(dets, s, 0) && i < |dets| && j < |dets|
                  && dets[i].name == dets[j].name && Area(dets[i].box) < Area(dets[j].box)
      ensures !MostlyInside(dets[i].box, dets[j].box, InsideLimit(dets[i].name))
    {
      SurvivorsAreApart(dets, s, i, j);
    }
  }

  lemma OuterMembers(dets: seq<Det>, selected: seq<nat>, name: string, s: seq<nat>)
    requires Sized(dets) && Indices(s, |dets|) && forall i :: i in s <==> i in selected && i < |dets| && dets[i].name == name
    ensures var r := Outer(dets, s, 0);
            && (forall i :: i in r ==> i in selected && i < |dets| && dets[i].name == name)
            && (s != [] ==> Has(dets, r, name))
  {
    var r := Outer(dets, s, 0);
    forall i | i in r
      ensures i in s
    {
      var m :| 0 <= m < |s| && s[m] == i && !InsideLater(dets, s, m);
    }
    if s != [] {
      LargestStays(dets, s);
      assert s[|s| - 1] in s;
    }
  }

  /** One label's boxes. */
  lemma OuterContract(dets: seq<Det>, selected: seq<nat>, name: string)
    requires Sized(dets) && NoDup(selected)
    ensures Indices(BySize(dets, selected, name), |dets|)
    ensures Merged(dets, selected, [name], Outer(dets, BySize(dets, selected, name), 0))
  {
    BySizeMembers(dets, selected, name);
    var s := BySize(dets, selected, name);
    OuterNoDup(dets, s, 0);
    OuterMembers(dets, selected, name, s);
    OuterNoneInside(dets, s);
    forall i | i in selected && i < |dets| && dets[i].name == name
      ensures s != [] && (i !in Outer(dets, s, 0) ==> HeldByLarger(dets, selected, i))
    {
      assert i in s;
      DroppedIsHeld(dets, selected, name, i);
    }
    hide BySize, HeldByLarger, NoneInside, Outer, NoDup, Has, Merged;
    MergedOne(dets, selected, name, Outer(dets, s, 0), s != []);
  }

  lemma MergedOne(dets: seq<Det>, selected: seq<nat>, name: string, r: seq<nat>, any: bool)
    requires Sized(dets) && NoDup(r) && NoneInside(dets, r)
    requires forall i :: i in r ==> i in selected && i < |dets| && dets[i].name == name
    requires forall i :: i in selected && i < |dets| && dets[i].name == name ==> any && (i !in r ==> HeldByLarger(dets, selected, i))
    requires any ==> Has(dets, r, name)
    ensures Merged(dets, selected, [name], r)
  {
    hide HeldByLarger, NoneInside, Has, NoDup;
  }

  lemma MergedMore(dets: seq<Det>, selected: seq<nat>, front: seq<string>, last: string, before: seq<nat>, more: seq<nat>)
    requires Sized(dets) && last !in front
    requires Merged(dets, selected, front, before) && Merged(dets, selected, [last], more)
    ensures Merged(dets, selected, front + [last], before + more)
  {
    hide HeldByLarger, MostlyInside, Area;
    NoDupJoin(before, more);
    var r := before + more;
    forall i | i in selected && i < |dets| && dets[i].name in front + [last]
      ensures Has(dets, r, dets[i].name)
    {
      if dets[i].name in front {
        assert Has(dets, before, dets[i].name);
      } else {
        assert dets[i].name in [last] && Has(dets, more, dets[i].name);
      }
    }
  }

  /** Merging keeps every label, keeps no box mostly inside a larger comparable survivor, and drops a box
      only for one that holds most of it. */
  lemma {:induction false} MergeContract(dets: seq<Det>, selected: seq<nat>, names: seq<string>)
    requires Sized(dets) && NoDup(selected) && NoDup(names)
    ensures Merged(dets, selected, names, Merge(dets, selected, names))
  {
    if names != [] {
      var front, last := names[..|names| - 1], names[|names| - 1];
      assert names == front + [last] && last !in front;
      MergeContract(dets, selected, front);
      OuterContract(dets, selected, last);
      hide Outer, BySize, Merged;
      MergedMore(dets, selected, front, last, Merge(dets, selected, front), Outer(dets, BySize(dets, selected, last), 0));
    }
  }

  /** Consolidating detections invents none and loses no label; survivors of a label overlap at most its
      threshold, and none is more than its label's limit inside a larger comparable one. A dropped box is
      overlapped by a selected one of no lower confidence, or held by a selected one no smaller. */
  method ReduceDetections(h: nat, w: nat, dets: seq<Det>, rank: seq<nat> -> seq<nat>) returns (r: seq<nat>)
    requires Sized(dets) && Ranks(rank, Confidence(h, w, dets))
    ensures NoDup(r) && forall i :: i in r ==> i < |dets|
    ensures forall i: nat :: i < |dets| ==> Has(dets, r, dets[i].name)
    ensures Apart(LabelsOf(dets), OverIn(dets), r)
    ensures NoneInside(dets, r)
    ensures forall i: nat :: i < |dets| && i !in r ==>
              || SuppressedInLabel(LabelsOf(dets), OverIn(dets), Selected(dets, rank), Confidence(h, w, dets), i)
              || HeldByLarger(dets, Selected(dets, rank), i)
  {
    var names := Names(LabelsOf(dets), |dets|);
    var selected := NmsEach(LabelsOf(dets), names, OverIn(dets), rank);
    assert selected == Selected(dets, rank);
    SelectedContract(h, w, dets, rank);
    assert LabelsOf(dets)[..|dets|] == LabelsOf(dets);
    hide Selected, KeepEach, Ranks, Names;
    SelectedIsApart(dets, names, Confidence(h, w, dets), selected);
    r := MergeLabels(dets, selected, names);
    MergeContract(dets, selected, names);
    Consolidated(dets, names, Confidence(h, w, dets), selected, r);
  }

  lemma SelectedIsApart(dets: seq<Det>, names: seq<string>, score: nat -> real, selected: seq<nat>)
    requires Suppressed(LabelsOf(dets), names, OverIn(dets), score, selected)
    ensures NoDup(selected)
  {}

  /** Both halves together. */
  lemma Consolidated(dets: seq<Det>, names: seq<string>, score: nat -> real, selected: seq<nat>, r: seq<nat>)
    requires Sized(dets) && forall l :: l in names <==> l in LabelsOf(dets)
    requires Suppressed(LabelsOf(dets), names, OverIn(dets), score, selected) && Merged(dets, selected, names, r)
    ensures NoDup(r) && forall i :: i in r ==> i < |dets|
    ensures forall i: nat :: i < |dets| ==> Has(dets, r, dets[i].name)
    ensures Apart(LabelsOf(dets), OverIn(dets), r) && NoneInside(dets, r)
    ensures forall i: nat :: i < |dets| && i !in r ==>
              SuppressedInLabel(LabelsOf(dets), OverIn(dets), selected, score, i) || HeldByLarger(dets, selected, i)
  {
    hide HeldByLarger, MostlyInside, Area, SuppressedInLabel, NoneInside;
    forall i: nat | i < |dets|
      ensures Has(dets, r, dets[i].name) && LabelsOf(dets)[i] in names
    {
      assert LabelsOf(dets)[i] in LabelsOf(dets);
      assert HasLabel(LabelsOf(dets), selected, dets[i].name);
      var j :| j in selected && j < |dets| && dets[j].name == dets[i].name;
      assert dets[j].name in names;
    }
  }

  method MergeLabels(dets: seq<Det>, selected: seq<nat>, names: seq<string>) returns (r: seq<nat>)
    requires Sized(dets) && NoDup(selected)
    ensures r == Merge(dets, selected, names)
  {
    r := [];
    for k := 0 to |names|
      invariant r == Merge(dets, selected, names[..k])
    {
      assert names[..k + 1][..k] == names[..k];
      BySizeMembers(dets, selected, names[k]);
      var outer := OuterBoxes(dets, BySize(dets, selected, names[k]));
      r := r + outer;
    }
    assert names[..|names|] == names;
  }

  method OuterBoxes(dets: seq<Det>, ordered: seq<nat>) returns (r: seq<nat>)
    requires Sized(dets) && Indices(ordered, |dets|)
    ensures r == Outer(dets, ordered, 0)
  {
    r := [];
    assert [] + Outer(dets, ordered, 0) == Outer(dets, ordered, 0);
    for k := 0 to |ordered|
      invariant Outer(dets, ordered, 0) == r + Outer(dets, ordered, k)
    {
      var inside := IsInside(dets, ordered, k);
      ghost var rest := Outer(dets, ordered, k + 1);
      assert r + ([ordered[k]] + rest) == r + [ordered[k]] + rest && [] + rest == rest;
      if !inside { r := r + [ordered[k]]; }
    }
  }

  method IsInside(dets: seq<Det>, ordered: seq<nat>, k: nat) returns (inside: bool)
    requires Sized(dets) && Indices(ordered, |dets|) && k < |ordered|
    ensures inside == InsideLater(dets, ordered, k)
  {
    hide MostlyInside, Area;
    for m := k + 1 to |ordered|
      invariant forall j :: k < j < m ==>
                  !MostlyInside(dets[ordered[k]].box, dets[ordered[j]].box, InsideLimit(dets[ordered[k]].name))
    {
      if MostlyInside(dets[ordered[k]].box, dets[ordered[m]].box, InsideLimit(dets[ordered[k]].name)) { return true; }
    }
    return false;
  }

  // ----- the detectors' suppression ---------------------------------------------------------------

  const NMS_THRESH := 0.45

  function WideOverlap(a: Box, b: Box): real {
    NotNegative(Min(a.x2, b.x2) - Max(a.x1, b.x1) + 0.00001) * NotNegative(Min(a.y2, b.y2) - Max(a.y1, b.y1) + 0.00001)
  }

  /** The areas without what they share; zero makes numpy divide to infinity or nan. */
  function Rest(a: Box, b: Box): real {
    (a.x2 - a.x1) * (a.y2 - a.y1) + (b.x2 - b.x1) * (b.y2 - b.y1) - WideOverlap(a, b)
  }

  predicate DetectorOver(a: Box, b: Box) {
    Rest(a, b) == 0.0 || WideOverlap(a, b) / Rest(a, b) > NMS_THRESH
  }

  /** A detector's class number. */
  datatype Class = Class(number: int)

  function OverBoxes(boxes: seq<Box>): Class -> Over {
    (c: Class) => ((i: nat, j: nat) => i < |boxes| && j < |boxes| && DetectorOver(boxes[i], boxes[j]))
  }

  lemma OverBoxesSymmetric(boxes: seq<Box>)
    ensures forall c :: Symmetric(OverBoxes(boxes)(c))
  {
    forall c, i: nat, j: nat
      ensures OverBoxes(boxes)(c)(i, j) == OverBoxes(boxes)(c)(j, i)
    {
      if i < |boxes| && j < |boxes| {
        assert WideOverlap(boxes[i], boxes[j]) == WideOverlap(boxes[j], boxes[i]);
      }
    }
  }

  /** The detectors' boxes, class by class (names: the classes present, in any order): none invented, no
      class lost, those of a class apart, and a dropped one overlapped by a kept one of its class and no
      lower score. */
  method NmsPerClass(boxes: seq<Box>, classes: seq<Class>, scores: seq<real>, names: seq<Class>, rank: seq<nat> -> seq<nat>)
    returns (keep: seq<nat>)
    requires |boxes| == |classes| == |scores|
    requires NoDup(names) && forall c :: c in names <==> c in classes
    requires Ranks(rank, ScoreOf(scores))
    ensures NoDup(keep) && forall i :: i in keep ==> i < |boxes|
    ensures forall c :: c in classes ==> HasLabel(classes, keep, c)
    ensures Apart(classes, OverBoxes(boxes), keep)
    ensures forall i: nat :: i < |boxes| && i !in keep ==> SuppressedInLabel(classes, OverBoxes(boxes), keep, ScoreOf(scores), i)
  {
    OverBoxesSymmetric(boxes);
    hide KeepEach, Ranks, Symmetric, OverBoxes, Apart, HasLabel, SuppressedInLabel, ScoreOf;
    keep := NmsEach(classes, names, OverBoxes(boxes), rank);
    KeepEachContract(classes, names, OverBoxes(boxes), rank, ScoreOf(scores));
    forall i: nat | i < |boxes|
      ensures classes[i] in names
    {
      assert classes[i] in classes;
    }
  }

  function ScoreOf(scores: seq<real>): nat -> real {
    (i: nat) => if i < |scores| then scores[i] else 0.0
  }
}
