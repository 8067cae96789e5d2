/** Which detection belongs to which track: the built-in matcher, Norfair's associations with the
    rules around them, the re-pointing of faces to their people, and the filter for boxes cut off
    by their crop. The functions say what each pass computes; Matchers.dfy holds the loops. */
module Matching {
  import opened Wrappers
  import opened Geometry
  import opened Reals
  import opened Lists
  import opened Tracks
  import ScoreGate

  type Table = map<TrackId, Track>

  // Norfair runs one tracker per object type, so a global id belongs to one type.
  datatype Gid = Gid(kind: ObjectType, n: nat)

  /** matches {tracker id: detection index} and the indices nobody has taken, in order. */
  datatype Claims = Claims(matches: map<TrackId, nat>, unclaimed: seq<nat>)

  const IOU_MATCH_THRESHOLD := 0.3

  ghost predicate Tracked(live: seq<TrackId>, store: Table) {
    forall t :: t in live ==> t in store
  }

  /** A sound state of the matching: every match is a live track with a detection of its own type,
      no detection is taken twice, and the unclaimed list is duplicate-free and disjoint from the
      matches. */
  ghost predicate Sound(live: seq<TrackId>, store: Table, dets: seq<Detection>, cl: Claims) {
    && Tracked(live, store)
    && NoDup(cl.unclaimed)
    && Indices(cl.unclaimed, |dets|)
    && (forall t :: t in cl.matches ==>
          && t in live
          && cl.matches[t] < |dets|
          && dets[cl.matches[t]].kind == store[t].kind
          && cl.matches[t] !in cl.unclaimed)
    && (forall t, u :: t in cl.matches && u in cl.matches && t != u ==> cl.matches[t] != cl.matches[u])
  }

  ghost predicate Holds(cl: Claims, idx: nat) {
    idx in cl.unclaimed || exists t :: t in cl.matches && cl.matches[t] == idx
  }

  function Claim(cl: Claims, tid: TrackId, idx: nat): Claims {
    Claims(cl.matches[tid := idx], Remove(cl.unclaimed, idx))
  }

  lemma ClaimIsSound(live: seq<TrackId>, store: Table, dets: seq<Detection>, cl: Claims, tid: TrackId, idx: nat)
    requires Sound(live, store, dets, cl)
    requires tid in live && tid !in cl.matches && idx in cl.unclaimed
    requires idx < |dets| && dets[idx].kind == store[tid].kind
    ensures Sound(live, store, dets, Claim(cl, tid, idx))
    ensures forall i :: Holds(Claim(cl, tid, idx), i) <==> Holds(cl, i)
    ensures forall i :: i in Claim(cl, tid, idx).unclaimed ==> i in cl.unclaimed
  {
    var r := Claim(cl, tid, idx);
    RemoveMembers(cl.unclaimed, idx);
    forall k | 0 <= k < |r.unclaimed|
      ensures r.unclaimed[k] < |dets|
    {
      assert r.unclaimed[k] in cl.unclaimed;
    }
    forall i
      ensures Holds(r, i) <==> Holds(cl, i)
    {
      if i == idx {
        assert r.matches[tid] == idx;
      } else if t :| t in cl.matches && cl.matches[t] == i {
        assert r.matches[t] == i;
      }
    }
  }

  function Start(dets: seq<Detection>): Claims {
    Claims(map[], Upto(|dets|))
  }

  lemma StartIsSound(live: seq<TrackId>, store: Table, dets: seq<Detection>)
    requires Tracked(live, store)
    ensures Sound(live, store, dets, Start(dets))
    ensures forall i: nat :: i < |dets| ==> i in Start(dets).unclaimed && Holds(Start(dets), i)
  {
    forall i: nat | i < |dets|
      ensures i in Start(dets).unclaimed && Holds(Start(dets), i)
    {
      assert Start(dets).unclaimed[i] == i;
    }
  }

  // ----- nearest detection -----------------------------------------------------------------

  const NN_DIST_FACTOR := 3.0
  const NN_DIST_MARGIN := 30.0
  const NN_DIST_MAX := 150.0
  const NN_MISS_GROWTH := 0.25
  const NN_MISS_GROWTH_MAX := 1.5

  function Widths(s: seq<(real, real)>): (r: seq<real>)
    ensures |r| == |s|
  {
    seq(|s|, i requires 0 <= i < |s| => s[i].0)
  }

  function Heights(s: seq<(real, real)>): (r: seq<real>)
    ensures |r| == |s|
  {
    seq(|s|, i requires 0 <= i < |s| => s[i].1)
  }

  /** The box a detection's size is compared with: the last box resized to the median of the
      track's recent boxes (its last box until it has three). */
  function SizeRef(tr: Track): Box {
    if |tr.sizes| < 3 then tr.coord
    else
      var w, h := ScoreGate.Median(Widths(tr.sizes)), ScoreGate.Median(Heights(tr.sizes));
      Box(CenterX(tr.coord) - w / 2.0, CenterY(tr.coord) - h / 2.0, w, h)
  }

  /** How far a detection may lie from where the track is predicted. */
  function Reach(tr: Track): real {
    Min(NN_DIST_FACTOR * Max(tr.coord.w, tr.coord.h) + NN_DIST_MARGIN, NN_DIST_MAX)
    * Min(1.0 + NN_MISS_GROWTH * tr.missCount as real, NN_MISS_GROWTH_MAX)
  }

  /** Squared distance from the track's predicted centre to a detection's. */
  function Distance2(tr: Track, d: Detection): real {
    var steps := 1.0 + tr.missCount as real;
    Square(CenterX(d.coord) - (CenterX(tr.coord) + tr.vx * steps))
    + Square(CenterY(d.coord) - (CenterY(tr.coord) + tr.vy * steps))
  }

  predicate Near(tr: Track, d: Detection) {
    && d.kind == tr.kind
    && !SizeJump(SizeRef(tr), d.coord)
    && Reach(tr) >= 0.0
    && Distance2(tr, d) <= Square(Reach(tr))
  }

  /** The best of the first n unclaimed detections, the last of equally near ones. */
  function Nearest(tr: Track, dets: seq<Detection>, unclaimed: seq<nat>, n: nat): (r: Option<nat>)
    requires n <= |unclaimed| && Indices(unclaimed, |dets|)
    ensures r.Some? ==> r.value in unclaimed && Near(tr, dets[r.value])
  {
    if n == 0 then None
    else
      var best, idx := Nearest(tr, dets, unclaimed, n - 1), unclaimed[n - 1];
      if Near(tr, dets[idx]) && (best.None? || Distance2(tr, dets[idx]) <= Distance2(tr, dets[best.value]))
      then Some(idx) else best
  }

  // ----- the built-in matcher ----------------------------------------------------------------

  predicate Overlaps(tr: Track, d: Detection) {
    d.kind == tr.kind && Iou(tr.coord, d.coord) > IOU_MATCH_THRESHOLD
  }

  /** The best-overlapping of the first n unclaimed detections, the first of equal ones. */
  function BestOverlap(tr: Track, dets: seq<Detection>, unclaimed: seq<nat>, n: nat): (r: Option<nat>)
    requires n <= |unclaimed| && Indices(unclaimed, |dets|)
    ensures r.Some? ==> r.value in unclaimed && Overlaps(tr, dets[r.value])
  {
    if n == 0 then None
    else
      var best, idx := BestOverlap(tr, dets, unclaimed, n - 1), unclaimed[n - 1];
      if Overlaps(tr, dets[idx])
         && (best.None? || Iou(tr.coord, dets[idx].coord) > Iou(tr.coord, dets[best.value].coord))
      then Some(idx) else best
  }

  lemma {:induction false} BestOverlapIsBest(tr: Track, dets: seq<Detection>, unclaimed: seq<nat>, n: nat)
    requires n <= |unclaimed| && Indices(unclaimed, |dets|)
    ensures forall k :: 0 <= k < n && Overlaps(tr, dets[unclaimed[k]]) ==>
              && BestOverlap(tr, dets, unclaimed, n).Some?
              && Iou(tr.coord, dets[unclaimed[k]].coord)
                 <= Iou(tr.coord, dets[BestOverlap(tr, dets, unclaimed, n).value].coord)
  {
    if n > 0 { BestOverlapIsBest(tr, dets, unclaimed, n - 1); }
  }

  lemma {:induction false} NearestIsNearest(tr: Track, dets: seq<Detection>, unclaimed: seq<nat>, n: nat)
    requires n <= |unclaimed| && Indices(unclaimed, |dets|)
    ensures forall k :: 0 <= k < n && Near(tr, dets[unclaimed[k]]) ==>
              && Nearest(tr, dets, unclaimed, n).Some?
              && Distance2(tr, dets[Nearest(tr, dets, unclaimed, n).value]) <= Distance2(tr, dets[unclaimed[k]])
  {
    if n > 0 { NearestIsNearest(tr, dets, unclaimed, n - 1); }
  }

  /** The overlap pass over the first n live tracks. */
  function ByOverlap(live: seq<TrackId>, store: Table, dets: seq<Detection>, n: nat): (cl: Claims)
    requires n <= |live| && Tracked(live, store) && NoDup(live)
    ensures Sound(live, store, dets, cl)
    ensures forall t :: t in cl.matches ==> t in live[..n]
    ensures forall i: nat :: i < |dets| ==> Holds(cl, i)
  {
    StartIsSound(live, store, dets);
    if n == 0 then Start(dets)
    else
      var cl, tid := ByOverlap(live, store, dets, n - 1), live[n - 1];
      var found := BestOverlap(store[tid], dets, cl.unclaimed, |cl.unclaimed|);
      assert tid !in live[..n - 1];
      assert live[..n] == live[..n - 1] + [tid];
      if found.Some? then
        ClaimIsSound(live, store, dets, cl, tid, found.value);
        Claim(cl, tid, found.value)
      else
        cl
  }

  /** No unmatched one of the first n tracks overlaps an unclaimed detection of its type. */
  ghost predicate NoOverlapLeft(live: seq<TrackId>, store: Table, dets: seq<Detection>, cl: Claims, n: nat)
    requires n <= |live| && Sound(live, store, dets, cl)
  {
    forall k, i :: 0 <= k < n && 0 <= i < |cl.unclaimed| && live[k] !in cl.matches ==>
      !Overlaps(store[live[k]], dets[cl.unclaimed[i]])
  }

  lemma {:induction false} ByOverlapLeavesNone(live: seq<TrackId>, store: Table, dets: seq<Detection>, n: nat)
    requires n <= |live| && Tracked(live, store) && NoDup(live)
    ensures NoOverlapLeft(live, store, dets, ByOverlap(live, store, dets, n), n)
  {
    hide Overlaps, ByOverlap, NoDup;
    if n == 0 { return; }
    ByOverlapLeavesNone(live, store, dets, n - 1);
    OverlapStep(live, store, dets, n);
    var cl, r := ByOverlap(live, store, dets, n - 1), ByOverlap(live, store, dets, n);
    forall k, i | 0 <= k < n && 0 <= i < |r.unclaimed| && live[k] !in r.matches
      ensures !Overlaps(store[live[k]], dets[r.unclaimed[i]])
    {
      assert r.unclaimed[i] in cl.unclaimed;
      var j :| 0 <= j < |cl.unclaimed| && cl.unclaimed[j] == r.unclaimed[i];
    }
  }

  /** The turn of the n-th track: it only takes, and unmatched it found nothing. */
  lemma OverlapStep(live: seq<TrackId>, store: Table, dets: seq<Detection>, n: nat)
    requires 0 < n <= |live| && Tracked(live, store) && NoDup(live)
    ensures var cl, r := ByOverlap(live, store, dets, n - 1), ByOverlap(live, store, dets, n);
            && (forall t :: t in cl.matches ==> t in r.matches) && (forall i :: i in r.unclaimed ==> i in cl.unclaimed)
            && (live[n - 1] !in r.matches ==>
                  forall i :: 0 <= i < |cl.unclaimed| ==> !Overlaps(store[live[n - 1]], dets[cl.unclaimed[i]]))
  {
    hide Overlaps, BestOverlap;
    var cl, tid := ByOverlap(live, store, dets, n - 1), live[n - 1];
    BestOverlapIsBest(store[tid], dets, cl.unclaimed, |cl.unclaimed|);
    RemoveMembersOf(cl, ByOverlap(live, store, dets, n), tid);
  }

  lemma RemoveMembersOf(cl: Claims, r: Claims, tid: TrackId)
    requires NoDup(cl.unclaimed)
    requires r == cl || exists idx :: r == Claim(cl, tid, idx)
    ensures forall i :: i in r.unclaimed ==> i in cl.unclaimed
  {
    if r != cl {
      var idx :| r == Claim(cl, tid, idx);
      RemoveMembers(cl.unclaimed, idx);
    }
  }

  /** The live tracks, fewest misses first. */
  function ByMisses(live: seq<TrackId>, store: Table): seq<TrackId> {
    SortStable(live, Misses(store))
  }

  function Misses(store: Table): TrackId -> real {
    t => if t in store then store[t].missCount as real else 0.0
  }

  lemma ByMissesMembers(live: seq<TrackId>, store: Table)
    requires NoDup(live)
    ensures NoDup(ByMisses(live, store))
    ensures forall t :: t in ByMisses(live, store) <==> t in live
  {
    SortStableKeeps(live, Misses(store));
    NoDupByMultiset(live, ByMisses(live, store));
  }

  /** The nearest pass: the first n of order, where a track already matched or parked sits out. */
  function ByDistance(live: seq<TrackId>, store: Table, dets: seq<Detection>, cl: Claims,
                      order: seq<TrackId>, n: nat): (r: Claims)
    requires n <= |order| && Sound(live, store, dets, cl)
    requires forall t :: t in order ==> t in live
    ensures Sound(live, store, dets, r)
    ensures forall i :: Holds(r, i) <==> Holds(cl, i)
    ensures forall i :: i in r.unclaimed ==> i in cl.unclaimed
    ensures forall t :: t in cl.matches ==> t in r.matches && r.matches[t] == cl.matches[t]
  {
    if n == 0 then cl
    else
      var p, tid := ByDistance(live, store, dets, cl, order, n - 1), order[n - 1];
      if tid in p.matches || store[tid].parked.Some? then p
      else
        var found := Nearest(store[tid], dets, p.unclaimed, |p.unclaimed|);
        if found.Some? then
          ClaimIsSound(live, store, dets, p, tid, found.value);
          Claim(p, tid, found.value)
        else
          p
  }

  function Builtin(live: seq<TrackId>, store: Table, dets: seq<Detection>): (cl: Claims)
    requires Tracked(live, store) && NoDup(live)
    ensures Sound(live, store, dets, cl)
    ensures forall i: nat :: i < |dets| ==> Holds(cl, i)
  {
    ByMissesMembers(live, store);
    var order := ByMisses(live, store);
    ByDistance(live, store, dets, ByOverlap(live, store, dets, |live|), order, |order|)
  }

  /** After the built-in matcher no unmatched track overlaps an unclaimed box of its type by more
      than the threshold. */
  lemma BuiltinLeavesNoOverlap(live: seq<TrackId>, store: Table, dets: seq<Detection>)
    requires Tracked(live, store) && NoDup(live)
    ensures NoOverlapLeft(live, store, dets, Builtin(live, store, dets), |live|)
  {
    ByOverlapLeavesNone(live, store, dets, |live|);
    var first, cl := ByOverlap(live, store, dets, |live|), Builtin(live, store, dets);
    ByMissesMembers(live, store);
    forall k, i | 0 <= k < |live| && 0 <= i < |cl.unclaimed| && live[k] !in cl.matches
      ensures !Overlaps(store[live[k]], dets[cl.unclaimed[i]])
    {
      assert cl.unclaimed[i] in first.unclaimed;
      var j :| 0 <= j < |first.unclaimed| && first.unclaimed[j] == cl.unclaimed[i];
    }
  }
}
