/** The matching loops. They only read the tracks, and change a dict of matches and a list of
    unclaimed indices step by step; each is proved to compute its function of Matching, Norfair,
    Faces and Pipeline. */
module Matchers {
  import opened Wrappers
  import opened Geometry
  import opened Lists
  import opened Tracks
  import opened Matching
  import Norfair
  import Faces
  import Pipeline

  method NearestDetection(tr: Track, dets: seq<Detection>, unclaimed: seq<nat>) returns (best: Option<nat>)
    requires Indices(unclaimed, |dets|)
    ensures best == Nearest(tr, dets, unclaimed, |unclaimed|)
  {
    hide SizeRef, Reach, Distance2, SizeJump;
    best := None;
    var reach := Reach(tr);
    var best2 := Square(reach);
    for k := 0 to |unclaimed|
      invariant best == Nearest(tr, dets, unclaimed, k)
      invariant best2 == if best.Some? then Distance2(tr, dets[best.value]) else Square(reach)
      invariant best.Some? ==> reach >= 0.0 && best2 <= Square(reach)
    {
      var d := dets[unclaimed[k]];
      if d.kind != tr.kind || SizeJump(SizeRef(tr), d.coord) { continue; }
      var dist2 := Distance2(tr, d);
      if reach >= 0.0 && dist2 <= best2 { best, best2 := Some(unclaimed[k]), dist2; }
    }
  }

  method BuiltinMatch(live: seq<TrackId>, store: Table, dets: seq<Detection>) returns (cl: Claims)
    requires Tracked(live, store) && NoDup(live)
    ensures cl == Builtin(live, store, dets)
  {
    var matches: map<TrackId, nat>, unclaimed: seq<nat> := map[], Upto(|dets|);
    for n := 0 to |live|
      invariant Claims(matches, unclaimed) == ByOverlap(live, store, dets, n)
    {
      var found := BestByOverlap(store[live[n]], dets, unclaimed);
      if found.Some? {
        matches := matches[live[n] := found.value];
        unclaimed := Remove(unclaimed, found.value);
      }
    }
    ghost var first := Claims(matches, unclaimed);
    var order := ByMisses(live, store);
    ByMissesMembers(live, store);
    for n := 0 to |order|
      invariant Claims(matches, unclaimed) == ByDistance(live, store, dets, first, order, n)
    {
      var tid := order[n];
      assert tid in live;
      if tid in matches || store[tid].parked.Some? { continue; }
      var found := NearestDetection(store[tid], dets, unclaimed);
      if found.Some? {
        matches := matches[tid := found.value];
        unclaimed := Remove(unclaimed, found.value);
      }
    }
    cl := Claims(matches, unclaimed);
  }

  method BestByOverlap(tr: Track, dets: seq<Detection>, unclaimed: seq<nat>) returns (best: Option<nat>)
    requires Indices(unclaimed, |dets|)
    ensures best == BestOverlap(tr, dets, unclaimed, |unclaimed|)
  {
    hide Iou;
    best := None;
    var bestIou := IOU_MATCH_THRESHOLD;
    for k := 0 to |unclaimed|
      invariant best == BestOverlap(tr, dets, unclaimed, k)
      invariant bestIou == if best.Some? then Iou(tr.coord, dets[best.value].coord) else IOU_MATCH_THRESHOLD
    {
      var d := dets[unclaimed[k]];
      if d.kind != tr.kind { continue; }
      var iou := Iou(tr.coord, d.coord);
      if iou > bestIou { best, bestIou := Some(unclaimed[k]), iou; }
    }
  }

  method BestParked(tr: Track, dets: seq<Detection>, unclaimed: seq<nat>) returns (best: Option<nat>)
    requires Indices(unclaimed, |dets|) && tr.parked.Some?
    ensures best == Norfair.BestOnSpot(tr, dets, unclaimed, |unclaimed|)
  {
    hide Iou;
    best := None;
    var bestIou := IOU_MATCH_THRESHOLD;
    for k := 0 to |unclaimed|
      invariant best == Norfair.BestOnSpot(tr, dets, unclaimed, k)
      invariant bestIou == if best.Some? then Iou(tr.parked.value, dets[best.value].coord) else IOU_MATCH_THRESHOLD
    {
      var d := dets[unclaimed[k]];
      if d.kind != tr.kind { continue; }
      var iou := Iou(tr.parked.value, d.coord);
      if iou >= bestIou { best, bestIou := Some(unclaimed[k]), iou; }
    }
  }

  method NorfairMatch(live: seq<TrackId>, store: Table, dets: seq<Detection>, assoc: seq<(nat, Gid)>,
                      known: Norfair.Ids) returns (w: Norfair.Work)
    requires Tracked(live, store) && Norfair.SeededOk(live, store, dets)
    requires Norfair.AssocOk(dets, assoc) && Norfair.IdsOk(store, known)
    ensures w == Norfair.Match(live, store, dets, assoc, known)
  {
    hide Norfair.Good, Norfair.AssocOk;
    w := SeedMatch(live, store, dets, assoc, Norfair.Prune(known, live));
    w := AssociationMatch(live, store, dets, assoc, w);
    w := LeftoverMatch(live, store, dets, assoc, w);
  }

  method SeedMatch(live: seq<TrackId>, store: Table, dets: seq<Detection>, assoc: seq<(nat, Gid)>,
                   ids: Norfair.Ids) returns (w: Norfair.Work)
    requires Tracked(live, store) && Norfair.SeededOk(live, store, dets)
    requires Norfair.AssocOk(dets, assoc) && Norfair.IdsOk(store, ids)
    ensures w == Norfair.BySeed(live, store, dets, assoc, ids, |dets|)
  {
    hide Norfair.Good, Norfair.AssocOk, Norfair.SeededOk, Norfair.IdsOk, Claim, Norfair.Bind;
    w := Norfair.Work(ids, Start(dets));
    for idx := 0 to |dets|
      invariant w == Norfair.BySeed(live, store, dets, assoc, ids, idx)
    {
      var seed := dets[idx].seeded;
      if seed.Some? && seed.value in live && seed.value !in w.claims.matches {
        w := Norfair.Work(Norfair.Bind(w.ids, assoc, idx, seed.value), Claim(w.claims, seed.value, idx));
      }
    }
  }

  method AssociationMatch(live: seq<TrackId>, store: Table, dets: seq<Detection>, assoc: seq<(nat, Gid)>,
                          start: Norfair.Work) returns (w: Norfair.Work)
    requires Norfair.AssocOk(dets, assoc) && Norfair.Good(live, store, dets, start)
    ensures w == Norfair.ByAssociation(live, store, dets, assoc, start, |assoc|)
  {
    hide Norfair.Good, Claim, SizeJump, SizeRef, Iou;
    w := start;
    for n := 0 to |assoc|
      invariant w == Norfair.ByAssociation(live, store, dets, assoc, start, n)
    {
      GoodFacts(live, store, dets, w);
      var idx, g := assoc[n].0, assoc[n].1;
      if idx !in w.claims.unclaimed || g !in w.ids || w.ids[g] !in live || w.ids[g] in w.claims.matches { continue; }
      var tid := w.ids[g];
      var tr := store[tid];
      if tr.parked.Some? && Iou(tr.parked.value, dets[idx].coord) < IOU_MATCH_THRESHOLD {
        w := w.(ids := w.ids - {g});
      } else if tr.parked.None? && SizeJump(SizeRef(tr), dets[idx].coord) {
        w := w.(ids := w.ids - {g});
      } else {
        w := w.(claims := Claim(w.claims, tid, idx));
      }
    }
  }

  /** What the loops read of a sound state: live tracks exist, unclaimed indices are in range. */
  lemma GoodFacts(live: seq<TrackId>, store: Table, dets: seq<Detection>, w: Norfair.Work)
    requires Norfair.Good(live, store, dets, w)
    ensures Tracked(live, store) && Indices(w.claims.unclaimed, |dets|)
  {}

  method LeftoverMatch(live: seq<TrackId>, store: Table, dets: seq<Detection>, assoc: seq<(nat, Gid)>,
                       start: Norfair.Work) returns (w: Norfair.Work)
    requires Norfair.AssocOk(dets, assoc) && Norfair.Good(live, store, dets, start)
    ensures w == Norfair.ByLeftover(live, store, dets, assoc, start, |live|)
  {
    hide Norfair.Good, Norfair.AssocOk, Claim, Norfair.Bind, Norfair.BestOnSpot, Nearest;
    w := start;
    for n := 0 to |live|
      invariant w == Norfair.ByLeftover(live, store, dets, assoc, start, n)
    {
      GoodFacts(live, store, dets, w);
      var tid := live[n];
      if tid in w.claims.matches { continue; }
      var found := LeftoverDetection(store[tid], dets, w.claims.unclaimed);
      if found.Some? {
        w := Norfair.Work(Norfair.Bind(w.ids, assoc, found.value, tid), Claim(w.claims, tid, found.value));
      }
    }
  }

  /** A parked track looks on its spot, a moving one near where it is predicted. */
  method LeftoverDetection(tr: Track, dets: seq<Detection>, unclaimed: seq<nat>) returns (found: Option<nat>)
    requires Indices(unclaimed, |dets|)
    ensures found == Norfair.Leftover(tr, dets, unclaimed)
  {
    if tr.parked.Some? {
      found := BestParked(tr, dets, unclaimed);
    } else {
      found := NearestDetection(tr, dets, unclaimed);
    }
  }

  /** One face read: dropped as a second read, left where it is, or pointed at its person's track. */
  method PlaceRead(live: seq<TrackId>, store: Table, dets: seq<Detection>, boxes: map<TrackId, Box>,
                   w: Faces.Work, idx: nat) returns (r: Faces.Work)
    requires Tracked(live, store) && idx < |dets| && Indices(w.kept, |dets|)
    ensures r == Faces.Step(live, store, dets, boxes, w, idx)
  {
    hide Faces.Owner, Iou;
    var d := dets[idx];
    r := w;
    if !Faces.IsRead(d) { return; }
    for k := 0 to |w.kept|
      invariant forall j :: 0 <= j < k ==> Iou(d.coord, dets[w.kept[j]].coord) < Faces.SAME_FACE_IOU
    {
      if Iou(d.coord, dets[w.kept[k]].coord) >= Faces.SAME_FACE_IOU {
        r := r.(claims := Faces.Drop(r.claims, idx), dropped := r.dropped + {idx});
        return;
      }
    }
    r := r.(kept := r.kept + [idx]);
    var owner := Faces.Owner(live, store, d.coord, boxes, d.parent);
    if owner.None? { return; }
    if owner.value in r.claimed {
      r := r.(claims := Faces.Drop(r.claims, idx), dropped := r.dropped + {idx});
      return;
    }
    r := r.(claimed := r.claimed + {owner.value});
    var fid := store[owner.value].faceTid;
    if fid.Some? && fid.value in live && store[fid.value].kind == Face {
      r := r.(claims := Faces.Repoint(r.claims, fid.value, idx));
    }
  }

  lemma ReadsInRange(live: seq<TrackId>, store: Table, dets: seq<Detection>, boxes: map<TrackId, Box>,
                     order: seq<nat>, n: nat, w: Faces.Work)
    requires Tracked(live, store) && n <= |order| && Faces.Good(live, store, dets, boxes, order, n, w)
    ensures Indices(w.kept, |dets|)
  {}

  method MatchFaces(live: seq<TrackId>, store: Table, dets: seq<Detection>, cl: Claims) returns (w: Faces.Work)
    requires Sound(live, store, dets, cl) && forall i: nat :: i < |dets| ==> Holds(cl, i)
    ensures w == Faces.Repointed(live, store, dets, cl)
  {
    Faces.OrderMembers(dets);
    assert Tracked(live, store);
    hide Faces.Order, Faces.PeopleBoxes, Sound, Faces.Step, Tracked;
    var boxes := Faces.PeopleBoxes(store, dets, cl.matches);
    var order := Faces.Order(dets);
    w := Faces.Work(cl, [], {}, {});
    for n := 0 to |order|
      invariant w == Faces.Pass(live, store, dets, cl, n)
    {
      assert order[n] in order;
      ReadsInRange(live, store, dets, boxes, order, n, w);
      w := PlaceRead(live, store, dets, boxes, w, order[n]);
    }
  }

  /** The whole pipeline of a tick. */
  method Match(norfair: bool, live: seq<TrackId>, store: Table, dets: seq<Detection>, assoc: seq<(nat, Gid)>,
               ids: Norfair.Ids) returns (r: Pipeline.Result)
    requires Pipeline.FrameOk(live, store, dets, assoc, ids)
    ensures r == Pipeline.Match(norfair, live, store, dets, assoc, ids)
  {
    hide Builtin, Norfair.Match, Faces.Pass, Pipeline.Pending;
    if norfair {
      var w := NorfairMatch(live, store, dets, assoc, ids);
      r := Pipeline.Result(w.claims, w.ids, Pipeline.Pending(w.claims.unclaimed, assoc));
    } else {
      var cl := BuiltinMatch(live, store, dets);
      r := Pipeline.Result(cl, ids, map[]);
    }
    var f := MatchFaces(live, store, dets, r.claims);
    r := r.(claims := f.claims);
    var whole: seq<nat> := [];
    for k := 0 to |r.claims.unclaimed|
      invariant whole == Pipeline.WholeBoxes(dets, r.claims.unclaimed[..k])
    {
      var idx := r.claims.unclaimed[k];
      assert r.claims.unclaimed[..k + 1][..k] == r.claims.unclaimed[..k];
      if !(idx < |dets| && dets[idx].clipped) { whole := whole + [idx]; }
    }
    assert r.claims.unclaimed[..|r.claims.unclaimed|] == r.claims.unclaimed;
    r := r.(claims := Claims(Pipeline.WholeMatches(store, dets, r.claims.matches), whole));
  }
}
