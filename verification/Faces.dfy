/** Faces and their people: which person a face belongs to, and the pass that re-points every face
    detection at its person's face track and drops second reads of the same face. */
module Faces {
  import opened Wrappers
  import opened Geometry
  import opened Lists
  import opened Tracks
  import opened Matching

  const FACE_HEAD_FRACTION := 0.4
  const FACE_FINDER_IOU := 0.3
  const SAME_FACE_IOU := 0.5

  datatype Candidate = Candidate(tid: TrackId, box: Box)

  /** The person tracks of the first n live ones, with this frame's box where they were matched. */
  function People(live: seq<TrackId>, store: Table, boxes: map<TrackId, Box>, n: nat): (r: seq<Candidate>)
    requires n <= |live|
    ensures forall k :: 0 <= k < |r| ==> r[k].tid in live && r[k].tid in store && store[r[k].tid].kind == Person
  {
    if n == 0 then []
    else
      var rest, tid := People(live, store, boxes, n - 1), live[n - 1];
      if tid in store && store[tid].kind == Person then
        rest + [Candidate(tid, if tid in boxes then boxes[tid] else store[tid].coord)]
      else rest
  }

  /** The first of the people overlapping parent most. */
  function BestFinder(people: seq<Candidate>, parent: Box): (r: Option<Candidate>)
    ensures r.Some? ==> r.value in people && Iou(r.value.box, parent) > 0.0
  {
    if people == [] then None
    else
      var best, p := BestFinder(people[..|people| - 1], parent), people[|people| - 1];
      if Iou(p.box, parent) > 0.0 && (best.None? || Iou(p.box, parent) > Iou(best.value.box, parent))
      then Some(p) else best
  }

  function Finders(people: seq<Candidate>, parent: Box): nat {
    if people == [] then 0
    else Finders(people[..|people| - 1], parent) + (if Iou(people[|people| - 1].box, parent) > 0.0 then 1 else 0)
  }

  function Holders(people: seq<Candidate>, face: Box): (r: seq<Candidate>)
    ensures forall p :: p in r ==> p in people
  {
    if people == [] then []
    else Holders(people[..|people| - 1], face)
         + (if CenterInside(face, people[|people| - 1].box) then [people[|people| - 1]] else [])
  }

  function Heads(holders: seq<Candidate>, face: Box): (r: seq<Candidate>)
    ensures forall p :: p in r ==> p in holders
  {
    if holders == [] then []
    else Heads(holders[..|holders| - 1], face)
         + (if FaceDepth(face, holders[|holders| - 1].box) <= FACE_HEAD_FRACTION
            then [holders[|holders| - 1]] else [])
  }

  function Smallest(s: seq<Candidate>): (r: Candidate)
    requires s != []
    ensures r in s
  {
    var last := s[|s| - 1];
    if |s| == 1 then last
    else
      var best := Smallest(s[..|s| - 1]);
      if last.box.w * last.box.h < best.box.w * best.box.h then last else best
  }

  function NearestTop(s: seq<Candidate>, face: Box): (r: Candidate)
    requires s != []
    ensures r in s
  {
    var last := s[|s| - 1];
    if |s| == 1 then last
    else
      var best := NearestTop(s[..|s| - 1], face);
      if FaceDepth(face, last.box) < FaceDepth(face, best.box) then last else best
  }

  function Movers(people: seq<Candidate>, store: Table): (r: seq<Candidate>)
    ensures forall p :: p in r ==> p in people
  {
    if people == [] then []
    else
      var last := people[|people| - 1];
      Movers(people[..|people| - 1], store)
      + (if last.tid in store && store[last.tid].parked.None? then [last] else [])
  }

  /** The person a face belongs to: the one whose crop found it; else, of those whose box holds its
      centre, the smallest with the face at its head, or the one whose top is nearest; else the only
      moving person in view. */
  function Owner(live: seq<TrackId>, store: Table, face: Box, boxes: map<TrackId, Box>, parent: Option<Box>):
    (r: Option<TrackId>)
    ensures r.Some? ==> r.value in live && r.value in store && store[r.value].kind == Person
  {
    var people := People(live, store, boxes, |live|);
    var finder := if parent.Some? then BestFinder(people, parent.value) else None;
    if finder.Some? && (Iou(finder.value.box, parent.value) >= FACE_FINDER_IOU || Finders(people, parent.value) == 1) then
      Some(finder.value.tid)
    else
      var holders := Holders(people, face);
      if holders != [] then
        var heads := Heads(holders, face);
        if heads != [] then Some(Smallest(heads).tid) else Some(NearestTop(holders, face).tid)
      else
        var movers := Movers(people, store);
        if |movers| == 1 then assert movers[0] in movers; Some(movers[0].tid) else None
  }

  // ----- the pass over the face detections ----------------------------------------------------

  /** kept: reads taken as faces of their own; claimed: people who have a face from this frame;
      dropped: reads thrown away. */
  datatype Work = Work(claims: Claims, kept: seq<nat>, claimed: set<TrackId>, dropped: set<nat>)

  predicate AtHead(d: Detection) {
    d.parent.None? || FaceDepth(d.coord, d.parent.value) <= FACE_HEAD_FRACTION
  }

  function ByScore(dets: seq<Detection>): nat -> real {
    (i: nat) => if i < |dets| then -dets[i].score else 0.0
  }

  function HeadsFirst(dets: seq<Detection>): nat -> real {
    (i: nat) => if i < |dets| && AtHead(dets[i]) then 0.0 else 1.0
  }

  /** Reads at their finder's head first, then by falling score. */
  function Order(dets: seq<Detection>): seq<nat> {
    SortStable(SortStable(Upto(|dets|), ByScore(dets)), HeadsFirst(dets))
  }

  lemma OrderMembers(dets: seq<Detection>)
    ensures NoDup(Order(dets))
    ensures forall i: nat :: i in Order(dets) <==> i < |dets|
  {
    var all := Upto(|dets|);
    SortStableKeeps(all, ByScore(dets));
    SortStableKeeps(SortStable(all, ByScore(dets)), HeadsFirst(dets));
    NoDupByMultiset(all, Order(dets));
    forall i: nat
      ensures i in all <==> i < |dets|
    {
      if i < |dets| { assert all[i] == i; }
    }
  }

  /** The boxes the matched people are at in this frame. */
  function PeopleBoxes(store: Table, dets: seq<Detection>, matches: map<TrackId, nat>): map<TrackId, Box> {
    map t | t in matches && t in store && store[t].kind == Person && matches[t] < |dets|
      :: dets[matches[t]].coord
  }

  predicate IsRead(d: Detection) {
    d.kind == Face && d.seeded.None?
  }

  function Drop(cl: Claims, idx: nat): Claims {
    Claims(map t | t in cl.matches && cl.matches[t] != idx :: cl.matches[t], Remove(cl.unclaimed, idx))
  }

  /** Point face track fid at read idx, giving back what either had before. */
  function Repoint(cl: Claims, fid: TrackId, idx: nat): Claims {
    Claims(Others(cl.matches, fid, idx)[fid := idx], Remove(Freed(cl, fid, idx), idx))
  }

  function Others(matches: map<TrackId, nat>, fid: TrackId, idx: nat): map<TrackId, nat> {
    map t | t in matches && (matches[t] != idx || t == fid) :: matches[t]
  }

  function Freed(cl: Claims, fid: TrackId, idx: nat): seq<nat> {
    if fid in cl.matches && cl.matches[fid] != idx then cl.unclaimed + [cl.matches[fid]] else cl.unclaimed
  }

  lemma DropIsSound(live: seq<TrackId>, store: Table, dets: seq<Detection>, cl: Claims, idx: nat)
    requires Sound(live, store, dets, cl)
    ensures Sound(live, store, dets, Drop(cl, idx))
    ensures !Holds(Drop(cl, idx), idx)
    ensures forall i :: i != idx ==> (Holds(Drop(cl, idx), i) <==> Holds(cl, i))
  {
    var r := Drop(cl, idx);
    RemoveMembers(cl.unclaimed, idx);
    forall k | 0 <= k < |r.unclaimed|
      ensures r.unclaimed[k] < |dets|
    {
      assert r.unclaimed[k] in cl.unclaimed;
    }
    forall i | i != idx
      ensures Holds(r, i) <==> Holds(cl, i)
    {
      if t :| t in cl.matches && cl.matches[t] == i { assert r.matches[t] == i; }
    }
  }

  lemma FreedIsSound(live: seq<TrackId>, store: Table, dets: seq<Detection>, cl: Claims, fid: TrackId, idx: nat)
    requires Sound(live, store, dets, cl)
    ensures NoDup(Freed(cl, fid, idx)) && NoDup(Repoint(cl, fid, idx).unclaimed)
    ensures Indices(Repoint(cl, fid, idx).unclaimed, |dets|)
    ensures forall i :: i in Repoint(cl, fid, idx).unclaimed <==> i in Freed(cl, fid, idx) && i != idx
    ensures forall i :: i in Freed(cl, fid, idx) ==> i in cl.unclaimed || (fid in cl.matches && i == cl.matches[fid])
  {
    var free: seq<nat> := Freed(cl, fid, idx);
    RemoveMembers(free, idx);
    var r := Repoint(cl, fid, idx).unclaimed;
    assert r == Remove(free, idx);
    forall k | 0 <= k < |r|
      ensures r[k] < |dets|
    {
      assert r[k] in free;
    }
  }

  lemma RepointIsSound(live: seq<TrackId>, store: Table, dets: seq<Detection>, cl: Claims, fid: TrackId, idx: nat)
    requires Sound(live, store, dets, cl)
    requires fid in live && idx < |dets| && store[fid].kind == dets[idx].kind
    ensures Sound(live, store, dets, Repoint(cl, fid, idx))
  {
    hide Remove, Freed;
    FreedIsSound(live, store, dets, cl, fid, idx);
    var r := Repoint(cl, fid, idx);
    forall t | t in r.matches
      ensures t in live && r.matches[t] < |dets| && dets[r.matches[t]].kind == store[t].kind
      ensures r.matches[t] !in r.unclaimed
    {
      if t != fid { assert r.matches[t] == cl.matches[t]; }
    }
  }

  lemma RepointHolds(live: seq<TrackId>, store: Table, dets: seq<Detection>, cl: Claims, fid: TrackId, idx: nat)
    requires Sound(live, store, dets, cl) && Holds(cl, idx)
    ensures forall i :: Holds(Repoint(cl, fid, idx), i) <==> Holds(cl, i)
  {
    hide Remove;
    FreedIsSound(live, store, dets, cl, fid, idx);
    var r := Repoint(cl, fid, idx);
    forall i
      ensures Holds(r, i) <==> Holds(cl, i)
    {
      if i == idx {
        assert r.matches[fid] == idx;
      } else if t :| t in cl.matches && cl.matches[t] == i {
        if t == fid { assert i in Freed(cl, fid, idx); } else { assert r.matches[t] == i; }
      }
    }
  }

  function Step(live: seq<TrackId>, store: Table, dets: seq<Detection>, boxes: map<TrackId, Box>, w: Work,
                idx: nat): Work
    requires Tracked(live, store) && idx < |dets| && Indices(w.kept, |dets|)
  {
    var d := dets[idx];
    if !IsRead(d) then w
    else if exists k :: 0 <= k < |w.kept| && Iou(d.coord, dets[w.kept[k]].coord) >= SAME_FACE_IOU then
      w.(claims := Drop(w.claims, idx), dropped := w.dropped + {idx})   // the same face found twice
    else
      var owner := Owner(live, store, d.coord, boxes, d.parent);
      var kept := w.kept + [idx];
      if owner.None? then w.(kept := kept)
      else if owner.value in w.claimed then
        // its person already has a face from this read
        w.(claims := Drop(w.claims, idx), kept := kept, dropped := w.dropped + {idx})
      else
        var fid := store[owner.value].faceTid;
        var claimed := w.claimed + {owner.value};
        if fid.Some? && fid.value in live && store[fid.value].kind == Face then
          w.(claims := Repoint(w.claims, fid.value, idx), kept := kept, claimed := claimed)
        else
          w.(kept := kept, claimed := claimed)
  }

  /** What holds after any part of the pass. */
  ghost predicate Good(live: seq<TrackId>, store: Table, dets: seq<Detection>, boxes: map<TrackId, Box>,
                       order: seq<nat>, n: nat, w: Work)
    requires n <= |order| && Tracked(live, store)
  {
    && Sound(live, store, dets, w.claims)
    && Indices(w.kept, |dets|)
    // nothing is lost but the dropped reads, and those are lost
    && (forall i: nat :: i < |dets| ==> (Holds(w.claims, i) <==> i !in w.dropped))
    // every read looked at so far is kept or dropped
    && (forall i :: i in order[..n] && i < |dets| && IsRead(dets[i]) ==> i in w.kept || i in w.dropped)
    && (forall i :: i in w.kept ==> i in order[..n] && i < |dets| && IsRead(dets[i]))
    && (forall i :: i in w.dropped ==> i in order[..n] && i < |dets| && IsRead(dets[i]))
    // kept reads are different faces
    && (forall k, l :: 0 <= k < l < |w.kept| ==>
          Iou(dets[w.kept[l]].coord, dets[w.kept[k]].coord) < SAME_FACE_IOU)
    // and no two surviving ones share an owner
    && OneEach(live, store, dets, boxes, w)
  }

  /** Of the kept reads that were not dropped, no two have one owner, and every owner has been noted. */
  ghost predicate OneEach(live: seq<TrackId>, store: Table, dets: seq<Detection>, boxes: map<TrackId, Box>, w: Work)
    requires Tracked(live, store) && Indices(w.kept, |dets|)
  {
    && (forall k, l :: 0 <= k < l < |w.kept| && w.kept[k] !in w.dropped && w.kept[l] !in w.dropped ==>
          SeparateOwners(live, store, dets[w.kept[k]], dets[w.kept[l]], boxes))
    && (forall k :: 0 <= k < |w.kept| && w.kept[k] !in w.dropped ==>
          OwnerNoted(live, store, dets[w.kept[k]], boxes, w.claimed))
  }

  ghost predicate OwnerNoted(live: seq<TrackId>, store: Table, d: Detection, boxes: map<TrackId, Box>,
                             claimed: set<TrackId>)
    requires Tracked(live, store)
  {
    var owner := OwnerOf(live, store, d, boxes);
    owner.Some? ==> owner.value in claimed
  }

  function OwnerOf(live: seq<TrackId>, store: Table, d: Detection, boxes: map<TrackId, Box>): Option<TrackId>
    requires Tracked(live, store)
  {
    Owner(live, store, d.coord, boxes, d.parent)
  }

  ghost predicate SeparateOwners(live: seq<TrackId>, store: Table, a: Detection, b: Detection, boxes: map<TrackId, Box>)
    requires Tracked(live, store)
  {
    OwnerOf(live, store, a, boxes).Some? ==> OwnerOf(live, store, a, boxes) != OwnerOf(live, store, b, boxes)
  }

  lemma StepDrops(live: seq<TrackId>, store: Table, dets: seq<Detection>, boxes: map<TrackId, Box>,
                  order: seq<nat>, n: nat, w: Work, r: Work)
    requires 0 < n <= |order| && NoDup(order) && Indices(order, |dets|) && Tracked(live, store)
    requires Good(live, store, dets, boxes, order, n - 1, w)
    requires IsRead(dets[order[n - 1]])
    requires r.claims == Drop(w.claims, order[n - 1]) && r.dropped == w.dropped + {order[n - 1]}
    requires r.claimed == w.claimed
    requires || r.kept == w.kept
             || (r.kept == w.kept + [order[n - 1]]
                 && forall k :: 0 <= k < |w.kept| ==>
                      Iou(dets[order[n - 1]].coord, dets[w.kept[k]].coord) < SAME_FACE_IOU)
    ensures Good(live, store, dets, boxes, order, n, r)
  {
    var idx := order[n - 1];
    assert order[..n] == order[..n - 1] + [idx];
    assert idx !in order[..n - 1];
    DropIsSound(live, store, dets, w.claims, idx);
  }

  lemma OneEachGrows(live: seq<TrackId>, store: Table, dets: seq<Detection>, boxes: map<TrackId, Box>,
                     w: Work, idx: nat, r: Work)
    requires Tracked(live, store) && Indices(w.kept, |dets|) && idx < |dets|
    requires OneEach(live, store, dets, boxes, w)
    requires r.kept == w.kept + [idx] && r.dropped == w.dropped && w.claimed <= r.claimed
    requires var owner := OwnerOf(live, store, dets[idx], boxes);
             owner.Some? ==> owner.value !in w.claimed && owner.value in r.claimed
    ensures Indices(r.kept, |dets|) && OneEach(live, store, dets, boxes, r)
  {
    forall k | 0 <= k < |w.kept| && w.kept[k] !in w.dropped
      ensures SeparateOwners(live, store, dets[w.kept[k]], dets[idx], boxes)
    {
      assert OwnerNoted(live, store, dets[w.kept[k]], boxes, w.claimed);
    }
    forall k | 0 <= k < |r.kept| && r.kept[k] !in r.dropped
      ensures OwnerNoted(live, store, dets[r.kept[k]], boxes, r.claimed)
    {
      if k < |w.kept| { assert OwnerNoted(live, store, dets[w.kept[k]], boxes, w.claimed); }
    }
  }

  lemma StepKeeps(live: seq<TrackId>, store: Table, dets: seq<Detection>, boxes: map<TrackId, Box>,
                  order: seq<nat>, n: nat, w: Work, r: Work)
    requires 0 < n <= |order| && NoDup(order) && Indices(order, |dets|) && Tracked(live, store)
    requires Good(live, store, dets, boxes, order, n - 1, w)
    requires IsRead(dets[order[n - 1]])
    requires r.kept == w.kept + [order[n - 1]] && r.dropped == w.dropped
    requires forall k :: 0 <= k < |w.kept| ==>
               Iou(dets[order[n - 1]].coord, dets[w.kept[k]].coord) < SAME_FACE_IOU
    requires var owner := OwnerOf(live, store, dets[order[n - 1]], boxes);
             if owner.None? then r.claimed == w.claimed
             else owner.value !in w.claimed && r.claimed == w.claimed + {owner.value}
    requires Sound(live, store, dets, r.claims) && forall i :: Holds(r.claims, i) <==> Holds(w.claims, i)
    ensures Good(live, store, dets, boxes, order, n, r)
  {
    var idx := order[n - 1];
    assert order[..n] == order[..n - 1] + [idx];
    assert idx !in order[..n - 1];
    OneEachGrows(live, store, dets, boxes, w, idx, r);
    hide OneEach, Sound, Holds, OwnerOf, Iou;
  }

  lemma StepIsGood(live: seq<TrackId>, store: Table, dets: seq<Detection>, boxes: map<TrackId, Box>,
                   order: seq<nat>, n: nat, w: Work)
    requires 0 < n <= |order| && NoDup(order) && Indices(order, |dets|) && Tracked(live, store)
    requires Good(live, store, dets, boxes, order, n - 1, w)
    ensures Good(live, store, dets, boxes, order, n, Step(live, store, dets, boxes, w, order[n - 1]))
  {
    var idx := order[n - 1];
    var d, r := dets[idx], Step(live, store, dets, boxes, w, idx);
    assert order[..n] == order[..n - 1] + [idx];
    if !IsRead(d) {
    } else if exists k :: 0 <= k < |w.kept| && Iou(d.coord, dets[w.kept[k]].coord) >= SAME_FACE_IOU {
      StepDrops(live, store, dets, boxes, order, n, w, r);
    } else {
      var owner := OwnerOf(live, store, d, boxes);
      if owner.Some? && owner.value in w.claimed {
        StepDrops(live, store, dets, boxes, order, n, w, r);
      } else {
        assert idx !in order[..n - 1];
        if owner.Some? {
          var fid := store[owner.value].faceTid;
          if fid.Some? && fid.value in live && store[fid.value].kind == Face {
            RepointIsSound(live, store, dets, w.claims, fid.value, idx);
            RepointHolds(live, store, dets, w.claims, fid.value, idx);
          }
        }
        StepKeeps(live, store, dets, boxes, order, n, w, r);
      }
    }
  }

  // ----- where a read ends ------------------------------------------------------------------------

  /** The face track a read is for: the live one of the person it belongs to. */
  function PointsAt(live: seq<TrackId>, store: Table, boxes: map<TrackId, Box>, d: Detection): Option<TrackId>
    requires Tracked(live, store)
  {
    var owner := OwnerOf(live, store, d, boxes);
    if owner.None? then None
    else
      var fid := store[owner.value].faceTid;
      if fid.Some? && fid.value in live && store[fid.value].kind == Face then fid else None
  }

  /** The k-th kept read survives and is for face track t. */
  ghost predicate IsFor(live: seq<TrackId>, store: Table, dets: seq<Detection>, boxes: map<TrackId, Box>, w: Work, k: nat,
                        t: TrackId)
    requires Tracked(live, store) && Indices(w.kept, |dets|)
  {
    k < |w.kept| && w.kept[k] !in w.dropped && PointsAt(live, store, boxes, dets[w.kept[k]]) == Some(t)
  }

  /** Detection i was neither dropped nor given to a face track. */
  ghost predicate Left(live: seq<TrackId>, store: Table, dets: seq<Detection>, boxes: map<TrackId, Box>, w: Work, i: nat)
    requires Tracked(live, store) && Indices(w.kept, |dets|) && i < |dets|
  {
    i !in w.dropped && (i in w.kept ==> PointsAt(live, store, boxes, dets[i]).None?)
  }

  /** Track t ends on the last surviving read that is for it; if there is none, it keeps the match it came
      with unless that was dropped or given to a face track. */
  ghost predicate EndsRight(live: seq<TrackId>, store: Table, dets: seq<Detection>, boxes: map<TrackId, Box>,
                            from: map<TrackId, nat>, w: Work, t: TrackId)
    requires Tracked(live, store) && Indices(w.kept, |dets|) && forall u :: u in from ==> from[u] < |dets|
  {
    var m := w.claims.matches;
    && (forall k: nat :: IsFor(live, store, dets, boxes, w, k, t) ==>
          t in m && (m[t] == w.kept[k] || exists l :: k < l && IsFor(live, store, dets, boxes, w, l, t) && m[t] == w.kept[l]))
    && ((forall k: nat :: !IsFor(live, store, dets, boxes, w, k, t)) ==>
          && (t in m <==> t in from && Left(live, store, dets, boxes, w, from[t]))
          && (t in m ==> m[t] == from[t]))
  }

  /** What looking at detection idx does, and which face track it gives it to. */
  ghost predicate Handles(live: seq<TrackId>, store: Table, dets: seq<Detection>, boxes: map<TrackId, Box>, w: Work,
                          idx: nat, r: Work)
    requires Tracked(live, store) && idx < |dets|
  {
    || r == w
    || (r.claims == Drop(w.claims, idx) && (r.kept == w.kept || r.kept == w.kept + [idx]) && r.dropped == w.dropped + {idx})
    || (r.kept == w.kept + [idx] && r.dropped == w.dropped
        && r.claims == match PointsAt(live, store, boxes, dets[idx])
                       case Some(fid) => Repoint(w.claims, fid, idx)
                       case None => w.claims)
  }

  lemma StepHandles(live: seq<TrackId>, store: Table, dets: seq<Detection>, boxes: map<TrackId, Box>, w: Work, idx: nat)
    requires Tracked(live, store) && idx < |dets| && Indices(w.kept, |dets|)
    ensures Handles(live, store, dets, boxes, w, idx, Step(live, store, dets, boxes, w, idx))
  {
    hide Owner, Iou, Drop, Repoint, IsRead;
  }

  lemma IsForGrows(live: seq<TrackId>, store: Table, dets: seq<Detection>, boxes: map<TrackId, Box>, w: Work, idx: nat,
                   r: Work, t: TrackId)
    requires Tracked(live, store) && Indices(w.kept, |dets|) && idx < |dets|
    requires idx !in w.kept && idx !in w.dropped
    requires r.kept == w.kept + [idx] && (r.dropped == w.dropped || r.dropped == w.dropped + {idx})
    ensures Indices(r.kept, |dets|)
    ensures forall k: nat :: k < |w.kept| ==> (IsFor(live, store, dets, boxes, r, k, t) <==> IsFor(live, store, dets, boxes, w, k, t))
    ensures IsFor(live, store, dets, boxes, r, |w.kept|, t)
            <==> r.dropped == w.dropped && PointsAt(live, store, boxes, dets[idx]) == Some(t)
    ensures forall k: nat :: k > |w.kept| ==> !IsFor(live, store, dets, boxes, r, k, t)
  {
    hide PointsAt;
    forall k: nat | k < |w.kept|
      ensures r.kept[k] == w.kept[k] && w.kept[k] != idx
    {
      assert w.kept[k] in w.kept;
    }
  }

  lemma IsForStays(live: seq<TrackId>, store: Table, dets: seq<Detection>, boxes: map<TrackId, Box>, w: Work, idx: nat,
                   r: Work, t: TrackId)
    requires Tracked(live, store) && Indices(w.kept, |dets|)
    requires idx !in w.kept && r.kept == w.kept && r.dropped == w.dropped + {idx}
    ensures forall k: nat :: IsFor(live, store, dets, boxes, r, k, t) <==> IsFor(live, store, dets, boxes, w, k, t)
  {
    hide PointsAt;
    forall k: nat | k < |w.kept|
      ensures w.kept[k] != idx
    {
      assert w.kept[k] in w.kept;
    }
  }

  lemma MatchesAfter(cl: Claims, fid: TrackId, idx: nat, t: TrackId)
    ensures var m := Drop(cl, idx).matches;
            (t in m <==> t in cl.matches && cl.matches[t] != idx) && (t in m ==> m[t] == cl.matches[t])
    ensures var m := Repoint(cl, fid, idx).matches;
            && (t in m <==> t == fid || (t in cl.matches && cl.matches[t] != idx))
            && (t in m ==> m[t] == if t == fid then idx else cl.matches[t])
  {}

  /** A track keeps being right while its last read stays, and without any while what it came with does. */
  lemma StillEndsRight(live: seq<TrackId>, store: Table, dets: seq<Detection>, boxes: map<TrackId, Box>,
                       from: map<TrackId, nat>, w: Work, r: Work, t: TrackId)
    requires Tracked(live, store) && Indices(w.kept, |dets|) && Indices(r.kept, |dets|) && w.kept <= r.kept
    requires forall u :: u in from ==> from[u] < |dets|
    requires EndsRight(live, store, dets, boxes, from, w, t)
    requires forall k: nat :: IsFor(live, store, dets, boxes, r, k, t) <==> IsFor(live, store, dets, boxes, w, k, t)
    requires t in w.claims.matches ==> w.claims.matches[t] < |dets|
    requires t in r.claims.matches ==> t in w.claims.matches && r.claims.matches[t] == w.claims.matches[t]
    requires t in w.claims.matches && w.claims.matches[t] in w.kept ==> t in r.claims.matches
    requires t in w.claims.matches && Left(live, store, dets, boxes, w, w.claims.matches[t]) ==>
               (t in r.claims.matches <==> Left(live, store, dets, boxes, r, w.claims.matches[t]))
    requires forall i: nat :: i < |dets| && Left(live, store, dets, boxes, r, i) ==> Left(live, store, dets, boxes, w, i)
    ensures EndsRight(live, store, dets, boxes, from, r, t)
  {
    hide PointsAt, Left;
    forall k: nat | IsFor(live, store, dets, boxes, r, k, t)
      ensures var m := r.claims.matches;
              t in m && (m[t] == r.kept[k] || exists l :: k < l && IsFor(live, store, dets, boxes, r, l, t) && m[t] == r.kept[l])
    {
      var m := w.claims.matches;
      assert IsFor(live, store, dets, boxes, w, k, t);
      if m[t] != w.kept[k] {
        var l :| k < l && IsFor(live, store, dets, boxes, w, l, t) && m[t] == w.kept[l];
        assert IsFor(live, store, dets, boxes, r, l, t);
      }
    }
  }

  /** A read that is given to a track is the last one for it. */
  lemma NowEndsRight(live: seq<TrackId>, store: Table, dets: seq<Detection>, boxes: map<TrackId, Box>,
                     from: map<TrackId, nat>, w: Work, idx: nat, r: Work, t: TrackId)
    requires Tracked(live, store) && Indices(w.kept, |dets|) && Indices(r.kept, |dets|)
    requires forall u :: u in from ==> from[u] < |dets|
    requires r.kept == w.kept + [idx] && t in r.claims.matches && r.claims.matches[t] == idx
    requires IsFor(live, store, dets, boxes, r, |w.kept|, t)
    requires forall k: nat :: k > |w.kept| ==> !IsFor(live, store, dets, boxes, r, k, t)
    ensures EndsRight(live, store, dets, boxes, from, r, t)
  {
    hide PointsAt, Left;
    forall k: nat | IsFor(live, store, dets, boxes, r, k, t)
      ensures r.claims.matches[t] == r.kept[k]
              || exists l :: k < l && IsFor(live, store, dets, boxes, r, l, t) && r.claims.matches[t] == r.kept[l]
    {
      if k < |w.kept| { assert IsFor(live, store, dets, boxes, r, |w.kept|, t); }
    }
  }

  /** What is left after a step, of what was. */
  lemma LeftAfter(live: seq<TrackId>, store: Table, dets: seq<Detection>, boxes: map<TrackId, Box>, w: Work, idx: nat,
                  r: Work, i: nat)
    requires Tracked(live, store) && Indices(w.kept, |dets|) && Indices(r.kept, |dets|) && idx < |dets| && i < |dets|
    requires r.kept == w.kept || r.kept == w.kept + [idx]
    requires r.dropped == w.dropped || r.dropped == w.dropped + {idx}
    requires idx !in w.kept && idx !in w.dropped
    ensures Left(live, store, dets, boxes, r, i)
            <==> && Left(live, store, dets, boxes, w, i)
                 && (i == idx ==> r.dropped == w.dropped && (r.kept == w.kept || PointsAt(live, store, boxes, dets[idx]).None?))
  {
    hide PointsAt;
    if r.kept != w.kept { assert r.kept[|w.kept|] == idx; }
  }

  /** Looking at a detection leaves every track right. */
  lemma StepEndsRight(live: seq<TrackId>, store: Table, dets: seq<Detection>, boxes: map<TrackId, Box>,
                      from: map<TrackId, nat>, w: Work, idx: nat, r: Work, t: TrackId)
    requires Tracked(live, store) && Indices(w.kept, |dets|) && Indices(r.kept, |dets|) && idx < |dets|
    requires forall u :: u in from ==> from[u] < |dets|
    requires t in w.claims.matches ==> w.claims.matches[t] < |dets|
    requires idx !in w.kept && idx !in w.dropped && EndsRight(live, store, dets, boxes, from, w, t)
    requires Handles(live, store, dets, boxes, w, idx, r)
    ensures EndsRight(live, store, dets, boxes, from, r, t)
  {
    hide PointsAt, EndsRight, Drop, Repoint, IsFor, Left;
    if r == w { return; }
    var to := PointsAt(live, store, boxes, dets[idx]);
    MatchesAfter(w.claims, if to.Some? then to.value else t, idx, t);
    forall i: nat | i < |dets|
      ensures Left(live, store, dets, boxes, r, i)
              <==> && Left(live, store, dets, boxes, w, i)
                   && (i == idx ==> r.dropped == w.dropped && (r.kept == w.kept || to.None?))
    {
      LeftAfter(live, store, dets, boxes, w, idx, r, i);
    }
    if r.kept == w.kept {
      IsForStays(live, store, dets, boxes, w, idx, r, t);
      StillEndsRight(live, store, dets, boxes, from, w, r, t);
    } else {
      IsForGrows(live, store, dets, boxes, w, idx, r, t);
      if r.dropped == w.dropped && to == Some(t) {
        NowEndsRight(live, store, dets, boxes, from, w, idx, r, t);
      } else {
        forall k: nat
          ensures IsFor(live, store, dets, boxes, r, k, t) <==> IsFor(live, store, dets, boxes, w, k, t)
        {
          IsForBelow(live, store, dets, boxes, w, k, t);
        }
        StillEndsRight(live, store, dets, boxes, from, w, r, t);
      }
    }
  }

  lemma IsForBelow(live: seq<TrackId>, store: Table, dets: seq<Detection>, boxes: map<TrackId, Box>, w: Work, k: nat,
                   t: TrackId)
    requires Tracked(live, store) && Indices(w.kept, |dets|)
    ensures IsFor(live, store, dets, boxes, w, k, t) ==> k < |w.kept|
  {}

  /** Every track ends on the last surviving read that is for it, or as it was. */
  ghost predicate AllEndRight(live: seq<TrackId>, store: Table, dets: seq<Detection>, boxes: map<TrackId, Box>,
                              from: map<TrackId, nat>, w: Work)
    requires Tracked(live, store)
  {
    && Indices(w.kept, |dets|) && NoDup(w.kept) && (forall u :: u in from ==> from[u] < |dets|)
    && forall t :: EndsRight(live, store, dets, boxes, from, w, t)
  }

  lemma StartEndsRight(live: seq<TrackId>, store: Table, dets: seq<Detection>, boxes: map<TrackId, Box>, cl: Claims)
    requires Sound(live, store, dets, cl)
    ensures AllEndRight(live, store, dets, boxes, cl.matches, Work(cl, [], {}, {}))
  {
    hide PointsAt;
  }

  lemma StepAllEndRight(live: seq<TrackId>, store: Table, dets: seq<Detection>, boxes: map<TrackId, Box>,
                        from: map<TrackId, nat>, order: seq<nat>, n: nat, w: Work)
    requires 0 < n <= |order| && NoDup(order) && Indices(order, |dets|) && Tracked(live, store)
    requires Good(live, store, dets, boxes, order, n - 1, w) && AllEndRight(live, store, dets, boxes, from, w)
    ensures AllEndRight(live, store, dets, boxes, from, Step(live, store, dets, boxes, w, order[n - 1]))
  {
    hide Step, EndsRight, OneEach;
    var idx := order[n - 1];
    assert idx !in order[..n - 1];
    StepHandles(live, store, dets, boxes, w, idx);
    var r := Step(live, store, dets, boxes, w, idx);
    hide Good, Handles;
    StepKeepsIndices(live, store, dets, boxes, w, idx, r);
    forall t
      ensures EndsRight(live, store, dets, boxes, from, r, t)
    {
      StepEndsRight(live, store, dets, boxes, from, w, idx, r, t);
    }
  }

  lemma StepKeepsIndices(live: seq<TrackId>, store: Table, dets: seq<Detection>, boxes: map<TrackId, Box>, w: Work,
                         idx: nat, r: Work)
    requires Tracked(live, store) && idx < |dets| && Handles(live, store, dets, boxes, w, idx, r)
    requires Indices(w.kept, |dets|) && NoDup(w.kept) && idx !in w.kept
    ensures Indices(r.kept, |dets|) && NoDup(r.kept)
  {
    hide Drop, Repoint, PointsAt;
    assert forall k :: 0 <= k < |w.kept| ==> w.kept[k] in w.kept;
  }

  /** The pass over the first n face reads. */
  function Pass(live: seq<TrackId>, store: Table, dets: seq<Detection>, cl: Claims, n: nat): (r: Work)
    requires n <= |Order(dets)| && Sound(live, store, dets, cl)
    requires forall i: nat :: i < |dets| ==> Holds(cl, i)
    ensures Good(live, store, dets, PeopleBoxes(store, dets, cl.matches), Order(dets), n, r)
    ensures AllEndRight(live, store, dets, PeopleBoxes(store, dets, cl.matches), cl.matches, r)
  {
    hide Good, AllEndRight, Step, Order;
    OrderMembers(dets);
    if n == 0 then
      StartIsGood(live, store, dets, PeopleBoxes(store, dets, cl.matches), Order(dets), cl);
      StartEndsRight(live, store, dets, PeopleBoxes(store, dets, cl.matches), cl);
      Work(cl, [], {}, {})
    else
      var w := Pass(live, store, dets, cl, n - 1);
      assert forall i :: 0 <= i < |Order(dets)| ==> Order(dets)[i] in Order(dets);
      StepIsGood(live, store, dets, PeopleBoxes(store, dets, cl.matches), Order(dets), n, w);
      StepAllEndRight(live, store, dets, PeopleBoxes(store, dets, cl.matches), cl.matches, Order(dets), n, w);
      GoodIndices(live, store, dets, PeopleBoxes(store, dets, cl.matches), Order(dets), n - 1, w);
      Step(live, store, dets, PeopleBoxes(store, dets, cl.matches), w, Order(dets)[n - 1])
  }

  lemma StartIsGood(live: seq<TrackId>, store: Table, dets: seq<Detection>, boxes: map<TrackId, Box>, order: seq<nat>, cl: Claims)
    requires Sound(live, store, dets, cl) && forall i: nat :: i < |dets| ==> Holds(cl, i)
    ensures Good(live, store, dets, boxes, order, 0, Work(cl, [], {}, {}))
  {
    hide Holds;
  }

  lemma GoodIndices(live: seq<TrackId>, store: Table, dets: seq<Detection>, boxes: map<TrackId, Box>, order: seq<nat>, n: nat,
                    w: Work)
    requires n <= |order| && Tracked(live, store) && Good(live, store, dets, boxes, order, n, w)
    ensures Indices(w.kept, |dets|)
  {}

  /** A surviving read ends on the face track of the person it belongs to exactly if no later one is for the
      same track, as one can be where two people share it. */
  lemma ReadEndsOnItsFace(live: seq<TrackId>, store: Table, dets: seq<Detection>, cl: Claims, n: nat, k: nat, fid: TrackId)
    requires n <= |Order(dets)| && Sound(live, store, dets, cl) && forall i: nat :: i < |dets| ==> Holds(cl, i)
    requires var w := Pass(live, store, dets, cl, n);
             Indices(w.kept, |dets|) && IsFor(live, store, dets, PeopleBoxes(store, dets, cl.matches), w, k, fid)
    ensures var boxes, w := PeopleBoxes(store, dets, cl.matches), Pass(live, store, dets, cl, n);
            && fid in w.claims.matches
            && (w.claims.matches[fid] == w.kept[k] <==> forall l :: k < l < |w.kept| ==> !IsFor(live, store, dets, boxes, w, l, fid))
  {
    var boxes, w := PeopleBoxes(store, dets, cl.matches), Pass(live, store, dets, cl, n);
    hide Good, Pass, Order, Sound, Holds, PointsAt, PeopleBoxes;
    OneForEach(live, store, dets, boxes, cl.matches, w, k, fid);
  }

  lemma OneForEach(live: seq<TrackId>, store: Table, dets: seq<Detection>, boxes: map<TrackId, Box>, from: map<TrackId, nat>,
                   w: Work, k: nat, fid: TrackId)
    requires Tracked(live, store) && AllEndRight(live, store, dets, boxes, from, w) && IsFor(live, store, dets, boxes, w, k, fid)
    ensures fid in w.claims.matches
    ensures w.claims.matches[fid] == w.kept[k] <==> forall l :: k < l < |w.kept| ==> !IsFor(live, store, dets, boxes, w, l, fid)
  {
    hide PointsAt, Left;
    assert EndsRight(live, store, dets, boxes, from, w, fid);
    if l :| k < l < |w.kept| && IsFor(live, store, dets, boxes, w, l, fid) {
      assert w.claims.matches[fid] == w.kept[l]
             || exists j :: l < j && IsFor(live, store, dets, boxes, w, j, fid) && w.claims.matches[fid] == w.kept[j];
    }
  }

  /** No two people in view have the same face track. */
  ghost predicate OwnFaces(live: seq<TrackId>, store: Table)
    requires Tracked(live, store)
  {
    forall p, q :: p in live && q in live && p != q && store[p].faceTid.Some? ==> store[p].faceTid != store[q].faceTid
  }

  /** Then every surviving read of a person with a live face track ends on that track. */
  lemma EveryReadEndsOnItsFace(live: seq<TrackId>, store: Table, dets: seq<Detection>, cl: Claims, n: nat, k: nat, fid: TrackId)
    requires n <= |Order(dets)| && Sound(live, store, dets, cl) && forall i: nat :: i < |dets| ==> Holds(cl, i)
    requires OwnFaces(live, store)
    requires var w := Pass(live, store, dets, cl, n);
             Indices(w.kept, |dets|) && IsFor(live, store, dets, PeopleBoxes(store, dets, cl.matches), w, k, fid)
    ensures var w := Pass(live, store, dets, cl, n); fid in w.claims.matches && w.claims.matches[fid] == w.kept[k]
  {
    var boxes, w := PeopleBoxes(store, dets, cl.matches), Pass(live, store, dets, cl, n);
    ReadEndsOnItsFace(live, store, dets, cl, n, k, fid);
    GoodOneEach(live, store, dets, boxes, Order(dets), n, w);
    hide *;
    forall l: nat | k < l < |w.kept|
      ensures !IsFor(live, store, dets, boxes, w, l, fid)
    {
      OneOwnerEach(live, store, dets, boxes, w, k, l, fid);
    }
  }

  lemma GoodOneEach(live: seq<TrackId>, store: Table, dets: seq<Detection>, boxes: map<TrackId, Box>, order: seq<nat>, n: nat,
                    w: Work)
    requires n <= |order| && Tracked(live, store) && Good(live, store, dets, boxes, order, n, w)
    ensures Indices(w.kept, |dets|) && OneEach(live, store, dets, boxes, w)
  {}

  lemma OneOwnerEach(live: seq<TrackId>, store: Table, dets: seq<Detection>, boxes: map<TrackId, Box>, w: Work, k: nat, l: nat,
                     fid: TrackId)
    requires Tracked(live, store) && Indices(w.kept, |dets|) && OneEach(live, store, dets, boxes, w) && OwnFaces(live, store)
    requires k < l < |w.kept| && IsFor(live, store, dets, boxes, w, k, fid)
    ensures !IsFor(live, store, dets, boxes, w, l, fid)
  {
    hide Owner, OwnerNoted;
    if w.kept[l] !in w.dropped { assert SeparateOwners(live, store, dets[w.kept[k]], dets[w.kept[l]], boxes); }
  }

  // ----- two people with one face track -----------------------------------------------------------

  const LEFT_BODY := Box(0.0, 0.0, 100.0, 300.0)
  const RIGHT_BODY := Box(500.0, 0.0, 100.0, 300.0)

  /** A face read at the top of each body, the left one with the higher score. */
  const TWO_READS := [Detection(Face, Box(40.0, 10.0, 20.0, 20.0), 0.9, None, false, false, false, None),
                      Detection(Face, Box(540.0, 10.0, 20.0, 20.0), 0.8, None, false, false, false, None)]

  /** Tracks 1 and 2 are people, with these bodies, and track 3 is the face of both: one was out of view while
      the face was linked to the other. */
  ghost predicate ShareAFace(live: seq<TrackId>, store: Table) {
    && live == [1, 2, 3] && 1 in store && 2 in store && 3 in store
    && store[1].kind == Person && store[2].kind == Person && store[3].kind == Face
    && store[1].coord == LEFT_BODY && store[2].coord == RIGHT_BODY
    && store[1].faceTid == Some(3) && store[2].faceTid == Some(3)
  }

  const NOTHING_MATCHED := Claims(map[], [0, 1])

  lemma TwoInOrder<T>(a: T, b: T, key: T -> real)
    requires key(a) <= key(b)
    ensures SortStable([a, b], key) == [a, b]
  {
    assert [a, b][..1] == [a] && [a][..0] == [];
    assert SortStable([a], key) == [a];
  }

  lemma TwoReadsOrder()
    ensures Order(TWO_READS) == [0, 1]
  {
    assert Upto(2) == [0, 1];
    var a: nat, b: nat := 0, 1;
    TwoInOrder(a, b, ByScore(TWO_READS));
    TwoInOrder(a, b, HeadsFirst(TWO_READS));
    hide SortStable;
  }

  lemma TwoPeople(live: seq<TrackId>, store: Table)
    requires ShareAFace(live, store)
    ensures People(live, store, map[], 3) == [Candidate(1, LEFT_BODY), Candidate(2, RIGHT_BODY)]
  {
    assert People(live, store, map[], 0) == [];
    assert People(live, store, map[], 1) == [Candidate(1, LEFT_BODY)];
    assert People(live, store, map[], 2) == [Candidate(1, LEFT_BODY), Candidate(2, RIGHT_BODY)];
  }

  /** A face whose centre is in one of two bodies only, at its head, belongs there. */
  lemma OwnerOfTwo(live: seq<TrackId>, store: Table, face: Box, a: Candidate, b: Candidate)
    requires Tracked(live, store) && People(live, store, map[], |live|) == [a, b] && CenterInside(face, a.box) != CenterInside(face, b.box)
    requires FaceDepth(face, if CenterInside(face, a.box) then a.box else b.box) <= FACE_HEAD_FRACTION
    ensures Owner(live, store, face, map[], None) == Some(if CenterInside(face, a.box) then a.tid else b.tid)
  {
    hide CenterInside, FaceDepth, People;
    var c := if CenterInside(face, a.box) then a else b;
    assert [a, b][..1] == [a] && [a][..0] == [];
    assert Holders([a], face) == if CenterInside(face, a.box) then [a] else [];
    assert Holders([a, b], face) == [c];
    assert [c][..0] == [];
    assert Heads([c], face) == [c];
  }

  lemma TwoOwners(live: seq<TrackId>, store: Table)
    requires ShareAFace(live, store)
    ensures Tracked(live, store) && PeopleBoxes(store, TWO_READS, map[]) == map[]
    ensures OwnerOf(live, store, TWO_READS[0], map[]) == Some(1) && OwnerOf(live, store, TWO_READS[1], map[]) == Some(2)
  {
    TwoPeople(live, store);
    TwoCentres();
    hide CenterInside, FaceDepth, People, Owner;
    OwnerOfTwo(live, store, TWO_READS[0].coord, Candidate(1, LEFT_BODY), Candidate(2, RIGHT_BODY));
    OwnerOfTwo(live, store, TWO_READS[1].coord, Candidate(1, LEFT_BODY), Candidate(2, RIGHT_BODY));
  }

  lemma TwoCentres()
    ensures CenterInside(TWO_READS[0].coord, LEFT_BODY) && !CenterInside(TWO_READS[0].coord, RIGHT_BODY)
    ensures CenterInside(TWO_READS[1].coord, RIGHT_BODY) && !CenterInside(TWO_READS[1].coord, LEFT_BODY)
    ensures FaceDepth(TWO_READS[0].coord, LEFT_BODY) <= FACE_HEAD_FRACTION
    ensures FaceDepth(TWO_READS[1].coord, RIGHT_BODY) <= FACE_HEAD_FRACTION
    ensures Iou(TWO_READS[1].coord, TWO_READS[0].coord) < SAME_FACE_IOU
  {}

  /** A first read of somebody with a live face track takes the track. */
  lemma StepTakes(live: seq<TrackId>, store: Table, dets: seq<Detection>, boxes: map<TrackId, Box>, w: Work, idx: nat,
                  owner: TrackId, fid: TrackId)
    requires Tracked(live, store) && idx < |dets| && Indices(w.kept, |dets|)
    requires IsRead(dets[idx]) && !OverlapsKept(dets, w, idx)
    requires OwnerOf(live, store, dets[idx], boxes) == Some(owner) && owner !in w.claimed
    requires owner in live && store[owner].faceTid == Some(fid) && fid in live && store[fid].kind == Face
    ensures Step(live, store, dets, boxes, w, idx)
         == Work(Repoint(w.claims, fid, idx), w.kept + [idx], w.claimed + {owner}, w.dropped)
  {
    hide Owner, Iou, Drop, Repoint;
  }

  lemma FirstRead(live: seq<TrackId>, store: Table, w: Work)
    requires ShareAFace(live, store) && w == Work(NOTHING_MATCHED, [], {}, {})
    ensures Tracked(live, store) && Step(live, store, TWO_READS, map[], w, 0) == Work(Claims(map[3 := 0], [1]), [0], {1}, {})
  {
    TwoOwners(live, store);
    hide Owner, Iou, Step;
    assert Remove([0, 1], 0) == [1];
    assert Repoint(w.claims, 3, 0) == Claims(map[3 := 0], [1]);
    hide Repoint, OwnerOf;
    StepTakes(live, store, TWO_READS, map[], w, 0, 1, 3);
  }

  lemma TakesOver()
    ensures Repoint(Claims(map[3 := 0], [1]), 3, 1) == Claims(map[3 := 1], [0])
  {
    var cl := Claims(map[3 := 0], [1]);
    assert Freed(cl, 3, 1) == [1, 0];
    assert Remove([1, 0], 1) == [0];
    assert Others(cl.matches, 3, 1) == map[3 := 0];
  }

  lemma SecondReadTakes(live: seq<TrackId>, store: Table, w: Work)
    requires ShareAFace(live, store) && w == Work(Claims(map[3 := 0], [1]), [0], {1}, {})
    ensures Tracked(live, store) && Step(live, store, TWO_READS, map[], w, 1) == Work(Claims(map[3 := 1], [0]), [0, 1], {1, 2}, {})
  {
    TwoOwners(live, store);
    TwoCentres();
    TakesOver();
    hide Owner, Iou, Step, Repoint, OwnerOf;
    StepTakes(live, store, TWO_READS, map[], w, 1, 2, 3);
  }

  lemma NothingMatchedIsSound(live: seq<TrackId>, store: Table)
    requires ShareAFace(live, store)
    ensures Sound(live, store, TWO_READS, NOTHING_MATCHED) && forall i: nat :: i < 2 ==> Holds(NOTHING_MATCHED, i)
    ensures |TWO_READS| == 2 && NOTHING_MATCHED.matches == map[]
  {}

  /** Both reads belong to somebody and survive, but the left one, that comes first, loses the track to the
      right one and is given back. */
  lemma SharedFaceLosesARead(live: seq<TrackId>, store: Table)
    requires ShareAFace(live, store)
    ensures Tracked(live, store) && Sound(live, store, TWO_READS, NOTHING_MATCHED) && |TWO_READS| == 2
    ensures (forall i: nat :: i < 2 ==> Holds(NOTHING_MATCHED, i)) && |Order(TWO_READS)| == 2
    ensures OwnerOf(live, store, TWO_READS[0], map[]) == Some(1) && OwnerOf(live, store, TWO_READS[1], map[]) == Some(2)
    ensures Pass(live, store, TWO_READS, NOTHING_MATCHED, 2) == Work(Claims(map[3 := 1], [0]), [0, 1], {1, 2}, {})
  {
    hide *;
    TwoOwners(live, store);
    NothingMatchedIsSound(live, store);
    TwoReadsOrder();
    FirstRead(live, store, Work(NOTHING_MATCHED, [], {}, {}));
    SecondReadTakes(live, store, Work(Claims(map[3 := 0], [1]), [0], {1}, {}));
    PassOfNone(live, store, TWO_READS, NOTHING_MATCHED);
    PassStep(live, store, TWO_READS, NOTHING_MATCHED, 1);
    assert Pass(live, store, TWO_READS, NOTHING_MATCHED, 1) == Work(Claims(map[3 := 0], [1]), [0], {1}, {});
    PassStep(live, store, TWO_READS, NOTHING_MATCHED, 2);
  }

  lemma PassOfNone(live: seq<TrackId>, store: Table, dets: seq<Detection>, cl: Claims)
    requires Sound(live, store, dets, cl) && forall i: nat :: i < |dets| ==> Holds(cl, i)
    ensures Pass(live, store, dets, cl, 0) == Work(cl, [], {}, {})
  {
    hide Sound, Holds, Good, AllEndRight;
  }

  function Repointed(live: seq<TrackId>, store: Table, dets: seq<Detection>, cl: Claims): Work
    requires Sound(live, store, dets, cl)
    requires forall i: nat :: i < |dets| ==> Holds(cl, i)
  {
    Pass(live, store, dets, cl, |Order(dets)|)
  }

  /** a and b are the same face found twice, or belong to the same person. */
  ghost predicate RepeatsFace(live: seq<TrackId>, store: Table, a: Detection, b: Detection, boxes: map<TrackId, Box>)
    requires Tracked(live, store)
  {
    || Iou(a.coord, b.coord) >= SAME_FACE_IOU
    || (OwnerOf(live, store, a, boxes).Some? && OwnerOf(live, store, a, boxes) == OwnerOf(live, store, b, boxes))
  }

  ghost predicate SecondRead(live: seq<TrackId>, store: Table, dets: seq<Detection>, boxes: map<TrackId, Box>, i: nat)
    requires Tracked(live, store)
  {
    && i < |dets| && IsRead(dets[i])
    && exists j: nat :: j < |dets| && j != i && IsRead(dets[j]) && RepeatsFace(live, store, dets[i], dets[j], boxes)
  }

  ghost predicate OverlapsKept(dets: seq<Detection>, w: Work, idx: nat)
    requires idx < |dets| && Indices(w.kept, |dets|)
  {
    exists k :: 0 <= k < |w.kept| && Iou(dets[idx].coord, dets[w.kept[k]].coord) >= SAME_FACE_IOU
  }

  /** The four things the pass can do with a detection. */
  lemma StepCases(live: seq<TrackId>, store: Table, dets: seq<Detection>, boxes: map<TrackId, Box>, w: Work, idx: nat)
    requires Tracked(live, store) && idx < |dets| && Indices(w.kept, |dets|)
    ensures var r, owner := Step(live, store, dets, boxes, w, idx), OwnerOf(live, store, dets[idx], boxes);
            if !IsRead(dets[idx]) then r == w
            else if OverlapsKept(dets, w, idx) then
              r == Work(Drop(w.claims, idx), w.kept, w.claimed, w.dropped + {idx})
            else if owner.Some? && owner.value in w.claimed then
              r == Work(Drop(w.claims, idx), w.kept + [idx], w.claimed, w.dropped + {idx})
            else
              && r.kept == w.kept + [idx]
              && r.dropped == w.dropped
              && r.claimed == (if owner.Some? then w.claimed + {owner.value} else w.claimed)
              && (|| r.claims == w.claims
                  || exists fid :: fid in live && store[fid].kind == Face && r.claims == Repoint(w.claims, fid, idx))
  {}

  lemma PassStep(live: seq<TrackId>, store: Table, dets: seq<Detection>, cl: Claims, n: nat)
    requires 0 < n <= |Order(dets)| && Sound(live, store, dets, cl)
    requires forall i: nat :: i < |dets| ==> Holds(cl, i)
    ensures var w, r, idx := Pass(live, store, dets, cl, n - 1), Pass(live, store, dets, cl, n), Order(dets)[n - 1];
            && idx < |dets| && Indices(w.kept, |dets|) && Indices(r.kept, |dets|)
            && r == Step(live, store, dets, PeopleBoxes(store, dets, cl.matches), w, idx)
            && (forall k :: 0 <= k < |w.kept| ==> w.kept[k] != idx && IsRead(dets[w.kept[k]]))
  {
    var w, idx := Pass(live, store, dets, cl, n - 1), Order(dets)[n - 1];
    OrderMembers(dets);
    assert idx in Order(dets);
    assert idx !in Order(dets)[..n - 1];
    assert forall k :: 0 <= k < |w.kept| ==> w.kept[k] in w.kept;
  }

  ghost predicate OwnedByKept(live: seq<TrackId>, store: Table, dets: seq<Detection>, boxes: map<TrackId, Box>,
                              w: Work, owner: TrackId)
    requires Tracked(live, store) && Indices(w.kept, |dets|)
  {
    exists k :: 0 <= k < |w.kept| && OwnerOf(live, store, dets[w.kept[k]], boxes) == Some(owner)
  }

  lemma OwnedByKeptGrows(live: seq<TrackId>, store: Table, dets: seq<Detection>, boxes: map<TrackId, Box>, w: Work,
                         idx: nat, r: Work)
    requires Tracked(live, store) && idx < |dets| && Indices(w.kept, |dets|)
    requires forall o :: o in w.claimed ==> OwnedByKept(live, store, dets, boxes, w, o)
    requires || (r.kept == w.kept && r.claimed == w.claimed)
             || (r.kept == w.kept + [idx]
                 && forall o :: o in r.claimed ==>
                      o in w.claimed || OwnerOf(live, store, dets[idx], boxes) == Some(o))
    ensures Indices(r.kept, |dets|)
    ensures forall o :: o in r.claimed ==> OwnedByKept(live, store, dets, boxes, r, o)
  {
    forall o | o in r.claimed
      ensures OwnedByKept(live, store, dets, boxes, r, o)
    {
      if o in w.claimed {
        var k :| 0 <= k < |w.kept| && OwnerOf(live, store, dets[w.kept[k]], boxes) == Some(o);
        assert r.kept[k] == w.kept[k];
      } else {
        assert r.kept[|w.kept|] == idx;
      }
    }
  }

  /** Everyone with a face from this frame owns a kept read. */
  lemma {:induction false} ClaimedOwnKept(live: seq<TrackId>, store: Table, dets: seq<Detection>, cl: Claims, n: nat)
    requires n <= |Order(dets)| && Sound(live, store, dets, cl)
    requires forall i: nat :: i < |dets| ==> Holds(cl, i)
    ensures var boxes, w := PeopleBoxes(store, dets, cl.matches), Pass(live, store, dets, cl, n);
            forall o :: o in w.claimed ==> OwnedByKept(live, store, dets, boxes, w, o)
  {
    hide Step, Owner, Good;
    if n > 0 {
      ClaimedOwnKept(live, store, dets, cl, n - 1);
      PassStep(live, store, dets, cl, n);
      var boxes, w, idx := PeopleBoxes(store, dets, cl.matches), Pass(live, store, dets, cl, n - 1), Order(dets)[n - 1];
      StepCases(live, store, dets, boxes, w, idx);
      OwnedByKeptGrows(live, store, dets, boxes, w, idx, Pass(live, store, dets, cl, n));
    }
  }

  /** A dropped read repeats another read. */
  lemma {:induction false} DroppedAreSecondReads(live: seq<TrackId>, store: Table, dets: seq<Detection>, cl: Claims,
                                                 n: nat, i: nat)
    requires n <= |Order(dets)| && Sound(live, store, dets, cl)
    requires forall i: nat :: i < |dets| ==> Holds(cl, i)
    requires i in Pass(live, store, dets, cl, n).dropped
    ensures SecondRead(live, store, dets, PeopleBoxes(store, dets, cl.matches), i)
  {
    hide Step, Owner, Good;
    if n > 0 {
      PassStep(live, store, dets, cl, n);
      var boxes, w, idx := PeopleBoxes(store, dets, cl.matches), Pass(live, store, dets, cl, n - 1), Order(dets)[n - 1];
      StepCases(live, store, dets, boxes, w, idx);
      if i in w.dropped {
        DroppedAreSecondReads(live, store, dets, cl, n - 1, i);
      } else {
        var k: nat;
        if OverlapsKept(dets, w, idx) {
          k :| 0 <= k < |w.kept| && Iou(dets[idx].coord, dets[w.kept[k]].coord) >= SAME_FACE_IOU;
        } else {
          ClaimedOwnKept(live, store, dets, cl, n - 1);
          k :| 0 <= k < |w.kept| && OwnerOf(live, store, dets[w.kept[k]], boxes) == OwnerOf(live, store, dets[idx], boxes);
        }
        Witness(live, store, dets, boxes, w, idx, k);
      }
    }
  }

  lemma Witness(live: seq<TrackId>, store: Table, dets: seq<Detection>, boxes: map<TrackId, Box>, w: Work,
                idx: nat, k: nat)
    requires Tracked(live, store) && Indices(w.kept, |dets|) && idx < |dets| && IsRead(dets[idx])
    requires k < |w.kept| && w.kept[k] != idx && IsRead(dets[w.kept[k]])
    requires RepeatsFace(live, store, dets[idx], dets[w.kept[k]], boxes)
    ensures SecondRead(live, store, dets, boxes, idx)
  {
    var j := w.kept[k];
    assert j < |dets| && j != idx && IsRead(dets[j]) && RepeatsFace(live, store, dets[idx], dets[j], boxes);
  }

  /** The pass leaves the matches of tracks that are not faces alone. */
  lemma {:induction false} PassLeavesOthers(live: seq<TrackId>, store: Table, dets: seq<Detection>, cl: Claims, n: nat)
    requires n <= |Order(dets)| && Sound(live, store, dets, cl)
    requires forall i: nat :: i < |dets| ==> Holds(cl, i)
    ensures var r := Pass(live, store, dets, cl, n).claims.matches;
            forall t :: t in r && t in store && store[t].kind != Face ==> t in cl.matches && r[t] == cl.matches[t]
  {
    hide Step, Owner, Good;
    if n > 0 {
      PassLeavesOthers(live, store, dets, cl, n - 1);
      PassStep(live, store, dets, cl, n);
      StepCases(live, store, dets, PeopleBoxes(store, dets, cl.matches), Pass(live, store, dets, cl, n - 1),
                Order(dets)[n - 1]);
    }
  }
}
