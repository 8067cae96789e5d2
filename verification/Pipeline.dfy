/** The whole matching pipeline of a tick: one of the two matchers, then the faces, then the boxes
    cut off by their crop. */
module Pipeline {
  import opened Wrappers
  import opened Geometry
  import opened Lists
  import opened Tracks
  import opened Matching
  import Norfair
  import Faces

  /** pending {detection index: Norfair id} binds a Norfair object to the track its detection will
      end up in. */
  datatype Result = Result(claims: Claims, ids: Norfair.Ids, pending: map<nat, Gid>)

  /** What a frame gives the matcher. */
  ghost predicate FrameOk(live: seq<TrackId>, store: Table, dets: seq<Detection>, assoc: seq<(nat, Gid)>,
                          ids: Norfair.Ids) {
    && Tracked(live, store) && NoDup(live)
    && Norfair.SeededOk(live, store, dets)
    && Norfair.AssocOk(dets, assoc)
    && Norfair.IdsOk(store, ids)
  }

  function Pending(unclaimed: seq<nat>, assoc: seq<(nat, Gid)>): map<nat, Gid> {
    map i | i in unclaimed && Norfair.GidOf(assoc, i).Some? :: Norfair.GidOf(assoc, i).value
  }

  /** Either matcher. */
  function Associate(norfair: bool, live: seq<TrackId>, store: Table, dets: seq<Detection>,
                     assoc: seq<(nat, Gid)>, ids: Norfair.Ids): (r: Result)
    requires FrameOk(live, store, dets, assoc, ids)
    ensures Sound(live, store, dets, r.claims)
    ensures forall i: nat :: i < |dets| ==> Holds(r.claims, i)
    ensures Norfair.IdsOk(store, r.ids)
    ensures norfair ==> Norfair.OnSpot(store, dets, r.claims)
  {
    if norfair then
      var w := Norfair.Match(live, store, dets, assoc, ids);
      Result(w.claims, w.ids, Pending(w.claims.unclaimed, assoc))
    else
      Result(Builtin(live, store, dets), ids, map[])
  }

  /** A match of a moving track with a cut-off box is forgotten. */
  function WholeMatches(store: Table, dets: seq<Detection>, m: map<TrackId, nat>): map<TrackId, nat> {
    map t | t in m && !(m[t] < |dets| && dets[m[t]].clipped && t in store && store[t].parked.None?) :: m[t]
  }

  function WholeBoxes(dets: seq<Detection>, s: seq<nat>): seq<nat> {
    if s == [] then []
    else
      var last := s[|s| - 1];
      WholeBoxes(dets, s[..|s| - 1]) + (if last < |dets| && dets[last].clipped then [] else [last])
  }

  lemma {:induction false} WholeBoxesMembers(dets: seq<Detection>, s: seq<nat>)
    requires NoDup(s)
    ensures NoDup(WholeBoxes(dets, s))
    ensures forall i :: i in WholeBoxes(dets, s) <==> i in s && !(i < |dets| && dets[i].clipped)
  {
    if s != [] {
      var front, last := s[..|s| - 1], s[|s| - 1];
      WholeBoxesMembers(dets, front);
      assert s == front + [last] && last !in front;
      assert last !in WholeBoxes(dets, front);
    }
  }

  function Clip(store: Table, dets: seq<Detection>, cl: Claims): Claims {
    Claims(WholeMatches(store, dets, cl.matches), WholeBoxes(dets, cl.unclaimed))
  }

  lemma ClipIsSound(live: seq<TrackId>, store: Table, dets: seq<Detection>, cl: Claims)
    requires Sound(live, store, dets, cl)
    ensures Sound(live, store, dets, Clip(store, dets, cl))
    ensures forall i: nat :: i < |dets| && Holds(cl, i) && !dets[i].clipped ==> Holds(Clip(store, dets, cl), i)
    ensures forall i :: Holds(Clip(store, dets, cl), i) ==> Holds(cl, i)
  {
    var r := Clip(store, dets, cl);
    WholeBoxesMembers(dets, cl.unclaimed);
    forall k | 0 <= k < |r.unclaimed|
      ensures r.unclaimed[k] < |dets|
    {
      assert r.unclaimed[k] in cl.unclaimed;
    }
    forall i: nat | i < |dets| && Holds(cl, i) && !dets[i].clipped
      ensures Holds(r, i)
    {
      if t :| t in cl.matches && cl.matches[t] == i { assert t in r.matches && r.matches[t] == i; }
    }
  }

  function Match(norfair: bool, live: seq<TrackId>, store: Table, dets: seq<Detection>, assoc: seq<(nat, Gid)>,
                 ids: Norfair.Ids): Result
    requires FrameOk(live, store, dets, assoc, ids)
  {
    var a := Associate(norfair, live, store, dets, assoc, ids);
    var f := Faces.Repointed(live, store, dets, a.claims);
    Result(Clip(store, dets, f.claims), a.ids, a.pending)
  }

  /** The pipeline always leaves an injective, type-preserving map from live tracks to detections and
      a duplicate-free list of unclaimed ones disjoint from it. */
  lemma MatchIsSound(norfair: bool, live: seq<TrackId>, store: Table, dets: seq<Detection>,
                     assoc: seq<(nat, Gid)>, ids: Norfair.Ids)
    requires FrameOk(live, store, dets, assoc, ids)
    ensures var r := Match(norfair, live, store, dets, assoc, ids);
            Sound(live, store, dets, r.claims) && Norfair.IdsOk(store, r.ids)
  {
    var a := Associate(norfair, live, store, dets, assoc, ids);
    ClipIsSound(live, store, dets, Faces.Repointed(live, store, dets, a.claims).claims);
  }

  /** Only second reads of a face and cut-off boxes are lost: every other detection is matched or
      unclaimed afterwards. A lost read has another face read it overlaps or shares an owner with. */
  lemma OnlySecondReadsAndClippedAreLost(norfair: bool, live: seq<TrackId>, store: Table, dets: seq<Detection>,
                                         assoc: seq<(nat, Gid)>, ids: Norfair.Ids, i: nat)
    requires FrameOk(live, store, dets, assoc, ids) && i < |dets|
    ensures var first := Associate(norfair, live, store, dets, assoc, ids).claims;
            || Holds(Match(norfair, live, store, dets, assoc, ids).claims, i)
            || dets[i].clipped
            || Faces.SecondRead(live, store, dets, Faces.PeopleBoxes(store, dets, first.matches), i)
  {
    var first := Associate(norfair, live, store, dets, assoc, ids).claims;
    var boxes := Faces.PeopleBoxes(store, dets, first.matches);
    var f := Faces.Repointed(live, store, dets, first);
    ClipIsSound(live, store, dets, f.claims);
    if i in f.dropped {
      Faces.DroppedAreSecondReads(live, store, dets, first, |Faces.Order(dets)|, i);
    }
  }

  /** The face reads that survive are different faces of different people. */
  lemma SurvivingReadsAreSeparate(norfair: bool, live: seq<TrackId>, store: Table, dets: seq<Detection>,
                                  assoc: seq<(nat, Gid)>, ids: Norfair.Ids, i: nat, j: nat)
    requires FrameOk(live, store, dets, assoc, ids) && i < |dets| && j < |dets| && i != j
    requires Faces.IsRead(dets[i]) && Faces.IsRead(dets[j])
    ensures var first := Associate(norfair, live, store, dets, assoc, ids).claims;
            var r := Match(norfair, live, store, dets, assoc, ids).claims;
            Holds(r, i) && Holds(r, j) ==>
              !Faces.RepeatsFace(live, store, dets[i], dets[j], Faces.PeopleBoxes(store, dets, first.matches))
  {
    hide Faces.Owner, Faces.Pass, Faces.Order, Associate, Clip, Sound, Iou;
    var first := Associate(norfair, live, store, dets, assoc, ids).claims;
    var f := Faces.Repointed(live, store, dets, first);
    ClipIsSound(live, store, dets, f.claims);
    Faces.OrderMembers(dets);
    assert Faces.Order(dets)[..|Faces.Order(dets)|] == Faces.Order(dets);
    if i in f.dropped || j in f.dropped { return; }
    assert i in f.kept && j in f.kept;
    var k :| 0 <= k < |f.kept| && f.kept[k] == i;
    var l :| 0 <= l < |f.kept| && f.kept[l] == j;
    IouSymmetric(dets[i].coord, dets[j].coord);
    var boxes := Faces.PeopleBoxes(store, dets, first.matches);
    if k < l {
      assert Faces.SeparateOwners(live, store, dets[f.kept[k]], dets[f.kept[l]], boxes);
    } else {
      assert Faces.SeparateOwners(live, store, dets[f.kept[l]], dets[f.kept[k]], boxes);
    }
  }

  /** Under Norfair a parked track that is not a face gets its own repeated box, or one overlapping
      its parked spot by at least the matching threshold. */
  lemma NorfairKeepsParkedOnSpot(live: seq<TrackId>, store: Table, dets: seq<Detection>,
                                 assoc: seq<(nat, Gid)>, ids: Norfair.Ids, t: TrackId)
    requires FrameOk(live, store, dets, assoc, ids)
    requires t in store && store[t].kind != Face && store[t].parked.Some?
    ensures var matches := Match(true, live, store, dets, assoc, ids).claims.matches;
            t in matches ==>
              && matches[t] < |dets|
              && (|| dets[matches[t]].seeded == Some(t)
                  || Iou(store[t].parked.value, dets[matches[t]].coord) >= IOU_MATCH_THRESHOLD)
  {
    var first := Associate(true, live, store, dets, assoc, ids).claims;
    Faces.PassLeavesOthers(live, store, dets, first, |Faces.Order(dets)|);
    MatchIsSound(true, live, store, dets, assoc, ids);
  }
}
