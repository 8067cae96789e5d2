/** Matching with Norfair's associations. Norfair's Kalman filter is an input: a list of (detection
    index, global id) pairs. What is modelled is everything around it: which association is obeyed,
    which one makes an id let go of its track, and what is matched without it. */
module Norfair {
  import opened Wrappers
  import opened Geometry
  import opened Lists
  import opened Tracks
  import opened Matching

  type Ids = map<Gid, TrackId>

  datatype Work = Work(ids: Ids, claims: Claims)

  /** What Norfair returns for a frame: each detection at most once, each id of its own type. */
  ghost predicate AssocOk(dets: seq<Detection>, assoc: seq<(nat, Gid)>) {
    && (forall k :: 0 <= k < |assoc| ==> assoc[k].0 < |dets| && assoc[k].1.kind == dets[assoc[k].0].kind)
    && (forall k, l :: 0 <= k < l < |assoc| ==> assoc[k].0 != assoc[l].0)
  }

  /** A repeated box of a parked track carries that track's type. */
  ghost predicate SeededOk(live: seq<TrackId>, store: Table, dets: seq<Detection>) {
    forall i :: 0 <= i < |dets| && dets[i].seeded.Some? && dets[i].seeded.value in live ==>
      dets[i].seeded.value in store && dets[i].kind == store[dets[i].seeded.value].kind
  }

  ghost predicate IdsOk(store: Table, ids: Ids) {
    forall g :: g in ids ==> ids[g] in store && store[ids[g]].kind == g.kind
  }

  /** Norfair objects whose track is gone are forgotten. */
  function Prune(ids: Ids, live: seq<TrackId>): Ids {
    map g | g in ids && ids[g] in live :: ids[g]
  }

  function GidOf(assoc: seq<(nat, Gid)>, idx: nat): (r: Option<Gid>)
    ensures r.Some? ==> (idx, r.value) in assoc
  {
    if assoc == [] then None
    else if assoc[0].0 == idx then Some(assoc[0].1)
    else GidOf(assoc[1..], idx)
  }

  function Bind(ids: Ids, assoc: seq<(nat, Gid)>, idx: nat, tid: TrackId): Ids {
    var g := GidOf(assoc, idx);
    if g.Some? then ids[g.value := tid] else ids
  }

  lemma BindIsOk(store: Table, dets: seq<Detection>, ids: Ids, assoc: seq<(nat, Gid)>, idx: nat, tid: TrackId)
    requires IdsOk(store, ids) && AssocOk(dets, assoc)
    requires idx < |dets| && tid in store && store[tid].kind == dets[idx].kind
    ensures IdsOk(store, Bind(ids, assoc, idx, tid))
  {
    var g := GidOf(assoc, idx);
    if g.Some? {
      var k :| 0 <= k < |assoc| && assoc[k] == (idx, g.value);
    }
  }

  /** A parked track only takes its own repeated box, or one overlapping its parked spot. */
  ghost predicate OnSpot(store: Table, dets: seq<Detection>, cl: Claims) {
    forall t :: t in cl.matches && t in store && cl.matches[t] < |dets| && store[t].parked.Some? ==>
      || dets[cl.matches[t]].seeded == Some(t)
      || Iou(store[t].parked.value, dets[cl.matches[t]].coord) >= IOU_MATCH_THRESHOLD
  }

  ghost predicate Good(live: seq<TrackId>, store: Table, dets: seq<Detection>, w: Work) {
    && Sound(live, store, dets, w.claims)
    && OnSpot(store, dets, w.claims)
    && IdsOk(store, w.ids)
    && (forall i: nat :: i < |dets| ==> Holds(w.claims, i))
  }

  lemma ClaimIsGood(live: seq<TrackId>, store: Table, dets: seq<Detection>, w: Work, tid: TrackId, idx: nat, ids: Ids)
    requires Good(live, store, dets, w)
    requires tid in live && tid !in w.claims.matches && idx in w.claims.unclaimed
    requires idx < |dets| && dets[idx].kind == store[tid].kind && IdsOk(store, ids)
    requires store[tid].parked.Some? ==>
               || dets[idx].seeded == Some(tid)
               || Iou(store[tid].parked.value, dets[idx].coord) >= IOU_MATCH_THRESHOLD
    ensures Good(live, store, dets, Work(ids, Claim(w.claims, tid, idx)))
    ensures forall i :: i != idx && i in w.claims.unclaimed ==> i in Claim(w.claims, tid, idx).unclaimed
  {
    ClaimIsSound(live, store, dets, w.claims, tid, idx);
    RemoveMembers(w.claims.unclaimed, idx);
  }

  lemma StartIsGood(live: seq<TrackId>, store: Table, dets: seq<Detection>, ids: Ids)
    requires Tracked(live, store) && IdsOk(store, ids)
    ensures Good(live, store, dets, Work(ids, Start(dets)))
    ensures forall i: nat :: i < |dets| ==> i in Start(dets).unclaimed
  {
    StartIsSound(live, store, dets);
  }

  /** Repeated boxes of parked tracks: the first n detections. */
  function BySeed(live: seq<TrackId>, store: Table, dets: seq<Detection>, assoc: seq<(nat, Gid)>, ids: Ids,
                  n: nat): (r: Work)
    requires n <= |dets| && Tracked(live, store) && SeededOk(live, store, dets)
    requires AssocOk(dets, assoc) && IdsOk(store, ids)
    ensures Good(live, store, dets, r)
    ensures forall i: nat :: n <= i < |dets| ==> i in r.claims.unclaimed
  {
    if n == 0 then
      StartIsGood(live, store, dets, ids);
      Work(ids, Start(dets))
    else
      var w, idx := BySeed(live, store, dets, assoc, ids, n - 1), n - 1;
      var seed := dets[idx].seeded;
      if seed.Some? && seed.value in live && seed.value !in w.claims.matches then
        BindIsOk(store, dets, w.ids, assoc, idx, seed.value);
        ClaimIsGood(live, store, dets, w, seed.value, idx, Bind(w.ids, assoc, idx, seed.value));
        Work(Bind(w.ids, assoc, idx, seed.value), Claim(w.claims, seed.value, idx))
      else
        w
  }

  /** The first n associations. A parked track lets go of an id that Norfair moved off its spot, and
      a moving one of an id whose box is another size. */
  function ByAssociation(live: seq<TrackId>, store: Table, dets: seq<Detection>, assoc: seq<(nat, Gid)>,
                         w: Work, n: nat): (r: Work)
    requires n <= |assoc| && AssocOk(dets, assoc) && Good(live, store, dets, w)
    ensures Good(live, store, dets, r)
  {
    if n == 0 then w
    else
      var p, idx, g := ByAssociation(live, store, dets, assoc, w, n - 1), assoc[n - 1].0, assoc[n - 1].1;
      if idx !in p.claims.unclaimed || g !in p.ids || p.ids[g] !in live || p.ids[g] in p.claims.matches then p
      else
        var tid := p.ids[g];
        var tr := store[tid];
        if tr.parked.Some? && Iou(tr.parked.value, dets[idx].coord) < IOU_MATCH_THRESHOLD then
          p.(ids := p.ids - {g})
        else if tr.parked.None? && SizeJump(SizeRef(tr), dets[idx].coord) then
          p.(ids := p.ids - {g})
        else
          ClaimIsGood(live, store, dets, p, tid, idx, p.ids);
          p.(claims := Claim(p.claims, tid, idx))
  }

  predicate CoversSpot(tr: Track, d: Detection) {
    tr.parked.Some? && d.kind == tr.kind && Iou(tr.parked.value, d.coord) >= IOU_MATCH_THRESHOLD
  }

  /** The box covering a parked track's spot best, the last of equal ones. */
  function BestOnSpot(tr: Track, dets: seq<Detection>, unclaimed: seq<nat>, n: nat): (r: Option<nat>)
    requires n <= |unclaimed| && Indices(unclaimed, |dets|) && tr.parked.Some?
    ensures r.Some? ==> r.value in unclaimed && CoversSpot(tr, dets[r.value])
  {
    if n == 0 then None
    else
      var best, idx := BestOnSpot(tr, dets, unclaimed, n - 1), unclaimed[n - 1];
      if CoversSpot(tr, dets[idx])
         && (best.None? || Iou(tr.parked.value, dets[idx].coord) >= Iou(tr.parked.value, dets[best.value].coord))
      then Some(idx) else best
  }

  /** No unclaimed box covers the spot better, and none after the chosen one as well. */
  lemma {:induction false} BestOnSpotIsBest(tr: Track, dets: seq<Detection>, unclaimed: seq<nat>, n: nat)
    requires n <= |unclaimed| && Indices(unclaimed, |dets|) && tr.parked.Some?
    ensures var best := BestOnSpot(tr, dets, unclaimed, n);
            && (best.None? ==> forall k :: 0 <= k < n ==> !CoversSpot(tr, dets[unclaimed[k]]))
            && (best.Some? ==>
                  exists l :: 0 <= l < n && unclaimed[l] == best.value
                    && (forall k :: 0 <= k < n && CoversSpot(tr, dets[unclaimed[k]]) ==>
                          var cover, most := Iou(tr.parked.value, dets[unclaimed[k]].coord),
                                             Iou(tr.parked.value, dets[best.value].coord);
                          cover <= most && (k > l ==> cover < most)))
  {
    hide Iou;
    if n > 0 { BestOnSpotIsBest(tr, dets, unclaimed, n - 1); }
  }

  function Leftover(tr: Track, dets: seq<Detection>, unclaimed: seq<nat>): (r: Option<nat>)
    requires Indices(unclaimed, |dets|)
    ensures r.Some? ==> r.value in unclaimed && dets[r.value].kind == tr.kind
    ensures r.Some? && tr.parked.Some? ==> CoversSpot(tr, dets[r.value])
  {
    if tr.parked.Some? then BestOnSpot(tr, dets, unclaimed, |unclaimed|)
    else Nearest(tr, dets, unclaimed, |unclaimed|)
  }

  /** The first n live tracks take what Norfair left them. */
  function ByLeftover(live: seq<TrackId>, store: Table, dets: seq<Detection>, assoc: seq<(nat, Gid)>,
                      w: Work, n: nat): (r: Work)
    requires n <= |live| && AssocOk(dets, assoc) && Good(live, store, dets, w)
    ensures Good(live, store, dets, r)
  {
    if n == 0 then w
    else
      var p, tid := ByLeftover(live, store, dets, assoc, w, n - 1), live[n - 1];
      if tid in p.claims.matches then p
      else
        var found := Leftover(store[tid], dets, p.claims.unclaimed);
        if found.None? then p
        else
          BindIsOk(store, dets, p.ids, assoc, found.value, tid);
          ClaimIsGood(live, store, dets, p, tid, found.value, Bind(p.ids, assoc, found.value, tid));
          Work(Bind(p.ids, assoc, found.value, tid), Claim(p.claims, tid, found.value))
  }

  function Match(live: seq<TrackId>, store: Table, dets: seq<Detection>, assoc: seq<(nat, Gid)>, ids: Ids): (r: Work)
    requires Tracked(live, store) && SeededOk(live, store, dets)
    requires AssocOk(dets, assoc) && IdsOk(store, ids)
    ensures Good(live, store, dets, r)
  {
    var w := BySeed(live, store, dets, assoc, Prune(ids, live), |dets|);
    ByLeftover(live, store, dets, assoc, ByAssociation(live, store, dets, assoc, w, |assoc|), |live|)
  }
}
