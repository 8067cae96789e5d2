/** What a tick can do to one track: how its misses, its score gate and its parking go on. */
module TrackLife {
  import opened Wrappers
  import opened Geometry
  import opened Lists
  import opened Tracks
  import opened Matching
  import opened Engine
  import opened EngineInvariant
  import opened EventTrace
  import opened EventFacts
  import ScoreGate
  import Pipeline

  /** Parking goes on: a parked track stays parked, with its shift counter at its spot unchanged or
      restarted; a moving one keeps moving or is freshly parked. */
  predicate ParkingGoesOn(tr: Track, r: Track) {
    if tr.parked.None? then r.parked.None? || r.movedTicks == 0
    else r.parked.Some? && (r.movedTicks == 0 || (r.parked == tr.parked && r.movedTicks == tr.movedTicks))
  }

  /** What the phases after matching leave alone. */
  predicate Steady(at: Stamp, tr: Track, r: Track) {
    && r.kind == tr.kind && r.missCount == tr.missCount && r.gate == tr.gate
    && r.coord == tr.coord && r.score == tr.score
    && ParkingGoesOn(tr, r) && HistoryGoesOn(at, tr, r)
  }

  /** Each remembered frame was remembered before or is the one at this stamp, with the track's box and
      score. */
  predicate HistoryGoesOn(at: Stamp, tr: Track, r: Track) {
    forall x :: x in r.history ==> x in tr.history || x == Seen(at, tr.coord, tr.score)
  }

  /** No shift counted (a moving track's counter means nothing). */
  predicate Unshifted(tr: Track) {
    tr.parked.None? || tr.movedTicks == 0
  }

  ghost predicate AllSteady(at: Stamp, s: Table, r: Table) {
    && (forall t :: t in s ==> t in r && Steady(at, s[t], r[t]))
    && (forall t :: t in r && t !in s ==> r[t].gate.history == [])      // of which there are none
  }

  lemma SteadyTrans(at: Stamp, a: Table, b: Table, c: Table)
    requires AllSteady(at, a, b) && AllSteady(at, b, c)
    ensures AllSteady(at, a, c)
  {}

  lemma SteadyPut(at: Stamp, s: State, tid: TrackId, r: Track)
    requires if tid in s.store then Steady(at, s.store[tid], r) else r.gate.history == []
    ensures AllSteady(at, s.store, Put(s, tid, r).store)
  {}

  lemma LinkPairSteady(at: Stamp, s: State, fid: TrackId, pid: TrackId)
    ensures AllSteady(at, s.store, LinkPair(s, fid, pid).store)
  {
    hide AllSteady;
    var f1 := At(s.store, fid).(personTid := Some(pid));
    var s1 := Put(s, fid, f1);
    SteadyPut(at, s, fid, f1);
    SteadyPut(at, s1, pid, WithFace(s1, At(s1.store, pid), fid));
    SteadyTrans(at, s.store, s1.store, LinkPair(s, fid, pid).store);
  }

  lemma LinkOneSteady(inp: Input, s: State, fid: TrackId)
    ensures AllSteady(inp.at, s.store, LinkOne(inp, s, fid).store)
  {
    hide AllSteady, LinkPair, PersonOf;
    SteadySame(inp.at, s.store);
    var pid := PersonOf(s, At(s.store, fid));
    if At(s.store, fid).kind == Face && pid.Some? {
      LinkPairSteady(inp.at, s, fid, pid.value);
      var s1 := LinkPair(s, fid, pid.value);
      var face, person := At(s1.store, fid), At(s1.store, pid.value);
      SteadyPut(inp.at, s1, fid, face.(zoned := face.zoned || (person.zoned && inp.faceZone(person.coord))));
      SteadyTrans(inp.at, s.store, s1.store, LinkOne(inp, s, fid).store);
    }
  }

  lemma {:induction false} LinkAllSteady(inp: Input, s: State, n: nat)
    requires n <= |s.live|
    ensures AllSteady(inp.at, s.store, LinkAll(inp, s, n).store)
  {
    hide LinkOne, AllSteady;
    if n == 0 {
      SteadySame(inp.at, s.store);
    } else {
      LinkAllSteady(inp, s, n - 1);
      LinkOneSteady(inp, LinkAll(inp, s, n - 1), s.live[n - 1]);
      SteadyTrans(inp.at, s.store, LinkAll(inp, s, n - 1).store, LinkAll(inp, s, n).store);
    }
  }

  /** One more step that leaves its track steady. */
  lemma SteadyStep(at: Stamp, a: Table, store: Table, tid: TrackId, r: Track)
    requires AllSteady(at, a, store) && Steady(at, At(store, tid), r)
    ensures AllSteady(at, a, store[tid := r])
  {
    forall t | t in a
      ensures t in store && Steady(at, a[t], store[tid := r][t])
    {
      if t == tid { OneSteady(at, a[t], store[t], r); }
    }
  }

  lemma OneSteady(at: Stamp, a: Track, b: Track, r: Track)
    requires Steady(at, a, b) && Steady(at, b, r)
    ensures Steady(at, a, r)
  {}

  lemma {:induction false} RememberAllSteady(c: Config, inp: Input, s: State, n: nat)
    requires n <= |s.live|
    ensures AllSteady(inp.at, s.store, RememberAll(c, inp, s, n).store)
  {
    hide AllSteady;
    if n == 0 {
      SteadySame(inp.at, s.store);
    } else {
      RememberAllSteady(c, inp, s, n - 1);
      var p, tid := RememberAll(c, inp, s, n - 1), s.live[n - 1];
      var tr := At(p.store, tid);
      SteadyStep(inp.at, s.store, p.store, tid, tr.(history := LastSeen(tr.history + [Seen(inp.at, tr.coord, tr.score)])));
    }
  }

  lemma {:induction false} ConfirmAllSteady(c: Config, inp: Input, w: Work, n: nat)
    requires n <= |w.s.live|
    ensures AllSteady(inp.at, w.s.store, ConfirmAll(c, inp, w, n).s.store)
  {
    hide AllSteady, Confirmable;
    if n == 0 {
      SteadySame(inp.at, w.s.store);
    } else {
      ConfirmAllSteady(c, inp, w, n - 1);
      var p, tid := ConfirmAll(c, inp, w, n - 1), w.s.live[n - 1];
      SteadyStep(inp.at, w.s.store, p.s.store, tid, At(p.s.store, tid).(confirmed := true));
    }
  }

  lemma {:induction false} ParkAllSteady(at: Stamp, s: State, n: nat)
    requires n <= |s.live|
    ensures AllSteady(at, s.store, ParkAll(s, n).store)
  {
    hide AllSteady, ParkOne;
    if n == 0 {
      SteadySame(at, s.store);
    } else {
      ParkAllSteady(at, s, n - 1);
      ParkOneSteady(at, s.store, ParkAll(s, n - 1), s.live[n - 1]);
    }
  }

  lemma ParkOneSteady(at: Stamp, a: Table, s: State, tid: TrackId)
    requires AllSteady(at, a, s.store)
    ensures AllSteady(at, a, ParkOne(s, tid).store)
  {
    hide AllSteady;
    var tr := At(s.store, tid);
    SteadyStep(at, a, s.store, tid, Park(tr));
    SteadyStep(at, a, s.store, tid, Park(tr.(confirmed := true)));
    hide Steady;
  }

  lemma {:induction false} AccompanyAllSteady(at: Stamp, w: Work, n: nat)
    requires n <= |w.s.live|
    ensures AllSteady(at, w.s.store, AccompanyAll(w, n).s.store)
  {
    hide AllSteady, HasParent;
    if n == 0 {
      SteadySame(at, w.s.store);
    } else {
      AccompanyAllSteady(at, w, n - 1);
      var p, tid := AccompanyAll(w, n - 1), w.s.live[n - 1];
      SteadyStep(at, w.s.store, p.s.store, tid, At(p.s.store, tid).(confirmed := true));
    }
  }

  lemma {:induction false} ReleaseAllSteady(at: Stamp, s: State, n: nat)
    requires n <= |s.live|
    ensures AllSteady(at, s.store, ReleaseAll(s, n).s.store)
  {
    hide AllSteady;
    if n == 0 {
      SteadySame(at, s.store);
    } else {
      ReleaseAllSteady(at, s, n - 1);
      var p, tid := ReleaseAll(s, n - 1), s.live[n - 1];
      SteadyStep(at, s.store, p.s.store, tid, At(p.s.store, tid).(awaitingZone := false));
    }
  }

  lemma {:induction false} HoldAllSteady(at: Stamp, w: Work, joining: seq<TrackId>, n: nat)
    requires n <= |joining|
    ensures AllSteady(at, w.s.store, HoldAll(w, joining, n).s.store)
  {
    hide AllSteady;
    if n == 0 {
      SteadySame(at, w.s.store);
    } else {
      HoldAllSteady(at, w, joining, n - 1);
      var p, tid := HoldAll(w, joining, n - 1), joining[n - 1];
      SteadyStep(at, w.s.store, p.s.store, tid, At(p.s.store, tid).(awaitingZone := true));
    }
  }

  lemma {:induction false} EnrolSteady(at: Stamp, store: Table, ids: seq<TrackId>, id: int, n: nat)
    requires n <= |ids|
    ensures AllSteady(at, store, Enrol(store, ids, id, n))
  {
    hide AllSteady;
    if n == 0 {
      SteadySame(at, store);
    } else {
      EnrolSteady(at, store, ids, id, n - 1);
      var p := Enrol(store, ids, id, n - 1);
      SteadyStep(at, store, p, ids[n - 1], TakePart(At(p, ids[n - 1]), id));
    }
  }

  lemma {:induction false} ForgetSteady(at: Stamp, store: Table, ids: seq<TrackId>, n: nat)
    requires n <= |ids|
    ensures AllSteady(at, store, ForgetHistory(store, ids, n))
  {
    hide AllSteady;
    if n == 0 {
      SteadySame(at, store);
    } else {
      ForgetSteady(at, store, ids, n - 1);
      var p := ForgetHistory(store, ids, n - 1);
      SteadyStep(at, store, p, ids[n - 1], Forget(At(p, ids[n - 1])));
    }
  }

  lemma {:induction false} ParkThoseSteady(at: Stamp, store: Table, ids: seq<TrackId>, n: nat)
    requires n <= |ids|
    ensures AllSteady(at, store, ParkThose(store, ids, n))
  {
    hide AllSteady;
    if n == 0 {
      SteadySame(at, store);
    } else {
      ParkThoseSteady(at, store, ids, n - 1);
      var p := ParkThose(store, ids, n - 1);
      SteadyStep(at, store, p, ids[n - 1], Park(At(p, ids[n - 1])));
    }
  }

  lemma LifecycleSteady(c: Config, inp: Input, w: Work)
    ensures AllSteady(inp.at, w.s.store, Lifecycle(c, inp, w).store)
    ensures Lifecycle(c, inp, w).live == w.s.live
  {
    hide Enrol, ForgetHistory, ParkThose, ActiveIds, FacesLast, Steady, OpenEvent, ReportEvent;
    var active := ActiveIds(w.s.live, w.s.store);
    SteadySame(inp.at, w.s.store);
    if w.s.event.None? {
      if w.joining != [] && active != [] {
        OpenEventStore(c, inp, w.s, w.joining, active);
        OpenEventFields(c, inp, w.s, w.joining, active);
        var store := Enrol(w.s.store, active, w.s.counter + inp.skipped, |active|);
        EnrolSteady(inp.at, w.s.store, active, w.s.counter + inp.skipped, |active|);
        var starters := Among(FacesLast(store, active), w.joining);
        ForgetSteady(inp.at, store, starters, |starters|);
        SteadyTrans(inp.at, w.s.store, store, ForgetHistory(store, starters, |starters|));
      }
    } else {
      var e := w.s.event.value;
      var p := Enrol(w.s.store, w.joining, e.id, |w.joining|);
      EnrolSteady(inp.at, w.s.store, w.joining, e.id, |w.joining|);
      ForgetSteady(inp.at, p, w.joining, |w.joining|);
      var q := ForgetHistory(p, w.joining, |w.joining|);
      SteadyTrans(inp.at, w.s.store, p, q);
      ParkThoseSteady(inp.at, q, active, |active|);
      SteadyTrans(inp.at, w.s.store, q, ParkThose(q, active, |active|));
      ReportEventStore(c, inp, w.s.(store := q), e, active);
      ReportEventLive(c, inp, w.s.(store := q), e, active);
    }
  }

  lemma ReportEventLive(c: Config, inp: Input, s: State, e: Event, active: seq<TrackId>)
    ensures ReportEvent(c, inp, s, e, active).live == s.live
  {}

  lemma SteadySame(at: Stamp, store: Table)
    ensures AllSteady(at, store, store)
  {}

  /** From the unclaimed detections to the zone check a tick leaves every track steady and the live table
      alone. */
  lemma BeforeLifecycle(c: Config, inp: Input, w2: Work)
    ensures var s3 := LinkAll(inp, w2.s, |w2.s.live|);
            var s4 := RememberAll(c, inp, s3, |s3.live|);
            var w5 := ConfirmAll(c, inp, Work(s4, w2.joining), |s4.live|);
            var s6 := ParkAll(w5.s, |w5.s.live|);
            var w := HoldForZones(AccompanyAll(Work(s6, w5.joining), |s6.live|));
            AllSteady(inp.at, w2.s.store, w.s.store) && w.s.live == w2.s.live
  {
    hide AllSteady, LinkAll, RememberAll, ConfirmAll, ParkAll, AccompanyAll, ReleaseAll, HoldAll;
    var s3 := LinkAll(inp, w2.s, |w2.s.live|);
    LinkAllSteady(inp, w2.s, |w2.s.live|);
    var s4 := RememberAll(c, inp, s3, |s3.live|);
    RememberAllSteady(c, inp, s3, |s3.live|);
    SteadyTrans(inp.at, w2.s.store, s3.store, s4.store);
    var w5 := ConfirmAll(c, inp, Work(s4, w2.joining), |s4.live|);
    ConfirmAllSteady(c, inp, Work(s4, w2.joining), |s4.live|);
    SteadyTrans(inp.at, w2.s.store, s4.store, w5.s.store);
    var s6 := ParkAll(w5.s, |w5.s.live|);
    ParkAllSteady(inp.at, w5.s, |w5.s.live|);
    SteadyTrans(inp.at, w2.s.store, w5.s.store, s6.store);
    var w7 := AccompanyAll(Work(s6, w5.joining), |s6.live|);
    AccompanyAllSteady(inp.at, Work(s6, w5.joining), |s6.live|);
    SteadyTrans(inp.at, w2.s.store, s6.store, w7.s.store);
    var w8 := ReleaseAll(w7.s, |w7.s.live|);
    ReleaseAllSteady(inp.at, w7.s, |w7.s.live|);
    SteadyTrans(inp.at, w2.s.store, w7.s.store, w8.s.store);
    var w9 := HoldAll(w8, w7.joining, |w7.joining|);
    HoldAllSteady(inp.at, w8, w7.joining, |w7.joining|);
    SteadyTrans(inp.at, w2.s.store, w8.s.store, w9.s.store);
  }

  /** And so does its whole rest. */
  lemma AfterAdmission(c: Config, inp: Input, w2: Work)
    ensures var s3 := LinkAll(inp, w2.s, |w2.s.live|);
            var s4 := RememberAll(c, inp, s3, |s3.live|);
            var w5 := ConfirmAll(c, inp, Work(s4, w2.joining), |s4.live|);
            var s6 := ParkAll(w5.s, |w5.s.live|);
            var w := HoldForZones(AccompanyAll(Work(s6, w5.joining), |s6.live|));
            var r := Lifecycle(c, inp, w);
            AllSteady(inp.at, w2.s.store, r.store) && r.live == w2.s.live
  {
    hide AllSteady, LinkAll, RememberAll, ConfirmAll, ParkAll, AccompanyAll, HoldForZones, Lifecycle;
    BeforeLifecycle(c, inp, w2);
    var s3 := LinkAll(inp, w2.s, |w2.s.live|);
    var s4 := RememberAll(c, inp, s3, |s3.live|);
    var w5 := ConfirmAll(c, inp, Work(s4, w2.joining), |s4.live|);
    var s6 := ParkAll(w5.s, |w5.s.live|);
    var w := HoldForZones(AccompanyAll(Work(s6, w5.joining), |s6.live|));
    LifecycleSteady(c, inp, w);
    SteadyTrans(inp.at, w2.s.store, w.s.store, Lifecycle(c, inp, w).store);
  }

  // ----- following --------------------------------------------------------------------------------

  /** A matched track that has taken its detection wakes, settles back, or has its shift counted. */
  function Reacted(c: Config, inp: Input, tid: TrackId, tr: Track): Track {
    if tr.parked.Some? && MovedSince(c, tr) then
      if tid in inp.samePixels then Settle(tr) else Wake(c, tr, Now(c, inp))
    else if tr.parked.Some? then CountShift(tr)
    else tr
  }

  /** A matched track's own part of the step. */
  function MatchedTrack(c: Config, inp: Input, tid: TrackId, tr: Track, d: Detection): Track {
    Noted(c, inp, tid, Reacted(c, inp, tid, Take(c, tr, d)), d)
  }

  /** The detection a live track is given this tick. */
  function Given(inp: Input, m: Pipeline.Result, tid: TrackId): Option<Detection> {
    if tid in m.claims.matches && m.claims.matches[tid] < |inp.dets| then Some(inp.dets[m.claims.matches[tid]]) else None
  }

  ghost predicate Followed(c: Config, inp: Input, m: Pipeline.Result, tid: TrackId, tr: Track, r: Track) {
    match Given(inp, m, tid)
    case Some(d) => r == MatchedTrack(c, inp, tid, tr, d)
    case None => r == MissedTrack(c, tr) || r == LastMiss(c, inp, MissedTrack(c, tr), tid)
  }

  lemma FollowOneStore(c: Config, inp: Input, m: Pipeline.Result, w: Work, tid: TrackId)
    requires tid in w.s.store
    ensures var r := FollowOne(c, inp, m, w, tid).s.store;
            && r.Keys == w.s.store.Keys
            && (forall t :: t in r && t != tid ==> r[t] == w.s.store[t])
            && Followed(c, inp, m, tid, w.s.store[tid], r[tid])
  {
    hide Take, Noted, Settle, Wake, CountShift, MovedSince, Missed, MissedTrack, LastMiss;
    if Given(inp, m, tid).None? { MissedIsOneOf(c, inp, w.s, tid); }
  }

  lemma {:induction false} FollowAllStore(c: Config, inp: Input, m: Pipeline.Result, w: Work, ids: seq<TrackId>, n: nat)
    requires n <= |ids| && NoDup(ids) && forall t :: t in ids ==> t in w.s.store
    ensures var r := FollowAll(c, inp, m, w, ids, n).s.store;
            && r.Keys == w.s.store.Keys
            && (forall t :: t in r && t !in ids[..n] ==> r[t] == w.s.store[t])
            && (forall t :: t in ids[..n] ==> Followed(c, inp, m, t, w.s.store[t], r[t]))
  {
    hide *;
    FollowAllStep(c, inp, m, w, ids, n);
    if n > 0 {
      FollowAllStore(c, inp, m, w, ids, n - 1);
      var p, tid := FollowAll(c, inp, m, w, ids, n - 1), ids[n - 1];
      assert ids[..n] == ids[..n - 1] + [tid];
      assert tid in ids;
      NotBefore(ids, n - 1);
      FollowOneStore(c, inp, m, p, tid);
    }
  }

  lemma FollowAllStep(c: Config, inp: Input, m: Pipeline.Result, w: Work, ids: seq<TrackId>, n: nat)
    requires n <= |ids|
    ensures FollowAll(c, inp, m, w, ids, n)
            == if n == 0 then w else FollowOne(c, inp, m, FollowAll(c, inp, m, w, ids, n - 1), ids[n - 1])
  {
    hide FollowOne;
  }

  lemma NotBefore(ids: seq<TrackId>, n: nat)
    requires NoDup(ids) && n < |ids|
    ensures ids[n] !in ids[..n]
  {}

  // ----- admission --------------------------------------------------------------------------------

  /** A resumed track keeps its kind and gate, remembers nothing new, and is only parked afresh. */
  predicate Resumable(tr: Track, r: Track) {
    && r.kind == tr.kind && r.gate == tr.gate && (r.history == tr.history || r.history == [])
    && (r == tr || ParkingGoesOn(tr, r))
  }

  ghost predicate AllResumable(s: Table, r: Table) {
    forall t :: t in s ==> t in r && Resumable(s[t], r[t])
  }

  lemma ResumedKeepsParking(c: Config, inp: Input, tid: TrackId, tr: Track, d: Detection)
    ensures var r := Resumed(c, inp, tid, tr, d);
            r.kind == tr.kind && r.gate == tr.gate && r.parked == tr.parked && r.movedTicks == tr.movedTicks
            && (r.history == tr.history || r.history == [])
  {
    hide Iou, Blend, LastSizes, Note, Noted, UpdateStill;
    var t1 := Follow(tr, d.coord).(score := d.score, missCount := 0);
    StillKeepsParking(c, t1);
    NotedKeepsParking(c, inp, tid, UpdateStill(c, t1), d);
  }

  lemma StillKeepsParking(c: Config, tr: Track)
    ensures var r := UpdateStill(c, tr);
            && r.kind == tr.kind && r.gate == tr.gate && r.parked == tr.parked && r.movedTicks == tr.movedTicks
            && r.history == tr.history && r.coord == tr.coord && r.missCount == tr.missCount
  {
    StillIs(c, tr);
    hide UpdateStill;
  }

  /** Stillness is in three keys of its own. */
  lemma StillIs(c: Config, tr: Track)
    ensures var r := UpdateStill(c, tr);
            r == tr.(anchor := r.anchor, stillTicks := r.stillTicks, still := r.still)
  {
    hide Iou;
    if tr.anchor.Some? {
      var same := Iou(tr.coord, tr.anchor.value) >= STILL_IOU;
    }
  }

  lemma NotedKeepsParking(c: Config, inp: Input, tid: TrackId, tr: Track, d: Detection)
    ensures var r := Noted(c, inp, tid, tr, d);
            r.kind == tr.kind && r.gate == tr.gate && r.parked == tr.parked && r.movedTicks == tr.movedTicks
            && (r.history == tr.history || r.history == [])
  {
    NoteKeepsParking(tr, d, Now(c, inp), tid in inp.held);
    hide Note;
  }

  lemma NoteKeepsParking(tr: Track, d: Detection, now: int, held: bool)
    ensures var r := Note(tr, d, now, held);
            r.kind == tr.kind && r.gate == tr.gate && r.parked == tr.parked && r.movedTicks == tr.movedTicks
            && (r.history == tr.history || r.history == [])
  {}

  lemma AdmitOneResumes(c: Config, inp: Input, m: Pipeline.Result, starting: bool, w: Work, idx: nat)
    requires Sane(w)
    ensures AllResumable(w.s.store, AdmitOne(c, inp, m, starting, w, idx).s.store)
  {
    hide Mid, InsideParked, CanResume, ResumeHow, Resumed, Opened, Resumable;
    SameResumable(w.s.store);
    if idx < |inp.dets| && !InsideParked(w.s, inp.dets[idx]) {
      var d := inp.dets[idx];
      var k := FindResume(w.s, d, |w.s.recent|);
      if k.Some? {
        var tid := w.s.recent[k.value].tid;
        ResumedIsResumable(c, inp, tid, At(w.s.store, tid), d);
      } else {
        NextIdIsFresh(w.s, Joining(w));
      }
    }
  }

  lemma SameResumable(store: Table)
    ensures AllResumable(store, store)
  {}

  lemma ResumedIsResumable(c: Config, inp: Input, tid: TrackId, tr: Track, d: Detection)
    ensures Resumable(tr, Resumed(c, inp, tid, tr, d)) && Resumable(tr, Park(Resumed(c, inp, tid, tr, d)))
  {
    ResumedKeepsParking(c, inp, tid, tr, d);
    hide Resumed;
  }

  lemma NextIdIsFresh(s: State, J: set<TrackId>)
    requires Mid(s, J)
    ensures s.nextId !in s.store
  {}

  lemma {:induction false} AdmitAllResumes(c: Config, inp: Input, m: Pipeline.Result, starting: bool, w: Work, n: nat)
    requires Sane(w) && PendingOk(inp, m) && n <= |m.claims.unclaimed|
    ensures AllResumable(w.s.store, AdmitAll(c, inp, m, starting, w, n).s.store)
  {
    hide Mid, AdmitOne;
    if n > 0 {
      AdmitAllResumes(c, inp, m, starting, w, n - 1);
      AdmitAllKeeps(c, inp, m, starting, w, n - 1);
      AdmitOneResumes(c, inp, m, starting, AdmitAll(c, inp, m, starting, w, n - 1), m.claims.unclaimed[n - 1]);
    }
  }

  // ----- parked tracks over a run -----------------------------------------------------------------

  /** How a matched parked track comes out: still parked, at the same spot one shift further or with
      its counter restarted; or woken, by a box that left the spot or by enough shifts. */
  lemma MatchedParked(c: Config, inp: Input, tid: TrackId, tr: Track, d: Detection)
    requires tr.parked.Some?
    ensures var r, spot := MatchedTrack(c, inp, tid, tr, d), tr.parked.value;
            if r.parked.None? then
              tid !in inp.samePixels
              && (LeftSpot(d.coord, spot) || (Shifted(d.coord, spot) && tr.movedTicks + 1 >= c.resumeTicks))
            else
              r.movedTicks == 0 || (r.parked == tr.parked && Shifted(d.coord, spot) && r.movedTicks == tr.movedTicks + 1)
  {
    var t1 := Take(c, tr, d);
    TakeKeepsParking(c, tr, d);
    ReactedParked(c, inp, tid, t1);
    hide Take, Reacted, Noted, LeftSpot, Shifted;
    NotedKeepsParking(c, inp, tid, Reacted(c, inp, tid, t1), d);
  }

  lemma ReactedParked(c: Config, inp: Input, tid: TrackId, tr: Track)
    requires tr.parked.Some?
    ensures var r, spot := Reacted(c, inp, tid, tr), tr.parked.value;
            if r.parked.None? then
              tid !in inp.samePixels
              && (LeftSpot(tr.coord, spot) || (Shifted(tr.coord, spot) && tr.movedTicks + 1 >= c.resumeTicks))
            else
              r.movedTicks == 0 || (r.parked == tr.parked && Shifted(tr.coord, spot) && r.movedTicks == tr.movedTicks + 1)
  {
    hide LeftSpot, Shifted, Wake, Settle, CountShift;
    if !MovedSince(c, tr) {
      CountedShift(tr);
    } else if tid in inp.samePixels {
      SettledAgain(tr);
    } else {
      WakesUp(c, tr, Now(c, inp));
    }
  }

  lemma CountedShift(tr: Track)
    requires tr.parked.Some? && !LeftSpot(tr.coord, tr.parked.value)
    ensures CountShift(tr).parked == tr.parked && CountShift(tr).movedTicks == ShiftCount(tr.movedTicks, tr.coord, tr.parked.value)
  {
    hide LeftSpot, Shifted;
  }

  lemma SettledAgain(tr: Track)
    requires tr.parked.Some?
    ensures Settle(tr).parked == tr.parked && Settle(tr).movedTicks == 0
  {}

  lemma WakesUp(c: Config, tr: Track, now: int)
    ensures Wake(c, tr, now).parked.None?
  {
    hide Iou;
  }

  lemma TakeKeepsParking(c: Config, tr: Track, d: Detection)
    ensures var r := Take(c, tr, d);
            r.kind == tr.kind && r.parked == tr.parked && r.movedTicks == tr.movedTicks && r.coord == d.coord
            && r.missCount == 0
  {
    FollowKeepsParking(tr, d.coord);
    hide Iou, Follow, CenterMoved, UpdateStill, ScoreGate.Record;
    var t1 := Follow(tr, d.coord).(score := d.score, missCount := 0);
    var t2 := t1.(moved := t1.moved || CenterMoved(t1.firstCoord, d.coord),
                  leftFirstBox := t1.leftFirstBox || Iou(t1.firstCoord, d.coord) < STILL_IOU);
    StillKeepsParking(c, RecordScore(c, t2, d.score));
  }

  lemma FollowKeepsParking(tr: Track, b: Box)
    ensures var r := Follow(tr, b);
            r.kind == tr.kind && r.parked == tr.parked && r.movedTicks == tr.movedTicks && r.coord == b
  {
    hide Blend, LastSizes;
  }

  lemma MissedKeepsParking(c: Config, inp: Input, tid: TrackId, tr: Track)
    ensures MissedTrack(c, tr).parked == tr.parked && MissedTrack(c, tr).movedTicks == tr.movedTicks
    ensures LastMiss(c, inp, MissedTrack(c, tr), tid).parked == tr.parked
    ensures LastMiss(c, inp, MissedTrack(c, tr), tid).movedTicks == tr.movedTicks
  {
    hide ScoreGate.Record;
  }

  /** What a tick does to a track: followed if it was live, then possibly resumed, then steady. */
  ghost predicate TickedTrack(c: Config, inp: Input, m: Pipeline.Result, live: bool, tid: TrackId, tr: Track, r: Track) {
    exists a, b :: (if live then Followed(c, inp, m, tid, tr, a) else a == tr) && Resumable(a, b) && Steady(inp.at, b, r)
  }

  /** A track that is new after a tick. */
  ghost predicate NewbornTicked(c: Config, inp: Input, r: Track) {
    exists b :: Newborn(c, inp, b) && Steady(inp.at, b, r)
  }

  lemma HasScores(s: State, J: set<TrackId>, tid: TrackId)
    requires Mid(s, J) && tid in s.store
    ensures s.store[tid].gate.history != []
  {
    assert Role(s, J, tid);
  }

  /** The tracks at the zone check of a tick. */
  lemma CheckedTrack(c: Config, s: State, inp: Input, tid: TrackId)
    requires Inv(s) && InputOk(s, inp)
    ensures var r := HoldForZones(Gather(c, s, inp, Matches(c, s, inp))).s;
            && (tid in s.store ==>
                  && tid in r.store
                  && TickedTrack(c, inp, Matches(c, s, inp), tid in s.live, tid, s.store[tid], r.store[tid]))
            && (tid !in s.store && tid in r.store ==> NewbornTicked(c, inp, r.store[tid]))
  {
    hide Mid, Begin, Starting, FollowAll, AdmitAll, HoldForZones, Followed, Resumable, LinkAll,
      RememberAll, ConfirmAll, ParkAll, AccompanyAll, Matches, Pipeline.FrameOk;
    var m := Matches(c, s, inp);
    MatchesFacts(c, s, inp);
    var s0 := Begin(c, s, inp).(ids := m.ids);
    BeginKeeps(c, s, {}, inp, m.ids);
    BeginLive(c, s, inp);
    LiveOk(s, {});
    var w1 := FollowAll(c, inp, m, Work(s0, []), s0.live, |s0.live|);
    FollowAllKeeps(c, inp, m, s0, |s0.live|);
    FollowAllStore(c, inp, m, Work(s0, []), s0.live, |s0.live|);
    assert s0.live[..|s0.live|] == s0.live;
    var starting := Starting(c, s0, inp);
    var w2 := AdmitAll(c, inp, m, starting, w1, |m.claims.unclaimed|);
    AdmitAllResumes(c, inp, m, starting, w1, |m.claims.unclaimed|);
    AdmitAllNew(c, inp, m, starting, w1, |m.claims.unclaimed|);
    BeforeLifecycle(c, inp, w2);
    var w := HoldForZones(Gather(c, s, inp, m));
    if tid in s.store {
      assert Resumable(w1.s.store[tid], w2.s.store[tid]) && Steady(inp.at, w2.s.store[tid], w.s.store[tid]);
    } else if tid in w.s.store {
      CheckedHasScores(c, s, inp, tid);
      assert Newborn(c, inp, w2.s.store[tid]) && Steady(inp.at, w2.s.store[tid], w.s.store[tid]);
    }
  }

  lemma CheckedHasScores(c: Config, s: State, inp: Input, tid: TrackId)
    requires Inv(s) && InputOk(s, inp)
    ensures var r := HoldForZones(Gather(c, s, inp, Matches(c, s, inp))).s;
            tid in r.store ==> r.store[tid].gate.history != []
  {
    hide Mid, Gather, HoldForZones;
    var w := Checked(c, s, inp);
    if tid in w.s.store { HasScores(w.s, Joining(w), tid); }
  }

  lemma TickTrack(c: Config, s: State, inp: Input, tid: TrackId)
    requires Inv(s) && InputOk(s, inp)
    ensures var r := Tick(c, s, inp);
            && (tid in s.store ==>
                  && tid in r.store
                  && TickedTrack(c, inp, Matches(c, s, inp), tid in s.live, tid, s.store[tid], r.store[tid]))
            && (tid !in s.store && tid in r.store ==> NewbornTicked(c, inp, r.store[tid]))
  {
    hide Mid, Lifecycle, HoldForZones, Gather, Followed, Resumable, Newborn, Steady, Matches, InputOk;
    CheckedTrack(c, s, inp, tid);
    var w := Checked(c, s, inp);
    LifecycleSteady(c, inp, w);
    TickKeepsInv(c, s, inp);
    var r, m := Tick(c, s, inp), Matches(c, s, inp);
    if tid in s.store {
      var a, b :| (if tid in s.live then Followed(c, inp, m, tid, s.store[tid], a) else a == s.store[tid])
        && Resumable(a, b) && Steady(inp.at, b, w.s.store[tid]);
      OneSteady(inp.at, b, w.s.store[tid], r.store[tid]);
    } else if tid in r.store {
      HasScores(r, {}, tid);
      var b :| Newborn(c, inp, b) && Steady(inp.at, b, w.s.store[tid]);
      OneSteady(inp.at, b, w.s.store[tid], r.store[tid]);
    }
  }

  /** A track that was not parked (or not there) before a tick has counted no shift after it. */
  lemma FreshlyParked(c: Config, s: State, inp: Input, tid: TrackId)
    requires Inv(s) && InputOk(s, inp) && (tid in s.store ==> s.store[tid].parked.None?)
    ensures tid in Tick(c, s, inp).store ==> Unshifted(Tick(c, s, inp).store[tid])
  {
    hide Inv, InputOk, Tick, Matches, MatchedTrack, MissedTrack, LastMiss;
    TickTrack(c, s, inp, tid);
    if tid in s.store {
      var m := Matches(c, s, inp);
      MissedKeepsParking(c, inp, tid, s.store[tid]);
      var given := Given(inp, m, tid);
      if given.Some? { MatchedMoving(c, inp, tid, s.store[tid], given.value); }
    }
  }

  lemma MatchedMoving(c: Config, inp: Input, tid: TrackId, tr: Track, d: Detection)
    requires tr.parked.None?
    ensures MatchedTrack(c, inp, tid, tr, d).parked.None?
  {
    TakeKeepsParking(c, tr, d);
    hide Take, Noted;
    NotedKeepsParking(c, inp, tid, Take(c, tr, d), d);
  }

  lemma BeginLive(c: Config, s: State, inp: Input)
    ensures Begin(c, s, inp).live == s.live && Begin(c, s, inp).store == s.store
  {}

  lemma LiveOk(s: State, J: set<TrackId>)
    requires Mid(s, J)
    ensures NoDup(s.live) && forall t :: t in s.live ==> t in s.store
  {}

  /** The detection a tick gives a track. */
  ghost function GivenTo(c: Config, s: State, inp: Input, tid: TrackId): Option<Detection> {
    if InputOk(s, inp) && tid in s.live then Given(inp, Matches(c, s, inp), tid) else None
  }

  lemma NotLiveUnmatched(c: Config, s: State, inp: Input, tid: TrackId)
    requires InputOk(s, inp)
    ensures tid !in s.live ==> Given(inp, Matches(c, s, inp), tid).None?
  {
    hide Pipeline.Match, Pipeline.Associate;
    Pipeline.MatchIsSound(c.norfair, s.live, s.store, inp.dets, inp.assoc, s.ids);
  }

  /** What a tick does to a parked track. */
  lemma TickParked(c: Config, s: State, inp: Input, tid: TrackId)
    requires Inv(s) && InputOk(s, inp) && tid in s.store && s.store[tid].parked.Some?
    ensures var r, given, spot := Tick(c, s, inp), GivenTo(c, s, inp, tid), s.store[tid].parked.value;
            && tid in r.store
            && var tr := r.store[tid];
               match given
               case None =>
                 tr.parked.Some? && (tr.movedTicks == 0 || (tr.parked == Some(spot) && tr.movedTicks == s.store[tid].movedTicks))
               case Some(d) =>
                 if tr.parked.None? then
                   && tid !in inp.samePixels
                   && (LeftSpot(d.coord, spot) || (Shifted(d.coord, spot) && s.store[tid].movedTicks + 1 >= c.resumeTicks))
                 else
                   || tr.movedTicks == 0
                   || (tr.parked == Some(spot) && Shifted(d.coord, spot) && tr.movedTicks == s.store[tid].movedTicks + 1)
  {
    hide Inv, InputOk, Tick, Matches, MatchedTrack, MissedTrack, LastMiss, LeftSpot, Shifted;
    TickTrack(c, s, inp, tid);
    var m := Matches(c, s, inp);
    MissedKeepsParking(c, inp, tid, s.store[tid]);
    var given := Given(inp, m, tid);
    if given.Some? { MatchedParked(c, inp, tid, s.store[tid], given.value); }
    NotLiveUnmatched(c, s, inp, tid);
  }

  /** A track as a detection has just opened it: its box, and one score. */
  predicate BornOf(c: Config, tr: Track, d: Detection) {
    && tr.kind == d.kind && tr.coord == d.coord && tr.score == d.score && tr.history == [] && Unshifted(tr)
    && tr.gate == ScoreGate.Record(ScoreGate.EMPTY, d.score, c.minInit, c.threshold(d.kind))
  }

  ghost predicate Newborn(c: Config, inp: Input, tr: Track) {
    exists k :: 0 <= k < |inp.dets| && BornOf(c, tr, inp.dets[k])
  }

  lemma OpenedIsBorn(c: Config, inp: Input, starting: bool, tid: TrackId, d: Detection)
    ensures BornOf(c, Opened(c, inp, starting, tid, d), d)
  {
    hide Iou, ScoreGate.Record;
  }

  /** Opening and resuming leave everyone else alone. */
  ghost predicate Admitted(c: Config, inp: Input, s: State, r: State) {
    && (forall t :: t in r.store && t in s.store ==> r.store[t] == s.store[t] || InRecent(s, t))
    && (forall t :: t in r.store && t !in s.store ==> Newborn(c, inp, r.store[t]))
    && (forall t :: InRecent(r, t) ==> InRecent(s, t))
  }

  lemma AdmitOneNew(c: Config, inp: Input, m: Pipeline.Result, starting: bool, w: Work, idx: nat)
    requires Sane(w)
    ensures Admitted(c, inp, w.s, AdmitOne(c, inp, m, starting, w, idx).s)
  {
    hide Mid, InsideParked, ResumeIou, ResumeHow, Resume, Open, Admitted;
    NobodyAdmitted(c, inp, w.s);
    if idx < |inp.dets| && !InsideParked(w.s, inp.dets[idx]) {
      var k := FindResume(w.s, inp.dets[idx], |w.s.recent|);
      if k.Some? {
        ResumeAdmits(c, inp, m, w, idx, inp.dets[idx], k.value);
      } else {
        OpenAdmits(c, inp, m, starting, w, idx, inp.dets[idx]);
      }
    }
  }

  lemma ResumeAdmits(c: Config, inp: Input, m: Pipeline.Result, w: Work, idx: nat, d: Detection, k: nat)
    requires Sane(w) && k < |w.s.recent| && ResumeHow(At(w.s.store, w.s.recent[k].tid), w.s.event).Some?
    ensures Admitted(c, inp, w.s, Resume(c, inp, m, w, idx, d, k).s)
  {
    hide Mid, Resumed, Newborn, ResumeHow;
    RecentInStore(w.s, Joining(w), k);
    assert InRecent(w.s, w.s.recent[k].tid);
    hide InRecent;
    ResumeRecents(c, inp, m, w, idx, d, k);
  }

  lemma ResumeRecents(c: Config, inp: Input, m: Pipeline.Result, w: Work, idx: nat, d: Detection, k: nat)
    requires k < |w.s.recent| && ResumeHow(At(w.s.store, w.s.recent[k].tid), w.s.event).Some?
    ensures forall t :: InRecent(Resume(c, inp, m, w, idx, d, k).s, t) ==> InRecent(w.s, t)
  {
    hide *;
    ResumeCutsRecent(c, inp, m, w, idx, d, k);
    FewerInRecent(w.s, Resume(c, inp, m, w, idx, d, k).s, k);
  }

  lemma ResumeCutsRecent(c: Config, inp: Input, m: Pipeline.Result, w: Work, idx: nat, d: Detection, k: nat)
    requires k < |w.s.recent| && ResumeHow(At(w.s.store, w.s.recent[k].tid), w.s.event).Some?
    ensures Resume(c, inp, m, w, idx, d, k).s.recent == w.s.recent[..k] + w.s.recent[k + 1..]
  {
    hide ResumeHow, Resumed, Tracks.Park;
  }

  lemma FewerInRecent(s: State, r: State, k: nat)
    requires k < |s.recent| && r.recent == s.recent[..k] + s.recent[k + 1..]
    ensures forall t :: InRecent(r, t) ==> InRecent(s, t)
  {
    FewerRecent(s.recent, k);
  }

  lemma OpenAdmits(c: Config, inp: Input, m: Pipeline.Result, starting: bool, w: Work, idx: nat, d: Detection)
    requires Sane(w) && d in inp.dets
    ensures Admitted(c, inp, w.s, Open(c, inp, m, starting, w, idx, d).s)
  {
    hide Mid, Opened, BornOf;
    OpenedIsBorn(c, inp, starting, w.s.nextId, d);
    NextIdIsFresh(w.s, Joining(w));
  }

  lemma FewerRecent(recent: seq<Closed>, k: nat)
    requires k < |recent|
    ensures forall x :: x in recent[..k] + recent[k + 1..] ==> x in recent
  {}

  lemma RecentInStore(s: State, J: set<TrackId>, k: nat)
    requires Mid(s, J) && k < |s.recent|
    ensures s.recent[k].tid in s.store
  {}

  lemma AdmittedTrans(c: Config, inp: Input, s: State, p: State, r: State)
    requires Admitted(c, inp, s, p) && Admitted(c, inp, p, r)
    requires forall t :: InRecent(s, t) ==> t in s.store
    requires forall t :: t in s.store ==> t in p.store
    requires forall t :: t in p.store ==> t in r.store
    ensures Admitted(c, inp, s, r)
  {
    hide InRecent, Newborn;
  }

  lemma {:induction false} AdmitAllNew(c: Config, inp: Input, m: Pipeline.Result, starting: bool, w: Work, n: nat)
    requires Sane(w) && PendingOk(inp, m) && n <= |m.claims.unclaimed|
    ensures Admitted(c, inp, w.s, AdmitAll(c, inp, m, starting, w, n).s)
  {
    hide Mid, AdmitOne, Admitted, AllResumable;
    if n == 0 {
      NobodyAdmitted(c, inp, w.s);
    } else {
      var p := AdmitAll(c, inp, m, starting, w, n - 1);
      AdmitAllNew(c, inp, m, starting, w, n - 1);
      AdmitAllKeeps(c, inp, m, starting, w, n - 1);
      AdmitOneNew(c, inp, m, starting, p, m.claims.unclaimed[n - 1]);
      AdmitOneResumes(c, inp, m, starting, p, m.claims.unclaimed[n - 1]);
      AdmitAllResumes(c, inp, m, starting, w, n - 1);
      ResumableKeys(w.s.store, p.s.store);
      ResumableKeys(p.s.store, AdmitAll(c, inp, m, starting, w, n).s.store);
      RecentsInStore(w.s, Joining(w));
      AdmittedTrans(c, inp, w.s, p.s, AdmitAll(c, inp, m, starting, w, n).s);
    }
  }

  lemma RecentsInStore(s: State, J: set<TrackId>)
    requires Mid(s, J)
    ensures forall t :: InRecent(s, t) ==> t in s.store
  {}

  lemma ResumableKeys(s: Table, r: Table)
    requires AllResumable(s, r)
    ensures forall t :: t in s ==> t in r
  {}

  lemma NobodyAdmitted(c: Config, inp: Input, s: State)
    ensures Admitted(c, inp, s, s)
  {}

  // ----- waking -----------------------------------------------------------------------------------

  /** Track tid stays parked at spot from states[i] to states[j]; its counted frames in between, the
      ticks that gave it a detection, were all shifted. */
  ghost predicate ShiftedSince(c: Config, states: seq<State>, inputs: seq<Input>, tid: TrackId, spot: Box, i: nat, j: nat)
    requires i <= j <= |inputs| && |states| == |inputs| + 1
  {
    && (forall k :: i <= k <= j ==> tid in states[k].store && states[k].store[tid].parked == Some(spot))
    && (forall k :: i <= k < j && GivenTo(c, states[k], inputs[k], tid).Some? ==>
          Shifted(GivenTo(c, states[k], inputs[k], tid).value.coord, spot))
  }

  /** How many of the ticks i to j gave tid a detection. */
  ghost function GivenTicks(c: Config, states: seq<State>, inputs: seq<Input>, tid: TrackId, i: nat, j: nat): nat
    requires i <= j <= |inputs| && |states| == |inputs| + 1
  {
    if i == j then 0
    else GivenTicks(c, states, inputs, tid, i, j - 1)
         + (if GivenTo(c, states[j - 1], inputs[j - 1], tid).Some? then 1 else 0)
  }

  lemma ShiftedExtends(c: Config, states: seq<State>, inputs: seq<Input>, tid: TrackId, spot: Box, i: nat, j: nat)
    requires 0 < j && i <= j - 1 && j <= |inputs| && |states| == |inputs| + 1
    requires ShiftedSince(c, states, inputs, tid, spot, i, j - 1)
    requires tid in states[j].store && states[j].store[tid].parked == Some(spot)
    requires var g := GivenTo(c, states[j - 1], inputs[j - 1], tid); g.Some? ==> Shifted(g.value.coord, spot)
    ensures ShiftedSince(c, states, inputs, tid, spot, i, j)
  {
    hide GivenTo, Shifted;
  }

  /** A parked track's shift counter counts matched frames in a row, all shifted off the spot, since a
      tick from which on it has been parked there. */
  lemma {:induction false} CounterIsBacked(c: Config, counter: int, states: seq<State>, inputs: seq<Input>, j: nat,
                                           tid: TrackId) returns (i: nat)
    requires IsRun(c, counter, states, inputs) && j <= |inputs|
    requires tid in states[j].store && states[j].store[tid].parked.Some?
    ensures i <= j
    ensures var tr := states[j].store[tid];
            && ShiftedSince(c, states, inputs, tid, tr.parked.value, i, j)
            && GivenTicks(c, states, inputs, tid, i, j) == tr.movedTicks
  {
    hide Tick, Mid, Inv, TraceOk, NamesOk, Shifted, LeftSpot, GivenTo;
    i := j;
    var tr := states[j].store[tid];
    if j > 0 && tr.movedTicks > 0 {
      RunKeeps(c, counter, states, inputs, j - 1);
      assert IsStep(c, states[j - 1], inputs[j - 1], states[j]);
      InvGivesInputOk(states[j - 1], inputs[j - 1]);
      if tid in states[j - 1].store && states[j - 1].store[tid].parked.Some? {
        TickParked(c, states[j - 1], inputs[j - 1], tid);
        i := CounterIsBacked(c, counter, states, inputs, j - 1, tid);
        ShiftedExtends(c, states, inputs, tid, tr.parked.value, i, j);
      } else {
        FreshlyParked(c, states[j - 1], inputs[j - 1], tid);
      }
    }
  }

  /** A track unparks only on a frame whose box has left its spot, or after resumeTicks matched frames
      in a row that were all shifted at about the same size; and never while its pixels are
      unchanged. */
  lemma WakesOnlyByMoving(c: Config, counter: int, states: seq<State>, inputs: seq<Input>, j: nat, tid: TrackId)
    requires IsRun(c, counter, states, inputs) && j < |inputs|
    requires tid in states[j].store && states[j].store[tid].parked.Some?
    ensures tid in states[j + 1].store
    ensures states[j + 1].store[tid].parked.None? ==>
              var spot, given := states[j].store[tid].parked.value, GivenTo(c, states[j], inputs[j], tid);
              && given.Some? && tid !in inputs[j].samePixels
              && (|| LeftSpot(given.value.coord, spot)
                  || (&& Shifted(given.value.coord, spot)
                      && exists i :: 0 <= i <= j && ShiftedSince(c, states, inputs, tid, spot, i, j)
                           && GivenTicks(c, states, inputs, tid, i, j) + 1 >= c.resumeTicks))
  {
    hide Tick, Mid, Inv, TraceOk, NamesOk, Shifted, LeftSpot, GivenTo, ShiftedSince;
    RunKeeps(c, counter, states, inputs, j);
    assert IsStep(c, states[j], inputs[j], states[j + 1]);
    InvGivesInputOk(states[j], inputs[j]);
    TickParked(c, states[j], inputs[j], tid);
    var i := CounterIsBacked(c, counter, states, inputs, j, tid);
  }

  ghost predicate IsParked(s: State, tid: TrackId) {
    tid in s.store && s.store[tid].parked.Some?
  }

  /** Under Norfair an unseeded box given to a parked track that is not a face still overlaps its spot,
      so only the sustained shift can wake it. */
  lemma NorfairWakesOnlyByShift(c: Config, s: State, inp: Input, tid: TrackId)
    requires c.norfair && Inv(s) && InputOk(s, inp)
    requires IsParked(s, tid) && s.store[tid].kind != Face
    ensures var given := GivenTo(c, s, inp, tid);
            given.Some? && given.value.seeded != Some(tid) ==>
              && !LeftSpot(given.value.coord, s.store[tid].parked.value)
              && (IsParked(Tick(c, s, inp), tid) || s.store[tid].movedTicks + 1 >= c.resumeTicks)
  {
    hide Tick, Inv, Shifted, Iou, Pipeline.Match, Pipeline.Associate, Pipeline.FrameOk;
    Pipeline.NorfairKeepsParkedOnSpot(s.live, s.store, inp.dets, inp.assoc, s.ids, tid);
    TickParked(c, s, inp, tid);
    var given := GivenTo(c, s, inp, tid);
    if given.Some? { IouSymmetric(s.store[tid].parked.value, given.value.coord); }
  }
}
