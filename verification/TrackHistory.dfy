/** What every track has behind it: remembered frames in order, each with the box it had then, and a link,
    if it is a face, to a person. */
module TrackHistory {
  import opened Wrappers
  import opened Geometry
  import opened Lists
  import opened Tracks
  import opened Matching
  import opened Engine
  import opened EngineInvariant
  import opened EventTrace
  import opened EventFacts
  import opened TrackLife
  import ScoreGate
  import Faces
  import Pipeline

  predicate InOrder(h: seq<Seen>, clock: int) {
    && (forall i, j :: 0 <= i < j < |h| ==> h[i].at.mono <= h[j].at.mono)
    && (forall i :: 0 <= i < |h| ==> h[i].at.mono <= clock)
  }

  predicate LinkOk(store: Table, tr: Track) {
    tr.personTid.Some? ==> tr.personTid.value in store && store[tr.personTid.value].kind == Person
  }

  ghost predicate TrackGood(clock: int, store: Table, tr: Track) {
    InOrder(tr.history, clock) && LinkOk(store, tr)
  }

  ghost predicate AllGood(clock: int, store: Table) {
    forall t :: t in store ==> TrackGood(clock, store, store[t])
  }

  lemma NobodyIsGood(clock: int, store: Table)
    ensures TrackGood(clock, store, NOBODY)
  {}

  lemma AtIsGood(clock: int, store: Table, tid: TrackId)
    requires AllGood(clock, store)
    ensures TrackGood(clock, store, At(store, tid))
  {
    NobodyIsGood(clock, store);
  }

  lemma GoodPut(clock: int, store: Table, tid: TrackId, r: Track)
    requires AllGood(clock, store) && TrackGood(clock, store, r)
    requires tid in store ==> r.kind == store[tid].kind
    ensures AllGood(clock, store[tid := r])
  {
    hide InOrder;
    var s1 := store[tid := r];
    forall t | t in s1
      ensures TrackGood(clock, s1, s1[t])
    {
      assert t != tid ==> TrackGood(clock, store, store[t]);
    }
  }

  /** r carries tr's past on, possibly without its remembered frames. */
  predicate Carries(tr: Track, r: Track) {
    r.kind == tr.kind && r.gate == tr.gate && r.personTid == tr.personTid && (r.history == tr.history || r.history == [])
  }

  lemma CarriesIsGood(clock: int, store: Table, tr: Track, r: Track)
    requires TrackGood(clock, store, tr) && Carries(tr, r)
    ensures TrackGood(clock, store, r)
  {}

  /** r has one more score. */
  predicate Scores(c: Config, tr: Track, r: Track, score: real) {
    && r.kind == tr.kind && r.personTid == tr.personTid && (r.history == tr.history || r.history == [])
    && r.gate == ScoreGate.Record(tr.gate, score, c.minInit, c.threshold(tr.kind))
  }

  lemma ScoresIsGood(c: Config, clock: int, store: Table, tr: Track, r: Track, score: real)
    requires TrackGood(clock, store, tr) && Scores(c, tr, r, score)
    ensures TrackGood(clock, store, r)
  {
    hide ScoreGate.Record;
  }

  /** A step that puts back a track carrying on its past. */
  lemma CarryPut(clock: int, store: Table, tid: TrackId, r: Track)
    requires AllGood(clock, store) && Carries(At(store, tid), r)
    ensures AllGood(clock, store[tid := r])
  {
    hide TrackGood;
    AtIsGood(clock, store, tid);
    CarriesIsGood(clock, store, At(store, tid), r);
    GoodPut(clock, store, tid, r);
  }

  lemma LaterClock(clock: int, later: int, store: Table)
    requires AllGood(clock, store) && clock <= later
    ensures AllGood(later, store)
  {
    forall t | t in store
      ensures TrackGood(later, store, store[t])
    {
      assert TrackGood(clock, store, store[t]);
    }
  }

  // ----- the phases -------------------------------------------------------------------------------

  lemma NotedCarries(c: Config, inp: Input, tid: TrackId, tr: Track, d: Detection)
    ensures Carries(tr, Noted(c, inp, tid, tr, d))
  {
    NoteCarries(tr, d, Now(c, inp), tid in inp.held);
    hide Note;
  }

  lemma NoteCarries(tr: Track, d: Detection, now: int, held: bool)
    ensures Carries(tr, Note(tr, d, now, held))
  {}

  lemma StillCarries(c: Config, tr: Track)
    ensures Carries(tr, UpdateStill(c, tr))
  {
    hide Iou;
  }

  lemma ScoresThenCarries(c: Config, a: Track, b: Track, r: Track, score: real)
    requires Scores(c, a, b, score) && Carries(b, r)
    ensures Scores(c, a, r, score)
  {}

  lemma CarriesTrans(a: Track, b: Track, r: Track)
    requires Carries(a, b) && Carries(b, r)
    ensures Carries(a, r)
  {}

  lemma WakeCarries(c: Config, tr: Track, now: int)
    ensures Carries(tr, Wake(c, tr, now))
  {
    hide UpdateStill;
    var t1 := tr.(parked := None, movedTicks := 0, firstShownMs := now, anchor := None);
    StillCarries(c, t1);
    CarriesTrans(tr, t1, Wake(c, tr, now));
  }

  lemma MatchedScores(c: Config, inp: Input, tid: TrackId, tr: Track, d: Detection)
    ensures Scores(c, tr, MatchedTrack(c, inp, tid, tr, d), d.score)
  {
    hide Take, Noted, Reacted, Scores, Carries;
    TakeScores(c, tr, d);
    var t1 := Take(c, tr, d);
    var t2 := Reacted(c, inp, tid, t1);
    ReactedCarries(c, inp, tid, t1);
    NotedCarries(c, inp, tid, t2, d);
    CarriesTrans(t1, t2, Noted(c, inp, tid, t2, d));
    ScoresThenCarries(c, tr, t1, Noted(c, inp, tid, t2, d), d.score);
  }

  lemma ReactedCarries(c: Config, inp: Input, tid: TrackId, tr: Track)
    ensures Carries(tr, Reacted(c, inp, tid, tr))
  {
    WakeCarries(c, tr, Now(c, inp));
    hide Wake, MovedSince;
    if tr.parked.Some? { CountCarries(tr); }
    hide CountShift, Settle;
  }

  lemma CountCarries(tr: Track)
    requires tr.parked.Some?
    ensures Carries(tr, CountShift(tr)) && Carries(tr, Settle(tr))
  {
    hide LeftSpot, Shifted;
  }

  lemma TakeScores(c: Config, tr: Track, d: Detection)
    ensures Scores(c, tr, Take(c, tr, d), d.score)
  {
    FollowCarries(tr, d.coord);
    hide Iou, Follow, CenterMoved, Carries, Scores, RecordScore, UpdateStill;
    var f := Follow(tr, d.coord);
    var t1 := f.(score := d.score, missCount := 0);
    var t2 := t1.(moved := t1.moved || CenterMoved(t1.firstCoord, d.coord),
                  leftFirstBox := t1.leftFirstBox || Iou(t1.firstCoord, d.coord) < STILL_IOU);
    ThenRecorded(c, tr, f, t2, d.score);
    StillCarries(c, RecordScore(c, t2, d.score));
    ScoresThenCarries(c, tr, RecordScore(c, t2, d.score), Take(c, tr, d), d.score);
  }

  lemma ThenRecorded(c: Config, tr: Track, f: Track, r: Track, score: real)
    requires Carries(tr, f)
    requires r == f.(score := r.score, missCount := r.missCount, moved := r.moved, leftFirstBox := r.leftFirstBox)
    ensures Scores(c, tr, RecordScore(c, r, score), score)
  {
    hide ScoreGate.Record;
  }

  lemma FollowCarries(tr: Track, b: Box)
    ensures Carries(tr, Follow(tr, b))
  {
    hide Blend, LastSizes;
  }

  lemma MissedScores(c: Config, inp: Input, tid: TrackId, tr: Track)
    ensures Scores(c, tr, MissedTrack(c, tr), 0.0) && Scores(c, tr, LastMiss(c, inp, MissedTrack(c, tr), tid), 0.0)
  {
    hide ScoreGate.Record;
  }

  lemma FollowOneGood(c: Config, clock: int, inp: Input, m: Pipeline.Result, w: Work, tid: TrackId)
    requires AllGood(clock, w.s.store) && tid in w.s.store
    ensures AllGood(clock, FollowOne(c, inp, m, w, tid).s.store)
  {
    hide FollowOne, TrackGood, Scores, MatchedTrack, MissedTrack, LastMiss;
    FollowOneStore(c, inp, m, w, tid);
    var tr, r := w.s.store[tid], FollowOne(c, inp, m, w, tid).s.store;
    var given := Given(inp, m, tid);
    var score := if given.Some? then given.value.score else 0.0;
    if given.Some? { MatchedScores(c, inp, tid, tr, given.value); } else { MissedScores(c, inp, tid, tr); }
    assert Scores(c, tr, r[tid], score);
    AtIsGood(clock, w.s.store, tid);
    ScoresIsGood(c, clock, w.s.store, tr, r[tid], score);
    SameKind(c, tr, r[tid], score);
    GoodPut(clock, w.s.store, tid, r[tid]);
    assert r == w.s.store[tid := r[tid]];
  }

  lemma SameKind(c: Config, tr: Track, r: Track, score: real)
    requires Scores(c, tr, r, score)
    ensures r.kind == tr.kind
  {}

  lemma {:induction false} FollowAllGood(c: Config, clock: int, inp: Input, m: Pipeline.Result, w: Work,
                                         ids: seq<TrackId>, n: nat)
    requires n <= |ids| && NoDup(ids) && (forall t :: t in ids ==> t in w.s.store) && AllGood(clock, w.s.store)
    ensures AllGood(clock, FollowAll(c, inp, m, w, ids, n).s.store)
  {
    hide FollowOne, AllGood, Followed;
    if n > 0 {
      FollowAllGood(c, clock, inp, m, w, ids, n - 1);
      FollowAllStore(c, inp, m, w, ids, n - 1);
      assert ids[n - 1] in ids;
      FollowOneGood(c, clock, inp, m, FollowAll(c, inp, m, w, ids, n - 1), ids[n - 1]);
    }
  }

  lemma ResumedCarries(c: Config, inp: Input, tid: TrackId, tr: Track, d: Detection)
    ensures Carries(tr, Resumed(c, inp, tid, tr, d))
  {
    hide Blend, LastSizes, Noted, UpdateStill;
    var t1 := Follow(tr, d.coord).(score := d.score, missCount := 0);
    StillCarries(c, t1);
    NotedCarries(c, inp, tid, UpdateStill(c, t1), d);
  }

  lemma OpenedIsGood(c: Config, clock: int, store: Table, inp: Input, starting: bool, tid: TrackId, d: Detection)
    ensures TrackGood(clock, store, Opened(c, inp, starting, tid, d))
  {
    hide Noted, UpdateStill, ScoreGate.Record;
    var tr := New(c, d, Now(c, inp));
    var t1 := tr.(confirmed := starting || (inp.confirmMs <= 0 && tr.gate.truePositive && ConfirmWith(d.kind).None?));
    StillCarries(c, t1);
    NotedCarries(c, inp, tid, UpdateStill(c, t1), d);
    CarriesIsGood(clock, store, tr, Opened(c, inp, starting, tid, d));
  }

  lemma AdmitOneGood(c: Config, clock: int, inp: Input, m: Pipeline.Result, starting: bool, w: Work, idx: nat)
    requires Sane(w) && AllGood(clock, w.s.store)
    ensures AllGood(clock, AdmitOne(c, inp, m, starting, w, idx).s.store)
  {
    hide Mid, InsideParked, ResumeIou, Resumed, Opened, AllGood, TrackGood;
    if idx < |inp.dets| && !InsideParked(w.s, inp.dets[idx]) {
      var d := inp.dets[idx];
      var k := FindResume(w.s, d, |w.s.recent|);
      if k.Some? {
        var tid := w.s.recent[k.value].tid;
        var tr := At(w.s.store, tid);
        var r := Resumed(c, inp, tid, tr, d);
        ResumedCarries(c, inp, tid, tr, d);
        CarryPut(clock, w.s.store, tid, r);
        CarryPut(clock, w.s.store, tid, Park(r));
      } else {
        OpenedIsGood(c, clock, w.s.store, inp, starting, w.s.nextId, d);
        NextIdIsFresh(w.s, Joining(w));
        GoodPut(clock, w.s.store, w.s.nextId, Opened(c, inp, starting, w.s.nextId, d));
      }
    }
  }

  lemma {:induction false} AdmitAllGood(c: Config, clock: int, inp: Input, m: Pipeline.Result, starting: bool, w: Work, n: nat)
    requires Sane(w) && PendingOk(inp, m) && n <= |m.claims.unclaimed| && AllGood(clock, w.s.store)
    ensures AllGood(clock, AdmitAll(c, inp, m, starting, w, n).s.store)
  {
    hide Mid, AdmitOne, AllGood;
    if n > 0 {
      AdmitAllGood(c, clock, inp, m, starting, w, n - 1);
      AdmitAllKeeps(c, inp, m, starting, w, n - 1);
      AdmitOneGood(c, clock, inp, m, starting, AdmitAll(c, inp, m, starting, w, n - 1), m.claims.unclaimed[n - 1]);
    }
  }

  lemma LinkedIsGood(clock: int, store: Table, tr: Track, pid: TrackId)
    requires TrackGood(clock, store, tr) && pid in store && store[pid].kind == Person
    ensures TrackGood(clock, store, tr.(personTid := Some(pid)))
  {}

  lemma LinkPairGood(clock: int, s: State, fid: TrackId, pid: TrackId)
    requires AllGood(clock, s.store) && pid in s.store && s.store[pid].kind == Person
    ensures AllGood(clock, LinkPair(s, fid, pid).store)
  {
    hide AllGood, TrackGood, At;
    AtIsGood(clock, s.store, fid);
    LinkedIsGood(clock, s.store, At(s.store, fid), pid);
    var f1 := At(s.store, fid).(personTid := Some(pid));
    var s1 := Put(s, fid, f1);
    AtKind(s.store, fid);
    GoodPut(clock, s.store, fid, f1);
    WithFaceCarries(s1, At(s1.store, pid), fid);
    CarryPut(clock, s1.store, pid, WithFace(s1, At(s1.store, pid), fid));
  }

  lemma AtKind(store: Table, tid: TrackId)
    ensures tid in store ==> At(store, tid).kind == store[tid].kind
  {}

  lemma WithFaceCarries(s: State, person: Track, fid: TrackId)
    ensures Carries(person, WithFace(s, person, fid))
  {}

  lemma PersonIsPerson(clock: int, s: State, fid: TrackId)
    requires AllGood(clock, s.store) && PersonOf(s, At(s.store, fid)).Some?
    ensures var pid := PersonOf(s, At(s.store, fid)).value; pid in s.store && s.store[pid].kind == Person
  {
    hide InOrder;
    AtIsGood(clock, s.store, fid);
  }

  lemma LinkOneGood(clock: int, inp: Input, s: State, fid: TrackId)
    requires AllGood(clock, s.store)
    ensures AllGood(clock, LinkOne(inp, s, fid).store)
  {
    hide AllGood, TrackGood, LinkPair, Faces.Owner;
    var pid := PersonOf(s, At(s.store, fid));
    if At(s.store, fid).kind == Face && pid.Some? {
      PersonIsPerson(clock, s, fid);
      LinkPairGood(clock, s, fid, pid.value);
      hide PersonOf;
      var s1 := LinkPair(s, fid, pid.value);
      var face, person := At(s1.store, fid), At(s1.store, pid.value);
      CarryPut(clock, s1.store, fid, face.(zoned := face.zoned || (person.zoned && inp.faceZone(person.coord))));
    }
  }

  lemma {:induction false} LinkAllGood(clock: int, inp: Input, s: State, n: nat)
    requires n <= |s.live| && AllGood(clock, s.store)
    ensures AllGood(clock, LinkAll(inp, s, n).store)
  {
    hide AllGood, LinkOne;
    if n > 0 {
      LinkAllGood(clock, inp, s, n - 1);
      LinkOneGood(clock, inp, LinkAll(inp, s, n - 1), s.live[n - 1]);
    }
  }

  lemma RememberedIsGood(inp: Input, store: Table, tr: Track)
    requires TrackGood(inp.at.mono, store, tr)
    ensures TrackGood(inp.at.mono, store, tr.(history := LastSeen(tr.history + [Seen(inp.at, tr.coord, tr.score)])))
  {}

  lemma {:induction false} RememberAllGood(c: Config, inp: Input, s: State, n: nat)
    requires n <= |s.live| && AllGood(inp.at.mono, s.store)
    ensures AllGood(inp.at.mono, RememberAll(c, inp, s, n).store)
  {
    hide AllGood, TrackGood, LastSeen;
    if n > 0 {
      RememberAllGood(c, inp, s, n - 1);
      var p, tid := RememberAll(c, inp, s, n - 1), s.live[n - 1];
      var tr := At(p.store, tid);
      AtIsGood(inp.at.mono, p.store, tid);
      RememberedIsGood(inp, p.store, tr);
      GoodPut(inp.at.mono, p.store, tid, tr.(history := LastSeen(tr.history + [Seen(inp.at, tr.coord, tr.score)])));
    }
  }

  lemma {:induction false} ConfirmAllGood(c: Config, clock: int, inp: Input, w: Work, n: nat)
    requires n <= |w.s.live| && AllGood(clock, w.s.store)
    ensures AllGood(clock, ConfirmAll(c, inp, w, n).s.store)
  {
    hide AllGood, Confirmable;
    if n > 0 {
      ConfirmAllGood(c, clock, inp, w, n - 1);
      var p, tid := ConfirmAll(c, inp, w, n - 1), w.s.live[n - 1];
      CarryPut(clock, p.s.store, tid, At(p.s.store, tid).(confirmed := true));
    }
  }

  lemma ParkOneGood(clock: int, p: State, tid: TrackId)
    requires AllGood(clock, p.store)
    ensures AllGood(clock, ParkOne(p, tid).store)
  {
    hide AllGood;
    var tr := At(p.store, tid);
    CarryPut(clock, p.store, tid, Park(tr));
    CarryPut(clock, p.store, tid, Park(tr.(confirmed := true)));
  }

  lemma {:induction false} ParkAllGood(clock: int, s: State, n: nat)
    requires n <= |s.live| && AllGood(clock, s.store)
    ensures AllGood(clock, ParkAll(s, n).store)
  {
    hide AllGood, ParkOne;
    if n > 0 {
      ParkAllGood(clock, s, n - 1);
      ParkOneGood(clock, ParkAll(s, n - 1), s.live[n - 1]);
    }
  }

  lemma {:induction false} AccompanyAllGood(clock: int, w: Work, n: nat)
    requires n <= |w.s.live| && AllGood(clock, w.s.store)
    ensures AllGood(clock, AccompanyAll(w, n).s.store)
  {
    hide AllGood, HasParent;
    if n > 0 {
      AccompanyAllGood(clock, w, n - 1);
      var p, tid := AccompanyAll(w, n - 1), w.s.live[n - 1];
      CarryPut(clock, p.s.store, tid, At(p.s.store, tid).(confirmed := true));
    }
  }

  lemma {:induction false} ReleaseAllGood(clock: int, s: State, n: nat)
    requires n <= |s.live| && AllGood(clock, s.store)
    ensures AllGood(clock, ReleaseAll(s, n).s.store)
  {
    hide AllGood;
    if n > 0 {
      ReleaseAllGood(clock, s, n - 1);
      var p, tid := ReleaseAll(s, n - 1), s.live[n - 1];
      CarryPut(clock, p.s.store, tid, At(p.s.store, tid).(awaitingZone := false));
    }
  }

  lemma {:induction false} HoldAllGood(clock: int, w: Work, joining: seq<TrackId>, n: nat)
    requires n <= |joining| && AllGood(clock, w.s.store)
    ensures AllGood(clock, HoldAll(w, joining, n).s.store)
  {
    hide AllGood;
    if n > 0 {
      HoldAllGood(clock, w, joining, n - 1);
      var p, tid := HoldAll(w, joining, n - 1), joining[n - 1];
      CarryPut(clock, p.s.store, tid, At(p.s.store, tid).(awaitingZone := true));
    }
  }

  lemma {:induction false} EnrolGood(clock: int, store: Table, ids: seq<TrackId>, id: int, n: nat)
    requires n <= |ids| && AllGood(clock, store)
    ensures AllGood(clock, Enrol(store, ids, id, n))
  {
    hide AllGood;
    if n > 0 {
      EnrolGood(clock, store, ids, id, n - 1);
      var p := Enrol(store, ids, id, n - 1);
      CarryPut(clock, p, ids[n - 1], TakePart(At(p, ids[n - 1]), id));
    }
  }

  lemma {:induction false} ForgetGood(clock: int, store: Table, ids: seq<TrackId>, n: nat)
    requires n <= |ids| && AllGood(clock, store)
    ensures AllGood(clock, ForgetHistory(store, ids, n))
  {
    hide AllGood;
    if n > 0 {
      ForgetGood(clock, store, ids, n - 1);
      var p := ForgetHistory(store, ids, n - 1);
      CarryPut(clock, p, ids[n - 1], Forget(At(p, ids[n - 1])));
    }
  }

  lemma {:induction false} ParkThoseGood(clock: int, store: Table, ids: seq<TrackId>, n: nat)
    requires n <= |ids| && AllGood(clock, store)
    ensures AllGood(clock, ParkThose(store, ids, n))
  {
    hide AllGood;
    if n > 0 {
      ParkThoseGood(clock, store, ids, n - 1);
      var p := ParkThose(store, ids, n - 1);
      CarryPut(clock, p, ids[n - 1], Park(At(p, ids[n - 1])));
    }
  }

  lemma LifecycleGood(c: Config, clock: int, inp: Input, w: Work)
    requires AllGood(clock, w.s.store)
    ensures AllGood(clock, Lifecycle(c, inp, w).store)
  {
    hide AllGood, Enrol, ForgetHistory, ParkThose, ActiveIds, FacesLast, OpenEvent, ReportEvent;
    var active := ActiveIds(w.s.live, w.s.store);
    if w.s.event.None? {
      if w.joining != [] && active != [] {
        OpenEventStore(c, inp, w.s, w.joining, active);
        var store := Enrol(w.s.store, active, w.s.counter + inp.skipped, |active|);
        EnrolGood(clock, w.s.store, active, w.s.counter + inp.skipped, |active|);
        var starters := Among(FacesLast(store, active), w.joining);
        ForgetGood(clock, store, starters, |starters|);
      }
    } else {
      var e := w.s.event.value;
      var p := Enrol(w.s.store, w.joining, e.id, |w.joining|);
      EnrolGood(clock, w.s.store, w.joining, e.id, |w.joining|);
      ForgetGood(clock, p, w.joining, |w.joining|);
      var q := ForgetHistory(p, w.joining, |w.joining|);
      ParkThoseGood(clock, q, active, |active|);
      ReportEventStore(c, inp, w.s.(store := q), e, active);
    }
  }

  // ----- runs -------------------------------------------------------------------------------------

  /** At the zone check of a tick, where a back-dated message reads them, the remembered frames are in
      order. */
  lemma GatherGood(c: Config, s: State, inp: Input, clock: int)
    requires Inv(s) && InputOk(s, inp) && AllGood(clock, s.store) && clock <= inp.at.mono
    ensures AllGood(inp.at.mono, HoldForZones(Gather(c, s, inp, Matches(c, s, inp))).s.store)
  {
    hide Mid, AllGood, Begin, Starting, FollowAll, AdmitAll, ReleaseAll, HoldAll, LinkAll, RememberAll,
      ConfirmAll, ParkAll, AccompanyAll, Matches, Pipeline.FrameOk;
    var m, k := Matches(c, s, inp), inp.at.mono;
    MatchesFacts(c, s, inp);
    var s0 := Begin(c, s, inp).(ids := m.ids);
    BeginKeeps(c, s, {}, inp, m.ids);
    BeginLive(c, s, inp);
    LaterClock(clock, k, s.store);
    LiveOk(s0, {});
    var w1 := FollowAll(c, inp, m, Work(s0, []), s0.live, |s0.live|);
    FollowAllKeeps(c, inp, m, s0, |s0.live|);
    FollowAllGood(c, k, inp, m, Work(s0, []), s0.live, |s0.live|);
    var w2 := AdmitAll(c, inp, m, Starting(c, s0, inp), w1, |m.claims.unclaimed|);
    AdmitAllGood(c, k, inp, m, Starting(c, s0, inp), w1, |m.claims.unclaimed|);
    var s3 := LinkAll(inp, w2.s, |w2.s.live|);
    LinkAllGood(k, inp, w2.s, |w2.s.live|);
    var s4 := RememberAll(c, inp, s3, |s3.live|);
    RememberAllGood(c, inp, s3, |s3.live|);
    var w5 := ConfirmAll(c, inp, Work(s4, w2.joining), |s4.live|);
    ConfirmAllGood(c, k, inp, Work(s4, w2.joining), |s4.live|);
    var s6 := ParkAll(w5.s, |w5.s.live|);
    ParkAllGood(k, w5.s, |w5.s.live|);
    var w7 := AccompanyAll(Work(s6, w5.joining), |s6.live|);
    AccompanyAllGood(k, Work(s6, w5.joining), |s6.live|);
    var w8 := ReleaseAll(w7.s, |w7.s.live|);
    ReleaseAllGood(k, w7.s, |w7.s.live|);
    HoldAllGood(k, w8, w7.joining, |w7.joining|);
  }

  lemma TickGood(c: Config, s: State, inp: Input, clock: int)
    requires Inv(s) && InputOk(s, inp) && AllGood(clock, s.store) && clock <= inp.at.mono
    ensures AllGood(inp.at.mono, Tick(c, s, inp).store)
  {
    hide Mid, AllGood, Gather, HoldForZones, Lifecycle, Matches, InputOk;
    GatherGood(c, s, inp, clock);
    LifecycleGood(c, inp.at.mono, inp, HoldForZones(Gather(c, s, inp, Matches(c, s, inp))));
  }

  lemma {:induction false} RunGood(c: Config, counter: int, states: seq<State>, inputs: seq<Input>, n: nat)
    requires IsRun(c, counter, states, inputs) && n <= |inputs|
    ensures AllGood(ClockAfter(inputs, n), states[n].store)
  {
    hide Tick, Mid, Inv, AllGood, TraceOk, NamesOk;
    if n == 0 {
      InitialGood(counter, ClockAfter(inputs, 0));
    } else {
      RunGood(c, counter, states, inputs, n - 1);
      RunKeeps(c, counter, states, inputs, n - 1);
      assert IsStep(c, states[n - 1], inputs[n - 1], states[n]);
      InvGivesInputOk(states[n - 1], inputs[n - 1]);
      TickGood(c, states[n - 1], inputs[n - 1], ClockAfter(inputs, n - 1));
    }
  }

  lemma InitialGood(counter: int, clock: int)
    ensures AllGood(clock, Initial(counter).store)
  {}
}
