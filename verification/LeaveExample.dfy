/** A run whose leave names somebody who never took part: a person in a zone and an animal outside every
    zone are seen together; the animal goes first, then the person. */
module LeaveExample {
  import opened Wrappers
  import opened Geometry
  import opened Lists
  import opened Tracks
  import opened Matching
  import opened Engine
  import opened EngineInvariant
  import opened EventTrace
  import opened EventFacts
  import opened TrackHistory
  import opened TrackLife
  import opened ZoneWaiting
  import opened LeaveFacts
  import BoundedClosing
  import Faces
  import Norfair
  import Pipeline
  import ScoreGate

  // ----- frames with people and animals only ------------------------------------------------------

  /** A type that neither parks nor confirms with a parent. */
  predicate Plain(kind: ObjectType) {
    kind == Person || kind == Animal
  }

  predicate PlainFrame(inp: Input) {
    inp.assoc == [] && forall i :: 0 <= i < |inp.dets| ==>
      Plain(inp.dets[i].kind) && !inp.dets[i].clipped && inp.dets[i].seeded.None?
  }

  lemma PlainFrameOk(s: State, inp: Input)
    requires PlainFrame(inp)
    ensures FrameOk(s, inp)
  {}

  lemma {:induction false} NoReads(live: seq<TrackId>, store: Table, dets: seq<Detection>, cl: Claims, n: nat)
    requires n <= |Faces.Order(dets)| && Sound(live, store, dets, cl) && forall i: nat :: i < |dets| ==> Holds(cl, i)
    requires forall i :: 0 <= i < |dets| ==> dets[i].kind != Face
    ensures Faces.Pass(live, store, dets, cl, n).claims == cl
  {
    hide *;
    Faces.OrderMembers(dets);
    if n == 0 {
      NothingPassed(live, store, dets, cl);
    } else {
      NoReads(live, store, dets, cl, n - 1);
      assert Faces.Order(dets)[n - 1] in Faces.Order(dets);
      PassesOver(live, store, dets, cl, n);
    }
  }

  lemma NothingPassed(live: seq<TrackId>, store: Table, dets: seq<Detection>, cl: Claims)
    requires Sound(live, store, dets, cl) && forall i: nat :: i < |dets| ==> Holds(cl, i)
    ensures Faces.Pass(live, store, dets, cl, 0).claims == cl
  {
    hide Sound, Holds, Faces.Good;
  }

  lemma PassesOver(live: seq<TrackId>, store: Table, dets: seq<Detection>, cl: Claims, n: nat)
    requires 0 < n <= |Faces.Order(dets)| && Sound(live, store, dets, cl) && forall i: nat :: i < |dets| ==> Holds(cl, i)
    requires Faces.Order(dets)[n - 1] < |dets| && dets[Faces.Order(dets)[n - 1]].kind != Face
    ensures Faces.Pass(live, store, dets, cl, n) == Faces.Pass(live, store, dets, cl, n - 1)
  {
    hide Sound, Holds, Faces.Order, Faces.PeopleBoxes, Faces.Owner, Faces.Drop, Faces.Repoint;
  }

  lemma {:induction false} NoneClipped(dets: seq<Detection>, s: seq<nat>)
    requires forall i :: 0 <= i < |dets| ==> !dets[i].clipped
    ensures Pipeline.WholeBoxes(dets, s) == s
  {
    if s != [] {
      NoneClipped(dets, s[..|s| - 1]);
      assert s == s[..|s| - 1] + [s[|s| - 1]];
    }
  }

  /** Such a frame is matched by the built-in matcher alone. */
  lemma PlainMatches(c: Config, s: State, inp: Input)
    requires InputOk(s, inp) && PlainFrame(inp) && !c.norfair
    ensures Tracked(s.live, s.store) && NoDup(s.live)
    ensures Matches(c, s, inp) == Pipeline.Result(Builtin(s.live, s.store, inp.dets), s.ids, map[])
  {
    hide Builtin, Faces.Pass, Faces.Order;
    var cl := Builtin(s.live, s.store, inp.dets);
    NoReads(s.live, s.store, inp.dets, cl, |Faces.Order(inp.dets)|);
    NoneClipped(inp.dets, cl.unclaimed);
    assert Pipeline.WholeMatches(s.store, inp.dets, cl.matches) == cl.matches;
  }

  ghost predicate PlainState(s: State) {
    NoDup(s.live) && forall t :: t in s.live ==> t in s.store && Plain(s.store[t].kind)
  }

  lemma {:induction false} LinksNobody(inp: Input, s: State, n: nat)
    requires PlainState(s) && n <= |s.live|
    ensures LinkAll(inp, s, n) == s
  {
    if n > 0 {
      LinksNobody(inp, s, n - 1);
      assert s.live[n - 1] in s.live;
    }
  }

  lemma {:induction false} ParksNobody(s: State, n: nat)
    requires PlainState(s) && n <= |s.live|
    ensures ParkAll(s, n) == s
  {
    if n > 0 {
      ParksNobody(s, n - 1);
      assert s.live[n - 1] in s.live;
    }
  }

  lemma {:induction false} AccompaniesNobody(w: Work, n: nat)
    requires PlainState(w.s) && n <= |w.s.live|
    ensures AccompanyAll(w, n) == w
  {
    hide HasParent;
    if n > 0 {
      AccompaniesNobody(w, n - 1);
      assert w.s.live[n - 1] in w.s.live;
    }
  }

  /** r is tr as remembering, and waiting for a zone, may leave it. */
  predicate SameButMemory(tr: Track, r: Track) {
    r == tr.(history := r.history, awaitingZone := r.awaitingZone)
  }

  ghost predicate AllButMemory(s: State, r: State) {
    r.live == s.live && r.event == s.event && forall t :: t in s.store ==> t in r.store && SameButMemory(s.store[t], r.store[t])
  }

  lemma {:induction false} RememberButMemory(c: Config, inp: Input, s: State, n: nat)
    requires n <= |s.live|
    ensures AllButMemory(s, RememberAll(c, inp, s, n))
  {
    if n > 0 { RememberButMemory(c, inp, s, n - 1); }
  }

  lemma {:induction false} ReleaseButMemory(s: State, n: nat)
    requires n <= |s.live|
    ensures AllButMemory(s, ReleaseAll(s, n).s)
  {
    if n > 0 { ReleaseButMemory(s, n - 1); }
  }

  lemma {:induction false} HoldButMemory(w: Work, joining: seq<TrackId>, n: nat)
    requires n <= |joining|
    ensures AllButMemory(w.s, HoldAll(w, joining, n).s)
  {
    if n > 0 { HoldButMemory(w, joining, n - 1); }
  }

  /** Everyone live who can be is confirmed. */
  lemma {:induction false} ConfirmsWhoCan(c: Config, inp: Input, w: Work, n: nat, tid: TrackId)
    requires PlainState(w.s) && n <= |w.s.live| && tid in w.s.store
    ensures var r := ConfirmAll(c, inp, w, n).s;
            && r.store.Keys == w.s.store.Keys
            && r.store[tid] == if tid in w.s.live[..n] && Confirmable(c, inp, w.s.store[tid])
                               then w.s.store[tid].(confirmed := true) else w.s.store[tid]
  {
    hide Confirmable, ConfirmOne;
    if n > 0 {
      ConfirmsWhoCan(c, inp, w, n - 1, tid);
      var p, t := ConfirmAll(c, inp, w, n - 1), w.s.live[n - 1];
      assert t in w.s.live && t !in w.s.live[..n - 1];
      assert w.s.live[..n] == w.s.live[..n - 1] + [t];
      ConfirmOneIs(c, inp, p, t);
    }
  }

  lemma ConfirmOneIs(c: Config, inp: Input, w: Work, tid: TrackId)
    requires tid in w.s.store
    ensures var r := ConfirmOne(c, inp, w, tid).s;
            && r.store.Keys == w.s.store.Keys
            && (forall t :: t in w.s.store && t != tid ==> r.store[t] == w.s.store[t])
            && r.store[tid] == if Confirmable(c, inp, w.s.store[tid]) then w.s.store[tid].(confirmed := true) else w.s.store[tid]
  {
    hide Confirmable;
  }

  /** What a frame's phases behind the unclaimed detections do to a plain live track. */
  ghost predicate PlainlyOn(c: Config, inp: Input, tr: Track, r: Track) {
    && SameButMemory(tr.(confirmed := r.confirmed), r)
    && r.confirmed == (tr.confirmed || Confirmable(c, inp, tr))
  }

  lemma PlainPhases(c: Config, inp: Input, w2: Work)
    requires PlainState(w2.s)
    ensures var s3 := LinkAll(inp, w2.s, |w2.s.live|);
            var s4 := RememberAll(c, inp, s3, |s3.live|);
            var w5 := ConfirmAll(c, inp, Work(s4, w2.joining), |s4.live|);
            var s6 := ParkAll(w5.s, |w5.s.live|);
            var w := HoldForZones(AccompanyAll(Work(s6, w5.joining), |s6.live|));
            && w.s.live == w2.s.live && w.s.event == w2.s.event
            && forall t :: t in w2.s.live ==> t in w2.s.store && t in w.s.store && PlainlyOn(c, inp, w2.s.store[t], w.s.store[t])
  {
    hide LinkAll, RememberAll, ConfirmAll, ParkAll, AccompanyAll, ReleaseAll, HoldAll, Confirmable, PlainlyOn, AllButMemory;
    LinksNobody(inp, w2.s, |w2.s.live|);
    var s4 := RememberAll(c, inp, w2.s, |w2.s.live|);
    RememberButMemory(c, inp, w2.s, |w2.s.live|);
    StaysPlain(w2.s, s4);
    var w5 := ConfirmAll(c, inp, Work(s4, w2.joining), |s4.live|);
    assert s4.live[..|s4.live|] == s4.live;
    forall t | t in s4.store
      ensures t in w5.s.store
      ensures w5.s.store[t] == if t in s4.live && Confirmable(c, inp, s4.store[t]) then s4.store[t].(confirmed := true) else s4.store[t]
    {
      ConfirmsWhoCan(c, inp, Work(s4, w2.joining), |s4.live|, t);
    }
    SameKindsPlain(s4, w5.s);
    ConfirmAllEvent(c, inp, Work(s4, w2.joining), |s4.live|);
    ParksNobody(w5.s, |w5.s.live|);
    AccompaniesNobody(w5, |w5.s.live|);
    var w8 := ReleaseAll(w5.s, |w5.s.live|);
    ReleaseButMemory(w5.s, |w5.s.live|);
    var w9 := HoldAll(w8, w5.joining, |w5.joining|);
    HoldButMemory(w8, w5.joining, |w5.joining|);
    forall t | t in w2.s.live
      ensures t in w2.s.store && t in w9.s.store && PlainlyOn(c, inp, w2.s.store[t], w9.s.store[t])
    {
      ByMemory(w2.s, s4, t);
      ByMemory(w5.s, w8.s, t);
      ByMemory(w8.s, w9.s, t);
      PlainlyThrough(c, inp, w2.s.store[t], s4.store[t], w5.s.store[t], w8.s.store[t], w9.s.store[t]);
    }
    SameEvent(w2.s, s4);
    SameEvent(w5.s, w8.s);
    SameEvent(w8.s, w9.s);
  }

  lemma SameKindsPlain(s: State, r: State)
    requires PlainState(s) && r.live == s.live
    requires forall t :: t in s.store ==> t in r.store && r.store[t].kind == s.store[t].kind
    ensures PlainState(r)
  {}

  lemma StaysPlain(s: State, r: State)
    requires PlainState(s) && AllButMemory(s, r)
    ensures PlainState(r)
  {}

  lemma SameEvent(s: State, r: State)
    requires AllButMemory(s, r)
    ensures r.event == s.event && r.live == s.live
  {}

  lemma ByMemory(s: State, r: State, t: TrackId)
    requires AllButMemory(s, r) && t in s.store
    ensures t in r.store && SameButMemory(s.store[t], r.store[t])
  {}

  lemma PlainlyThrough(c: Config, inp: Input, a: Track, b: Track, d: Track, e: Track, f: Track)
    requires SameButMemory(a, b) && SameButMemory(d, e) && SameButMemory(e, f)
    requires d == if Confirmable(c, inp, b) then b.(confirmed := true) else b
    ensures PlainlyOn(c, inp, a, f)
  {
    MemoryTwice(d, e, f);
    NoMemoryToConfirm(c, inp, a, b);
    ConfirmedAlike(a, b, Confirmable(c, inp, b));
    hide Confirmable, SameButMemory;
    MemoryTwice(a.(confirmed := d.confirmed), d, f);
    assert f.confirmed == d.confirmed by { SameConfirmed(d, f); }
    SameConfirmed(a, b);
  }

  lemma MemoryTwice(a: Track, b: Track, d: Track)
    requires SameButMemory(a, b) && SameButMemory(b, d)
    ensures SameButMemory(a, d)
  {}

  lemma SameConfirmed(a: Track, b: Track)
    requires SameButMemory(a, b)
    ensures b.confirmed == a.confirmed
  {}

  lemma NoMemoryToConfirm(c: Config, inp: Input, a: Track, b: Track)
    requires SameButMemory(a, b)
    ensures Confirmable(c, inp, a) == Confirmable(c, inp, b)
  {}

  lemma ConfirmedAlike(a: Track, b: Track, confirms: bool)
    requires SameButMemory(a, b)
    ensures var d := if confirms then b.(confirmed := true) else b; SameButMemory(a.(confirmed := d.confirmed), d)
  {}

  // ----- following --------------------------------------------------------------------------------

  lemma FollowOneLive(c: Config, inp: Input, m: Pipeline.Result, w: Work, tid: TrackId)
    requires tid in w.s.live && tid in w.s.store
    ensures var r := FollowOne(c, inp, m, w, tid).s;
            && (Given(inp, m, tid).Some? ==> r.live == w.s.live)
            && (Given(inp, m, tid).None? && Plain(w.s.store[tid].kind) ==>
                  (tid in r.live <==> !OutOfTolerance(c, w.s.store[tid])))
  {
    hide Matched, Missed, OutOfTolerance;
    if Given(inp, m, tid).Some? {
      MatchedShape(c, inp, w, tid, inp.dets[m.claims.matches[tid]]);
    } else {
      MissedExactly(c, inp, w.s, tid);
    }
  }

  /** Who is still live after following: whoever was given a detection, and whoever has misses left. */
  lemma {:induction false} FollowAllLive(c: Config, inp: Input, m: Pipeline.Result, s: State, n: nat, tid: TrackId)
    requires Mid(s, {}) && n <= |s.live| && tid in s.live && tid in s.store && Plain(s.store[tid].kind)
    ensures var r := FollowAll(c, inp, m, Work(s, []), s.live, n).s;
            tid in s.live[..n] ==> (tid in r.live <==> Given(inp, m, tid).Some? || !OutOfTolerance(c, s.store[tid]))
  {
    hide *;
    if n > 0 {
      FollowAllLive(c, inp, m, s, n - 1, tid);
      var w, t := FollowAll(c, inp, m, Work(s, []), s.live, n - 1), s.live[n - 1];
      LiveDistinct(s, {}, n - 1);
      LiveOk(s, {});
      FollowAllKeeps(c, inp, m, s, n - 1);
      FollowAllStore(c, inp, m, Work(s, []), s.live, n - 1);
      assert s.live[..n] == s.live[..n - 1] + [t];
      assert t in s.live;
      FollowOneFinished(c, inp, m, w, t);
      FollowOneLive(c, inp, m, w, t);
      FollowAllNext(c, inp, m, s, n);
    }
  }

  /** What a detection does to a moving plain track. */
  lemma MatchedPlain(c: Config, inp: Input, tid: TrackId, tr: Track, d: Detection)
    requires tr.parked.None? && Plain(d.kind)
    ensures var r := MatchedTrack(c, inp, tid, tr, d);
            && r.kind == tr.kind && r.parked.None? && r.confirmed == tr.confirmed && r.firstShownMs == tr.firstShownMs
            && r.zoned == (tr.zoned || (d.inZone && tid !in inp.held)) && r.coord == d.coord
            && r.gate == ScoreGate.Record(tr.gate, d.score, c.minInit, c.threshold(tr.kind))
  {
    MatchedScores(c, inp, tid, tr, d);
    TakePlain(c, tr, d);
    TakeKeepsParking(c, tr, d);
    var t1 := Take(c, tr, d);
    hide Take, ScoreGate.Record, LeftSpot, Shifted;
    assert MatchedTrack(c, inp, tid, tr, d) == Noted(c, inp, tid, t1, d);
    NotedPlain(c, inp, tid, t1, d);
    hide MatchedTrack, Noted;
  }

  lemma TakePlain(c: Config, tr: Track, d: Detection)
    ensures var r := Take(c, tr, d);
            r.confirmed == tr.confirmed && r.firstShownMs == tr.firstShownMs && r.zoned == tr.zoned
  {
    FollowPlain(tr, d.coord);
    hide Iou, Follow, CenterMoved, ScoreGate.Record, UpdateStill;
    var t1 := Follow(tr, d.coord).(score := d.score, missCount := 0);
    var t2 := t1.(moved := t1.moved || CenterMoved(t1.firstCoord, d.coord),
                  leftFirstBox := t1.leftFirstBox || Iou(t1.firstCoord, d.coord) < STILL_IOU);
    StillPlainly(c, RecordScore(c, t2, d.score));
  }

  lemma FollowPlain(tr: Track, b: Box)
    ensures var r := Follow(tr, b);
            r.confirmed == tr.confirmed && r.firstShownMs == tr.firstShownMs && r.zoned == tr.zoned
  {
    hide Blend, LastSizes;
  }

  lemma StillPlainly(c: Config, tr: Track)
    ensures var r := UpdateStill(c, tr);
            r.confirmed == tr.confirmed && r.firstShownMs == tr.firstShownMs && r.zoned == tr.zoned
  {
    hide Iou;
  }

  lemma NotedPlain(c: Config, inp: Input, tid: TrackId, tr: Track, d: Detection)
    requires d.kind != Face
    ensures var r := Noted(c, inp, tid, tr, d);
            && r.parked == tr.parked && r.confirmed == tr.confirmed && r.firstShownMs == tr.firstShownMs
            && r.zoned == (tr.zoned || (d.inZone && tid !in inp.held)) && r.coord == tr.coord
  {}

  lemma TwoHits(g: ScoreGate.Gate)
    requires g == ScoreGate.Record(ScoreGate.EMPTY, 1.0, 1, 0.5)
    ensures !g.truePositive && ScoreGate.Record(g, 1.0, 1, 0.5).truePositive
  {
    assert ScoreGate.Sort([1.0, 1.0][1..]) == [1.0];
  }

  lemma PlainKind(s: State, tid: TrackId)
    requires PlainState(s) && tid in s.live
    ensures tid in s.store && Plain(s.store[tid].kind)
  {}

  lemma NothingToAdmit(c: Config, inp: Input, m: Pipeline.Result, starting: bool, w: Work)
    requires m.claims.unclaimed == []
    ensures AdmitAll(c, inp, m, starting, w, |m.claims.unclaimed|) == w
  {}

  lemma FollowedKind(c: Config, inp: Input, m: Pipeline.Result, tid: TrackId, tr: Track, r: Track)
    requires Followed(c, inp, m, tid, tr, r)
    ensures r.kind == tr.kind
  {
    hide MatchedTrack, MissedTrack, LastMiss;
    MissLeaves(c, inp, tr, tid);
    if Given(inp, m, tid).Some? { MatchedKind(c, inp, tid, tr, Given(inp, m, tid).value); }
  }

  lemma MatchedKind(c: Config, inp: Input, tid: TrackId, tr: Track, d: Detection)
    ensures MatchedTrack(c, inp, tid, tr, d).kind == tr.kind
  {
    hide MatchedTrack;
    MatchedScores(c, inp, tid, tr, d);
  }

  lemma StillPlain(c: Config, inp: Input, m: Pipeline.Result, s: State)
    requires PlainState(s) && Mid(s, {})
    ensures PlainState(FollowAll(c, inp, m, Work(s, []), s.live, |s.live|).s)
  {
    hide Mid, FollowAll, Followed, Plain, FinishedAfter;
    var r := FollowAll(c, inp, m, Work(s, []), s.live, |s.live|);
    FollowAllKeeps(c, inp, m, s, |s.live|);
    FollowAllStore(c, inp, m, Work(s, []), s.live, |s.live|);
    LiveOk(r.s, Joining(r));
    assert s.live[..|s.live|] == s.live;
    forall t | t in r.s.live
      ensures t in r.s.store && Plain(r.s.store[t].kind)
    {
      FollowAllFinished(c, inp, m, s, |s.live|, t);
      FollowedKind(c, inp, m, t, s.store[t], r.s.store[t]);
    }
  }

  /** A frame whose boxes are all given to tracks: what it leaves of a moving plain track, up to the zone
      check. */
  lemma OnlyFollowed(c: Config, s: State, inp: Input, tid: TrackId)
    requires Inv(s) && InputOk(s, inp) && PlainState(s) && Matches(c, s, inp).claims.unclaimed == [] && tid in s.live
    requires tid in s.store && s.store[tid].parked.None?
    ensures var given, w := Given(inp, Matches(c, s, inp), tid), HoldForZones(Gather(c, s, inp, Matches(c, s, inp)));
            && w.s.live == AfterFollowing(c, s, inp).s.live && PlainState(w.s)
            && (tid in w.s.live <==> given.Some? || !OutOfTolerance(c, s.store[tid]))
            && (given.Some? ==>
                  tid in w.s.store && PlainlyOn(c, inp, MatchedTrack(c, inp, tid, s.store[tid], given.value), w.s.store[tid]))
  {
    hide *;
    var m := Matches(c, s, inp);
    var s0 := Begin(c, s, inp).(ids := m.ids);
    MatchesFacts(c, s, inp);
    InvIsMid(s);
    BeginKeeps(c, s, {}, inp, m.ids);
    BeginLive(c, s, inp);
    AfterFollowingIs(c, s, inp);
    LiveOk(s, {});
    PlainKind(s, tid);
    FollowAllLive(c, inp, m, s0, |s0.live|, tid);
    assert s0.live[..|s0.live|] == s0.live;
    FollowAllStore(c, inp, m, Work(s0, []), s0.live, |s0.live|);
    SamePlain(s, s0);
    StillPlain(c, inp, m, s0);
    GatherIs(c, s, inp);
    NothingToAdmit(c, inp, m, Starting(c, s0, inp), AfterFollowing(c, s, inp));
    PlainPhases(c, inp, AfterFollowing(c, s, inp));
    PlainAfterwards(AfterFollowing(c, s, inp).s, HoldForZones(Gather(c, s, inp, m)).s, c, inp);
    FollowedWas(c, inp, m, tid, s.store[tid], AfterFollowing(c, s, inp).s.store[tid]);
  }

  lemma SamePlain(s: State, r: State)
    requires PlainState(s) && r.live == s.live && r.store == s.store
    ensures PlainState(r)
  {}

  lemma PlainAfterwards(s: State, r: State, c: Config, inp: Input)
    requires PlainState(s) && r.live == s.live
    requires forall t :: t in s.live ==> t in s.store && t in r.store && PlainlyOn(c, inp, s.store[t], r.store[t])
    ensures PlainState(r)
  {}

  lemma FollowedWas(c: Config, inp: Input, m: Pipeline.Result, tid: TrackId, tr: Track, r: Track)
    requires Followed(c, inp, m, tid, tr, r)
    ensures Given(inp, m, tid).Some? ==> r == MatchedTrack(c, inp, tid, tr, Given(inp, m, tid).value)
  {
    hide MatchedTrack;
  }

  // ----- the run ----------------------------------------------------------------------------------

  const PERSON_BOX := Box(0.0, 0.0, 100.0, 100.0)
  const ANIMAL_BOX := Box(500.0, 500.0, 100.0, 100.0)

  /** Somebody in a zone, and an animal outside every zone. */
  const SOMEBODY := Detection(Person, PERSON_BOX, 1.0, None, false, false, true, None)
  const ANIMAL := Detection(Animal, ANIMAL_BOX, 1.0, None, false, false, false, None)

  /** Settings the program can have at fps analysed frames a second: 30 s of stillness to park, 30 s of misses
      to close a parked track, 6 s of shifting to wake it. */
  predicate SettingsAt(c: Config, fps: nat) {
    fps >= 2 && c.parkedTicks == 30 * fps && c.stillTicks == 30 * fps && c.resumeTicks == 6 * fps
  }

  /** AIPORT_TICK_S=1, so two frames a second, AIPORT_MISS_S=0.5, AIPORT_MIN_INITIALIZED=1,
      AIPORT_TRUE_THRESH=0.5 and the built-in tracker. One miss closes a track; two hits pass the gate. */
  function Settings(): Config {
    Config(1000, 1, 60, 60, 12, 1, (kind: ObjectType) => 0.5, 60000, 0, false)
  }

  lemma SettingsArePossible()
    ensures SettingsAt(Settings(), 2)
  {}

  /** A frame at so many milliseconds, with the default time limit of an event. */
  function Frame(at: int, dets: seq<Detection>): Input {
    Input(Stamp(at, at), true, false, dets, [], 0, 300000, (b: Box) => false, {}, {}, {}, 0)
  }

  lemma SameBoxOverlaps(b: Box)
    requires b.w == 100.0 && b.h == 100.0
    ensures Iou(b, b) > IOU_MATCH_THRESHOLD
  {
    assert Overlap(b, b) == 100.0 * 100.0;
  }

  /** A box that only one track can be matched with, and overlaps, is that track's. */
  lemma OwnBox(live: seq<TrackId>, store: Table, dets: seq<Detection>, cl: Claims, t: TrackId, i: nat)
    requires Sound(live, store, dets, cl) && NoOverlapLeft(live, store, dets, cl, |live|) && i < |dets| && Holds(cl, i)
    requires t in live && Overlaps(store[t], dets[i])
    requires forall u :: u in live && u != t ==> store[u].kind != dets[i].kind
    requires forall j :: 0 <= j < |dets| && j != i ==> dets[j].kind != store[t].kind
    ensures t in cl.matches && cl.matches[t] == i && i !in cl.unclaimed
  {
    var k :| 0 <= k < |live| && live[k] == t;
    hide Overlaps;
  }

  /** Two tracks, of a person and an animal, where this frame's boxes are. */
  ghost predicate TwoTracks(s: State, a: TrackId, b: TrackId) {
    && NoDup(s.live) && (forall t :: t in s.live <==> t == a || t == b) && a != b && a in s.store && b in s.store
    && s.store[a].kind == Person && s.store[b].kind == Animal
    && s.store[a].coord == PERSON_BOX && s.store[b].coord == ANIMAL_BOX
    && s.store[a].parked.None? && s.store[b].parked.None?
  }

  /** Each is given its own box; without a box of its type the animal is given none. */
  lemma EachItsOwn(c: Config, s: State, inp: Input, a: TrackId, b: TrackId)
    requires InputOk(s, inp) && PlainFrame(inp) && !c.norfair && TwoTracks(s, a, b)
    requires inp.dets == [SOMEBODY, ANIMAL] || inp.dets == [SOMEBODY]
    ensures var m := Matches(c, s, inp);
            && m.claims.unclaimed == [] && Given(inp, m, a) == Some(SOMEBODY)
            && Given(inp, m, b) == if |inp.dets| == 2 then Some(ANIMAL) else None
  {
    hide *;
    PlainMatches(c, s, inp);
    var cl := Builtin(s.live, s.store, inp.dets);
    BuiltinLeavesNoOverlap(s.live, s.store, inp.dets);
    TwoOwn(s, inp.dets, cl, a, b);
    GivenIs(inp, Matches(c, s, inp), a);
    GivenIs(inp, Matches(c, s, inp), b);
  }

  lemma GivenIs(inp: Input, m: Pipeline.Result, tid: TrackId)
    ensures Given(inp, m, tid) == if tid in m.claims.matches && m.claims.matches[tid] < |inp.dets|
                                  then Some(inp.dets[m.claims.matches[tid]]) else None
  {}

  lemma TwoOwn(s: State, dets: seq<Detection>, cl: Claims, a: TrackId, b: TrackId)
    requires TwoTracks(s, a, b) && (dets == [SOMEBODY, ANIMAL] || dets == [SOMEBODY])
    requires Sound(s.live, s.store, dets, cl) && NoOverlapLeft(s.live, s.store, dets, cl, |s.live|)
    requires forall i: nat :: i < |dets| ==> Holds(cl, i)
    ensures a in cl.matches && cl.matches[a] == 0 && cl.unclaimed == []
    ensures if |dets| == 2 then b in cl.matches && cl.matches[b] == 1 else b !in cl.matches
  {
    SameBoxOverlaps(PERSON_BOX);
    SameBoxOverlaps(ANIMAL_BOX);
    hide Iou, NoOverlapLeft, Holds;
    OwnBox(s.live, s.store, dets, cl, a, 0);
    if |dets| == 2 { OwnBox(s.live, s.store, dets, cl, b, 1); }
    FirstIn(cl.unclaimed);
  }

  lemma FirstIn(s: seq<nat>)
    ensures s == [] || s[0] in s
  {}

  /** With nobody live every box is left over, in order. */
  lemma NobodyToMatch(store: Table, dets: seq<Detection>)
    ensures Builtin([], store, dets) == Claims(map[], Upto(|dets|))
  {
    assert ByMisses([], store) == [];
  }

  const STARTED := Initial(0).(startedMs := Some(0))

  /** The first frame shows nothing and starts the startup window. */
  lemma FirstFrame()
    ensures InputOk(Initial(0), Frame(0, [])) && Tick(Settings(), Initial(0), Frame(0, [])) == STARTED
  {
    hide *;
    var c, s, inp := Settings(), Initial(0), Frame(0, []);
    InitialInv(0);
    FramesArePlain(0);
    FrameIsOk(s, inp);
    NotNorfair();
    PlainMatches(c, s, inp);
    NobodyToMatch(s.store, inp.dets);
    var m := Matches(c, s, inp);
    StartsTheWindow(m.ids);
    NobodyToFollow(c, s, inp);
    GatherIs(c, s, inp);
    NobodyAtAll(c, inp, m, Starting(c, STARTED, inp));
    TickIs(c, s, inp);
  }

  lemma NotNorfair()
    ensures !Settings().norfair && Initial(0).live == [] && Initial(0).store == map[] && Initial(0).ids == map[]
    ensures Frame(0, []).dets == [] && Upto(0) == []
    ensures STARTED.live == [] && STARTED.store == map[] && STARTED.ids == map[]
  {}

  lemma StartsTheWindow(ids: Norfair.Ids)
    requires ids == map[]
    ensures Begin(Settings(), Initial(0), Frame(0, [])).(ids := ids) == STARTED
  {}

  /** With nobody there and no boxes the rest of a frame does nothing. */
  lemma NobodyAtAll(c: Config, inp: Input, m: Pipeline.Result, starting: bool)
    requires m.claims.unclaimed == []
    ensures var w2 := AdmitAll(c, inp, m, starting, Work(STARTED, []), |m.claims.unclaimed|);
            var s3 := LinkAll(inp, w2.s, |w2.s.live|);
            var s4 := RememberAll(c, inp, s3, |s3.live|);
            var w5 := ConfirmAll(c, inp, Work(s4, w2.joining), |s4.live|);
            var s6 := ParkAll(w5.s, |w5.s.live|);
            Lifecycle(c, inp, HoldForZones(AccompanyAll(Work(s6, w5.joining), |s6.live|))) == STARTED
  {
    assert HoldForZones(Work(STARTED, [])) == Work(STARTED, []);
    assert ActiveIds([], STARTED.store) == [];
    hide OpenEvent, CloseEvent, ReportEvent;
  }

  /** A track as its first detection leaves it here. */
  ghost predicate Fresh1(c: Config, tr: Track, d: Detection, at: int) {
    && tr.kind == d.kind && tr.coord == d.coord && tr.parked.None? && !tr.confirmed && tr.zoned == d.inZone
    && tr.firstShownMs == at && tr.gate == ScoreGate.Record(ScoreGate.EMPTY, 1.0, 1, 0.5)
  }

  lemma OpenedHere(at: int, dets: seq<Detection>, tid: TrackId, d: Detection)
    requires d == SOMEBODY || d == ANIMAL
    ensures Fresh1(Settings(), Opened(Settings(), Frame(at, dets), false, tid, d), d, at)
  {
    TwoHits(ScoreGate.Record(ScoreGate.EMPTY, 1.0, 1, 0.5));
    hide Iou, ScoreGate.Record;
  }

  /** With nobody parked or recently closed a box opens a track. */
  lemma AdmitsNew(c: Config, inp: Input, m: Pipeline.Result, w: Work, idx: nat)
    requires idx < |inp.dets| && w.s.recent == [] && m.pending == map[]
    requires forall k :: 0 <= k < |w.s.live| ==> At(w.s.store, w.s.live[k]).parked.None?
    ensures var a := w.s.nextId;
            AdmitOne(c, inp, m, false, w, idx).s
            == w.s.(live := w.s.live + [a], nextId := a + 1, store := w.s.store[a := Opened(c, inp, false, a, inp.dets[idx])])
  {
    hide Opened, PartOf;
  }

  /** Two boxes open two tracks. */
  lemma OpenTwo(c: Config, inp: Input, m: Pipeline.Result, w: Work)
    requires w.s.live == [] && w.s.recent == [] && m.pending == map[] && m.claims.unclaimed == [0, 1]
    requires |inp.dets| == 2 && Opened(c, inp, false, w.s.nextId, inp.dets[0]).parked.None?
    ensures var r, a, b := AdmitAll(c, inp, m, false, w, 2).s, w.s.nextId, w.s.nextId + 1;
            && r.live == [a, b] && r.event == w.s.event
            && r.store == w.s.store[a := Opened(c, inp, false, a, inp.dets[0])][b := Opened(c, inp, false, b, inp.dets[1])]
  {
    hide Opened, AdmitOne;
    var p := AdmitOne(c, inp, m, false, w, 0);
    AdmitsNew(c, inp, m, w, 0);
    AdmitsNew(c, inp, m, p, 1);
    assert AdmitAll(c, inp, m, false, w, 0) == w && AdmitAll(c, inp, m, false, w, 1) == p;
  }

  /** The tracks after the second frame. */
  ghost predicate BothSeen(s: State, a: TrackId, b: TrackId, at: int) {
    && TwoTracks(s, a, b) && s.event.None?
    && Fresh1(Settings(), s.store[a], SOMEBODY, at) && Fresh1(Settings(), s.store[b], ANIMAL, at)
  }

  lemma SecondFrame(at: int)
    requires at > 15000
    ensures var inp := Frame(at, [SOMEBODY, ANIMAL]);
            InputOk(STARTED, inp) && BothSeen(Tick(Settings(), STARTED, inp), 1, 2, at)
  {
    var c, s, inp := Settings(), STARTED, Frame(at, [SOMEBODY, ANIMAL]);
    SecondMatches(at);
    var m := Matches(c, s, inp);
    var s0 := Begin(c, s, inp).(ids := m.ids);
    SecondOpens(at, m);
    GatherIs(c, s, inp);
    hide *;
    NobodyToFollow(c, s, inp);
    var w2 := AdmitAll(c, inp, m, false, Work(s0, []), 2);
    BothAreTwo(w2.s, at);
    TwoArePlain(w2.s);
    PlainPhases(c, inp, w2);
    var w := HoldForZones(Gather(c, s, inp, m));
    SecondSeen(c, inp, w2.s, w.s, at);
    NobodyActive(c, inp, w, at);
    TickIs(c, s, inp);
  }

  lemma SecondMatches(at: int)
    requires at > 15000
    ensures var c, s, inp := Settings(), STARTED, Frame(at, [SOMEBODY, ANIMAL]);
            && InputOk(s, inp) && Matches(c, s, inp).claims.unclaimed == [0, 1] && Matches(c, s, inp).pending == map[]
            && !Starting(c, Begin(c, s, inp).(ids := Matches(c, s, inp).ids), inp)
  {
    hide *;
    var c, s, inp := Settings(), STARTED, Frame(at, [SOMEBODY, ANIMAL]);
    StartedInv();
    FramesArePlain(at);
    FrameIsOk(s, inp);
    NotNorfair();
    PlainMatches(c, s, inp);
    NobodyToMatch(s.store, inp.dets);
    TwoBoxes(at, Matches(c, s, inp).ids);
  }

  lemma StartedInv()
    ensures Inv(STARTED)
  {}

  lemma TwoBoxes(at: int, ids: Norfair.Ids)
    requires at > 15000
    ensures var c, s, inp := Settings(), STARTED, Frame(at, [SOMEBODY, ANIMAL]);
            && |inp.dets| == 2 && Upto(2) == [0, 1] && !Starting(c, Begin(c, s, inp).(ids := ids), inp)
  {}

  lemma NobodyToFollow(c: Config, s: State, inp: Input)
    requires InputOk(s, inp) && s.live == []
    ensures AfterFollowing(c, s, inp) == Work(Begin(c, s, inp).(ids := Matches(c, s, inp).ids), [])
  {
    hide InputOk, Matches, Begin;
  }

  lemma TickIs(c: Config, s: State, inp: Input)
    requires InputOk(s, inp)
    ensures Tick(c, s, inp) == Lifecycle(c, inp, HoldForZones(Gather(c, s, inp, Matches(c, s, inp))))
  {
    hide InputOk, Matches, Gather, HoldForZones, Lifecycle;
  }

  lemma SecondOpens(at: int, m: Pipeline.Result)
    requires m.claims.unclaimed == [0, 1] && m.pending == map[]
    ensures var c, s, inp := Settings(), STARTED, Frame(at, [SOMEBODY, ANIMAL]);
            BothSeen(AdmitAll(c, inp, m, false, Work(Begin(c, s, inp).(ids := m.ids), []), 2).s, 1, 2, at)
  {
    hide *;
    var c, s, inp := Settings(), STARTED, Frame(at, [SOMEBODY, ANIMAL]);
    var s0 := Begin(c, s, inp).(ids := m.ids);
    StillStarted(at, m.ids);
    OpenedHere(at, inp.dets, 1, SOMEBODY);
    OpenedHere(at, inp.dets, 2, ANIMAL);
    FreshUnparked(Opened(c, inp, false, 1, SOMEBODY), SOMEBODY, at);
    OpenTwo(c, inp, m, Work(s0, []));
    SeenByOpening(AdmitAll(c, inp, m, false, Work(s0, []), 2).s, Opened(c, inp, false, 1, SOMEBODY),
                  Opened(c, inp, false, 2, ANIMAL), at);
  }

  lemma FreshUnparked(tr: Track, d: Detection, at: int)
    requires Fresh1(Settings(), tr, d, at)
    ensures tr.parked.None?
  {}

  lemma StillStarted(at: int, ids: Norfair.Ids)
    ensures var inp := Frame(at, [SOMEBODY, ANIMAL]);
            var s0 := Begin(Settings(), STARTED, inp).(ids := ids);
            && s0.live == [] && s0.recent == [] && s0.nextId == 1 && s0.event.None? && s0.store == map[]
            && inp.dets == [SOMEBODY, ANIMAL]
  {}

  lemma SeenByOpening(s: State, a: Track, b: Track, at: int)
    requires s.live == [1, 2] && s.event.None?
    requires s.store == map[][1 := a][2 := b]
    requires Fresh1(Settings(), a, SOMEBODY, at) && Fresh1(Settings(), b, ANIMAL, at)
    ensures BothSeen(s, 1, 2, at)
  {
    hide ScoreGate.Record;
  }

  lemma BothAreTwo(s: State, at: int)
    requires BothSeen(s, 1, 2, at)
    ensures TwoTracks(s, 1, 2)
  {}

  lemma TwoArePlain(s: State)
    requires TwoTracks(s, 1, 2)
    ensures PlainState(s)
  {}

  lemma SecondSeen(c: Config, inp: Input, s: State, r: State, at: int)
    requires c == Settings() && BothSeen(s, 1, 2, at) && r.live == s.live && r.event == s.event
    requires forall t :: t in s.live ==> t in s.store && t in r.store && PlainlyOn(c, inp, s.store[t], r.store[t])
    ensures BothSeen(r, 1, 2, at)
  {
    TwoHits(s.store[1].gate);
    assert 1 in s.live && 2 in s.live;
    hide ScoreGate.Record;
  }

  lemma NobodyActive(c: Config, inp: Input, w: Work, at: int)
    requires BothSeen(w.s, 1, 2, at)
    ensures Lifecycle(c, inp, w) == w.s
  {
    hide OpenEvent, ScoreGate.Record;
    FirstIn(ActiveIds(w.s.live, w.s.store));
    hide ActiveIds;
  }

  /** Both confirmed; only the person has been in a zone. */
  ghost predicate BothConfirmed(s: State, a: TrackId, b: TrackId) {
    && TwoTracks(s, a, b)
    && s.store[a].confirmed && s.store[b].confirmed && s.store[a].zoned && !s.store[b].zoned
  }

  lemma ThirdFrame(s: State, before: int, at: int)
    requires Inv(s) && BothSeen(s, 1, 2, before) && before <= at
    ensures var inp := Frame(at, [SOMEBODY, ANIMAL]);
            && InputOk(s, inp) && BothConfirmed(Tick(Settings(), s, inp), 1, 2)
            && OpenedAt(Tick(Settings(), s, inp), at)
  {
    hide *;
    var c, inp := Settings(), Frame(at, [SOMEBODY, ANIMAL]);
    FramesArePlain(at);
    FrameIsOk(s, inp);
    BothAreTwo(s, before);
    TwoArePlain(s);
    EachItsOwnHere(s, inp);
    TwoInView(s, 1, 2);
    OnlyFollowed(c, s, inp, 1);
    OnlyFollowed(c, s, inp, 2);
    GoneStaysGone(c, s, inp);
    var w := Checked(c, s, inp);
    ThirdSeen(s, w.s, before, at);
    NoEventYet(s, w.s, before);
    LifecycleKeepsTwo(c, inp, w, 1, 2);
    LifecycleOpensNow(c, inp, w, at);
  }

  /** An event that is open was opened then. */
  predicate OpenedAt(s: State, at: int) {
    s.event.Some? ==> s.event.value.startedMs == at
  }

  lemma LifecycleOpensNow(c: Config, inp: Input, w: Work, at: int)
    requires w.s.event.None? && c == Settings() && exists dets :: inp == Frame(at, dets)
    ensures OpenedAt(Lifecycle(c, inp, w), at)
  {
    LifecycleIsOneOf(c, inp, w);
    OpenEventFields(c, inp, w.s, w.joining, ActiveIds(w.s.live, w.s.store));
    hide Lifecycle, OpenEvent, ActiveIds;
  }

  lemma FramesArePlain(at: int)
    ensures PlainFrame(Frame(at, [SOMEBODY, ANIMAL])) && PlainFrame(Frame(at, [SOMEBODY])) && PlainFrame(Frame(at, []))
    ensures |Frame(at, [SOMEBODY, ANIMAL]).dets| == 2 && |Frame(at, [SOMEBODY]).dets| == 1
  {}

  lemma FrameIsOk(s: State, inp: Input)
    requires Inv(s) && PlainFrame(inp)
    ensures InputOk(s, inp)
  {
    PlainFrameOk(s, inp);
    InvGivesInputOk(s, inp);
  }

  lemma EachItsOwnHere(s: State, inp: Input)
    requires InputOk(s, inp) && TwoTracks(s, 1, 2)
    requires exists at :: inp == Frame(at, [SOMEBODY, ANIMAL]) || inp == Frame(at, [SOMEBODY])
    ensures var m := Matches(Settings(), s, inp);
            && m.claims.unclaimed == [] && Given(inp, m, 1) == Some(SOMEBODY)
            && Given(inp, m, 2) == if |inp.dets| == 2 then Some(ANIMAL) else None
  {
    hide InputOk, Matches, Given, TwoTracks;
    EachItsOwn(Settings(), s, inp, 1, 2);
  }

  lemma TwoInView(s: State, a: TrackId, b: TrackId)
    requires TwoTracks(s, a, b)
    ensures a in s.live && b in s.live && a in s.store && b in s.store
    ensures s.store[a].parked.None? && s.store[b].parked.None?
    ensures forall t :: t in s.live ==> t == a || t == b
  {}

  /** Without boxes left over nobody comes back. */
  lemma GoneStaysGone(c: Config, s: State, inp: Input)
    requires Inv(s) && InputOk(s, inp) && Matches(c, s, inp).claims.unclaimed == []
    ensures forall t: TrackId :: t in HoldForZones(Gather(c, s, inp, Matches(c, s, inp))).s.live ==> t in s.live
    ensures forall t: TrackId :: t in AfterFollowing(c, s, inp).s.live ==> t in s.live
    ensures HoldForZones(Gather(c, s, inp, Matches(c, s, inp))).s.live == AfterFollowing(c, s, inp).s.live
  {
    hide *;
    var m := Matches(c, s, inp);
    var s0 := Begin(c, s, inp).(ids := m.ids);
    MatchesFacts(c, s, inp);
    InvIsMid(s);
    BeginKeeps(c, s, {}, inp, m.ids);
    BeginLive(c, s, inp);
    AfterFollowingIs(c, s, inp);
    forall t: TrackId | t in AfterFollowing(c, s, inp).s.live
      ensures t in s.live
    {
      FollowAllFinished(c, inp, m, s0, |s0.live|, t);
      assert s0.live[..|s0.live|] == s0.live;
    }
    GatherIs(c, s, inp);
    NothingToAdmit(c, inp, m, Starting(c, s0, inp), AfterFollowing(c, s, inp));
    BeforeLifecycle(c, inp, AfterFollowing(c, s, inp));
  }

  /** Both are given a second hit, and pass the gate. */
  lemma ThirdSeen(s: State, r: State, before: int, at: int)
    requires BothSeen(s, 1, 2, before) && before <= at && PlainState(r)
    requires 1 in r.live && 2 in r.live && forall t :: t in r.live ==> t in s.live
    requires var c, inp := Settings(), Frame(at, [SOMEBODY, ANIMAL]);
             && 1 in r.store && PlainlyOn(c, inp, MatchedTrack(c, inp, 1, s.store[1], SOMEBODY), r.store[1])
             && 2 in r.store && PlainlyOn(c, inp, MatchedTrack(c, inp, 2, s.store[2], ANIMAL), r.store[2])
    ensures BothConfirmed(r, 1, 2)
  {
    hide *;
    SeenFresh(s, before);
    SecondHit(1, s.store[1], r.store[1], SOMEBODY, before, at);
    SecondHit(2, s.store[2], r.store[2], ANIMAL, before, at);
    AreConfirmed(r);
  }

  lemma SeenFresh(s: State, before: int)
    requires BothSeen(s, 1, 2, before)
    ensures 1 in s.store && 2 in s.store
    ensures Fresh1(Settings(), s.store[1], SOMEBODY, before) && Fresh1(Settings(), s.store[2], ANIMAL, before)
    ensures forall t :: t in s.live ==> t == 1 || t == 2
  {
    hide Fresh1;
  }

  lemma AreConfirmed(r: State)
    requires PlainState(r) && 1 in r.live && 2 in r.live && forall t :: t in r.live ==> t == 1 || t == 2
    requires 1 in r.store && 2 in r.store && r.store[1].confirmed && r.store[2].confirmed
    requires r.store[1].kind == SOMEBODY.kind && r.store[1].coord == SOMEBODY.coord && r.store[1].parked.None?
    requires r.store[2].kind == ANIMAL.kind && r.store[2].coord == ANIMAL.coord && r.store[2].parked.None?
    requires r.store[1].zoned == SOMEBODY.inZone && r.store[2].zoned == ANIMAL.inZone
    ensures BothConfirmed(r, 1, 2)
  {}

  lemma SecondHit(tid: TrackId, tr: Track, r: Track, d: Detection, before: int, at: int)
    requires (d == SOMEBODY || d == ANIMAL) && Fresh1(Settings(), tr, d, before) && before <= at
    requires var c, inp := Settings(), Frame(at, [SOMEBODY, ANIMAL]);
             PlainlyOn(c, inp, MatchedTrack(c, inp, tid, tr, d), r)
    ensures r.kind == d.kind && r.coord == d.coord && r.parked.None? && r.confirmed && r.zoned == d.inZone
  {
    MatchedPlain(Settings(), Frame(at, [SOMEBODY, ANIMAL]), tid, tr, d);
    TwoHits(tr.gate);
    hide MatchedTrack, ScoreGate.Record;
  }

  lemma NoEventYet(s: State, r: State, before: int)
    requires BothSeen(s, 1, 2, before) && SameRecord(s, r)
    ensures r.event.None?
  {}

  /** Opening an event leaves a track as it is. */
  lemma LifecycleKeepsOne(c: Config, inp: Input, w: Work, tid: TrackId)
    requires Settled(w) && w.s.event.None? && tid in w.s.store
    ensures Lifecycle(c, inp, w).live == w.s.live && tid in Lifecycle(c, inp, w).store
    ensures var tr, r := w.s.store[tid], Lifecycle(c, inp, w).store[tid];
            r.kind == tr.kind && r.coord == tr.coord && r.parked == tr.parked && r.confirmed == tr.confirmed && r.zoned == tr.zoned
  {
    hide *;
    var active := ActiveIds(w.s.live, w.s.store);
    ActiveInStore(w, active);
    LifecycleSteady(c, inp, w);
    SteadyOne(inp.at, w.s.store, Lifecycle(c, inp, w).store, tid);
    LifecycleIsOneOf(c, inp, w);
    var r, id := OpenEvent(c, inp, w.s, w.joining, active), w.s.counter + inp.skipped;
    OpenEventEnrols(c, inp, w.s, w.joining, active);
    EnrolledKeys(w.s.store, r.store, active, id);
    EnrolledAt(w.s.store, r.store, active, id, tid);
    EnrolledIs(w.s.store[tid], r.store[tid], tid in active, id);
  }

  lemma SteadyOne(at: Stamp, s: Table, r: Table, tid: TrackId)
    requires AllSteady(at, s, r) && tid in s
    ensures tid in r && r[tid].kind == s[tid].kind && r[tid].coord == s[tid].coord
  {}

  lemma EnrolledIs(tr: Track, r: Track, taken: bool, id: int)
    requires EnrolledOne(tr, r, taken, id)
    ensures r.parked == tr.parked && r.confirmed == tr.confirmed && r.zoned == tr.zoned
  {}

  lemma LifecycleKeepsTwo(c: Config, inp: Input, w: Work, a: TrackId, b: TrackId)
    requires Settled(w) && w.s.event.None? && BothConfirmed(w.s, a, b)
    ensures BothConfirmed(Lifecycle(c, inp, w), a, b)
  {
    hide Settled, Lifecycle;
    LifecycleKeepsOne(c, inp, w, a);
    LifecycleKeepsOne(c, inp, w, b);
  }

  /** Only the person is left, and moves. */
  ghost predicate PersonLeft(s: State) {
    && PlainState(s) && 1 in s.live && 1 in s.store && s.store[1].parked.None? && forall t :: t in s.live ==> t == 1
  }

  /** The animal goes while the event is open. */
  lemma FourthFrame(s: State, before: int, at: int)
    requires Inv(s) && BothConfirmed(s, 1, 2) && OpenedAt(s, before) && at < before + 300000
    ensures var inp := Frame(at, [SOMEBODY]);
            && InputOk(s, inp) && s.event.Some? && Active(s.store[1]) && 2 !in s.joined
            && ClosedOutside(Settings(), s, inp, 2)
            && PersonLeft(Tick(Settings(), s, inp)) && 2 !in Tick(Settings(), s, inp).joined
  {
    hide *;
    var c, inp := Settings(), Frame(at, [SOMEBODY]);
    FramesArePlain(at);
    FrameIsOk(s, inp);
    EventIsOpen(s);
    ConfirmedAreTwo(s);
    TwoArePlain(s);
    TwoInView(s, 1, 2);
    EachItsOwnHere(s, inp);
    OnlyFollowed(c, s, inp, 1);
    OnlyFollowed(c, s, inp, 2);
    OneMissIsEnough(s.store[2]);
    GoneStaysGone(c, s, inp);
    IsClosedOutside(c, s, inp, 2);
    var w := Checked(c, s, inp);
    SameRecordAs(s, w.s);
    LifecycleJoins(c, inp, w, 2);
    GoesOn(at, s.store[1], w.s.store[1]);
    StillInTime(s, w.s, before, at);
    LifecycleLeavesPerson(c, inp, w);
  }

  lemma GoesOn(at: int, tr: Track, r: Track)
    requires Active(tr)
    requires var c, inp := Settings(), Frame(at, [SOMEBODY]); PlainlyOn(c, inp, MatchedTrack(c, inp, 1, tr, SOMEBODY), r)
    ensures Active(r)
  {
    MatchedPlain(Settings(), Frame(at, [SOMEBODY]), 1, tr, SOMEBODY);
    hide MatchedTrack, ScoreGate.Record;
  }

  lemma StillInTime(s: State, r: State, before: int, at: int)
    requires SameRecord(s, r) && s.event.Some? && OpenedAt(s, before) && at < before + 300000
    ensures var inp := Frame(at, [SOMEBODY]);
            r.event.Some? && Now(Settings(), inp) - r.event.value.startedMs < inp.eventMaxMs
  {}

  /** With the person active an event in time goes on, and leaves the person as it was. */
  lemma LifecycleLeavesPerson(c: Config, inp: Input, w: Work)
    requires Settled(w) && PlainState(w.s) && w.s.event.Some? && Now(c, inp) - w.s.event.value.startedMs < inp.eventMaxMs
    requires 1 in w.s.live && 1 in w.s.store && Active(w.s.store[1]) && forall t :: t in w.s.live ==> t == 1
    ensures PersonLeft(Lifecycle(c, inp, w))
  {
    hide *;
    var active, s := ActiveIds(w.s.live, w.s.store), Joined(w.s, w.joining);
    GoesOnReporting(c, inp, w, 1);
    JoiningInStore(w);
    EnrolledJoined(w);
    EnrolledAt(w.s.store, s.store, w.joining, w.s.event.value.id, 1);
    EnrolledIs(w.s.store[1], s.store[1], 1 in w.joining, w.s.event.value.id);
    ActiveMoves(w.s.store[1]);
    ReportEventStore(c, inp, s, w.s.event.value, active);
    LifecycleSteady(c, inp, w);
    SettledPlain(inp.at, w, Lifecycle(c, inp, w));
    PersonIsLeft(Lifecycle(c, inp, w));
  }

  lemma GoesOnReporting(c: Config, inp: Input, w: Work, tid: TrackId)
    requires w.s.event.Some? && Now(c, inp) - w.s.event.value.startedMs < inp.eventMaxMs
    requires tid in w.s.live && tid in w.s.store && Active(w.s.store[tid])
    ensures Lifecycle(c, inp, w)
         == ReportEvent(c, inp, Joined(w.s, w.joining), w.s.event.value, ActiveIds(w.s.live, w.s.store))
  {
    hide ReportEvent, CloseEvent, Active, Now;
    assert tid in ActiveIds(w.s.live, w.s.store);
    hide ActiveIds;
  }

  lemma EnrolledJoined(w: Work)
    requires w.s.event.Some? && forall t :: t in w.joining ==> t in w.s.store
    ensures Enrolled(w.s.store, Joined(w.s, w.joining).store, w.joining, w.s.event.value.id)
    ensures Joined(w.s, w.joining).store.Keys == w.s.store.Keys
  {
    EnrolJoining(w.s.store, w.joining, w.s.event.value.id);
  }

  lemma ActiveMoves(tr: Track)
    requires Active(tr)
    ensures tr.parked.None?
  {}

  lemma SettledPlain(at: Stamp, w: Work, r: State)
    requires PlainState(w.s) && r.live == w.s.live && AllSteady(at, w.s.store, r.store)
    ensures PlainState(r)
  {
    forall t | t in r.live
      ensures t in r.store && Plain(r.store[t].kind)
    {
      SteadyOne(at, w.s.store, r.store, t);
    }
  }

  lemma PersonIsLeft(s: State)
    requires PlainState(s) && 1 in s.live && 1 in s.store && s.store[1].parked.None? && forall t :: t in s.live ==> t == 1
    ensures PersonLeft(s)
  {}

  lemma ConfirmedAreTwo(s: State)
    requires BothConfirmed(s, 1, 2)
    ensures TwoTracks(s, 1, 2) && s.store[2].confirmed && !s.store[2].zoned
  {}

  lemma EventIsOpen(s: State)
    requires Inv(s) && BothConfirmed(s, 1, 2)
    ensures s.event.Some? && Active(s.store[1]) && 2 !in s.joined
  {
    assert 1 in s.live && Active(s.store[1]);
    assert Role(s, {}, 2);
  }

  lemma OneMissIsEnough(tr: Track)
    requires tr.parked.None?
    ensures OutOfTolerance(Settings(), tr)
  {}

  lemma IsClosedOutside(c: Config, s: State, inp: Input, tid: TrackId)
    requires s.event.Some? && tid in s.live && tid in s.store && InputOk(s, inp)
    requires s.store[tid].confirmed && s.store[tid].parked.None? && !s.store[tid].zoned
    requires tid !in AfterFollowing(c, s, inp).s.live
    ensures ClosedOutside(c, s, inp, tid)
  {}

  /** Only those in view and active start taking part. */
  lemma LifecycleJoins(c: Config, inp: Input, w: Work, tid: TrackId)
    ensures var r := Lifecycle(c, inp, w);
            && r.live == w.s.live
            && (tid in r.joined ==> tid in w.s.joined || tid in w.s.live)
  {
    LifecycleSteady(c, inp, w);
    hide ActiveIds, OpenEvent;
    var active := ActiveIds(w.s.live, w.s.store);
    OpenEventFields(c, inp, w.s, w.joining, active);
  }

  /** The person goes as well, and the event closes. */
  lemma FifthFrame(s: State, at: int)
    requires Inv(s) && PersonLeft(s) && 2 !in s.joined
    ensures var inp, r := Frame(at, []), Tick(Settings(), s, Frame(at, []));
            InputOk(s, inp) && r.live == [] && r.event.None? && 2 !in r.joined
  {
    hide *;
    var c, inp := Settings(), Frame(at, []);
    FramesArePlain(at);
    FrameIsOk(s, inp);
    LeftPerson(s);
    NoBoxes(s, inp, at);
    GoneStaysGone(c, s, inp);
    OnlyFollowed(c, s, inp, 1);
    OneMissIsEnough(s.store[1]);
    var w := Checked(c, s, inp);
    SameRecordAs(s, w.s);
    LifecycleJoins(c, inp, w, 2);
    TickKeepsInv(c, s, inp);
    TickIs(c, s, inp);
    var r := Tick(c, s, inp);
    FirstIn(r.live);
    BoundedClosing.EventNeedsSomeone(r);
  }

  lemma LeftPerson(s: State)
    requires PersonLeft(s)
    ensures PlainState(s) && 1 in s.live && 1 in s.store && s.store[1].parked.None? && forall t :: t in s.live ==> t == 1
  {}

  lemma NoBoxes(s: State, inp: Input, at: int)
    requires inp == Frame(at, []) && InputOk(s, inp)
    ensures var m := Matches(Settings(), s, inp); m.claims.unclaimed == [] && Given(inp, m, 1).None?
  {
    hide InputOk, Matches;
    BoundedClosing.NothingMatched(Settings(), s, inp);
  }

  lemma NotJoinedYet(s: State, tid: TrackId)
    requires Inv(s) && s.event.None?
    ensures tid !in s.joined
  {}

  lemma NotWoken(c: Config, s: State, inp: Input, tid: TrackId)
    requires tid !in s.live
    ensures !Woken(c, s, inp, tid)
  {}

  function Frames(): seq<Input> {
    [Frame(0, []), Frame(20000, [SOMEBODY, ANIMAL]), Frame(20500, [SOMEBODY, ANIMAL]), Frame(21000, [SOMEBODY]),
     Frame(21500, [])]
  }

  /** What is said of the animal over the run: it never takes part, it closes on the fourth frame, outside
      every zone and while the event is open, and it does not come back. */
  ghost predicate StaysOutside(states: seq<State>) {
    && |states| == 6 && (forall i :: 0 <= i < 6 ==> 2 !in states[i].joined)
    && (forall i :: 0 <= i < 3 ==> states[i].event.None?)
    && states[3].event.Some? && 1 in states[3].live && 1 in states[3].store && Active(states[3].store[1])
    && ClosedOutside(Settings(), states[3], Frame(21000, [SOMEBODY]), 2)
    && 2 !in states[4].live && states[5].live == [] && states[5].event.None?
  }

  /** The run. */
  lemma TheRun() returns (states: seq<State>)
    ensures IsRun(Settings(), 0, states, Frames()) && StaysOutside(states)
  {
    hide *;
    var c, i1, i2, i3, i4 := Settings(), Frame(20000, [SOMEBODY, ANIMAL]), Frame(20500, [SOMEBODY, ANIMAL]),
      Frame(21000, [SOMEBODY]), Frame(21500, []);
    InitialInv(0);
    FirstFrame();
    TickKeepsInv(c, Initial(0), Frame(0, []));
    SecondFrame(20000);
    var s2 := Tick(c, STARTED, i1);
    TickKeepsInv(c, STARTED, i1);
    ThirdFrame(s2, 20000, 20500);
    var s3 := Tick(c, s2, i2);
    TickKeepsInv(c, s2, i2);
    FourthFrame(s3, 20500, 21000);
    var s4 := Tick(c, s3, i3);
    TickKeepsInv(c, s3, i3);
    LeftPerson(s4);
    FifthFrame(s4, 21500);
    states := [Initial(0), STARTED, s2, s3, s4, Tick(c, s4, i4)];
    NoEventsAtFirst(s2);
    NotJoinedYet(Initial(0), 2);
    NotJoinedYet(STARTED, 2);
    NotJoinedYet(s2, 2);
    PersonIsThere(s3);
    FramesAre();
    IsTheRun(states);
    ItStaysOutside(states);
  }

  lemma FramesAre()
    ensures var f := Frames();
            && |f| == 5 && f[0] == Frame(0, []) && f[1] == Frame(20000, [SOMEBODY, ANIMAL])
            && f[2] == Frame(20500, [SOMEBODY, ANIMAL]) && f[3] == Frame(21000, [SOMEBODY])
            && f[4] == Frame(21500, [])
  {
    hide Frame;
  }

  lemma NoEventsAtFirst(s2: State)
    requires BothSeen(s2, 1, 2, 20000)
    ensures Initial(0).event.None? && STARTED.event.None? && s2.event.None?
  {}

  lemma PersonIsThere(s: State)
    requires BothConfirmed(s, 1, 2)
    ensures 1 in s.live && 1 in s.store
  {}

  lemma IsTheRun(states: seq<State>)
    requires |states| == 6 && states[0] == Initial(0)
    requires forall i :: 0 <= i < 5 ==> InputOk(states[i], Frames()[i]) && states[i + 1] == Tick(Settings(), states[i], Frames()[i])
    ensures IsRun(Settings(), 0, states, Frames())
  {
    hide Tick, InputOk, Initial, FrameOk, PlainFrame;
    forall i | 0 <= i < 5
      ensures IsStep(Settings(), states[i], Frames()[i], states[i + 1])
    {
      FrameIsPlain(i);
      PlainFrameOk(states[i], Frames()[i]);
    }
  }

  lemma FrameIsPlain(i: nat)
    requires i < 5
    ensures PlainFrame(Frames()[i])
  {}

  lemma ItStaysOutside(states: seq<State>)
    requires |states| == 6 && states[0].event.None? && states[1].event.None? && states[2].event.None?
    requires forall i :: 0 <= i < 6 ==> 2 !in states[i].joined
    requires states[3].event.Some? && 1 in states[3].live && 1 in states[3].store && Active(states[3].store[1])
    requires ClosedOutside(Settings(), states[3], Frame(21000, [SOMEBODY]), 2)
    requires 2 !in states[4].live && states[5].live == [] && states[5].event.None?
    ensures StaysOutside(states)
  {
    hide ClosedOutside;
  }

  lemma TheLeave(trace: seq<Message>, id: int, tid: TrackId) returns (k: nat)
    requires LeftIn(trace, id, tid)
    ensures k < |trace| && trace[k].edge.Leave? && trace[k].eventId == id && tid in Tids(trace[k])
  {
    k :| 0 <= k < |trace| && trace[k].edge.Leave? && trace[k].eventId == id && tid in Tids(trace[k]);
  }

  lemma ThenOpen(states: seq<State>)
    requires StaysOutside(states)
    ensures |states| == 6 && states[5].event.None? && states[3].event.Some? && 1 in states[3].live && 1 in states[3].store && Active(states[3].store[1])
  {
    hide ClosedOutside;
  }

  /** Having gone on the fourth frame, the animal is still gone when the event closes. */
  lemma WentForGood(states: seq<State>, id: int, n: nat)
    requires StaysOutside(states) && n < 5 && OpenAs(states[n], id) && OpenAs(states[3], id)
    ensures WentOutside(Settings(), states, Frames(), id, 2, n + 1)
  {
    FramesAre();
    hide Frames, ClosedOutside, Woken;
    assert n >= 3;
    forall j | 3 < j < n + 1
      ensures !Woken(Settings(), states[j], Frames()[j], 2)
    {
      NotWoken(Settings(), states[j], Frames()[j], 2);
    }
  }

  lemma HasLeftByGoing(c: Config, states: seq<State>, inputs: seq<Input>, id: int, tid: TrackId, n: nat)
    requires |states| == |inputs| + 1 && n < |inputs| && WentOutside(c, states, inputs, id, tid, n + 1)
    ensures HasLeft(c, states, inputs, id, tid, n)
  {}

  lemma NowClosed(s: State, id: int, tid: TrackId)
    requires (s.event.Some? && s.event.value.id == id) || LeftIn(s.trace, id, tid)
    requires s.event.None?
    ensures LeftIn(s.trace, id, tid)
  {}

  lemma OpenAsIs(s: State)
    requires s.event.Some?
    ensures OpenAs(s, s.event.value.id)
  {}

  /** A run whose leave names, beside the person who took part, an animal that never did: at no time was it
      among those taking part, and it closed unzoned while the event was open. */
  lemma OutsiderIsNamed() returns (states: seq<State>, k: nat)
    ensures SettingsAt(Settings(), 2) && IsRun(Settings(), 0, states, Frames()) && StaysOutside(states)
    ensures k < |states[5].trace| && states[5].trace[k].edge.Leave? && states[5].trace[k].eventId == states[3].event.value.id
    ensures 1 in Tids(states[5].trace[k]) && 2 in Tids(states[5].trace[k])
  {
    hide *;
    SettingsArePossible();
    states := TheRun();
    ThenOpen(states);
    FramesAre();
    var c, inputs, id := Settings(), Frames(), states[3].event.value.id;
    ActiveTracksAreInTheLeave(c, 0, states, inputs, 3, 5, 1);
    NowClosed(states[5], id, 1);
    k := TheLeave(states[5].trace, id, 1);
    var n := LeaveNamesExactly(c, 0, states, inputs, 5, k, 2);
    OpenAsIs(states[3]);
    WentForGood(states, id, n);
    HasLeftByGoing(c, states, inputs, id, 2, n);
  }
}
