/** Whom exactly a leave names: everyone who took part, and everyone who closed unparked while the event
    was open without ever having been in a zone. */
module LeaveFacts {
  import opened Wrappers
  import opened Lists
  import opened Tracks
  import opened Matching
  import opened Engine
  import opened EngineInvariant
  import opened EventTrace
  import opened EventFacts
  import opened TrackLife
  import opened ZoneWaiting
  import Pipeline

  // ----- the finished list within a tick ----------------------------------------------------------

  /** A tick from its start to the tracks that were live then. */
  function AfterFollowing(c: Config, s: State, inp: Input): Work
    requires InputOk(s, inp)
  {
    var m := Matches(c, s, inp);
    FollowAll(c, inp, m, Work(Begin(c, s, inp).(ids := m.ids), []), s.live, |s.live|)
  }

  /** tid closes on this tick, confirmed and moving, in an open event, and has never been in a zone. */
  ghost predicate ClosedOutside(c: Config, s: State, inp: Input, tid: TrackId) {
    && s.event.Some? && tid in s.live && tid in s.store
    && s.store[tid].confirmed && s.store[tid].parked.None? && !s.store[tid].zoned
    && InputOk(s, inp) && tid !in AfterFollowing(c, s, inp).s.live
  }

  /** tid is parked and wakes on this tick. */
  ghost predicate Woken(c: Config, s: State, inp: Input, tid: TrackId) {
    && tid in s.live && tid in s.store && s.store[tid].parked.Some?
    && InputOk(s, inp) && tid in AfterFollowing(c, s, inp).s.store
    && AfterFollowing(c, s, inp).s.store[tid].parked.None?
  }

  /** What following makes of tid's place in the finished list. */
  ghost predicate FinishedAfter(s: State, r: State, tid: TrackId) {
    && tid in s.store && tid in r.store
    && (InFinished(r, tid) <==>
          || (s.event.Some? && s.store[tid].confirmed && s.store[tid].parked.None? && tid !in r.live)
          || (InFinished(s, tid) && !(s.store[tid].parked.Some? && r.store[tid].parked.None?)))
  }

  lemma FollowOneFinished(c: Config, inp: Input, m: Pipeline.Result, w: Work, tid: TrackId)
    requires tid in w.s.live && tid in w.s.store
    ensures var r := FollowOne(c, inp, m, w, tid).s;
            && FinishedAfter(w.s, r, tid)
            && (forall t :: t != tid ==> (InFinished(r, t) <==> InFinished(w.s, t)) && (t in r.live <==> t in w.s.live))
  {
    FollowOneStore(c, inp, m, w, tid);
    if tid in m.claims.matches && m.claims.matches[tid] < |inp.dets| {
      MatchedFinished(c, inp, w, tid, inp.dets[m.claims.matches[tid]]);
    } else {
      hide Missed, MissedTrack, LastMiss, KeptByPerson, WaitsForAnswer, OutOfTolerance;
      MissedExactly(c, inp, w.s, tid);
    }
  }

  lemma MatchedFinished(c: Config, inp: Input, w: Work, tid: TrackId, d: Detection)
    requires tid in w.s.live && tid in w.s.store
    ensures var r := Matched(c, inp, w, tid, d).s;
            && r.live == w.s.live && FinishedAfter(w.s, r, tid)
            && (forall t :: t != tid ==> (InFinished(r, t) <==> InFinished(w.s, t)))
  {
    hide Matched, Wakes;
    MatchedShape(c, inp, w, tid, d);
  }

  lemma WakesParkless(c: Config, tr: Track, now: int)
    ensures Wake(c, tr, now).parked.None?
  {}

  lemma SettledStaysParked(tr: Track)
    requires tr.parked.Some?
    ensures Settle(tr).parked.Some? && CountShift(tr).parked.Some?
  {
    hide LeftSpot, Shifted;
  }

  /** A parked track's matched frame wakes it. */
  predicate Wakes(c: Config, inp: Input, tid: TrackId, tr: Track) {
    tr.parked.Some? && MovedSince(c, tr) && tid !in inp.samePixels
  }

  lemma MatchedShape(c: Config, inp: Input, w: Work, tid: TrackId, d: Detection)
    requires tid in w.s.store
    ensures var tr, r := w.s.store[tid], Matched(c, inp, w, tid, d).s;
            var wakes := Wakes(c, inp, tid, Take(c, tr, d));
            && r.live == w.s.live && r.event == (if wakes then Unfinish(w.s, tid).event else w.s.event)
            && tid in r.store && (r.store[tid].parked.None? <==> tr.parked.None? || wakes) && (wakes ==> tr.parked.Some?)
  {
    var t1 := Take(c, w.s.store[tid], d);
    TakeKeepsParking(c, w.s.store[tid], d);
    WakesParkless(c, t1, Now(c, inp));
    hide Take, Noted, Wake, Settle, CountShift, MovedSince, Unfinish;
    if !(t1.parked.Some? && MovedSince(c, t1)) {
      if t1.parked.Some? { SettledStaysParked(t1); }
      NotedKeepsParking(c, inp, tid, if t1.parked.Some? then CountShift(t1) else t1, d);
    } else if tid in inp.samePixels {
      SettledStaysParked(t1);
      NotedKeepsParking(c, inp, tid, Settle(t1), d);
    } else {
      NotedKeepsParking(c, inp, tid, Wake(c, t1, Now(c, inp)), d);
    }
  }

  lemma {:induction false} FollowAllFinished(c: Config, inp: Input, m: Pipeline.Result, s: State, n: nat, tid: TrackId)
    requires Mid(s, {}) && n <= |s.live|
    ensures var r := FollowAll(c, inp, m, Work(s, []), s.live, n).s;
            && (tid in s.live[..n] ==> FinishedAfter(s, r, tid))
            && (tid !in s.live[..n] ==> (InFinished(r, tid) <==> InFinished(s, tid)) && (tid in r.live <==> tid in s.live))
  {
    hide *;
    if n == 0 {
      NobodyFollowed(c, inp, m, s);
    } else {
      FollowAllFinished(c, inp, m, s, n - 1, tid);
      var w, t := FollowAll(c, inp, m, Work(s, []), s.live, n - 1), s.live[n - 1];
      LiveDistinct(s, {}, n - 1);
      LiveOk(s, {});
      FollowAllKeeps(c, inp, m, s, n - 1);
      FollowAllStore(c, inp, m, Work(s, []), s.live, n - 1);
      assert s.live[..n] == s.live[..n - 1] + [t];
      assert t in s.live;
      FollowOneFinished(c, inp, m, w, t);
      FollowOneStore(c, inp, m, w, t);
      FollowAllNext(c, inp, m, s, n);
      if t == tid {
        FinishedNext(s, w.s, FollowOne(c, inp, m, w, t).s, tid);
      } else {
        FinishedStill(s, w.s, FollowOne(c, inp, m, w, t).s, tid);
      }
    }
  }

  lemma NobodyFollowed(c: Config, inp: Input, m: Pipeline.Result, s: State)
    ensures FollowAll(c, inp, m, Work(s, []), s.live, 0).s == s
  {}

  lemma FollowAllNext(c: Config, inp: Input, m: Pipeline.Result, s: State, n: nat)
    requires 0 < n <= |s.live|
    ensures FollowAll(c, inp, m, Work(s, []), s.live, n)
            == FollowOne(c, inp, m, FollowAll(c, inp, m, Work(s, []), s.live, n - 1), s.live[n - 1])
    ensures FollowAll(c, inp, m, Work(s, []), s.live, n - 1).s.event.Some? == s.event.Some?
  {
    hide FollowOne;
  }

  /** tid's own turn, its track and place still as they were. */
  lemma FinishedNext(s: State, w: State, r: State, tid: TrackId)
    requires FinishedAfter(w, r, tid) && tid in s.store && w.store[tid] == s.store[tid] && w.event.Some? == s.event.Some?
    requires InFinished(w, tid) <==> InFinished(s, tid)
    ensures FinishedAfter(s, r, tid)
  {
    hide InFinished;
  }

  /** Another one's turn. */
  lemma FinishedStill(s: State, w: State, r: State, tid: TrackId)
    requires (tid in r.live <==> tid in w.live) && (InFinished(r, tid) <==> InFinished(w, tid))
    requires tid in w.store ==> tid in r.store && r.store[tid] == w.store[tid]
    ensures FinishedAfter(s, w, tid) ==> FinishedAfter(s, r, tid)
  {
    hide InFinished;
  }

  /** After following, of those not taking part. */
  lemma FollowingFinished(c: Config, s: State, inp: Input, tid: TrackId)
    requires Inv(s) && AllOutside(s) && InputOk(s, inp) && tid !in s.joined
    ensures var r := AfterFollowing(c, s, inp).s;
            && (InFinished(r, tid) <==> ClosedOutside(c, s, inp, tid) || (InFinished(s, tid) && !Woken(c, s, inp, tid)))
            && r.joined == s.joined && Sane(AfterFollowing(c, s, inp))
  {
    hide *;
    var m := Matches(c, s, inp);
    MatchesFacts(c, s, inp);
    var s0 := Begin(c, s, inp).(ids := m.ids);
    InvIsMid(s);
    BeginKeeps(c, s, {}, inp, m.ids);
    BeginLive(c, s, inp);
    BeginEvent(c, s, inp);
    if tid in s.live { OutsideUnlessJoined(s, tid); }
    FollowAllKeeps(c, inp, m, s0, |s0.live|);
    FollowAllFinished(c, inp, m, s0, |s0.live|, tid);
    assert s0.live[..|s0.live|] == s0.live;
    AfterFollowingIs(c, s, inp);
    FinishedAsTold(c, s, inp, tid);
  }

  lemma InvIsMid(s: State)
    requires Inv(s)
    ensures Mid(s, {})
  {}

  lemma AfterFollowingIs(c: Config, s: State, inp: Input)
    requires InputOk(s, inp)
    ensures var m := Matches(c, s, inp);
            AfterFollowing(c, s, inp) == FollowAll(c, inp, m, Work(Begin(c, s, inp).(ids := m.ids), []), s.live, |s.live|)
    ensures AfterFollowing(c, s, inp).s.joined == s.joined
  {
    BeginEvent(c, s, inp);
    hide Begin, InputOk, Matches;
  }

  lemma FinishedAsTold(c: Config, s: State, inp: Input, tid: TrackId)
    requires InputOk(s, inp)
    requires var s0, r := Begin(c, s, inp).(ids := Matches(c, s, inp).ids), AfterFollowing(c, s, inp).s;
             && s0.event == s.event && s0.store == s.store
             && (tid in s.live ==> FinishedAfter(s0, r, tid))
             && (tid !in s.live ==> (InFinished(r, tid) <==> InFinished(s0, tid)))
    requires tid in s.live ==> tid in s.store && (s.store[tid].confirmed && s.store[tid].parked.None? ==> !s.store[tid].zoned)
    ensures InFinished(AfterFollowing(c, s, inp).s, tid)
            <==> ClosedOutside(c, s, inp, tid) || (InFinished(s, tid) && !Woken(c, s, inp, tid))
  {
    hide AfterFollowing, Begin, Matches, InputOk;
  }

  lemma BeginEvent(c: Config, s: State, inp: Input)
    ensures Begin(c, s, inp).event == s.event && Begin(c, s, inp).joined == s.joined
  {}

  /** Whoever does not take part in the open event, confirmed and moving, has not been in a zone. */
  lemma OutsideUnlessJoined(s: State, tid: TrackId)
    requires Inv(s) && AllOutside(s) && tid in s.live && tid !in s.joined
    ensures tid in s.store
    ensures var tr := s.store[tid]; tr.confirmed && tr.parked.None? ==> !tr.zoned
  {
    assert Role(s, {}, tid) && WaitsOutside(s, tid);
  }

  /** The same people have finished, but for those who take part. */
  ghost predicate SameFinished(s: State, r: State) {
    && r.joined == s.joined && r.event.Some? == s.event.Some?
    && forall t: TrackId :: t !in s.joined ==> (InFinished(r, t) <==> InFinished(s, t))
  }

  lemma SameFinishedTrans(a: State, b: State, r: State)
    requires SameFinished(a, b) && SameFinished(b, r)
    ensures SameFinished(a, r)
  {
    hide InFinished;
  }

  lemma SameEventSameFinished(s: State, r: State)
    requires r.event == s.event && r.joined == s.joined
    ensures SameFinished(s, r)
  {}

  lemma AdmitOneFinished(c: Config, inp: Input, m: Pipeline.Result, starting: bool, w: Work, idx: nat)
    requires Sane(w)
    ensures SameFinished(w.s, AdmitOne(c, inp, m, starting, w, idx).s)
  {
    hide Mid, InsideParked, ResumeIou, Resumed, Opened;
    if idx < |inp.dets| && !InsideParked(w.s, inp.dets[idx]) {
      var k := FindResume(w.s, inp.dets[idx], |w.s.recent|);
      if k.Some? { BackOnlyIfJoined(w.s, Joining(w), k.value); }
    }
  }

  /** Only those who took part come back into the event. */
  lemma BackOnlyIfJoined(s: State, J: set<TrackId>, k: nat)
    requires Mid(s, J) && k < |s.recent|
    ensures ResumeHow(At(s.store, s.recent[k].tid), s.event) == Some(BackInEvent) ==> s.recent[k].tid in s.joined
  {
    var tid := s.recent[k].tid;
    assert tid in s.store && tid !in s.live;
    assert Role(s, J, tid);
  }

  lemma {:induction false} AdmitAllFinished(c: Config, inp: Input, m: Pipeline.Result, starting: bool, w: Work, n: nat)
    requires Sane(w) && PendingOk(inp, m) && n <= |m.claims.unclaimed|
    ensures SameFinished(w.s, AdmitAll(c, inp, m, starting, w, n).s)
  {
    hide Mid, AdmitOne, SameFinished;
    if n == 0 {
      SameEventSameFinished(w.s, w.s);
    } else {
      var p := AdmitAll(c, inp, m, starting, w, n - 1);
      AdmitAllFinished(c, inp, m, starting, w, n - 1);
      AdmitAllKeeps(c, inp, m, starting, w, n - 1);
      AdmitOneFinished(c, inp, m, starting, p, m.claims.unclaimed[n - 1]);
      SameFinishedTrans(w.s, p.s, AdmitAll(c, inp, m, starting, w, n).s);
    }
  }

  lemma ParkOneFinished(p: State, J: set<TrackId>, tid: TrackId)
    requires Mid(p, J) && tid in p.live
    ensures SameFinished(p, ParkOne(p, tid))
  {
    InStore(p, J, tid);
    assert Role(p, J, tid);
    hide Mid;
  }

  lemma {:induction false} ParkAllFinished(s: State, J: set<TrackId>, n: nat)
    requires Mid(s, J) && n <= |s.live|
    ensures SameFinished(s, ParkAll(s, n))
  {
    hide Mid, ParkOne, SameFinished;
    if n == 0 {
      SameEventSameFinished(s, s);
    } else {
      ParkAllFinished(s, J, n - 1);
      ParkAllKeeps(s, J, n - 1);
      ParkOneFinished(ParkAll(s, n - 1), J, s.live[n - 1]);
      SameFinishedTrans(s, ParkAll(s, n - 1), ParkAll(s, n));
    }
  }

  lemma {:induction false} LinkAllEvent(inp: Input, s: State, n: nat)
    requires n <= |s.live|
    ensures LinkAll(inp, s, n).event == s.event
  {
    hide PersonOf;
    if n > 0 { LinkAllEvent(inp, s, n - 1); }
  }

  lemma {:induction false} RememberAllEvent(c: Config, inp: Input, s: State, n: nat)
    requires n <= |s.live|
    ensures RememberAll(c, inp, s, n).event == s.event
  {
    if n > 0 { RememberAllEvent(c, inp, s, n - 1); }
  }

  lemma {:induction false} ConfirmAllEvent(c: Config, inp: Input, w: Work, n: nat)
    requires n <= |w.s.live|
    ensures ConfirmAll(c, inp, w, n).s.event == w.s.event
  {
    if n > 0 { ConfirmAllEvent(c, inp, w, n - 1); }
  }

  lemma {:induction false} AccompanyAllEvent(w: Work, n: nat)
    requires n <= |w.s.live|
    ensures AccompanyAll(w, n).s.event == w.s.event
  {
    hide HasParent;
    if n > 0 { AccompanyAllEvent(w, n - 1); }
  }

  lemma {:induction false} ReleaseAllEvent(s: State, n: nat)
    requires n <= |s.live|
    ensures ReleaseAll(s, n).s.event == s.event
  {
    if n > 0 { ReleaseAllEvent(s, n - 1); }
  }

  lemma {:induction false} HoldAllEvent(w: Work, joining: seq<TrackId>, n: nat)
    requires n <= |joining|
    ensures HoldAll(w, joining, n).s.event == w.s.event
  {
    if n > 0 { HoldAllEvent(w, joining, n - 1); }
  }

  /** From the unclaimed detections to the zone check only those who take part finish or come back. */
  lemma CheckedFinished(c: Config, s: State, inp: Input)
    requires Inv(s) && InputOk(s, inp) && Sane(AfterFollowing(c, s, inp))
    ensures SameFinished(AfterFollowing(c, s, inp).s, HoldForZones(Gather(c, s, inp, Matches(c, s, inp))).s)
  {
    hide *;
    var m := Matches(c, s, inp);
    MatchesFacts(c, s, inp);
    var s0 := Begin(c, s, inp).(ids := m.ids);
    var w1 := AfterFollowing(c, s, inp);
    var starting := Starting(c, s0, inp);
    GatherIs(c, s, inp);
    SaneIsMid(w1);
    var w2 := AdmitAll(c, inp, m, starting, w1, |m.claims.unclaimed|);
    AdmitAllFinished(c, inp, m, starting, w1, |m.claims.unclaimed|);
    AdmitAllKeeps(c, inp, m, starting, w1, |m.claims.unclaimed|);
    SaneIsMid(w2);
    var s3 := LinkAll(inp, w2.s, |w2.s.live|);
    LinkAllEvent(inp, w2.s, |w2.s.live|);
    LinkAllKeeps(inp, w2.s, Joining(w2), |w2.s.live|);
    var s4 := RememberAll(c, inp, s3, |s3.live|);
    RememberAllEvent(c, inp, s3, |s3.live|);
    RememberAllKeeps(c, inp, s3, Joining(w2), |s3.live|);
    var w5 := ConfirmAll(c, inp, Work(s4, w2.joining), |s4.live|);
    ConfirmAllEvent(c, inp, Work(s4, w2.joining), |s4.live|);
    SaneAgain(w2, s4);
    ConfirmAllKeeps(c, inp, Work(s4, w2.joining), |s4.live|);
    SaneIsMid(w5);
    SameRecordJoined(w2.s, s3);
    SameRecordJoined(s3, s4);
    SameRecordJoined(s4, w5.s);
    SameEventSameFinished(w2.s, w5.s);
    var s6 := ParkAll(w5.s, |w5.s.live|);
    ParkAllFinished(w5.s, Joining(w5), |w5.s.live|);
    var w7 := AccompanyAll(Work(s6, w5.joining), |s6.live|);
    AccompanyAllEvent(Work(s6, w5.joining), |s6.live|);
    SameRecordJoined(s6, w7.s);
    var w8 := ReleaseAll(w7.s, |w7.s.live|);
    ReleaseAllEvent(w7.s, |w7.s.live|);
    SameRecordJoined(w7.s, w8.s);
    var w9 := HoldAll(w8, w7.joining, |w7.joining|);
    HoldAllEvent(w8, w7.joining, |w7.joining|);
    SameRecordJoined(w8.s, w9.s);
    SameEventSameFinished(s6, w9.s);
    SameFinishedTrans(w1.s, w2.s, w5.s);
    SameFinishedTrans(w1.s, w5.s, s6);
    SameFinishedTrans(w1.s, s6, w9.s);
    HoldForZonesIs(w7);
  }

  lemma GatherIs(c: Config, s: State, inp: Input)
    requires InputOk(s, inp)
    ensures var m := Matches(c, s, inp);
            var w2 := AdmitAll(c, inp, m, Starting(c, Begin(c, s, inp).(ids := m.ids), inp), AfterFollowing(c, s, inp),
                               |m.claims.unclaimed|);
            var s3 := LinkAll(inp, w2.s, |w2.s.live|);
            var s4 := RememberAll(c, inp, s3, |s3.live|);
            var w5 := ConfirmAll(c, inp, Work(s4, w2.joining), |s4.live|);
            var s6 := ParkAll(w5.s, |w5.s.live|);
            Gather(c, s, inp, m) == AccompanyAll(Work(s6, w5.joining), |s6.live|)
  {
    hide FollowAll, AdmitAll, LinkAll, RememberAll, ConfirmAll, ParkAll, AccompanyAll, Matches, Starting, InputOk;
    BeginLive(c, s, inp);
    hide Begin;
  }

  lemma HoldForZonesIs(w: Work)
    ensures HoldForZones(w) == HoldAll(ReleaseAll(w.s, |w.s.live|), w.joining, |w.joining|)
  {
    hide HoldAll, ReleaseAll;
  }

  lemma SaneIsMid(w: Work)
    requires Sane(w)
    ensures Mid(w.s, Joining(w))
  {}

  lemma SaneAgain(w: Work, s: State)
    requires Mid(s, Joining(w))
    ensures Sane(Work(s, w.joining))
  {
    assert Joining(Work(s, w.joining)) == Joining(w);
  }

  lemma SameRecordJoined(s: State, r: State)
    requires SameRecord(s, r)
    ensures r.joined == s.joined
  {}

  /** At the zone check of a tick: who is in the finished list without taking part. */
  lemma FinishedAtCheck(c: Config, s: State, inp: Input, tid: TrackId)
    requires Inv(s) && AllOutside(s) && InputOk(s, inp) && tid !in s.joined
    ensures InFinished(HoldForZones(Gather(c, s, inp, Matches(c, s, inp))).s, tid)
            <==> ClosedOutside(c, s, inp, tid) || (InFinished(s, tid) && !Woken(c, s, inp, tid))
  {
    hide *;
    FollowingFinished(c, s, inp, tid);
    CheckedFinished(c, s, inp);
    UseSameFinished(AfterFollowing(c, s, inp).s, HoldForZones(Gather(c, s, inp, Matches(c, s, inp))).s, tid);
  }

  lemma UseSameFinished(s: State, r: State, tid: TrackId)
    requires SameFinished(s, r) && tid !in s.joined
    ensures InFinished(r, tid) <==> InFinished(s, tid)
  {}

  // ----- the finished list over a run -------------------------------------------------------------

  ghost predicate OpenAs(s: State, id: int) {
    s.event.Some? && s.event.value.id == id
  }

  /** Before tick n, tid closed outside every zone while event id was open, and has not woken since. */
  ghost predicate WentOutside(c: Config, states: seq<State>, inputs: seq<Input>, id: int, tid: TrackId, n: nat)
    requires |states| == |inputs| + 1 && n <= |inputs|
  {
    exists i :: 0 <= i < n && OpenAs(states[i], id) && ClosedOutside(c, states[i], inputs[i], tid)
      && forall j :: i < j < n ==> !Woken(c, states[j], inputs[j], tid)
  }

  lemma WentNext(c: Config, states: seq<State>, inputs: seq<Input>, id: int, tid: TrackId, n: nat)
    requires |states| == |inputs| + 1 && n < |inputs|
    ensures WentOutside(c, states, inputs, id, tid, n + 1) <==>
            || (OpenAs(states[n], id) && ClosedOutside(c, states[n], inputs[n], tid))
            || (WentOutside(c, states, inputs, id, tid, n) && !Woken(c, states[n], inputs[n], tid))
  {
    hide ClosedOutside, Woken, OpenAs;
    if WentOutside(c, states, inputs, id, tid, n) && !Woken(c, states[n], inputs[n], tid) {
      var i :| 0 <= i < n && OpenAs(states[i], id) && ClosedOutside(c, states[i], inputs[i], tid)
        && forall j :: i < j < n ==> !Woken(c, states[j], inputs[j], tid);
      assert forall j :: i < j < n + 1 ==> !Woken(c, states[j], inputs[j], tid);
    }
  }

  /** Event ids are given out in rising order. */
  lemma TickCounter(c: Config, s: State, inp: Input)
    requires Inv(s) && InputOk(s, inp)
    ensures var r := Tick(c, s, inp);
            && s.counter <= r.counter
            && (r.event.Some? && s.event.None? ==> s.counter <= r.event.value.id && r.event.value.finished == [])
            && (r.event.Some? && s.event.Some? ==> r.event.value.id == s.event.value.id && s.joined <= r.joined)
  {
    hide Inv, InputOk, Tick, Lifecycle, HoldForZones, Gather, Settled;
    var w := Checked(c, s, inp);
    LifecycleCounter(c, inp, w);
  }

  lemma LifecycleCounter(c: Config, inp: Input, w: Work)
    ensures var s, r := w.s, Lifecycle(c, inp, w);
            && s.counter <= r.counter
            && (r.event.Some? && s.event.None? ==> s.counter <= r.event.value.id && r.event.value.finished == [])
            && (r.event.Some? && s.event.Some? ==> r.event == s.event && s.joined <= r.joined)
  {
    hide ActiveIds, OpenEvent;
    var active := ActiveIds(w.s.live, w.s.store);
    OpenEventFields(c, inp, w.s, w.joining, active);
  }

  /** While an event stays open its finished list is that of the zone check. */
  lemma OpenEventKeepsFinished(c: Config, s: State, inp: Input, tid: TrackId)
    requires Inv(s) && InputOk(s, inp) && s.event.Some? && Tick(c, s, inp).event.Some?
    ensures InFinished(Tick(c, s, inp), tid) <==> InFinished(HoldForZones(Gather(c, s, inp, Matches(c, s, inp))).s, tid)
  {
    hide Inv, InputOk, Tick, Lifecycle, HoldForZones, Gather, Settled;
    var w := Checked(c, s, inp);
    LifecycleCounter(c, inp, w);
  }

  lemma {:induction false} CounterRises(c: Config, counter: int, states: seq<State>, inputs: seq<Input>, i: nat, n: nat)
    requires IsRun(c, counter, states, inputs) && i <= n <= |inputs|
    ensures |states| == |inputs| + 1 && states[i].counter <= states[n].counter
  {
    hide *;
    RunBounds(c, counter, states, inputs);
    if i < n {
      CounterRises(c, counter, states, inputs, i, n - 1);
      RunStep(c, counter, states, inputs, n - 1);
      TickCounter(c, states[n - 1], inputs[n - 1]);
    }
  }

  lemma OpenIdIsUsed(s: State, id: int)
    requires Inv(s) && OpenAs(s, id)
    ensures id < s.counter
  {}

  /** Nobody went outside during an event that has not been opened yet. */
  lemma NotYetOpen(c: Config, counter: int, states: seq<State>, inputs: seq<Input>, id: int, tid: TrackId, n: nat)
    requires IsRun(c, counter, states, inputs) && n <= |inputs|
    ensures |states| == |inputs| + 1
    ensures states[n].counter <= id ==> !WentOutside(c, states, inputs, id, tid, n)
  {
    hide IsRun, Inv, TraceOk, NamesOk, ClosedOutside, Woken, OpenAs;
    RunBounds(c, counter, states, inputs);
    if states[n].counter <= id {
      forall i | 0 <= i < n
        ensures !OpenAs(states[i], id)
      {
        RunStep(c, counter, states, inputs, i);
        CounterRises(c, counter, states, inputs, i, n);
        if OpenAs(states[i], id) { OpenIdIsUsed(states[i], id); }
      }
    }
  }

  /** In every state of a run: who is in the open event's finished list without taking part. */
  lemma {:induction false} FinishedOutside(c: Config, counter: int, states: seq<State>, inputs: seq<Input>, n: nat, id: int,
                                           tid: TrackId)
    requires IsRun(c, counter, states, inputs) && n <= |inputs|
    ensures |states| == |inputs| + 1
    ensures OpenAs(states[n], id) && tid !in states[n].joined ==>
              (InFinished(states[n], tid) <==> WentOutside(c, states, inputs, id, tid, n))
  {
    hide *;
    RunBounds(c, counter, states, inputs);
    if n == 0 {
      NothingOpen(counter, id);
    } else if OpenAs(states[n], id) && tid !in states[n].joined {
      var s, inp := states[n - 1], inputs[n - 1];
      OpenHasEvent(states[n], id);
      RunStep(c, counter, states, inputs, n - 1);
      TickCounter(c, s, inp);
      if s.event.Some? {
        OpenStill(s, states[n], id);
        FinishedOutside(c, counter, states, inputs, n - 1, id, tid);
        WaitersAreOutside(c, counter, states, inputs, n - 1);
        FinishedAtCheck(c, s, inp, tid);
        OpenEventKeepsFinished(c, s, inp, tid);
        WentNext(c, states, inputs, id, tid, n - 1);
      } else {
        FreshlyOpened(s, states[n], id, tid);
        NotYetOpen(c, counter, states, inputs, id, tid, n - 1);
        WentNext(c, states, inputs, id, tid, n - 1);
      }
    }
  }

  lemma NothingOpen(counter: int, id: int)
    ensures !OpenAs(Initial(counter), id)
  {}

  lemma OpenHasEvent(s: State, id: int)
    requires OpenAs(s, id)
    ensures s.event.Some? && s.event.value.id == id
  {}

  lemma OpenStill(s: State, r: State, id: int)
    requires OpenAs(r, id) && s.event.Some? && r.event.Some? && r.event.value.id == s.event.value.id
    ensures OpenAs(s, id)
  {}

  lemma FreshlyOpened(s: State, r: State, id: int, tid: TrackId)
    requires OpenAs(r, id) && s.event.None? && s.counter <= r.event.value.id && r.event.value.finished == []
    ensures !OpenAs(s, id) && !InFinished(r, tid) && s.counter <= id
  {}

  // ----- what a leave says ------------------------------------------------------------------------

  /** In view, moving, confirmed and zoned when the event closes. */
  ghost predicate ActiveAt(w: Work, tid: TrackId) {
    tid in w.s.live && tid in w.s.store && Active(w.s.store[tid])
  }

  /** A leave is sent only by closing, names who has finished and who is active, each once, and closes. */
  lemma LifecycleLeave(c: Config, inp: Input, w: Work, k: nat, tid: TrackId)
    requires Settled(w)
    ensures var r := Lifecycle(c, inp, w);
            |w.s.trace| <= k < |r.trace| && r.trace[k].edge.Leave? ==>
              && OpenAs(w.s, r.trace[k].eventId) && OnceEach(r.trace[k])
              && (tid in Tids(r.trace[k]) <==> InFinished(w.s, tid) || ActiveAt(w, tid))
              && (tid in w.s.joined ==> tid in Tids(r.trace[k]))
  {
    hide OpenEvent, CloseEvent, ReportEvent, ActiveIds, Settled;
    var active := ActiveIds(w.s.live, w.s.store);
    ActiveInStore(w, active);
    var r := Lifecycle(c, inp, w);
    if w.s.event.None? {
      if w.joining != [] && active != [] { OpenSendsNoLeave(c, inp, w, active, k); }
    } else {
      var e := w.s.event.value;
      var s := w.s.(store := ForgetHistory(Enrol(w.s.store, w.joining, e.id, |w.joining|), w.joining, |w.joining|));
      if active == [] || Now(c, inp) - e.startedMs >= inp.eventMaxMs {
        ParticipantsLeave(w, e, active);
        CloseEventTrace(inp, s, e, active);
        ActiveIsAt(w, active);
      } else {
        ReportEventTrace(c, inp, s, e, active);
      }
    }
  }

  lemma ActiveIsAt(w: Work, active: seq<TrackId>)
    requires Settled(w) && active == ActiveIds(w.s.live, w.s.store)
    ensures forall t :: t in active <==> ActiveAt(w, t)
  {}

  lemma OpenSendsNoLeave(c: Config, inp: Input, w: Work, active: seq<TrackId>, k: nat)
    requires NoDup(active)
    ensures var r := OpenEvent(c, inp, w.s, w.joining, active);
            |w.s.trace| <= k < |r.trace| ==> !r.trace[k].edge.Leave?
  {
    hide *;
    var r, filled := OpenEvent(c, inp, w.s, w.joining, active), Filled(c, inp, w.s, w.joining, active);
    OpenEventTrace(c, inp, w.s, w.joining, active);
    var first :| r.trace == w.s.trace + filled + [first] && first.edge == if filled == [] then Enter else Moving;
    FilledSendsNoLeave(c, inp, w.s, w.joining, active);
    if |w.s.trace| <= k < |w.s.trace| + |filled| { assert r.trace[k] == filled[k - |w.s.trace|]; }
  }

  lemma FilledSendsNoLeave(c: Config, inp: Input, s: State, joining: seq<TrackId>, active: seq<TrackId>)
    ensures var filled := Filled(c, inp, s, joining, active);
            forall k :: 0 <= k < |filled| ==> !filled[k].edge.Leave?
  {
    hide Backfill, SortedStamps, Enrol, FacesLast, Among;
    var id := s.counter + inp.skipped;
    var store := Enrol(s.store, active, id, |active|);
    var starters := Among(FacesLast(store, active), joining);
    var stamps := SortedStamps(store, starters, inp.at);
    BackfillNames(c, store, starters, id, stamps, |stamps|);
    assert Filled(c, inp, s, joining, active) == Backfill(c, store, starters, id, stamps, |stamps|);
  }

  /** A finished or active track is confirmed, and a tick does not take that back. */
  lemma NamedIsConfirmed(c: Config, inp: Input, w: Work, tid: TrackId)
    requires Settled(w) && (InFinished(w.s, tid) || ActiveAt(w, tid))
    ensures tid in Lifecycle(c, inp, w).store && Lifecycle(c, inp, w).store[tid].confirmed
  {
    SettledConfirmed(w, tid);
    ActiveInStore(w, ActiveIds(w.s.live, w.s.store));
    JoiningInStore(w);
    hide *;
    LifecycleConfirmed(c, inp, w, tid);
  }

  lemma SettledConfirmed(w: Work, tid: TrackId)
    requires Settled(w) && (InFinished(w.s, tid) || ActiveAt(w, tid))
    ensures tid in w.s.store && w.s.store[tid].confirmed
  {
    assert tid in w.s.store;
    SettledRole(w, tid);
  }

  lemma LifecycleConfirmed(c: Config, inp: Input, w: Work, tid: TrackId)
    requires tid in w.s.store && w.s.store[tid].confirmed
    requires var active := ActiveIds(w.s.live, w.s.store); NoDup(active) && forall t :: t in active ==> t in w.s.store
    requires forall t :: t in w.joining ==> t in w.s.store
    ensures tid in Lifecycle(c, inp, w).store && Lifecycle(c, inp, w).store[tid].confirmed
  {
    hide ActiveIds, OpenEvent, Enrol, ForgetHistory, ParkThose, ReportEvent;
    var active := ActiveIds(w.s.live, w.s.store);
    if w.s.event.None? {
      OpenEventEnrols(c, inp, w.s, w.joining, active);
      EnrolledAt(w.s.store, OpenEvent(c, inp, w.s, w.joining, active).store, active, w.s.counter + inp.skipped, tid);
    } else {
      var e := w.s.event.value;
      EnrolJoining(w.s.store, w.joining, e.id);
      var s := w.s.(store := ForgetHistory(Enrol(w.s.store, w.joining, e.id, |w.joining|), w.joining, |w.joining|));
      EnrolledAt(w.s.store, s.store, w.joining, e.id, tid);
      ParkAllOf(s.store, active);
      ReportEventStore(c, inp, s, e, active);
    }
  }

  /** The tick that sent a message. */
  lemma {:induction false} SentOn(c: Config, counter: int, states: seq<State>, inputs: seq<Input>, m: nat, k: nat)
    returns (n: nat)
    requires IsRun(c, counter, states, inputs) && m <= |inputs|
    requires |states| == |inputs| + 1 && k < |states[m].trace|
    ensures n < m && |states[n].trace| <= k < |states[n + 1].trace| && states[n + 1].trace[k] == states[m].trace[k]
  {
    hide *;
    RunBounds(c, counter, states, inputs);
    NothingSent(counter);
    RunStep(c, counter, states, inputs, m - 1);
    TraceGrows(c, states[m - 1], inputs[m - 1]);
    if k < |states[m - 1].trace| {
      n := SentOn(c, counter, states, inputs, m - 1, k);
    } else {
      n := m - 1;
    }
  }

  lemma NothingSent(counter: int)
    ensures Initial(counter).trace == []
  {}

  lemma TraceGrows(c: Config, s: State, inp: Input)
    requires Inv(s) && InputOk(s, inp)
    ensures s.trace <= Tick(c, s, inp).trace
  {
    hide Inv, InputOk, Tick, Lifecycle, HoldForZones, Gather, Settled;
    var w := Checked(c, s, inp);
    LifecycleTraceGrows(c, inp, w);
  }

  /** tid is named by the leave of the event that closes on tick n: it took part before, is active now, or
      went outside. */
  ghost predicate HasLeft(c: Config, states: seq<State>, inputs: seq<Input>, id: int, tid: TrackId, n: nat)
    requires |states| == |inputs| + 1 && n < |inputs|
  {
    || tid in states[n].joined
    || (InputOk(states[n], inputs[n])
        && ActiveAt(HoldForZones(Gather(c, states[n], inputs[n], Matches(c, states[n], inputs[n]))), tid))
    || WentOutside(c, states, inputs, id, tid, n + 1)
  }

  /** Every leave of every run, exactly: it is sent on a tick that found its event open, and names, each
      once and each confirmed, those who took part in it, those active on that tick, and those who closed
      confirmed and moving without ever having been in a zone while it was open and did not wake since. */
  lemma LeaveNamesExactly(c: Config, counter: int, states: seq<State>, inputs: seq<Input>, m: nat, k: nat, tid: TrackId)
    returns (n: nat)
    requires IsRun(c, counter, states, inputs) && m <= |inputs|
    requires |states| == |inputs| + 1 && k < |states[m].trace| && states[m].trace[k].edge.Leave?
    ensures n < m && |states[n].trace| <= k < |states[n + 1].trace| && states[n + 1].trace[k] == states[m].trace[k]
    ensures var leave := states[m].trace[k];
            && OpenAs(states[n], leave.eventId) && OnceEach(leave)
            && (tid in Tids(leave) <==> HasLeft(c, states, inputs, leave.eventId, tid, n))
            && (tid in Tids(leave) ==> tid in states[n + 1].store && states[n + 1].store[tid].confirmed)
  {
    hide *;
    n := SentOn(c, counter, states, inputs, m, k);
    var s, inp, leave := states[n], inputs[n], states[m].trace[k];
    RunStep(c, counter, states, inputs, n);
    var w := Checked(c, s, inp);
    SameRecordAs(s, w.s);
    LifecycleLeave(c, inp, w, k, tid);
    var id := leave.eventId;
    OpenInBoth(s, w.s, id);
    if tid in Tids(leave) { NamedIsConfirmed(c, inp, w, tid); }
    if tid !in s.joined {
      FinishedOutside(c, counter, states, inputs, n, id, tid);
      WaitersAreOutside(c, counter, states, inputs, n);
      FinishedAtCheck(c, s, inp, tid);
      WentNext(c, states, inputs, id, tid, n);
    }
    HasLeftIs(c, states, inputs, id, tid, n);
  }

  lemma SameRecordAs(s: State, r: State)
    requires SameRecord(s, r)
    ensures r.trace == s.trace && r.joined == s.joined
  {}

  lemma OpenInBoth(s: State, r: State, id: int)
    requires SameRecord(s, r) && OpenAs(r, id)
    ensures OpenAs(s, id)
  {}

  lemma HasLeftIs(c: Config, states: seq<State>, inputs: seq<Input>, id: int, tid: TrackId, n: nat)
    requires |states| == |inputs| + 1 && n < |inputs| && InputOk(states[n], inputs[n])
    ensures HasLeft(c, states, inputs, id, tid, n) <==>
            || tid in states[n].joined
            || ActiveAt(HoldForZones(Gather(c, states[n], inputs[n], Matches(c, states[n], inputs[n]))), tid)
            || WentOutside(c, states, inputs, id, tid, n + 1)
  {}
}
