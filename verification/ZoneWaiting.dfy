/** Waiting for a zone, and what goes into an event's finished list. */
module ZoneWaiting {
  import opened Wrappers
  import opened Geometry
  import opened Lists
  import opened Tracks
  import opened Matching
  import opened Engine
  import opened EngineInvariant
  import opened EventTrace
  import EventFacts
  import TrackLife
  import Norfair
  import Pipeline

  /** No live track that is confirmed and waiting has been in a zone. */
  ghost predicate AllOutside(s: State) {
    forall t :: t in s.live ==> WaitsOutside(s, t)
  }

  /** The same tracks wait, in the same zones. */
  ghost predicate SameWaiting(store: Table, r: Table) {
    forall t :: t in r ==> t in store && r[t].awaitingZone == store[t].awaitingZone && r[t].zoned == store[t].zoned
                           && r[t].confirmed == store[t].confirmed
  }

  lemma EnrolledWaits(store: Table, r: Table, ids: seq<TrackId>, id: int)
    requires Enrolled(store, r, ids, id)
    ensures SameWaiting(store, r)
  {
    forall t | t in r
      ensures EnrolledOne(store[t], r[t], t in ids, id)
    {}
  }

  lemma SameWaitingIsOutside(s: State, r: State)
    requires AllOutside(s) && r.live == s.live && SameWaiting(s.store, r.store)
    ensures AllOutside(r)
  {
    forall t | t in r.live
      ensures WaitsOutside(r, t)
    {
      assert WaitsOutside(s, t);
    }
  }

  lemma ParkedWaits(store: Table, tids: seq<TrackId>)
    requires forall t :: t in tids ==> t in store
    ensures SameWaiting(store, ParkThose(store, tids, |tids|))
  {
    ParkAllOf(store, tids);
  }

  lemma LifecycleStaysOutside(c: Config, inp: Input, w: Work)
    requires Settled(w)
    ensures AllOutside(Lifecycle(c, inp, w))
  {
    var active := ActiveIds(w.s.live, w.s.store);
    ActiveInStore(w, active);
    JoiningInStore(w);
    assert AllOutside(w.s);
    hide *;
    OpenStaysOutside(c, inp, w.s, w.joining, active);
    if w.s.event.Some? { OngoingStaysOutside(c, inp, w.s, w.joining, active); }
    LifecycleIsOneOf(c, inp, w);
  }

  lemma LifecycleIsOneOf(c: Config, inp: Input, w: Work)
    ensures var active, r := ActiveIds(w.s.live, w.s.store), Lifecycle(c, inp, w);
            if w.s.event.None? then r == w.s || r == OpenEvent(c, inp, w.s, w.joining, active)
            else var s := Joined(w.s, w.joining);
                 r == CloseEvent(inp, s, w.s.event.value, active) || r == ReportEvent(c, inp, s, w.s.event.value, active)
  {
    hide ActiveIds, OpenEvent, CloseEvent, ReportEvent;
  }

  /** Those joining take part in the open event. */
  function Joined(s: State, joining: seq<TrackId>): State
    requires s.event.Some?
  {
    s.(store := ForgetHistory(Enrol(s.store, joining, s.event.value.id, |joining|), joining, |joining|))
  }

  lemma OpenStaysOutside(c: Config, inp: Input, s: State, joining: seq<TrackId>, active: seq<TrackId>)
    requires AllOutside(s) && NoDup(active) && forall t :: t in active ==> t in s.store
    ensures AllOutside(OpenEvent(c, inp, s, joining, active))
  {
    hide *;
    OpenEventEnrols(c, inp, s, joining, active);
    OpenEventFields(c, inp, s, joining, active);
    EnrolledWaits(s.store, OpenEvent(c, inp, s, joining, active).store, active, s.counter + inp.skipped);
    SameWaitingIsOutside(s, OpenEvent(c, inp, s, joining, active));
  }

  lemma OngoingStaysOutside(c: Config, inp: Input, s: State, joining: seq<TrackId>, active: seq<TrackId>)
    requires AllOutside(s) && s.event.Some?
    requires forall t :: t in active || t in joining ==> t in s.store
    ensures var s1, e := Joined(s, joining), s.event.value;
            AllOutside(CloseEvent(inp, s1, e, active)) && AllOutside(ReportEvent(c, inp, s1, e, active))
  {
    hide AllOutside, Enrolled, Enrol, ForgetHistory, ParkThose, SameWaiting, LiveMembers, SeenSince, FacesLast;
    var s1, e := Joined(s, joining), s.event.value;
    EnrolJoining(s.store, joining, e.id);
    EnrolledWaits(s.store, s1.store, joining, e.id);
    SameWaitingIsOutside(s, s1);
    EnrolledKeys(s.store, s1.store, joining, e.id);
    ParkedWaits(s1.store, active);
    SameWaitingIsOutside(s1, CloseEvent(inp, s1, e, active));
    SameWaitingSelf(s1.store);
    SameWaitingIsOutside(s1, ReportEvent(c, inp, s1, e, active));
  }

  lemma SameWaitingSelf(store: Table)
    ensures SameWaiting(store, store)
  {}

  lemma EnrolledKeys(store: Table, r: Table, ids: seq<TrackId>, id: int)
    requires Enrolled(store, r, ids, id)
    ensures r.Keys == store.Keys
  {}

  /** After every tick of every run, a live track that is confirmed and waits for a zone has not been
      in one: whoever enters a zone joins on that tick. */
  lemma {:induction false} WaitersAreOutside(c: Config, counter: int, states: seq<State>, inputs: seq<Input>, n: nat)
    requires IsRun(c, counter, states, inputs) && n <= |inputs|
    ensures AllOutside(states[n])
  {
    if n > 0 {
      hide Tick, Inv, InputOk, AllOutside, Lifecycle, Settled, TraceOk, NamesOk;
      RunKeeps(c, counter, states, inputs, n - 1);
      assert IsStep(c, states[n - 1], inputs[n - 1], states[n]);
      InvGivesInputOk(states[n - 1], inputs[n - 1]);
      var w := EventFacts.Checked(c, states[n - 1], inputs[n - 1]);
      LifecycleStaysOutside(c, inputs[n - 1], w);
    }
  }

  /** In every run, the track that closes on a tick's step and goes into the finished list carries the
      open event's id if it has been in a zone. (One that never was can get there too, without an id.) */
  lemma ZonedFinishersCarryTheEvent(c: Config, counter: int, states: seq<State>, inputs: seq<Input>, n: nat, k: nat,
                                    t: TrackId)
    requires IsRun(c, counter, states, inputs) && n < |inputs| && k < |states[n].live|
    ensures InputOk(states[n], inputs[n])
    ensures var m := Matches(c, states[n], inputs[n]);
            var s := Begin(c, states[n], inputs[n]).(ids := m.ids);
            var w := FollowAll(c, inputs[n], m, Work(s, []), s.live, k);
            var r := FollowOne(c, inputs[n], m, w, s.live[k]).s;
            InFinished(r, t) && !InFinished(w.s, t) && t in r.store && r.store[t].zoned ==>
              r.store[t].eventId == Some(r.event.value.id)
  {
    hide Tick, Mid, InputOk, AllOutside, TraceOk, NamesOk, FollowAll, FollowOne, Matches;
    RunKeeps(c, counter, states, inputs, n);
    WaitersAreOutside(c, counter, states, inputs, n);
    assert IsStep(c, states[n], inputs[n], states[n + 1]);
    InvGivesInputOk(states[n], inputs[n]);
    MatchesFacts(c, states[n], inputs[n]);
    var m := Matches(c, states[n], inputs[n]);
    BeginKeeps(c, states[n], {}, inputs[n], m.ids);
    BeginWaits(c, states[n], inputs[n], m.ids);
    FinisherInFold(c, inputs[n], m, Begin(c, states[n], inputs[n]).(ids := m.ids), k, t);
  }

  lemma BeginWaits(c: Config, s: State, inp: Input, ids: Norfair.Ids)
    requires AllOutside(s)
    ensures var r := Begin(c, s, inp).(ids := ids);
            AllOutside(r) && r.live == s.live
  {
    SameWaitingIsOutside(s, Begin(c, s, inp).(ids := ids));
  }

  lemma FinisherInFold(c: Config, inp: Input, m: Pipeline.Result, s: State, n: nat, t: TrackId)
    requires Mid(s, {}) && AllOutside(s) && n < |s.live|
    ensures var w := FollowAll(c, inp, m, Work(s, []), s.live, n);
            var r := FollowOne(c, inp, m, w, s.live[n]).s;
            InFinished(r, t) && !InFinished(w.s, t) && t in r.store && r.store[t].zoned ==>
              r.store[t].eventId == Some(r.event.value.id)
  {
    var w, tid := FollowAll(c, inp, m, Work(s, []), s.live, n), s.live[n];
    FollowAllKeeps(c, inp, m, s, n);
    LiveDistinct(s, {}, n);
    TrackLife.FollowAllStore(c, inp, m, Work(s, []), s.live, n);
    FinisherWas(c, inp, m, w, tid, t);
  }

  lemma FinisherWas(c: Config, inp: Input, m: Pipeline.Result, w: Work, tid: TrackId, t: TrackId)
    requires Sane(w) && tid in w.s.live && tid !in w.joining && WaitsOutside(w.s, tid)
    ensures var r := FollowOne(c, inp, m, w, tid).s;
            InFinished(r, t) && !InFinished(w.s, t) && t in r.store && r.store[t].zoned ==>
              r.store[t].eventId == Some(r.event.value.id)
  {
    RoleOfLive(w.s, Joining(w), tid);
    hide Mid, Matched, Missed, WaitsOutside;
    if tid in m.claims.matches && m.claims.matches[tid] < |inp.dets| {
      MatchedFinishesNobody(c, inp, w, tid, inp.dets[m.claims.matches[tid]]);
    } else {
      MissedFinisher(c, inp, w.s, tid, t);
    }
  }

  lemma RoleOfLive(s: State, J: set<TrackId>, tid: TrackId)
    requires Mid(s, J) && tid in s.live && tid !in J && WaitsOutside(s, tid)
    ensures tid in s.store
    ensures var tr := s.store[tid];
            tr.confirmed && tr.parked.None? && tr.zoned ==> s.event.Some? && tr.eventId == Some(s.event.value.id)
  {
    assert Role(s, J, tid);
  }

  lemma MatchedFinishesNobody(c: Config, inp: Input, w: Work, tid: TrackId, d: Detection)
    ensures forall t :: InFinished(Matched(c, inp, w, tid, d).s, t) ==> InFinished(w.s, t)
  {
    hide Take, Noted, Wake, Settle, CountShift, Iou, Shifted;
  }

  lemma MissedFinisher(c: Config, inp: Input, s: State, tid: TrackId, t: TrackId)
    requires tid in s.store
    requires var tr := s.store[tid];
             tr.confirmed && tr.parked.None? && tr.zoned ==> s.event.Some? && tr.eventId == Some(s.event.value.id)
    ensures var r := Missed(c, inp, s, tid);
            InFinished(r, t) && !InFinished(s, t) && t in r.store && r.store[t].zoned ==>
              r.store[t].eventId == Some(r.event.value.id)
  {
    MissedIsOneOf(c, inp, s, tid);
    MissLeaves(c, inp, s.store[tid], tid);
    hide Missed, MissedTrack, LastMiss;
  }
}
