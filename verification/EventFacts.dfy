/** More about whole runs: who a leave names, who an update may name, and how old an event gets. */
module EventFacts {
  import opened Wrappers
  import opened Lists
  import opened Tracks
  import opened Matching
  import opened Engine
  import opened EngineInvariant
  import opened EventTrace

  /** A leave of event id naming tid, among the messages. */
  ghost predicate LeftIn(trace: seq<Message>, id: int, tid: TrackId) {
    exists k :: 0 <= k < |trace| && trace[k].edge.Leave? && trace[k].eventId == id && tid in Tids(trace[k]) && OnceEach(trace[k])
  }

  /** tid takes part in the open event id. */
  ghost predicate InOpenEvent(s: State, id: int, tid: TrackId) {
    s.event.Some? && s.event.value.id == id && tid in s.joined
  }

  lemma LifecycleKeepsJoined(c: Config, inp: Input, w: Work, id: int, tid: TrackId)
    requires Settled(w) && InOpenEvent(w.s, id, tid)
    ensures var r := Lifecycle(c, inp, w); InOpenEvent(r, id, tid) || LeftIn(r.trace, id, tid)
  {
    hide CloseEvent, ReportEvent, ActiveIds, Settled;
    var active := ActiveIds(w.s.live, w.s.store);
    ActiveInStore(w, active);
    var e := w.s.event.value;
    var s := w.s.(store := ForgetHistory(Enrol(w.s.store, w.joining, e.id, |w.joining|), w.joining, |w.joining|));
    if active == [] || Now(c, inp) - e.startedMs >= inp.eventMaxMs {
      ParticipantsLeave(w, e, active);
      CloseEventTrace(inp, s, e, active);
      var r := CloseEvent(inp, s, e, active);
      var m :| r.trace == s.trace + [m] && m.edge == Leave && m.eventId == e.id
        && Tids(m) == (set t | t in e.finished + active) && OnceEach(m);
      assert r.trace[|s.trace|] == m;
    } else {
      ReportEventTrace(c, inp, s, e, active);
    }
  }

  lemma LifecycleTraceGrows(c: Config, inp: Input, w: Work)
    requires Settled(w)
    ensures w.s.trace <= Lifecycle(c, inp, w).trace
  {
    hide OpenEvent, CloseEvent, ReportEvent, ActiveIds, Settled;
    var active := ActiveIds(w.s.live, w.s.store);
    ActiveInStore(w, active);
    if w.s.event.None? {
      if w.joining != [] && active != [] {
        OpenEventTrace(c, inp, w.s, w.joining, active);
      }
    } else {
      var e := w.s.event.value;
      var s := w.s.(store := ForgetHistory(Enrol(w.s.store, w.joining, e.id, |w.joining|), w.joining, |w.joining|));
      if active == [] || Now(c, inp) - e.startedMs >= inp.eventMaxMs {
        ParticipantsLeave(w, e, active);
        CloseEventTrace(inp, s, e, active);
      } else {
        ReportEventTrace(c, inp, s, e, active);
      }
    }
  }

  /** The zone check of a tick from a sane state. */
  lemma Checked(c: Config, s: State, inp: Input) returns (w: Work)
    requires Inv(s) && InputOk(s, inp)
    ensures w == HoldForZones(Gather(c, s, inp, Matches(c, s, inp)))
    ensures Settled(w) && SameRecord(s, w.s) && Tick(c, s, inp) == Lifecycle(c, inp, w)
  {
    hide Mid, Gather, HoldForZones, Lifecycle;
    var m := Matches(c, s, inp);
    MatchesFacts(c, s, inp);
    GatherIsSane(c, s, inp, m);
    HoldForZonesSettles(Gather(c, s, inp, m));
    w := HoldForZones(Gather(c, s, inp, m));
  }

  lemma TickKeepsJoined(c: Config, s: State, inp: Input, id: int, tid: TrackId)
    requires Inv(s) && InputOk(s, inp)
    requires InOpenEvent(s, id, tid) || LeftIn(s.trace, id, tid)
    ensures var r := Tick(c, s, inp); InOpenEvent(r, id, tid) || LeftIn(r.trace, id, tid)
  {
    hide Inv, InputOk, Tick, Lifecycle, HoldForZones, Gather, Settled;
    var w := Checked(c, s, inp);
    LifecycleTraceGrows(c, inp, w);
    var r := Tick(c, s, inp);
    if InOpenEvent(s, id, tid) {
      LifecycleKeepsJoined(c, inp, w, id, tid);
    } else {
      var k :| 0 <= k < |s.trace| && s.trace[k].edge.Leave? && s.trace[k].eventId == id && tid in Tids(s.trace[k])
        && OnceEach(s.trace[k]);
      assert r.trace[k] == s.trace[k];
    }
  }

  lemma {:induction false} JoinedLeave(c: Config, counter: int, states: seq<State>, inputs: seq<Input>, i: nat, n: nat,
                                       id: int, tid: TrackId)
    requires IsRun(c, counter, states, inputs) && i <= n <= |inputs|
    requires InOpenEvent(states[i], id, tid)
    ensures InOpenEvent(states[n], id, tid) || LeftIn(states[n].trace, id, tid)
  {
    hide Tick, Mid, Inv, TraceOk, NamesOk;
    if i < n {
      JoinedLeave(c, counter, states, inputs, i, n - 1, id, tid);
      RunKeeps(c, counter, states, inputs, n - 1);
      assert IsStep(c, states[n - 1], inputs[n - 1], states[n]);
      InvGivesInputOk(states[n - 1], inputs[n - 1]);
      TickKeepsJoined(c, states[n - 1], inputs[n - 1], id, tid);
    }
  }

  /** Conservation: whoever is active after some tick of a run while event id is open is named, once,
      in that event's leave, whatever closes, resumes, parks or wakes it in between; until the leave
      is sent the event stays open. */
  lemma ActiveTracksAreInTheLeave(c: Config, counter: int, states: seq<State>, inputs: seq<Input>, i: nat, n: nat,
                                  tid: TrackId)
    requires IsRun(c, counter, states, inputs) && i <= n <= |inputs|
    requires tid in states[i].live && tid in states[i].store && Active(states[i].store[tid])
    ensures states[i].event.Some?
    ensures var id := states[i].event.value.id;
            || (states[n].event.Some? && states[n].event.value.id == id)
            || LeftIn(states[n].trace, id, tid)
  {
    RunKeeps(c, counter, states, inputs, i);
    assert Role(states[i], {}, tid);
    JoinedLeave(c, counter, states, inputs, i, n, states[i].event.value.id, tid);
  }

  // ----- who is named -----------------------------------------------------------------------------

  /** tid is in view, moving, confirmed and has been in a zone; and unless it confirms with a parent
      it passed the score gate or was there when the camera started. */
  ghost predicate MayBeNamed(s: State, tid: TrackId) {
    && tid in s.live && tid in s.store && Active(s.store[tid])
    && (ConfirmWith(s.store[tid].kind).None? ==> s.store[tid].gate.truePositive || tid in s.early)
  }

  /** Every enter or update from message n on names only such tracks. */
  ghost predicate NamesActive(s: State, n: nat) {
    forall k, t :: n <= k < |s.trace| && !s.trace[k].edge.Leave? && t in Tids(s.trace[k]) ==> t in s.live && t in s.store && Active(s.store[t])
  }

  lemma FilledNames(c: Config, inp: Input, s: State, joining: seq<TrackId>, active: seq<TrackId>)
    requires NoDup(active)
    ensures var filled := Filled(c, inp, s, joining, active);
            forall k, t :: 0 <= k < |filled| && t in Tids(filled[k]) ==> t in active
  {
    hide Backfill, SortedStamps, Enrol, FacesLast;
    var id := s.counter + inp.skipped;
    var store := Enrol(s.store, active, id, |active|);
    var starters := Among(FacesLast(store, active), joining);
    FacesLastMembers(store, active);
    var stamps := SortedStamps(store, starters, inp.at);
    BackfillNames(c, store, starters, id, stamps, |stamps|);
    assert Filled(c, inp, s, joining, active) == Backfill(c, store, starters, id, stamps, |stamps|);
    assert forall t :: t in starters ==> t in active;
  }

  lemma OpenNamesActive(c: Config, inp: Input, w: Work, active: seq<TrackId>)
    requires Settled(w) && active == ActiveIds(w.s.live, w.s.store)
    ensures NamesActive(OpenEvent(c, inp, w.s, w.joining, active), |w.s.trace|)
  {
    hide OpenEvent, Filled, ActiveIds, Settled;
    ActiveInStore(w, active);
    ActiveIsActive(w, active);
    var s, r, filled := w.s, OpenEvent(c, inp, w.s, w.joining, active), Filled(c, inp, w.s, w.joining, active);
    OpenEventFields(c, inp, s, w.joining, active);
    OpenEventTrace(c, inp, s, w.joining, active);
    var first :| r.trace == s.trace + filled + [first] && Tids(first) == (set t | t in active);
    FilledNames(c, inp, s, w.joining, active);
    OpenEventEnrols(c, inp, s, w.joining, active);
    ActiveAgain(s.store, r.store, active, s.counter + inp.skipped);
    forall k, t | |s.trace| <= k < |r.trace| && t in Tids(r.trace[k])
      ensures t in active
    {
      if k < |s.trace| + |filled| { assert r.trace[k] == filled[k - |s.trace|]; }
    }
  }

  lemma ActiveIsActive(w: Work, active: seq<TrackId>)
    requires Settled(w) && active == ActiveIds(w.s.live, w.s.store)
    ensures forall t :: t in active ==> t in w.s.live && t in w.s.store && Active(w.s.store[t])
  {}

  lemma LifecycleNamesActive(c: Config, inp: Input, w: Work)
    requires Settled(w)
    ensures NamesActive(Lifecycle(c, inp, w), |w.s.trace|)
  {
    hide OpenEvent, CloseEvent, ReportEvent, ActiveIds, Settled;
    var active := ActiveIds(w.s.live, w.s.store);
    ActiveInStore(w, active);
    ActiveIsActive(w, active);
    if w.s.event.None? {
      if w.joining != [] && active != [] {
        OpenNamesActive(c, inp, w, active);
      }
    } else {
      var e := w.s.event.value;
      var s := w.s.(store := ForgetHistory(Enrol(w.s.store, w.joining, e.id, |w.joining|), w.joining, |w.joining|));
      JoiningInStore(w);
      EnrolJoining(w.s.store, w.joining, e.id);
      ActiveAgain(w.s.store, s.store, w.joining, e.id);
      if active == [] || Now(c, inp) - e.startedMs >= inp.eventMaxMs {
        ParticipantsLeave(w, e, active);
        CloseEventTrace(inp, s, e, active);
      } else {
        ReportEventTrace(c, inp, s, e, active);
        ReportEventStore(c, inp, s, e, active);
      }
    }
  }

  lemma ReportEventStore(c: Config, inp: Input, s: State, e: Event, active: seq<TrackId>)
    ensures ReportEvent(c, inp, s, e, active).store == s.store
  {}

  /** Parked tracks are silent: an enter or update a tick sends names only tracks that are in view and
      not parked after it, each of which was vouched for by its scores, by its parent, or by having
      been there when the camera started. */
  lemma UpdatesNameOnlyActive(c: Config, s: State, inp: Input, k: nat, tid: TrackId)
    requires Inv(s) && InputOk(s, inp)
    ensures var r := Tick(c, s, inp);
            |s.trace| <= k < |r.trace| && !r.trace[k].edge.Leave? && tid in Tids(r.trace[k]) ==> MayBeNamed(r, tid)
  {
    hide InputOk, Tick, Lifecycle, HoldForZones, Gather, Settled, Mid;
    var w := Checked(c, s, inp);
    LifecycleNamesActive(c, inp, w);
    TickKeepsInv(c, s, inp);
    var r := Tick(c, s, inp);
    if |s.trace| <= k < |r.trace| && !r.trace[k].edge.Leave? && tid in Tids(r.trace[k]) {
      RoleOf(r, tid);
    }
  }

  lemma RoleOf(s: State, tid: TrackId)
    requires Inv(s) && tid in s.store
    ensures Role(s, {}, tid)
  {}

  /** After any tick that did not just open it, an open event is younger than its time limit. */
  lemma OpenEventsAreYoung(c: Config, s: State, inp: Input)
    requires Inv(s) && InputOk(s, inp)
    ensures var r := Tick(c, s, inp);
            s.event.Some? && r.event.Some? ==>
              && r.event.value.id == s.event.value.id
              && Now(c, inp) - r.event.value.startedMs < inp.eventMaxMs
  {
    hide Tick, InputOk, Lifecycle, HoldForZones, Gather, Settled, Inv;
    var w := Checked(c, s, inp);
    StillYoung(c, inp, w);
  }

  lemma StillYoung(c: Config, inp: Input, w: Work)
    ensures var r := Lifecycle(c, inp, w);
            w.s.event.Some? && r.event.Some? ==>
              r.event.value == w.s.event.value && Now(c, inp) - r.event.value.startedMs < inp.eventMaxMs
  {
    hide ActiveIds, OpenEvent;
  }
}
