/** The back-dated messages of a run: whom each shows, and where. */
module Backdating {
  import opened Wrappers
  import opened Lists
  import opened Tracks
  import opened Matching
  import opened Engine
  import opened EngineInvariant
  import opened EventTrace
  import opened EventFacts
  import opened TrackLife
  import opened TrackHistory

  /** x is the latest of the remembered frames at or before a stamp. */
  ghost predicate IsLatest(h: seq<Seen>, at: Stamp, x: Seen) {
    x in h && x.at.mono <= at.mono && forall y :: y in h && y.at.mono <= at.mono ==> y.at.mono <= x.at.mono
  }

  /** A member is shown where it was in the latest of its remembered frames at or before a stamp. */
  ghost predicate ShowsSeen(h: seq<Seen>, at: Stamp, m: Member) {
    exists x :: IsLatest(h, at, x) && m.box == x.coord && m.score == x.score
  }

  lemma {:induction false} LatestSeenIsLatest(h: seq<Seen>, at: Stamp, clock: int)
    requires InOrder(h, clock)
    ensures match LatestSeen(h, at)
            case Some(x) => IsLatest(h, at, x)
            case None => forall y :: y in h ==> y.at.mono > at.mono
  {
    if h != [] {
      var front, last := h[..|h| - 1], h[|h| - 1];
      assert h == front + [last];
      if last.at.mono <= at.mono {
        forall y | y in h
          ensures y.at.mono <= last.at.mono
        {
          var i :| 0 <= i < |h| && h[i] == y;
        }
        assert h[|h| - 1] in h;
      } else {
        LatestSeenIsLatest(front, at, clock);
      }
    }
  }

  /** A back-dated message shows exactly the joining tracks seen by then, each where it was in its
      latest remembered frame at or before the message's time. */
  lemma {:induction false} MembersShowLatest(store: Table, ids: seq<TrackId>, at: Stamp, clock: int)
    requires NoDup(ids) && forall t :: t in ids ==> InOrder(At(store, t).history, clock)
    ensures forall m :: m in MembersAt(store, ids, at) ==>
              m.tid in ids && ShowsSeen(At(store, m.tid).history, at, m)
    ensures forall t, y :: t in ids && y in At(store, t).history && y.at.mono <= at.mono ==>
              exists m :: m in MembersAt(store, ids, at) && m.tid == t
  {
    if ids != [] {
      var front, last := ids[..|ids| - 1], ids[|ids| - 1];
      assert ids == front + [last];
      MembersShowLatest(store, front, at, clock);
      LatestSeenIsLatest(At(store, last).history, at, clock);
      var r, p := MembersAt(store, ids, at), MembersAt(store, front, at);
      forall t, y | t in ids && y in At(store, t).history && y.at.mono <= at.mono
        ensures exists m :: m in r && m.tid == t
      {
        if t == last {
          assert r[|r| - 1].tid == last;
        } else {
          var m :| m in p && m.tid == t;
          assert m in r;
        }
      }
    }
  }

  ghost predicate Distinct(members: seq<Member>) {
    forall i, j :: 0 <= i < j < |members| ==> members[i].tid != members[j].tid
  }

  lemma {:induction false} MembersAtOnce(store: Table, ids: seq<TrackId>, at: Stamp)
    requires NoDup(ids)
    ensures Distinct(MembersAt(store, ids, at))
  {
    if ids != [] {
      var front, last := ids[..|ids| - 1], ids[|ids| - 1];
      assert ids == front + [last] && last !in front;
      MembersAtOnce(store, front, at);
      MembersAtNames(store, front, at);
      var p, r := MembersAt(store, front, at), MembersAt(store, ids, at);
      var seen := LatestSeen(At(store, last).history, at);
      assert r == p + if seen.Some? then [Member(last, seen.value.coord, seen.value.score)] else [];
      forall i | 0 <= i < |p|
        ensures p[i].tid != last
      {
        assert MembersAt(store, front, at)[i].tid in front;
      }
    }
  }

  lemma {:induction false} AmongOnce(ids: seq<TrackId>, joining: seq<TrackId>)
    requires NoDup(ids)
    ensures NoDup(Among(ids, joining))
  {
    if ids != [] {
      var front, last := ids[..|ids| - 1], ids[|ids| - 1];
      assert ids == front + [last] && last !in front;
      AmongOnce(front, joining);
    }
  }

  // ----- one tick ---------------------------------------------------------------------------------

  /** tid starts taking part on this tick, in view and moving. */
  ghost predicate Starts(w: Work, tid: TrackId) {
    tid in w.joining && tid in w.s.live && tid in w.s.store && Active(w.s.store[tid])
  }

  /** A back-dated message shows exactly the starting tracks with a remembered frame at or before its
      time, each once, with the box and score of the latest one. */
  ghost predicate ShowsLatest(w: Work, m: Message) {
    && OnceEach(m)
    && (forall k :: 0 <= k < |m.members| ==>
          && Starts(w, m.members[k].tid)
          && ShowsSeen(w.s.store[m.members[k].tid].history, m.at, m.members[k]))
    && (forall t, y :: Starts(w, t) && y in w.s.store[t].history && y.at.mono <= m.at.mono ==> t in Tids(m))
  }

  /** The tracks whose past is told when an event opens. */
  function Starters(w: Work, id: int): seq<TrackId> {
    var active := ActiveIds(w.s.live, w.s.store);
    Among(FacesLast(Enrol(w.s.store, active, id, |active|), active), w.joining)
  }

  lemma StartersStart(w: Work, id: int)
    requires Settled(w)
    ensures NoDup(Starters(w, id)) && forall t :: t in Starters(w, id) <==> Starts(w, t)
  {
    var active := ActiveIds(w.s.live, w.s.store);
    ActiveInStore(w, active);
    hide Settled, ActiveIds, Enrol, FacesLast, Active;
    var store := Enrol(w.s.store, active, id, |active|);
    FacesLastMembers(store, active);
    AmongOnce(FacesLast(store, active), w.joining);
    ActiveIsStored(w, active);
  }

  lemma ActiveIsStored(w: Work, active: seq<TrackId>)
    requires Settled(w) && active == ActiveIds(w.s.live, w.s.store)
    ensures forall t :: t in active <==> t in w.s.live && t in w.s.store && Active(w.s.store[t])
  {}

  lemma {:induction false} BackfillMembers(c: Config, store: Table, ids: seq<TrackId>, id: int, stamps: seq<Stamp>, n: nat)
    requires n <= |stamps|
    ensures var sent := Backfill(c, store, ids, id, stamps, n);
            forall k :: 0 <= k < |sent| ==> sent[k].members == MembersAt(store, ids, sent[k].at)
  {
    hide MembersAt;
    if n > 0 {
      BackfillMembers(c, store, ids, id, stamps, n - 1);
      BackfillStep(c, store, ids, id, stamps, n);
      hide Backfill;
    }
  }

  /** Taking part leaves the remembered frames alone, so a message of these members shows the latest. */
  lemma MembersAreLatest(w: Work, id: int, m: Message, clock: int)
    requires Settled(w) && AllGood(clock, w.s.store)
    requires var active := ActiveIds(w.s.live, w.s.store);
             m.members == MembersAt(Enrol(w.s.store, active, id, |active|), Starters(w, id), m.at)
    ensures ShowsLatest(w, m)
  {
    hide *;
    var active, ids := ActiveIds(w.s.live, w.s.store), Starters(w, id);
    ActiveInStore(w, active);
    StartersStart(w, id);
    var store := Enrol(w.s.store, active, id, |active|);
    EnrolAll(w.s.store, active, id);
    HistoryOfEnrolled(w.s.store, store, active, id, clock);
    StartsStored(w, ids);
    MembersAtOnce(store, ids, m.at);
    MembersShowLatest(store, ids, m.at, clock);
    ShowsByMembers(w, store, ids, m);
  }

  lemma StartsStored(w: Work, ids: seq<TrackId>)
    requires forall t :: t in ids <==> Starts(w, t)
    ensures forall t :: t in ids ==> t in w.s.store
  {}

  lemma HistoryOfEnrolled(store: Table, r: Table, ids: seq<TrackId>, id: int, clock: int)
    requires AllGood(clock, store) && r.Keys == store.Keys
    requires forall t :: t in store ==> r[t] == if t in ids then TakePart(store[t], id) else store[t]
    ensures forall t :: t in store ==> At(r, t).history == store[t].history && InOrder(At(r, t).history, clock)
  {
    forall t | t in store
      ensures At(r, t).history == store[t].history && InOrder(At(r, t).history, clock)
    {
      assert TrackGood(clock, store, store[t]);
    }
  }

  lemma ShowsByMembers(w: Work, store: Table, ids: seq<TrackId>, m: Message)
    requires m.members == MembersAt(store, ids, m.at) && forall t :: t in ids <==> Starts(w, t)
    requires forall t :: t in ids ==> t in w.s.store && At(store, t).history == w.s.store[t].history
    requires Distinct(m.members)
    requires forall x :: x in MembersAt(store, ids, m.at) ==>
               x.tid in ids && ShowsSeen(At(store, x.tid).history, m.at, x)
    requires forall t, y :: t in ids && y in At(store, t).history && y.at.mono <= m.at.mono ==>
               exists x :: x in MembersAt(store, ids, m.at) && x.tid == t
    ensures ShowsLatest(w, m)
  {
    hide ShowsSeen, MembersAt, Starts, At, Tids;
    StartsIsStored(w);
    forall k | 0 <= k < |m.members|
      ensures Starts(w, m.members[k].tid)
      ensures ShowsSeen(w.s.store[m.members[k].tid].history, m.at, m.members[k])
    {
      assert m.members[k] in MembersAt(store, ids, m.at);
    }
    forall t, y | Starts(w, t) && t in w.s.store && y in w.s.store[t].history && y.at.mono <= m.at.mono
      ensures t in Tids(m)
    {
      assert t in ids && y in At(store, t).history;
      var x :| x in MembersAt(store, ids, m.at) && x.tid == t;
      var k :| 0 <= k < |m.members| && m.members[k] == x;
      NamedByMember(m, k);
    }
    DistinctIsOnce(m);
    assert forall t, y :: Starts(w, t) && y in w.s.store[t].history && y.at.mono <= m.at.mono ==> t in Tids(m);
  }

  lemma NamedByMember(m: Message, k: nat)
    requires k < |m.members|
    ensures m.members[k].tid in Tids(m)
  {}

  lemma DistinctIsOnce(m: Message)
    requires Distinct(m.members)
    ensures OnceEach(m)
  {}

  lemma StartsIsStored(w: Work)
    ensures forall t :: Starts(w, t) ==> t in w.s.store
  {}

  /** Opening an event sends messages of this kind, then one about the frame itself. */
  lemma OpenBackdates(c: Config, inp: Input, w: Work, active: seq<TrackId>, k: nat)
    requires Settled(w) && active == ActiveIds(w.s.live, w.s.store)
    ensures var r, id := OpenEvent(c, inp, w.s, w.joining, active), w.s.counter + inp.skipped;
            |w.s.trace| <= k < |r.trace| && r.trace[k].backdated ==>
              r.trace[k].members == MembersAt(Enrol(w.s.store, active, id, |active|), Starters(w, id), r.trace[k].at)
  {
    hide *;
    ActiveInStore(w, active);
    var s, r, id, filled := w.s, OpenEvent(c, inp, w.s, w.joining, active), w.s.counter + inp.skipped,
      Filled(c, inp, w.s, w.joining, active);
    OpenEventTrace(c, inp, s, w.joining, active);
    var first :| r.trace == s.trace + filled + [first] && !first.backdated;
    FilledMembers(c, inp, w, active);
    if |s.trace| <= k < |s.trace| + |filled| { assert r.trace[k] == filled[k - |s.trace|]; }
  }

  lemma FilledMembers(c: Config, inp: Input, w: Work, active: seq<TrackId>)
    requires active == ActiveIds(w.s.live, w.s.store)
    ensures var id, filled := w.s.counter + inp.skipped, Filled(c, inp, w.s, w.joining, active);
            var store := Enrol(w.s.store, active, id, |active|);
            forall k :: 0 <= k < |filled| ==> filled[k].members == MembersAt(store, Starters(w, id), filled[k].at)
  {
    hide Backfill, MembersAt, SortedStamps, Enrol, FacesLast, Among, ActiveIds;
    var id := w.s.counter + inp.skipped;
    var store := Enrol(w.s.store, active, id, |active|);
    var stamps := SortedStamps(store, Starters(w, id), inp.at);
    BackfillMembers(c, store, Starters(w, id), id, stamps, |stamps|);
    assert Filled(c, inp, w.s, w.joining, active) == Backfill(c, store, Starters(w, id), id, stamps, |stamps|);
  }

  /** The other messages are about the frame they are sent on. */
  lemma LifecycleBackdates(c: Config, inp: Input, w: Work, k: nat, clock: int)
    requires Settled(w) && AllGood(clock, w.s.store)
    ensures var r := Lifecycle(c, inp, w);
            |w.s.trace| <= k < |r.trace| && r.trace[k].backdated ==> ShowsLatest(w, r.trace[k])
  {
    hide OpenEvent, CloseEvent, ReportEvent, ActiveIds, Settled, AllGood, ShowsLatest, Starters, MembersAt;
    var active := ActiveIds(w.s.live, w.s.store);
    ActiveInStore(w, active);
    var r := Lifecycle(c, inp, w);
    if w.s.event.None? {
      if w.joining != [] && active != [] {
        OpenBackdates(c, inp, w, active, k);
        if |w.s.trace| <= k < |r.trace| && r.trace[k].backdated {
          MembersAreLatest(w, w.s.counter + inp.skipped, r.trace[k], clock);
        }
      }
    } else {
      var e := w.s.event.value;
      var s := w.s.(store := ForgetHistory(Enrol(w.s.store, w.joining, e.id, |w.joining|), w.joining, |w.joining|));
      if active == [] || Now(c, inp) - e.startedMs >= inp.eventMaxMs {
        ParticipantsLeave(w, e, active);
        CloseEventTrace(inp, s, e, active);
      } else {
        ReportEventTrace(c, inp, s, e, active);
      }
    }
  }

  // ----- over a run -------------------------------------------------------------------------------

  /** x is a frame of one of the first n ticks, with the box and score track tid had after it. */
  ghost predicate WasThere(states: seq<State>, inputs: seq<Input>, tid: TrackId, x: Seen, n: nat)
    requires |states| == |inputs| + 1 && n <= |inputs|
  {
    exists i :: 0 <= i < n && IsFrame(states, inputs, tid, x, i)
  }

  ghost predicate IsFrame(states: seq<State>, inputs: seq<Input>, tid: TrackId, x: Seen, i: nat)
    requires |states| == |inputs| + 1 && i < |inputs|
  {
    tid in states[i + 1].store && x == Seen(inputs[i].at, states[i + 1].store[tid].coord, states[i + 1].store[tid].score)
  }

  /** What a tick adds to a track's remembered frames, until its zone check and until its end: at most
      this frame, with the track's box and score. */
  lemma TickRemembers(c: Config, s: State, inp: Input, tid: TrackId, x: Seen)
    requires Inv(s) && InputOk(s, inp)
    ensures var w, r := HoldForZones(Gather(c, s, inp, Matches(c, s, inp))).s, Tick(c, s, inp);
            && (tid in w.store && x in w.store[tid].history ==>
                  && tid in r.store
                  && ((tid in s.store && x in s.store[tid].history)
                      || x == Seen(inp.at, r.store[tid].coord, r.store[tid].score)))
            && (tid in r.store && x in r.store[tid].history ==>
                  || (tid in s.store && x in s.store[tid].history)
                  || x == Seen(inp.at, r.store[tid].coord, r.store[tid].score))
  {
    hide Inv, InputOk, Tick, Matches, HoldForZones, Gather, Lifecycle, Settled;
    CheckedTrack(c, s, inp, tid);
    TickTrack(c, s, inp, tid);
    var w := Checked(c, s, inp);
    LifecycleSteady(c, inp, w);
    if tid in w.s.store && x in w.s.store[tid].history { WasRemembered(c, s, inp, tid, w.s.store[tid], x); }
    var r := Tick(c, s, inp);
    if tid in r.store && x in r.store[tid].history { WasRemembered(c, s, inp, tid, r.store[tid], x); }
  }

  lemma WasRemembered(c: Config, s: State, inp: Input, tid: TrackId, r: Track, x: Seen)
    requires InputOk(s, inp) && x in r.history
    requires if tid in s.store then TickedTrack(c, inp, Matches(c, s, inp), tid in s.live, tid, s.store[tid], r)
             else NewbornTicked(c, inp, r)
    ensures (tid in s.store && x in s.store[tid].history) || x == Seen(inp.at, r.coord, r.score)
  {
    hide InputOk, Matches, MatchedTrack, MissedTrack, LastMiss;
    if tid in s.store {
      var m, tr := Matches(c, s, inp), s.store[tid];
      var given := Given(inp, m, tid);
      MissedScores(c, inp, tid, tr);
      if given.Some? { MatchedScores(c, inp, tid, tr, given.value); }
    }
  }

  /** Every remembered frame of a run is one the track was there on. */
  lemma {:induction false} RememberedWereThere(c: Config, counter: int, states: seq<State>, inputs: seq<Input>, n: nat,
                                               tid: TrackId, x: Seen)
    requires IsRun(c, counter, states, inputs) && n <= |inputs|
    requires tid in states[n].store && x in states[n].store[tid].history
    ensures WasThere(states, inputs, tid, x, n)
    decreases n, 0
  {
    hide *;
    if n == 0 {
      RunBounds(c, counter, states, inputs);
      NobodyYet(counter, tid);
    } else {
      RunStep(c, counter, states, inputs, n - 1);
      TickRemembers(c, states[n - 1], inputs[n - 1], tid, x);
      ThereNow(c, counter, states, inputs, n - 1, tid, x);
    }
  }

  lemma NobodyYet(counter: int, tid: TrackId)
    ensures tid !in Initial(counter).store
  {}

  /** A frame remembered before a tick, or on it. */
  lemma ThereNow(c: Config, counter: int, states: seq<State>, inputs: seq<Input>, n: nat, tid: TrackId, x: Seen)
    requires IsRun(c, counter, states, inputs) && n < |inputs| && tid in states[n + 1].store
    requires || (tid in states[n].store && x in states[n].store[tid].history)
             || x == Seen(inputs[n].at, states[n + 1].store[tid].coord, states[n + 1].store[tid].score)
    ensures WasThere(states, inputs, tid, x, n + 1)
    decreases n, 1
  {
    hide IsStep;
    if tid in states[n].store && x in states[n].store[tid].history {
      RememberedWereThere(c, counter, states, inputs, n, tid, x);
      var i :| 0 <= i < n && IsFrame(states, inputs, tid, x, i);
    } else {
      assert IsFrame(states, inputs, tid, x, n);
    }
  }

  lemma SameTraceStill(s: State, r: State)
    requires SameRecord(s, r)
    ensures r.trace == s.trace
  {}

  lemma StampsRise(c: Config, counter: int, states: seq<State>, inputs: seq<Input>, n: nat)
    requires IsRun(c, counter, states, inputs) && n < |inputs|
    ensures ClockAfter(inputs, n) <= inputs[n].at.mono
  {
    hide IsStep, Initial;
  }

  /** Every back-dated message of every run shows exactly the tracks that start taking part on its tick and
      have a remembered frame at or before its time: each once, with the box and score of the latest such
      frame, which the track had on that frame. */
  lemma BackdatedMessagesShowThePast(c: Config, counter: int, states: seq<State>, inputs: seq<Input>, n: nat, k: nat)
    requires IsRun(c, counter, states, inputs) && n < |inputs|
    ensures InputOk(states[n], inputs[n])
    ensures var w := HoldForZones(Gather(c, states[n], inputs[n], Matches(c, states[n], inputs[n])));
            && (|states[n].trace| <= k < |states[n + 1].trace| && states[n + 1].trace[k].backdated ==>
                  ShowsLatest(w, states[n + 1].trace[k]))
            && (forall t, x :: t in w.s.store && x in w.s.store[t].history ==> WasThere(states, inputs, t, x, n + 1))
  {
    hide *;
    RunStep(c, counter, states, inputs, n);
    StampsRise(c, counter, states, inputs, n);
    var w := Checked(c, states[n], inputs[n]);
    SameTraceStill(states[n], w.s);
    RunGood(c, counter, states, inputs, n);
    GatherGood(c, states[n], inputs[n], ClockAfter(inputs, n));
    LifecycleBackdates(c, inputs[n], w, k, inputs[n].at.mono);
    forall t, x | t in w.s.store && x in w.s.store[t].history
      ensures WasThere(states, inputs, t, x, n + 1)
    {
      TickRemembers(c, states[n], inputs[n], t, x);
      ThereNow(c, counter, states, inputs, n, t, x);
    }
  }
}
