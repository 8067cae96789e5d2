/** What the messages about a frame show: who exactly is in an update and in an opening message, and with
    what box. */
module Updates {
  import opened Wrappers
  import opened Geometry
  import opened Lists
  import opened Tracks
  import opened Matching
  import opened Engine
  import opened EngineInvariant
  import opened EventTrace
  import opened EventFacts

  /** m names exactly the tracks with a property, each once, with the box and score it has in the table. */
  ghost predicate Shows(store: Table, m: Message, who: iset<TrackId>) {
    && OnceEach(m) && (forall t: TrackId :: t in Tids(m) <==> t in who) && ShowsNow(store, m)
  }

  ghost predicate ShowsNow(store: Table, m: Message) {
    forall k :: 0 <= k < |m.members| ==>
      var t := m.members[k].tid; t in store && m.members[k] == Member(t, ReportBox(store[t]), store[t].score)
  }

  /** The tracks that take part. */
  ghost function ActiveIn(s: State): iset<TrackId> {
    iset t: TrackId | t in s.live && t in s.store && Active(s.store[t])
  }

  /** Those seen since the last report. */
  ghost function SeenIn(s: State, last: Option<int>): iset<TrackId> {
    iset t: TrackId | t in ActiveIn(s) && (last.None? || s.store[t].seenMs > last.value)
  }

  lemma MessageShows(store: Table, m: Message, ids: seq<TrackId>)
    requires m.members == LiveMembers(store, ids) && NoDup(ids) && forall t :: t in ids ==> t in store
    ensures Shows(store, m, iset t: TrackId | t in ids)
  {
    hide ReportBox;
    TidsOf(m, ids);
    forall k | 0 <= k < |m.members|
      ensures m.members[k].tid in store
    {
      assert ids[k] in ids;
    }
  }

  lemma FacesLastOf(store: Table, ids: seq<TrackId>)
    requires NoDup(ids)
    ensures NoDup(FacesLast(store, ids)) && forall t :: t in FacesLast(store, ids) <==> t in ids
  {
    SortStableKeeps(ids, FaceKey(store));
    NoDupByMultiset(ids, FacesLast(store, ids));
  }

  lemma {:induction false} SeenOnce(store: Table, ids: seq<TrackId>, last: Option<int>)
    requires NoDup(ids)
    ensures NoDup(SeenSince(store, ids, last))
  {
    if ids != [] {
      var front := ids[..|ids| - 1];
      SeenOnce(store, front, last);
      var seen := SeenSince(store, front, last);
      assert ids[|ids| - 1] !in front;
      assert forall k :: 0 <= k < |seen| ==> seen[k] in seen && seen[k] != ids[|ids| - 1];
    }
  }

  /** What a report does, on its own. */
  lemma ReportShows(c: Config, inp: Input, s: State, e: Event, active: seq<TrackId>)
    requires NoDup(active) && forall t :: t in active ==> t in s.store
    ensures var r, seen := ReportEvent(c, inp, s, e, active), SeenSince(s.store, active, s.lastReportMs);
            if ReportDue(c, s, Now(c, inp)) && seen != [] then
              exists m ::
                && r.trace == s.trace + [m] && m.edge == Moving && m.eventId == e.id && m.at == inp.at && !m.backdated
                && Shows(s.store, m, iset t: TrackId | t in seen) && r.lastReportMs == Some(Now(c, inp))
            else r.trace == s.trace && r.lastReportMs == s.lastReportMs
  {
    var seen := SeenSince(s.store, active, s.lastReportMs);
    if ReportDue(c, s, Now(c, inp)) && seen != [] {
      SeenOnce(s.store, active, s.lastReportMs);
      FacesLastOf(s.store, seen);
      var m := Message(Moving, e.id, inp.at, false, LiveMembers(s.store, FacesLast(s.store, seen)));
      MessageShows(s.store, m, FacesLast(s.store, seen));
      assert (iset t: TrackId | t in FacesLast(s.store, seen)) == iset t: TrackId | t in seen;
      assert ReportEvent(c, inp, s, e, active).trace == s.trace + [m];
      hide Shows, LiveMembers, SeenSince;
    }
  }

  /** The update a tick sends about an event that goes on: none unless it is due and somebody active was seen
      since the last one; else one, of exactly those. */
  ghost predicate UpdatesExactly(c: Config, s: State, inp: Input, r: State) {
    if ReportDue(c, s, Now(c, inp)) && (exists t: TrackId :: t in SeenIn(r, s.lastReportMs)) then
      && |r.trace| == |s.trace| + 1 && s.trace <= r.trace && r.lastReportMs == Some(Now(c, inp))
      && var m := r.trace[|s.trace|];
         && m.edge == Moving && s.event.Some? && m.eventId == s.event.value.id && m.at == inp.at && !m.backdated
         && Shows(r.store, m, SeenIn(r, s.lastReportMs))
    else r.trace == s.trace && r.lastReportMs == s.lastReportMs
  }

  lemma ActiveAfterwards(w: Work, r: State, active: seq<TrackId>)
    requires Settled(w) && active == ActiveIds(w.s.live, w.s.store) && r.live == w.s.live
    requires r.store.Keys == w.s.store.Keys && forall t :: t in w.s.store ==> (Active(r.store[t]) <==> Active(w.s.store[t]))
    ensures ActiveIn(r) == iset t: TrackId | t in active
  {
    hide Active;
    ActiveInStore(w, active);
  }

  lemma SeenAfterwards(r: State, active: seq<TrackId>, last: Option<int>)
    requires ActiveIn(r) == (iset t: TrackId | t in active) && forall t :: t in active ==> t in r.store
    ensures forall t: TrackId :: t in SeenSince(r.store, active, last) <==> t in SeenIn(r, last)
    ensures SeenSince(r.store, active, last) != [] <==> exists t: TrackId :: t in SeenIn(r, last)
  {
    hide Active, ActiveIn, SeenSince;
    var seen := SeenSince(r.store, active, last);
    forall t: TrackId
      ensures t in seen <==> t in SeenIn(r, last)
    {
      assert t in ActiveIn(r) <==> t in active;
    }
    if seen != [] { assert seen[0] in SeenIn(r, last); }
  }

  lemma ReportedExactly(c: Config, inp: Input, w: Work, active: seq<TrackId>)
    requires Settled(w) && w.s.event.Some? && active == ActiveIds(w.s.live, w.s.store)
    ensures var s := w.s.(store := ForgetHistory(Enrol(w.s.store, w.joining, w.s.event.value.id, |w.joining|), w.joining, |w.joining|));
            UpdatesExactly(c, w.s, inp, ReportEvent(c, inp, s, w.s.event.value, active))
  {
    hide ReportEvent, Settled, ActiveIds, SeenSince, SeenIn, ActiveIn, Shows, ReportDue;
    var e := w.s.event.value;
    var s := w.s.(store := ForgetHistory(Enrol(w.s.store, w.joining, e.id, |w.joining|), w.joining, |w.joining|));
    var r := ReportEvent(c, inp, s, e, active);
    ActiveInStore(w, active);
    JoiningInStore(w);
    EnrolJoining(w.s.store, w.joining, e.id);
    EnrolledKeysOf(w.s.store, s.store, w.joining, e.id);
    ActiveAgain(w.s.store, s.store, w.joining, e.id);
    ReportEventStore(c, inp, s, e, active);
    ReportEventTrace(c, inp, s, e, active);
    ReportShows(c, inp, s, e, active);
    ActiveAfterwards(w, r, active);
    SeenAfterwards(r, active, s.lastReportMs);
    assert (iset t: TrackId | t in SeenSince(r.store, active, s.lastReportMs)) == SeenIn(r, s.lastReportMs);
    SameDue(c, s, w.s, Now(c, inp));
  }

  lemma SameDue(c: Config, s: State, r: State, now: int)
    requires s.lastReportMs == r.lastReportMs
    ensures ReportDue(c, s, now) == ReportDue(c, r, now)
  {}

  lemma EnrolledKeysOf(store: Table, r: Table, ids: seq<TrackId>, id: int)
    requires Enrolled(store, r, ids, id)
    ensures r.Keys == store.Keys
  {}

  /** The message that opens an event shows the frame exactly: everyone active, each once, where it is. */
  ghost predicate OpensExactly(s: State, inp: Input, r: State) {
    && |r.trace| > |s.trace| && s.trace <= r.trace && r.event.Some?
    && var m := r.trace[|r.trace| - 1];
       && !m.edge.Leave? && m.eventId == r.event.value.id && m.at == inp.at && !m.backdated
       && Shows(r.store, m, ActiveIn(r))
  }

  lemma OpeningShows(c: Config, inp: Input, w: Work, active: seq<TrackId>)
    requires Settled(w) && active == ActiveIds(w.s.live, w.s.store)
    ensures OpensExactly(w.s, inp, OpenEvent(c, inp, w.s, w.joining, active))
  {
    hide Settled, ActiveIds, Shows, Enrolled, ActiveIn, Enrol, ForgetHistory, Backfill, SortedStamps, Among, FacesLast, LiveMembers;
    var s, r, id := w.s, OpenEvent(c, inp, w.s, w.joining, active), w.s.counter + inp.skipped;
    ActiveInStore(w, active);
    OpenEventEnrols(c, inp, s, w.joining, active);
    EnrolledKeysOf(s.store, r.store, active, id);
    ActiveAgain(s.store, r.store, active, id);
    ActiveAfterwards(w, r, active);
    FacesLastOf(r.store, active);
    var m := r.trace[|r.trace| - 1];
    assert m.members == LiveMembers(r.store, FacesLast(r.store, active));
    MessageShows(r.store, m, FacesLast(r.store, active));
    assert (iset t: TrackId | t in FacesLast(r.store, active)) == iset t: TrackId | t in active;
  }

  lemma LifecycleShows(c: Config, inp: Input, w: Work)
    requires Settled(w)
    ensures var r := Lifecycle(c, inp, w);
            && (w.s.event.Some? && r.event.Some? ==> UpdatesExactly(c, w.s, inp, r))
            && (w.s.event.None? && r.event.Some? ==> OpensExactly(w.s, inp, r))
  {
    hide Settled, OpenEvent, ReportEvent, ActiveIds, UpdatesExactly, OpensExactly;
    var active := ActiveIds(w.s.live, w.s.store);
    if w.s.event.Some? { ReportedExactly(c, inp, w, active); } else { OpeningShows(c, inp, w, active); }
  }

  lemma SameForUpdates(c: Config, s: State, r: State, inp: Input, t: State)
    requires SameRecord(s, r)
    ensures s.event.Some? == r.event.Some?
    ensures UpdatesExactly(c, r, inp, t) ==> UpdatesExactly(c, s, inp, t)
    ensures OpensExactly(r, inp, t) ==> OpensExactly(s, inp, t)
  {
    hide Shows, SeenIn, ActiveIn;
  }

  /** Over every run, exactly: while an event goes on a tick sends an update if and only if one is due and
      somebody active was seen since the last one, and it shows just those, each once, where they are; and
      the tick that opens an event ends with a message that shows everyone active, each once, where they are. */
  lemma UpdatesAreExact(c: Config, counter: int, states: seq<State>, inputs: seq<Input>, n: nat)
    requires IsRun(c, counter, states, inputs) && n < |inputs|
    ensures |states| == |inputs| + 1
    ensures var s, inp, r := states[n], inputs[n], states[n + 1];
            && (s.event.Some? && r.event.Some? ==> UpdatesExactly(c, s, inp, r))
            && (s.event.None? && r.event.Some? ==> OpensExactly(s, inp, r))
  {
    hide *;
    RunStep(c, counter, states, inputs, n);
    var s, inp := states[n], inputs[n];
    var w := Checked(c, s, inp);
    LifecycleShows(c, inp, w);
    SameForUpdates(c, s, w.s, inp, states[n + 1]);
  }
}
