/** What the console hears: the messages of a whole run. */
module EventTrace {
  import opened Wrappers
  import opened Lists
  import opened Tracks
  import opened Matching
  import opened Engine
  import opened EngineInvariant

  // ----- an independent listener ------------------------------------------------------------------

  /** A listener that accepts exactly (enter moving* leave)*, one event at a time, with growing event
      ids. Within an event time never goes back; back-dated messages come first, are a report interval
      apart and lie strictly before the frame the event opened on; later updates are a report interval
      of wall time apart. */
  datatype Phase = Silent(lastId: Option<int>) | During(id: int, at: Stamp, backdated: bool) | Garbled

  predicate Follows(reportMs: int, at: Stamp, backdated: bool, m: Message) {
    if m.backdated then
      backdated && m.at.mono - at.mono >= reportMs && m.at.mono >= at.mono
    else if backdated then
      at.mono < m.at.mono
    else
      at.mono <= m.at.mono && m.at.wall - at.wall >= reportMs
  }

  function Hear(reportMs: int, p: Phase, m: Message): Phase {
    match p
    case Silent(lastId) =>
      if m.edge.Enter? && (lastId.None? || lastId.value < m.eventId) then During(m.eventId, m.at, m.backdated)
      else Garbled
    case During(id, at, backdated) =>
      if m.eventId != id || m.edge.Enter? then Garbled
      else if m.edge.Moving? then
        if Follows(reportMs, at, backdated, m) then During(id, m.at, m.backdated) else Garbled
      else if !backdated && !m.backdated && at.mono <= m.at.mono then Silent(Some(id))
      else Garbled
    case Garbled => Garbled
  }

  function Heard(reportMs: int, trace: seq<Message>): Phase {
    if trace == [] then Silent(None)
    else Hear(reportMs, Heard(reportMs, trace[..|trace| - 1]), trace[|trace| - 1])
  }

  function HearAll(reportMs: int, p: Phase, more: seq<Message>): Phase {
    if more == [] then p
    else Hear(reportMs, HearAll(reportMs, p, more[..|more| - 1]), more[|more| - 1])
  }

  lemma {:induction false} HeardAppend(reportMs: int, trace: seq<Message>, more: seq<Message>)
    ensures Heard(reportMs, trace + more) == HearAll(reportMs, Heard(reportMs, trace), more)
  {
    if more == [] {
      assert trace + more == trace;
    } else {
      HeardAppend(reportMs, trace, more[..|more| - 1]);
      assert (trace + more)[..|trace + more| - 1] == trace + more[..|more| - 1];
    }
  }

  // ----- back-dated messages ----------------------------------------------------------------------

  /** stamps strictly before cur, in order. */
  ghost predicate Before(stamps: seq<Stamp>, cur: Stamp) {
    && (forall i, j :: 0 <= i < j < |stamps| ==> stamps[i].mono <= stamps[j].mono)
    && forall k :: 0 <= k < |stamps| ==> stamps[k].mono < cur.mono
  }

  lemma {:induction false} StampsBefore(store: Table, ids: seq<TrackId>, cur: Stamp)
    ensures forall x :: x in Stamps(store, ids, cur) ==> x.mono < cur.mono
  {
    if ids != [] { StampsBefore(store, ids[..|ids| - 1], cur); }
  }

  lemma SortedStampsBefore(store: Table, ids: seq<TrackId>, cur: Stamp)
    ensures Before(SortedStamps(store, ids, cur), cur)
  {
    var s, r := Stamps(store, ids, cur), SortedStamps(store, ids, cur);
    StampsBefore(store, ids, cur);
    SortStableKeeps(s, Mono());
    SortStableAscends(s, Mono());
    forall k | 0 <= k < |r|
      ensures r[k].mono < cur.mono
    {
      assert r[k] in multiset(r);
      assert r[k] in s;
    }
    forall i, j | 0 <= i < j < |r|
      ensures r[i].mono <= r[j].mono
    {
      assert Mono()(r[i]) <= Mono()(r[j]);
    }
  }

  /** The message for a stamp, if it is sent. */
  lemma BackfillStep(c: Config, store: Table, ids: seq<TrackId>, id: int, stamps: seq<Stamp>, n: nat)
    requires 0 < n <= |stamps|
    ensures var sent, r := Backfill(c, store, ids, id, stamps, n - 1), Backfill(c, store, ids, id, stamps, n);
            var m := Message(if sent == [] then Enter else Moving, id, stamps[n - 1], true, MembersAt(store, ids, stamps[n - 1]));
            || r == sent
            || (r == sent + [m] && (sent != [] ==> m.at.mono - sent[|sent| - 1].at.mono >= c.reportMs))
  {}

  /** The back-dated messages of an opening event: an enter, then updates at least a report interval
      apart, all of stamps before the opening frame. */
  lemma {:induction false} BackfillHeard(c: Config, store: Table, ids: seq<TrackId>, id: int, stamps: seq<Stamp>,
                                         n: nat, cur: Stamp, lastId: Option<int>)
    requires n <= |stamps| && Before(stamps, cur) && (lastId.None? || lastId.value < id)
    ensures var sent := Backfill(c, store, ids, id, stamps, n);
            && HearAll(c.reportMs, Silent(lastId), sent)
               == (if sent == [] then Silent(lastId) else During(id, sent[|sent| - 1].at, true))
            && (sent != [] ==> NotAfter(sent[|sent| - 1].at.mono, stamps, n, cur))
  {
    if n > 0 {
      BackfillHeard(c, store, ids, id, stamps, n - 1, cur, lastId);
      BackfillStep(c, store, ids, id, stamps, n);
      hide *;
      NotAfterNext(stamps, n, cur);
      var sent, r := Backfill(c, store, ids, id, stamps, n - 1), Backfill(c, store, ids, id, stamps, n);
      if sent != [] { NotAfterMore(sent[|sent| - 1].at.mono, stamps, n, cur); }
      if r != sent { HearBackdated(c, id, stamps[n - 1], lastId, sent, r[|r| - 1]); }
    }
  }

  /** One more back-dated message, after those sent so far. */
  lemma HearBackdated(c: Config, id: int, at: Stamp, lastId: Option<int>, sent: seq<Message>, m: Message)
    requires lastId.None? || lastId.value < id
    requires HearAll(c.reportMs, Silent(lastId), sent)
             == if sent == [] then Silent(lastId) else During(id, sent[|sent| - 1].at, true)
    requires m.edge == (if sent == [] then Enter else Moving) && m.eventId == id && m.at == at && m.backdated
    requires sent != [] ==> at.mono - sent[|sent| - 1].at.mono >= c.reportMs && sent[|sent| - 1].at.mono <= at.mono
    ensures HearAll(c.reportMs, Silent(lastId), sent + [m]) == During(id, at, true)
  {
    assert (sent + [m])[..|sent + [m]| - 1] == sent;
  }

  /** at is before cur and not after any of the stamps from the n-th on. */
  ghost predicate NotAfter(at: int, stamps: seq<Stamp>, n: nat, cur: Stamp) {
    at < cur.mono && forall k :: n <= k < |stamps| ==> at <= stamps[k].mono
  }

  lemma NotAfterMore(at: int, stamps: seq<Stamp>, n: nat, cur: Stamp)
    requires 0 < n <= |stamps| && NotAfter(at, stamps, n - 1, cur)
    ensures NotAfter(at, stamps, n, cur) && at <= stamps[n - 1].mono
  {}

  lemma NotAfterNext(stamps: seq<Stamp>, n: nat, cur: Stamp)
    requires 0 < n <= |stamps| && Before(stamps, cur)
    ensures NotAfter(stamps[n - 1].mono, stamps, n, cur)
  {}

  // ----- what is said over a run ------------------------------------------------------------------

  /** The messages so far are well formed, and the listener knows the open event. */
  ghost predicate TraceOk(c: Config, s: State, clock: int) {
    match Heard(c.reportMs, s.trace)
    case Silent(lastId) => s.event.None? && (lastId.None? || lastId.value < s.counter)
    case During(id, at, backdated) =>
      && s.event.Some? && s.event.value.id == id
      && !backdated && at.mono <= clock && s.lastReportMs == Some(at.wall - c.delayMs)
    case Garbled => false
  }

  function Tids(m: Message): set<TrackId> {
    set k | 0 <= k < |m.members| :: m.members[k].tid
  }

  /** A leave names everyone any message of its event named, each once. */
  ghost predicate Conserved(trace: seq<Message>) {
    && (forall j, k :: 0 <= j < k < |trace| && trace[k].edge.Leave? && trace[j].eventId == trace[k].eventId ==>
          Tids(trace[j]) <= Tids(trace[k]))
    && (forall k :: 0 <= k < |trace| && trace[k].edge.Leave? ==> OnceEach(trace[k]))
  }

  ghost predicate OnceEach(m: Message) {
    forall i, j :: 0 <= i < j < |m.members| ==> m.members[i].tid != m.members[j].tid
  }

  /** Everyone named in the open event has taken part in it, and event ids are not used again. */
  ghost predicate NamesOk(s: State) {
    && Conserved(s.trace)
    && (forall j :: 0 <= j < |s.trace| ==> s.trace[j].eventId < s.counter)
    && (s.event.Some? ==> s.event.value.id < s.counter)
    && (s.event.Some? ==> forall j :: 0 <= j < |s.trace| && s.trace[j].eventId == s.event.value.id ==>
          Tids(s.trace[j]) <= s.joined)
  }

  // ----- opening ----------------------------------------------------------------------------------

  function Filled(c: Config, inp: Input, s: State, joining: seq<TrackId>, active: seq<TrackId>): seq<Message> {
    var id := s.counter + inp.skipped;
    var store := Enrol(s.store, active, id, |active|);
    var starters := Among(FacesLast(store, active), joining);
    var stamps := SortedStamps(store, starters, inp.at);
    Backfill(c, store, starters, id, stamps, |stamps|)
  }

  lemma OpenEventTrace(c: Config, inp: Input, s: State, joining: seq<TrackId>, active: seq<TrackId>)
    requires NoDup(active)
    ensures var r, id, filled := OpenEvent(c, inp, s, joining, active), s.counter + inp.skipped, Filled(c, inp, s, joining, active);
            exists first ::
              && r.trace == s.trace + filled + [first]
              && first.edge == (if filled == [] then Enter else Moving) && first.eventId == id
              && first.at == inp.at && !first.backdated
              && Tids(first) == (set t | t in active)
              && r.lastReportMs == Some(Now(c, inp))
  {
    hide Enrol, FacesLast, Among, ForgetHistory;
    var r, id, filled := OpenEvent(c, inp, s, joining, active), s.counter + inp.skipped, Filled(c, inp, s, joining, active);
    var store := Enrol(s.store, active, id, |active|);
    var starters := Among(FacesLast(store, active), joining);
    var after := ForgetHistory(store, starters, |starters|);
    var named := FacesLast(after, active);
    FacesLastMembers(after, active);
    var first := Message(if filled == [] then Enter else Moving, id, inp.at, false, LiveMembers(after, named));
    assert r.trace == s.trace + filled + [first];
    TidsOf(first, named);
    assert (set t | t in named) == (set t | t in active);
  }

  lemma TidsOf(m: Message, ids: seq<TrackId>)
    requires |m.members| == |ids| && forall k :: 0 <= k < |ids| ==> m.members[k].tid == ids[k]
    ensures Tids(m) == (set t | t in ids)
    ensures NoDup(ids) ==> OnceEach(m)
  {
    forall t | t in ids
      ensures t in Tids(m)
    {
      var k :| 0 <= k < |ids| && ids[k] == t;
      assert m.members[k].tid == t;
    }
  }

  lemma OpenEventHeard(c: Config, inp: Input, s: State, joining: seq<TrackId>, active: seq<TrackId>, clock: int)
    requires TraceOk(c, s, clock) && s.event.None? && NoDup(active)
    ensures TraceOk(c, OpenEvent(c, inp, s, joining, active), inp.at.mono)
  {
    hide OpenEvent, Filled, Heard, HearAll, Hear;
    var r, id, filled := OpenEvent(c, inp, s, joining, active), s.counter + inp.skipped, Filled(c, inp, s, joining, active);
    OpenEventFields(c, inp, s, joining, active);
    OpenEventTrace(c, inp, s, joining, active);
    var first :| r.trace == s.trace + filled + [first]
      && first.edge == (if filled == [] then Enter else Moving) && first.eventId == id
      && first.at == inp.at && !first.backdated;
    var p := Heard(c.reportMs, s.trace);
    FilledHeard(c, inp, s, joining, active, p.lastId);
    HearOpening(c, s.trace, filled, first, p.lastId, id, inp.at);
  }

  lemma FilledHeard(c: Config, inp: Input, s: State, joining: seq<TrackId>, active: seq<TrackId>, lastId: Option<int>)
    requires lastId.None? || lastId.value < s.counter + inp.skipped
    ensures var sent, id := Filled(c, inp, s, joining, active), s.counter + inp.skipped;
            && HearAll(c.reportMs, Silent(lastId), sent)
               == (if sent == [] then Silent(lastId) else During(id, sent[|sent| - 1].at, true))
            && (sent != [] ==> sent[|sent| - 1].at.mono < inp.at.mono)
  {
    hide Backfill, SortedStamps, Enrol, Among, FacesLast, HearAll;
    var store := Enrol(s.store, active, s.counter + inp.skipped, |active|);
    var starters := Among(FacesLast(store, active), joining);
    var stamps := SortedStamps(store, starters, inp.at);
    SortedStampsBefore(store, starters, inp.at);
    BackfillHeard(c, store, starters, s.counter + inp.skipped, stamps, |stamps|, inp.at, lastId);
  }

  /** The first message about the opening frame itself. */
  lemma HearOpening(c: Config, trace: seq<Message>, filled: seq<Message>, first: Message, lastId: Option<int>, id: int,
                    cur: Stamp)
    requires Heard(c.reportMs, trace) == Silent(lastId) && (lastId.None? || lastId.value < id)
    requires HearAll(c.reportMs, Silent(lastId), filled)
             == if filled == [] then Silent(lastId) else During(id, filled[|filled| - 1].at, true)
    requires filled != [] ==> filled[|filled| - 1].at.mono < cur.mono
    requires first.edge == (if filled == [] then Enter else Moving) && first.eventId == id && first.at == cur
             && !first.backdated
    ensures Heard(c.reportMs, trace + filled + [first]) == During(id, cur, false)
  {
    HeardAppend(c.reportMs, trace, filled);
    var all := trace + filled + [first];
    assert all[..|all| - 1] == trace + filled;
    hide HearAll;
  }

  lemma {:induction false} MembersAtNames(store: Table, ids: seq<TrackId>, at: Stamp)
    ensures forall k :: 0 <= k < |MembersAt(store, ids, at)| ==> MembersAt(store, ids, at)[k].tid in ids
  {
    if ids != [] { MembersAtNames(store, ids[..|ids| - 1], at); }
  }

  lemma {:induction false} BackfillNames(c: Config, store: Table, ids: seq<TrackId>, id: int, stamps: seq<Stamp>, n: nat)
    requires n <= |stamps|
    ensures var sent := Backfill(c, store, ids, id, stamps, n);
            forall k :: 0 <= k < |sent| ==>
              && sent[k].eventId == id && !sent[k].edge.Leave?
              && (forall t: TrackId :: t in Tids(sent[k]) ==> t in ids)
  {
    if n > 0 {
      BackfillNames(c, store, ids, id, stamps, n - 1);
      MembersAtNames(store, ids, stamps[n - 1]);
      BackfillStep(c, store, ids, id, stamps, n);
    }
  }

  lemma ConservedAppend(trace: seq<Message>, more: seq<Message>)
    requires Conserved(trace) && forall k :: 0 <= k < |more| ==> !more[k].edge.Leave?
    ensures Conserved(trace + more)
  {}

  lemma OpenEventNames(c: Config, inp: Input, s: State, joining: seq<TrackId>, active: seq<TrackId>)
    requires NamesOk(s) && s.event.None? && NoDup(active)
    ensures NamesOk(OpenEvent(c, inp, s, joining, active))
  {
    hide *;
    var r, id, filled := OpenEvent(c, inp, s, joining, active), s.counter + inp.skipped, Filled(c, inp, s, joining, active);
    OpenEventFields(c, inp, s, joining, active);
    OpenEventTrace(c, inp, s, joining, active);
    var first :| r.trace == s.trace + filled + [first]
      && first.edge == (if filled == [] then Enter else Moving) && first.eventId == id
      && Tids(first) == (set t | t in active);
    FilledSays(c, inp, s, joining, active);
    assert r.trace == s.trace + (filled + [first]);
    OpenedNames(s, r, filled + [first], active);
  }

  lemma FilledSays(c: Config, inp: Input, s: State, joining: seq<TrackId>, active: seq<TrackId>)
    requires NoDup(active)
    ensures var filled := Filled(c, inp, s, joining, active);
            forall k :: 0 <= k < |filled| ==>
              filled[k].eventId == s.counter + inp.skipped && !filled[k].edge.Leave? && Tids(filled[k]) <= set t | t in active
  {
    hide Backfill, SortedStamps, Enrol, FacesLast;
    var id := s.counter + inp.skipped;
    var store := Enrol(s.store, active, id, |active|);
    var starters := Among(FacesLast(store, active), joining);
    FacesLastMembers(store, active);
    var stamps := SortedStamps(store, starters, inp.at);
    BackfillNames(c, store, starters, id, stamps, |stamps|);
    assert Filled(c, inp, s, joining, active) == Backfill(c, store, starters, id, stamps, |stamps|);
    assert forall t :: t in starters ==> t in active;
    hide Among, Filled;
  }

  lemma OpenedNames(s: State, r: State, more: seq<Message>, active: seq<TrackId>)
    requires NamesOk(s) && s.event.None? && r.event.Some? && r.trace == s.trace + more
    requires s.counter <= r.event.value.id < r.counter && r.joined == set t | t in active
    requires forall k :: 0 <= k < |more| ==>
               more[k].eventId == r.event.value.id && !more[k].edge.Leave? && Tids(more[k]) <= set t | t in active
    ensures NamesOk(r)
  {
    hide Tids;
    ConservedAppend(s.trace, more);
  }

  // ----- closing and reporting --------------------------------------------------------------------

  /** Everyone who took part is among the members of the leave. */
  lemma ParticipantsLeave(w: Work, e: Event, active: seq<TrackId>)
    requires Settled(w) && w.s.event == Some(e) && active == ActiveIds(w.s.live, w.s.store)
    ensures NoDup(e.finished + active)
    ensures forall t :: t in w.s.joined ==> t in e.finished + active
    ensures e.finished + active != []
  {
    forall t | t in w.s.joined
      ensures t in e.finished + active
    {
      SettledRole(w, t);
      assert At(w.s.store, t) == w.s.store[t];
    }
    forall i, j | 0 <= i < |e.finished| && 0 <= j < |active|
      ensures e.finished[i] != active[j]
    {
      assert active[j] in active;
      SettledRole(w, active[j]);
      assert e.finished[i] == active[j] ==> InFinished(w.s, active[j]);
    }
    var t :| t in w.s.joined;
  }

  lemma CloseEventTrace(inp: Input, s: State, e: Event, active: seq<TrackId>)
    requires NoDup(e.finished + active) && e.finished + active != []
    ensures var r, members := CloseEvent(inp, s, e, active), e.finished + active;
            exists m ::
              && r.trace == s.trace + [m] && m.edge == Leave && m.eventId == e.id && m.at == inp.at && !m.backdated
              && Tids(m) == (set t | t in members) && OnceEach(m)
  {
    var members := e.finished + active;
    var order := SortStable(members, LeaveKey(s.store));
    SortStableKeeps(members, LeaveKey(s.store));
    NoDupByMultiset(members, order);
    var m := Message(Leave, e.id, inp.at, false, LiveMembers(s.store, order));
    TidsOf(m, order);
    assert (set t | t in order) == (set t | t in members);
  }

  lemma CloseEventFields(inp: Input, s: State, e: Event, active: seq<TrackId>)
    ensures var r := CloseEvent(inp, s, e, active);
            r.event.None? && r.counter == s.counter && r.live == s.live && r.joined == {}
  {}

  lemma ClosingHeard(c: Config, inp: Input, w: Work, s: State, active: seq<TrackId>, clock: int)
    requires Settled(w) && w.s.event.Some? && active == ActiveIds(w.s.live, w.s.store)
    requires s == w.s.(store := s.store) && TraceOk(c, s, clock) && NamesOk(s) && clock <= inp.at.mono
    ensures var r := CloseEvent(inp, s, s.event.value, active);
            TraceOk(c, r, inp.at.mono) && NamesOk(r)
  {
    hide CloseEvent, ActiveIds, Settled;
    var e := s.event.value;
    var r := CloseEvent(inp, s, e, active);
    ParticipantsLeave(w, e, active);
    CloseEventTrace(inp, s, e, active);
    CloseEventFields(inp, s, e, active);
    var m :| r.trace == s.trace + [m] && m.edge == Leave && m.eventId == e.id && m.at == inp.at && !m.backdated
      && Tids(m) == (set t | t in e.finished + active) && OnceEach(m);
    assert r.trace[..|r.trace| - 1] == s.trace;
    LeaveNames(s, r, m);
  }

  lemma LeaveNames(s: State, r: State, m: Message)
    requires NamesOk(s) && s.event.Some? && r.event.None? && r.counter == s.counter
    requires r.trace == s.trace + [m] && m.eventId == s.event.value.id && s.joined <= Tids(m) && OnceEach(m)
    ensures NamesOk(r)
  {
    forall j, k | 0 <= j < k < |r.trace| && r.trace[k].edge.Leave? && r.trace[j].eventId == r.trace[k].eventId
      ensures Tids(r.trace[j]) <= Tids(r.trace[k])
    {
      if k < |s.trace| {
        assert r.trace[j] == s.trace[j] && r.trace[k] == s.trace[k];
      } else {
        assert r.trace[j] == s.trace[j];
      }
    }
  }

  lemma ReportEventTrace(c: Config, inp: Input, s: State, e: Event, active: seq<TrackId>)
    requires NoDup(active)
    ensures var r := ReportEvent(c, inp, s, e, active);
            && r.event == s.event && r.counter == s.counter && r.live == s.live
            && r.joined == s.joined + (set t | t in active)
            && (|| (r.trace == s.trace && r.lastReportMs == s.lastReportMs)
                || (&& ReportDue(c, s, Now(c, inp)) && r.lastReportMs == Some(Now(c, inp))
                    && exists m ::
                         && r.trace == s.trace + [m] && m.edge == Moving && m.eventId == e.id && m.at == inp.at
                         && !m.backdated && Tids(m) <= (set t | t in active)))
  {
    var now := Now(c, inp);
    var seen := SeenSince(s.store, active, s.lastReportMs);
    if ReportDue(c, s, now) && seen != [] {
      var named := FacesLast(s.store, seen);
      SortStableKeeps(seen, FaceKey(s.store));
      assert forall t :: t in named ==> t in multiset(named);
      assert forall t :: t in named ==> t in seen;
      var m := Message(Moving, e.id, inp.at, false, LiveMembers(s.store, named));
      TidsOf(m, named);
    }
  }

  lemma ReportingHeard(c: Config, inp: Input, s: State, active: seq<TrackId>, clock: int)
    requires s.event.Some? && NoDup(active)
    requires TraceOk(c, s, clock) && NamesOk(s) && clock <= inp.at.mono
    ensures var r := ReportEvent(c, inp, s, s.event.value, active);
            TraceOk(c, r, inp.at.mono) && NamesOk(r)
  {
    hide ReportEvent;
    var e := s.event.value;
    var r := ReportEvent(c, inp, s, e, active);
    ReportEventTrace(c, inp, s, e, active);
    if r.trace != s.trace {
      var m :| r.trace == s.trace + [m] && m.edge == Moving && m.eventId == e.id && m.at == inp.at
        && !m.backdated && Tids(m) <= (set t | t in active);
      assert r.trace[..|r.trace| - 1] == s.trace;
      ConservedAppend(s.trace, [m]);
    }
  }

  // ----- the tick and the run ---------------------------------------------------------------------

  lemma LifecycleHeard(c: Config, inp: Input, w: Work, clock: int)
    requires Settled(w) && TraceOk(c, w.s, clock) && NamesOk(w.s) && clock <= inp.at.mono
    ensures TraceOk(c, Lifecycle(c, inp, w), inp.at.mono) && NamesOk(Lifecycle(c, inp, w))
  {
    hide OpenEvent, CloseEvent, ReportEvent, TraceOk, NamesOk;
    var active := ActiveIds(w.s.live, w.s.store);
    ActiveInStore(w, active);
    if w.s.event.None? {
      if w.joining != [] && active != [] {
        OpenEventHeard(c, inp, w.s, w.joining, active, clock);
        OpenEventNames(c, inp, w.s, w.joining, active);
      } else {
        TraceOkLater(c, w.s, clock, inp.at.mono);
      }
    } else {
      var e := w.s.event.value;
      var s := w.s.(store := ForgetHistory(Enrol(w.s.store, w.joining, e.id, |w.joining|), w.joining, |w.joining|));
      SameTrace(c, w.s, s, clock);
      if active == [] || Now(c, inp) - e.startedMs >= inp.eventMaxMs {
        ClosingHeard(c, inp, w, s, active, clock);
      } else {
        ReportingHeard(c, inp, s, active, clock);
      }
    }
  }

  lemma TraceOkLater(c: Config, s: State, clock: int, later: int)
    requires TraceOk(c, s, clock) && clock <= later
    ensures TraceOk(c, s, later)
  {}

  /** The phases before the lifecycle say nothing. */
  lemma SameTrace(c: Config, s: State, r: State, clock: int)
    requires SameRecord(s, r)
    ensures TraceOk(c, r, clock) == TraceOk(c, s, clock) && NamesOk(r) == NamesOk(s)
  {}

  /** Every tick keeps the messages well formed and everyone named in the leave. */
  lemma TickHeard(c: Config, s: State, inp: Input, clock: int)
    requires Inv(s) && InputOk(s, inp) && TraceOk(c, s, clock) && NamesOk(s) && clock <= inp.at.mono
    ensures TraceOk(c, Tick(c, s, inp), inp.at.mono) && NamesOk(Tick(c, s, inp))
  {
    hide Mid, Gather, HoldForZones, Lifecycle, TraceOk, NamesOk;
    var m := Matches(c, s, inp);
    MatchesFacts(c, s, inp);
    GatherIsSane(c, s, inp, m);
    var w := HoldForZones(Gather(c, s, inp, m));
    HoldForZonesSettles(Gather(c, s, inp, m));
    assert SameRecord(s, w.s);
    SameTrace(c, s, w.s, clock);
    LifecycleHeard(c, inp, w, clock);
  }

  /** A run from a camera's first frame: stamps never go back. */
  ghost predicate IsRun(c: Config, counter: int, states: seq<State>, inputs: seq<Input>) {
    && |states| == |inputs| + 1
    && states[0] == Initial(counter)
    && (forall i :: 0 <= i < |inputs| ==> IsStep(c, states[i], inputs[i], states[i + 1]))
    && (forall i :: 0 <= i < |inputs| - 1 ==> inputs[i].at.mono <= inputs[i + 1].at.mono)
  }

  ghost predicate IsStep(c: Config, s: State, inp: Input, r: State) {
    FrameOk(s, inp) && (InputOk(s, inp) ==> r == Tick(c, s, inp))
  }

  function ClockAfter(inputs: seq<Input>, n: nat): int
    requires n <= |inputs|
  {
    if n == 0 then (if inputs == [] then 0 else inputs[0].at.mono) else inputs[n - 1].at.mono
  }

  lemma {:induction false} RunKeeps(c: Config, counter: int, states: seq<State>, inputs: seq<Input>, n: nat)
    requires IsRun(c, counter, states, inputs) && n <= |inputs|
    ensures Inv(states[n]) && TraceOk(c, states[n], ClockAfter(inputs, n)) && NamesOk(states[n])
  {
    hide Tick, Mid;
    if n == 0 {
      InitialInv(counter);
    } else {
      RunKeeps(c, counter, states, inputs, n - 1);
      assert IsStep(c, states[n - 1], inputs[n - 1], states[n]);
      InvGivesInputOk(states[n - 1], inputs[n - 1]);
      TickKeepsInv(c, states[n - 1], inputs[n - 1]);
      TickHeard(c, states[n - 1], inputs[n - 1], ClockAfter(inputs, n - 1));
    }
  }

  /** Any tick of a run. */
  lemma RunStep(c: Config, counter: int, states: seq<State>, inputs: seq<Input>, n: nat)
    requires IsRun(c, counter, states, inputs) && n < |inputs|
    ensures |states| == |inputs| + 1 && Inv(states[n]) && InputOk(states[n], inputs[n])
    ensures states[n + 1] == Tick(c, states[n], inputs[n]) && Inv(states[n + 1])
  {
    hide Tick, Inv, TraceOk, NamesOk, InputOk, FrameOk;
    RunKeeps(c, counter, states, inputs, n);
    RunKeeps(c, counter, states, inputs, n + 1);
    assert IsStep(c, states[n], inputs[n], states[n + 1]);
    InvGivesInputOk(states[n], inputs[n]);
  }

  lemma RunBounds(c: Config, counter: int, states: seq<State>, inputs: seq<Input>)
    requires IsRun(c, counter, states, inputs)
    ensures |states| == |inputs| + 1 && states[0] == Initial(counter)
  {}

  /** After every tick of every run: each active track takes part in the open event under its id, an
      open event has someone active, and a confirmed moving track that has not been in a zone waits
      for one. */
  lemma ActiveBelongToTheEvent(c: Config, counter: int, states: seq<State>, inputs: seq<Input>, n: nat)
    requires IsRun(c, counter, states, inputs) && n <= |inputs|
    ensures var s := states[n];
            && (forall t :: t in s.live ==> t in s.store)
            && (forall t :: t in s.live && Active(s.store[t]) ==>
                  s.event.Some? && s.store[t].eventId == Some(s.event.value.id) && t !in s.event.value.finished)
            && (s.event.Some? ==> exists t :: t in s.live && Active(s.store[t]))
            && (forall t :: t in s.live && s.store[t].confirmed && s.store[t].parked.None? && !s.store[t].zoned ==>
                  s.store[t].awaitingZone)
  {
    RunKeeps(c, counter, states, inputs, n);
    var s := states[n];
    forall t | t in s.live
      ensures t in s.store && Role(s, {}, t)
    {}
  }

  /** After every tick of every run: the live and the recently closed list share nobody, a finished
      track that is live is parked, nobody is in a list twice, and ids still to be given out are new. */
  lemma ListsStayDisjoint(c: Config, counter: int, states: seq<State>, inputs: seq<Input>, n: nat)
    requires IsRun(c, counter, states, inputs) && n <= |inputs|
    ensures var s := states[n];
            && NoDup(s.live) && RecentOk(s.recent) && (s.event.Some? ==> NoDup(s.event.value.finished))
            && (forall t :: t in s.live ==> !InRecent(s, t))
            && (forall t :: t in s.live && InFinished(s, t) ==> t in s.store && s.store[t].parked.Some?)
            && (forall t: nat :: t >= s.nextId ==> t !in s.live && !InRecent(s, t) && !InFinished(s, t))
  {
    RunKeeps(c, counter, states, inputs, n);
    var s := states[n];
    forall t | t in s.live
      ensures t in s.store && Role(s, {}, t)
    {}
  }

  /** The messages of every run form (enter moving* leave)*, one event open at a time, under ids that
      are never used again, and time within an event never goes back. */
  lemma MessagesWellFormed(c: Config, counter: int, states: seq<State>, inputs: seq<Input>, n: nat)
    requires IsRun(c, counter, states, inputs) && n <= |inputs|
    ensures !Heard(c.reportMs, states[n].trace).Garbled?
    ensures Heard(c.reportMs, states[n].trace).During? <==> states[n].event.Some?
  {
    RunKeeps(c, counter, states, inputs, n);
  }

  /** Nobody is lost: a leave names everyone any earlier message of its event named, each once. */
  lemma NobodyIsLost(c: Config, counter: int, states: seq<State>, inputs: seq<Input>, n: nat)
    requires IsRun(c, counter, states, inputs) && n <= |inputs|
    ensures Conserved(states[n].trace)
  {
    RunKeeps(c, counter, states, inputs, n);
  }
}
