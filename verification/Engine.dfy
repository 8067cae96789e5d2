/** The camera event engine: one analysed frame as a function from state to state.

    Every track dict is known by its tracker id, which never changes and is never reused; the live
    table, the recently closed list and an event's finished list share tracks, so they hold ids and
    `store` holds the one track behind each id. A tick's phases are folds over the live table, in
    its (insertion) order. Device.dfy holds the object that is updated in place. */
module Engine {
  import opened Wrappers
  import opened Geometry
  import opened Reals
  import opened Lists
  import opened Tracks
  import opened Matching
  import Norfair
  import Faces
  import Pipeline
  import ScoreGate

  datatype Edge = Enter | Moving | Leave

  datatype Member = Member(tid: TrackId, box: Box, score: real)

  /** A message to the console. backdated: it describes an earlier frame than the one it was sent on. */
  datatype Message = Message(edge: Edge, eventId: int, at: Stamp, backdated: bool, members: seq<Member>)

  datatype Event = Event(id: int, startedMs: int, finished: seq<TrackId>)

  datatype Closed = Closed(tid: TrackId, atMs: int)

  /** A camera's tracking state. trace (every message sent), joined (everyone who has been active
      while the open event was open) and early (tracks made in the startup window) only record. */
  datatype State = State(
    live: seq<TrackId>,
    store: Table,
    recent: seq<Closed>,
    nextId: TrackId,
    startedMs: Option<int>,
    event: Option<Event>,
    lastReportMs: Option<int>,
    ids: Norfair.Ids,
    counter: int,                // the event id counter
    trace: seq<Message>,
    joined: set<TrackId>,
    early: set<TrackId>)

  /** What one tick is given: the frame's time, detections and associations; the settings a console can
      change; and answers from parts not modelled: the parked tracks whose pixels have not changed,
      the tracks held in a frame corner, the vehicles whose model answer is pending, and how many
      event ids other cameras and lines took since the last tick. */
  datatype Input = Input(
    at: Stamp,
    analysed: bool,
    restarted: bool,             // the stream restarted since the last tick
    dets: seq<Detection>,
    assoc: seq<(nat, Gid)>,
    confirmMs: int,
    eventMaxMs: int,
    faceZone: Box -> bool,       // a foot there is in a zone listing faces (or there are no zones)
    samePixels: set<TrackId>,
    held: set<TrackId>,
    pendingAnswers: set<TrackId>,
    skipped: nat)

  /** A state within a tick, with the tracks that start taking part this tick. */
  datatype Work = Work(s: State, joining: seq<TrackId>)

  const RESUME_MAX := 32
  const RESUME_IOU := 0.4

  const NOBODY := Track(Other(""), Box(0.0, 0.0, 0.0, 0.0), 0.0, Box(0.0, 0.0, 0.0, 0.0), None, 0.0, 0.0, [], 0, 0, 0,
                        ScoreGate.EMPTY, false, false, false, None, 0, false, None, 0, false, false, false, [],
                        None, None, None, None)

  /** The track behind an id. Ids in use always have one (see EngineInvariant). */
  function At(store: Table, tid: TrackId): Track {
    if tid in store then store[tid] else NOBODY
  }

  function Now(c: Config, inp: Input): int {
    inp.at.wall - c.delayMs
  }

  function Put(s: State, tid: TrackId, tr: Track): State {
    s.(store := s.store[tid := tr])
  }

  /** The list without any x. */
  function Without(s: seq<TrackId>, x: TrackId): (r: seq<TrackId>)
    ensures forall y :: y in r <==> y in s && y != x
    ensures NoDup(s) ==> NoDup(r)
  {
    if s == [] then []
    else
      var front, last := s[..|s| - 1], s[|s| - 1];
      assert s == front + [last];
      assert NoDup(s) ==> NoDup(front) && last !in front;
      var rest := Without(front, x);
      if last == x then rest else rest + [last]
  }

  /** tid is no longer among the finished tracks of the open event. */
  function Unfinish(s: State, tid: TrackId): State {
    if s.event.Some? then
      s.(event := Some(s.event.value.(finished := Without(s.event.value.finished, tid))))
    else s
  }

  function Finish(s: State, tid: TrackId): State {
    if s.event.Some? then
      s.(event := Some(s.event.value.(finished := s.event.value.finished + [tid])))
    else s
  }

  /** What the phases before the event lifecycle leave alone. */
  ghost predicate SameRecord(s: State, r: State) {
    && r.trace == s.trace && r.counter == s.counter && r.lastReportMs == s.lastReportMs && r.joined == s.joined
    && r.event.Some? == s.event.Some?
    && (s.event.Some? ==> r.event.value.id == s.event.value.id && r.event.value.startedMs == s.event.value.startedMs)
  }

  // ----- start of a tick ------------------------------------------------------------------------

  /** The closed tracks still young enough at now, of the first n. */
  function Young(c: Config, recent: seq<Closed>, now: int): (r: seq<Closed>)
    ensures forall x :: x in r ==> x in recent
  {
    if recent == [] then []
    else
      var last := recent[|recent| - 1];
      Young(c, recent[..|recent| - 1], now) + (if now - last.atMs <= c.resumeMs then [last] else [])
  }

  function LastClosed(recent: seq<Closed>): seq<Closed> {
    if |recent| <= RESUME_MAX then recent else recent[|recent| - RESUME_MAX..]
  }

  function Begin(c: Config, s: State, inp: Input): State {
    var started := if inp.restarted then None else s.startedMs;
    s.(recent := LastClosed(Young(c, s.recent, Now(c, inp))),
       startedMs := if started.None? && inp.analysed then Some(Now(c, inp)) else started)
  }

  /** Within the startup window: what is found now was there before. */
  predicate Starting(c: Config, s: State, inp: Input) {
    s.startedMs.None? || Now(c, inp) - s.startedMs.value <= STARTUP_WINDOW_MS
  }

  // ----- 1. live tracks ---------------------------------------------------------------------------

  /** What a frame's detection leaves on its track whatever else it does. */
  function Noted(c: Config, inp: Input, tid: TrackId, tr: Track, d: Detection): Track {
    Note(tr, d, Now(c, inp), tid in inp.held).(seenMs := Now(c, inp))
  }

  function Matched(c: Config, inp: Input, w: Work, tid: TrackId, d: Detection): (r: Work)
    ensures SameRecord(w.s, r.s)
  {
    var tr := Take(c, At(w.s.store, tid), d);
    if tr.parked.Some? && MovedSince(c, tr) then
      if tid in inp.samePixels then
        w.(s := Put(w.s, tid, Noted(c, inp, tid, Settle(tr), d)))
      else
        Work(Put(Unfinish(w.s, tid), tid, Noted(c, inp, tid, Wake(c, tr, Now(c, inp)), d)), w.joining + [tid])
    else
      w.(s := Put(w.s, tid, Noted(c, inp, tid, if tr.parked.Some? then CountShift(tr) else tr, d)))
  }

  function Tolerance(c: Config, tr: Track): nat {
    if tr.parked.Some? then c.parkedTicks else c.missTicks
  }

  /** A face stays while its person is tracked and not parked. */
  predicate KeptByPerson(s: State, tr: Track) {
    && tr.kind == Face && tr.personTid.Some? && tr.personTid.value in s.live
    && At(s.store, tr.personTid.value).parked.None?
  }

  /** When a vehicle that would close started waiting for its model's answer. */
  function HoldStart(tr: Track, now: int): int {
    if tr.holdMs.Some? then tr.holdMs.value else now
  }

  function MissedTrack(c: Config, tr: Track): Track {
    RecordScore(c, tr.(missCount := tr.missCount + 1), 0.0)
  }

  function Missed(c: Config, inp: Input, s: State, tid: TrackId): (r: State)
    ensures SameRecord(s, r)
  {
    var tr, now := MissedTrack(c, At(s.store, tid)), Now(c, inp);
    var s1 := Put(s, tid, tr);
    if !tr.confirmed && tr.missCount >= Tolerance(c, tr) then s1.(live := Without(s.live, tid))
    else if KeptByPerson(s1, tr) || tr.missCount < Tolerance(c, tr) then s1
    else if tr.kind == Vehicle && tid in inp.pendingAnswers && now - HoldStart(tr, now) < VEHICLE_HOLD_MS then
      Put(s, tid, tr.(holdMs := Some(HoldStart(tr, now))))
    else
      var t2 := if tr.kind == Vehicle && tid in inp.pendingAnswers then tr.(holdMs := Some(HoldStart(tr, now))) else tr;
      var s2 := Put(s, tid, t2).(live := Without(s.live, tid), recent := s.recent + [Closed(tid, now)]);
      if t2.parked.None? then Finish(s2, tid) else s2
  }

  function FollowOne(c: Config, inp: Input, m: Pipeline.Result, w: Work, tid: TrackId): (r: Work)
    ensures SameRecord(w.s, r.s)
  {
    if tid in m.claims.matches && m.claims.matches[tid] < |inp.dets| then
      Matched(c, inp, w, tid, inp.dets[m.claims.matches[tid]])
    else
      w.(s := Missed(c, inp, w.s, tid))
  }

  /** The first n of the tracks that were live when the tick began. */
  function FollowAll(c: Config, inp: Input, m: Pipeline.Result, w: Work, ids: seq<TrackId>, n: nat): (r: Work)
    requires n <= |ids|
    ensures SameRecord(w.s, r.s)
  {
    if n == 0 then w else FollowOne(c, inp, m, FollowAll(c, inp, m, w, ids, n - 1), ids[n - 1])
  }

  // ----- 2. unclaimed detections ------------------------------------------------------------------

  predicate InsideParked(s: State, d: Detection) {
    exists k :: 0 <= k < |s.live|
      && At(s.store, s.live[k]).kind == d.kind
      && At(s.store, s.live[k]).parked.Some?
      && PartOf(d.coord, At(s.store, s.live[k]).parked.value)
  }

  datatype How = BackInEvent | AsParked

  function ResumeHow(tr: Track, event: Option<Event>): Option<How> {
    if tr.parked.Some? then Some(AsParked)
    else if event.Some? && tr.eventId == Some(event.value.id) then Some(BackInEvent)
    else if ParksWhenStill(tr.kind) && !tr.moved then Some(AsParked)
    else None
  }

  function ResumeIou(tr: Track, d: Detection): real {
    Max(Iou(tr.coord, d.coord), Iou(tr.firstCoord, d.coord))
  }

  predicate CanResume(store: Table, event: Option<Event>, r: Closed, d: Detection) {
    var tr := At(store, r.tid);
    tr.kind == d.kind && ResumeIou(tr, d) >= RESUME_IOU && ResumeHow(tr, event).Some?
  }

  /** Which of the first n closed tracks the detection continues: the best overlap, the last of
      equal ones. */
  function FindResume(s: State, d: Detection, n: nat): (r: Option<nat>)
    requires n <= |s.recent|
    ensures r.Some? ==> r.value < n && CanResume(s.store, s.event, s.recent[r.value], d)
  {
    if n == 0 then None
    else
      var best := FindResume(s, d, n - 1);
      if && CanResume(s.store, s.event, s.recent[n - 1], d)
         && (best.None? || ResumeIou(At(s.store, s.recent[n - 1].tid), d)
                           >= ResumeIou(At(s.store, s.recent[best.value].tid), d))
      then Some(n - 1) else best
  }

  /** No other closed track the detection could continue overlaps it better, and none after the chosen
      one as well. */
  lemma {:induction false} FindResumeIsBest(s: State, d: Detection, n: nat)
    requires n <= |s.recent|
    ensures var best := FindResume(s, d, n);
            forall k :: 0 <= k < n && CanResume(s.store, s.event, s.recent[k], d) ==>
              && best.Some?
              && (var overlap, most := ResumeIou(At(s.store, s.recent[k].tid), d),
                                       ResumeIou(At(s.store, s.recent[best.value].tid), d);
                  overlap <= most && (k > best.value ==> overlap < most))
  {
    hide ResumeIou, ResumeHow;
    if n > 0 { FindResumeIsBest(s, d, n - 1); }
  }

  function BindPending(s: State, m: Pipeline.Result, idx: nat, tid: TrackId): State {
    if idx in m.pending then s.(ids := s.ids[m.pending[idx] := tid]) else s
  }

  /** A resumed track as its detection leaves it. */
  function Resumed(c: Config, inp: Input, tid: TrackId, tr: Track, d: Detection): Track {
    Noted(c, inp, tid, UpdateStill(c, Follow(tr, d.coord).(score := d.score, missCount := 0)), d)
  }

  /** The closed track at k goes back to the live table. */
  function Reenter(s: State, m: Pipeline.Result, idx: nat, k: nat): (r: State)
    requires k < |s.recent|
    ensures SameRecord(s, r) && r.event == s.event && r.store == s.store
    ensures r.recent == s.recent[..k] + s.recent[k + 1..]
  {
    var tid := s.recent[k].tid;
    BindPending(s.(live := s.live + [tid], recent := s.recent[..k] + s.recent[k + 1..]), m, idx, tid)
  }

  function Resume(c: Config, inp: Input, m: Pipeline.Result, w: Work, idx: nat, d: Detection, k: nat): (r: Work)
    requires k < |w.s.recent| && ResumeHow(At(w.s.store, w.s.recent[k].tid), w.s.event).Some?
    ensures SameRecord(w.s, r.s)
  {
    var tid := w.s.recent[k].tid;
    var tr := At(w.s.store, tid);
    var s := Reenter(w.s, m, idx, k);
    if ResumeHow(tr, w.s.event).value.BackInEvent? then
      Work(Put(Unfinish(s, tid), tid, Resumed(c, inp, tid, tr, d)), w.joining + [tid])
    else
      w.(s := Put(s, tid, Park(Resumed(c, inp, tid, tr, d))))
  }

  /** A new track; in the startup window it is confirmed at once (and parked below). */
  function Opened(c: Config, inp: Input, starting: bool, tid: TrackId, d: Detection): Track {
    var tr := New(c, d, Now(c, inp));
    var t1 := tr.(confirmed := starting || (inp.confirmMs <= 0 && tr.gate.truePositive && ConfirmWith(d.kind).None?));
    var t2 := Noted(c, inp, tid, UpdateStill(c, t1), d);
    if starting then Park(t2) else t2
  }

  function Open(c: Config, inp: Input, m: Pipeline.Result, starting: bool, w: Work, idx: nat, d: Detection): (r: Work)
    ensures SameRecord(w.s, r.s)
  {
    var tid := w.s.nextId;
    var tr := Opened(c, inp, starting, tid, d);
    var s := BindPending(w.s.(live := w.s.live + [tid], nextId := tid + 1, early := if starting then w.s.early + {tid} else w.s.early),
                         m, idx, tid);
    Work(Put(s, tid, tr), if tr.confirmed && !starting then w.joining + [tid] else w.joining)
  }

  function AdmitOne(c: Config, inp: Input, m: Pipeline.Result, starting: bool, w: Work, idx: nat): (r: Work)
    ensures SameRecord(w.s, r.s)
  {
    if idx >= |inp.dets| then w
    else
      var d := inp.dets[idx];
      if InsideParked(w.s, d) then w
      else
        var k := FindResume(w.s, d, |w.s.recent|);
        if k.Some? then Resume(c, inp, m, w, idx, d, k.value)
        else Open(c, inp, m, starting, w, idx, d)
  }

  function AdmitAll(c: Config, inp: Input, m: Pipeline.Result, starting: bool, w: Work, n: nat): (r: Work)
    requires n <= |m.claims.unclaimed|
    ensures SameRecord(w.s, r.s)
  {
    if n == 0 then w
    else AdmitOne(c, inp, m, starting, AdmitAll(c, inp, m, starting, w, n - 1), m.claims.unclaimed[n - 1])
  }

  // ----- faces and their people -------------------------------------------------------------------

  /** The person a face track belongs to: the one it was linked to while that one is tracked. */
  function PersonOf(s: State, face: Track): Option<TrackId> {
    if face.personTid.Some? && face.personTid.value in s.live then face.personTid
    else Faces.Owner(s.live, s.store, face.coord, map[], None)
  }

  /** A person without a tracked face gets this one. */
  function WithFace(s: State, person: Track, fid: TrackId): Track {
    if person.faceTid.Some? && person.faceTid.value in s.live then person else person.(faceTid := Some(fid))
  }

  function LinkPair(s: State, fid: TrackId, pid: TrackId): State {
    var s1 := Put(s, fid, At(s.store, fid).(personTid := Some(pid)));
    Put(s1, pid, WithFace(s1, At(s1.store, pid), fid))
  }

  /** A face has been in a zone when its person, who has, stands in one listing faces. */
  function LinkZone(inp: Input, s: State, fid: TrackId, pid: TrackId): State {
    var face, person := At(s.store, fid), At(s.store, pid);
    Put(s, fid, face.(zoned := face.zoned || (person.zoned && inp.faceZone(person.coord))))
  }

  function LinkOne(inp: Input, s: State, fid: TrackId): State {
    var face := At(s.store, fid);
    if face.kind != Face then s
    else
      var pid := PersonOf(s, face);
      if pid.None? then s else LinkZone(inp, LinkPair(s, fid, pid.value), fid, pid.value)
  }

  function LinkAll(inp: Input, s: State, n: nat): (r: State)
    requires n <= |s.live|
    ensures r.live == s.live
    ensures SameRecord(s, r)
  {
    if n == 0 then s else LinkOne(inp, LinkAll(inp, s, n - 1), s.live[n - 1])
  }

  // ----- 2a, 2b. history and confirmation ---------------------------------------------------------

  function LastSeen(h: seq<Seen>): seq<Seen> {
    if |h| <= BACKFILL_MAX then h else h[|h| - BACKFILL_MAX..]
  }

  function RememberOne(c: Config, inp: Input, s: State, tid: TrackId): State {
    var tr := At(s.store, tid);
    if !tr.confirmed && tr.seenMs == Now(c, inp) then
      Put(s, tid, tr.(history := LastSeen(tr.history + [Seen(inp.at, tr.coord, tr.score)])))
    else s
  }

  function RememberAll(c: Config, inp: Input, s: State, n: nat): (r: State)
    requires n <= |s.live|
    ensures r.live == s.live
    ensures SameRecord(s, r)
  {
    if n == 0 then s else RememberOne(c, inp, RememberAll(c, inp, s, n - 1), s.live[n - 1])
  }

  predicate Confirmable(c: Config, inp: Input, tr: Track) {
    && !tr.confirmed && tr.gate.truePositive
    && ConfirmWith(tr.kind).None?
    && (!ParksWhenStill(tr.kind) || tr.leftFirstBox)
    && Now(c, inp) - tr.firstShownMs >= inp.confirmMs
  }

  function ConfirmOne(c: Config, inp: Input, w: Work, tid: TrackId): Work {
    var tr := At(w.s.store, tid);
    if Confirmable(c, inp, tr) then Work(Put(w.s, tid, tr.(confirmed := true)), w.joining + [tid]) else w
  }

  function ConfirmAll(c: Config, inp: Input, w: Work, n: nat): (r: Work)
    requires n <= |w.s.live|
    ensures r.s.live == w.s.live
    ensures SameRecord(w.s, r.s)
  {
    if n == 0 then w else ConfirmOne(c, inp, ConfirmAll(c, inp, w, n - 1), w.s.live[n - 1])
  }

  // ----- 3. parking -------------------------------------------------------------------------------

  predicate StandsStill(tr: Track) {
    tr.parked.None? && tr.still && ParksWhenStill(tr.kind)
  }

  function ParkOne(s: State, tid: TrackId): State {
    var tr := At(s.store, tid);
    var t1 := if StandsStill(tr) && !tr.confirmed && tr.gate.truePositive && !tr.leftFirstBox
              then tr.(confirmed := true) else tr;
    if StandsStill(t1) && t1.confirmed then
      var s1 := Put(s, tid, Park(t1));
      if s.event.Some? && t1.eventId == Some(s.event.value.id) then Finish(s1, tid) else s1
    else s                       // t1 is tr: a still vehicle just confirmed is parked above
  }

  function ParkAll(s: State, n: nat): (r: State)
    requires n <= |s.live|
    ensures r.live == s.live
    ensures SameRecord(s, r)
  {
    if n == 0 then s else ParkOne(ParkAll(s, n - 1), s.live[n - 1])
  }

  // ----- 3b, 3c. faces and plates, zones ----------------------------------------------------------

  predicate HasParent(s: State, kind: ObjectType) {
    exists k :: 0 <= k < |s.live|
      && At(s.store, s.live[k]).kind == kind
      && At(s.store, s.live[k]).confirmed
      && At(s.store, s.live[k]).parked.None?
  }

  function AccompanyOne(w: Work, tid: TrackId): Work {
    var tr := At(w.s.store, tid);
    var parent := ConfirmWith(tr.kind);
    if tr.kind == Face && !tr.nameable then w
    else if parent.Some? && !tr.confirmed && tr.missCount == 0 && HasParent(w.s, parent.value) then
      Work(Put(w.s, tid, tr.(confirmed := true)), w.joining + [tid])
    else w
  }

  function AccompanyAll(w: Work, n: nat): (r: Work)
    requires n <= |w.s.live|
    ensures r.s.live == w.s.live
    ensures SameRecord(w.s, r.s)
  {
    if n == 0 then w else AccompanyOne(AccompanyAll(w, n - 1), w.s.live[n - 1])
  }

  /** Tracks that waited for a zone and have now been in one join first. */
  function ReleaseOne(w: Work, tid: TrackId): Work {
    var tr := At(w.s.store, tid);
    if tr.awaitingZone && tr.zoned && tr.confirmed then
      Work(Put(w.s, tid, tr.(awaitingZone := false)), w.joining + [tid])
    else w
  }

  function ReleaseAll(s: State, n: nat): (r: Work)
    requires n <= |s.live|
    ensures r.s.live == s.live
    ensures SameRecord(s, r.s)
  {
    if n == 0 then Work(s, []) else ReleaseOne(ReleaseAll(s, n - 1), s.live[n - 1])
  }

  /** A joining track that has not been in a zone waits. */
  function HoldOne(w: Work, tid: TrackId): Work {
    if tid in w.joining then w
    else
      var tr := At(w.s.store, tid);
      if tr.zoned then w.(joining := w.joining + [tid])
      else w.(s := Put(w.s, tid, tr.(awaitingZone := true)))
  }

  function HoldAll(w: Work, joining: seq<TrackId>, n: nat): (r: Work)
    requires n <= |joining|
    ensures SameRecord(w.s, r.s) && r.s.live == w.s.live
  {
    if n == 0 then w else HoldOne(HoldAll(w, joining, n - 1), joining[n - 1])
  }

  function HoldForZones(w: Work): (r: Work)
    ensures SameRecord(w.s, r.s) && r.s.live == w.s.live
  {
    HoldAll(ReleaseAll(w.s, |w.s.live|), w.joining, |w.joining|)
  }

  // ----- 4. the camera event ----------------------------------------------------------------------

  /** The tracks taking part, of the first n live ones. */
  function ActiveIds(live: seq<TrackId>, store: Table): (r: seq<TrackId>)
    ensures forall t :: t in r <==> t in live && Active(At(store, t))
    ensures NoDup(live) ==> NoDup(r)
  {
    if live == [] then []
    else
      var last := live[|live| - 1];
      assert live == live[..|live| - 1] + [last];
      ActiveIds(live[..|live| - 1], store) + (if Active(At(store, last)) then [last] else [])
  }

  lemma ActiveIdsNext(live: seq<TrackId>, store: Table, n: nat)
    requires n < |live|
    ensures ActiveIds(live[..n + 1], store)
         == ActiveIds(live[..n], store) + (if Active(At(store, live[n])) then [live[n]] else [])
  {
    hide Active, At;
    assert live[..n + 1][..n] == live[..n];
  }

  function TakePart(tr: Track, id: int): Track {
    tr.(eventId := Some(id))
  }

  function Forget(tr: Track): Track {
    tr.(history := [])
  }

  /** The first n of ids take part in event id. */
  function Enrol(store: Table, ids: seq<TrackId>, id: int, n: nat): Table
    requires n <= |ids|
  {
    if n == 0 then store
    else var p := Enrol(store, ids, id, n - 1); p[ids[n - 1] := TakePart(At(p, ids[n - 1]), id)]
  }

  function ForgetHistory(store: Table, ids: seq<TrackId>, n: nat): Table
    requires n <= |ids|
  {
    if n == 0 then store
    else var p := ForgetHistory(store, ids, n - 1); p[ids[n - 1] := Forget(At(p, ids[n - 1]))]
  }

  function ParkThose(store: Table, ids: seq<TrackId>, n: nat): Table
    requires n <= |ids|
  {
    if n == 0 then store
    else var p := ParkThose(store, ids, n - 1); p[ids[n - 1] := Park(At(p, ids[n - 1]))]
  }

  /** The members at the end of the list are the faces. */
  function FacesLast(store: Table, ids: seq<TrackId>): seq<TrackId> {
    SortStable(ids, FaceKey(store))
  }

  function FaceKey(store: Table): TrackId -> real {
    (t: TrackId) => if At(store, t).kind == Face then 1.0 else 0.0
  }

  function LeaveKey(store: Table): TrackId -> real {
    (t: TrackId) => match At(store, t).kind
      case Face => 10.0
      case Person => 1.0
      case Vehicle => 2.0
      case Animal => 3.0
      case _ => 9.0
  }

  function ReportBox(tr: Track): Box {
    if tr.smooth.Some? then tr.smooth.value else tr.coord
  }

  function LiveMembers(store: Table, ids: seq<TrackId>): (r: seq<Member>)
    ensures |r| == |ids| && forall k :: 0 <= k < |r| ==> r[k].tid == ids[k]
  {
    seq(|ids|, k requires 0 <= k < |ids| =>
      Member(ids[k], ReportBox(At(store, ids[k])), At(store, ids[k]).score))
  }

  /** The joining ones of the active tracks. */
  function Among(ids: seq<TrackId>, joining: seq<TrackId>): (r: seq<TrackId>)
    ensures forall t :: t in r <==> t in ids && t in joining
  {
    if ids == [] then []
    else
      var last := ids[|ids| - 1];
      Among(ids[..|ids| - 1], joining) + (if last in joining then [last] else [])
  }

  /** The distinct stamps before cur at which one of ids was seen, in order of recording. */
  function AddStamps(stamps: seq<Stamp>, h: seq<Seen>, cur: Stamp): (r: seq<Stamp>)
    ensures forall x :: x in r <==> x in stamps || (x.mono < cur.mono && exists k :: 0 <= k < |h| && h[k].at == x)
    ensures NoDup(stamps) ==> NoDup(r)
  {
    if h == [] then stamps
    else
      var last, r := h[|h| - 1], AddStamps(stamps, h[..|h| - 1], cur);
      assert h == h[..|h| - 1] + [last];
      if last.at.mono < cur.mono && last.at !in r then r + [last.at] else r
  }

  function Stamps(store: Table, ids: seq<TrackId>, cur: Stamp): seq<Stamp> {
    if ids == [] then []
    else AddStamps(Stamps(store, ids[..|ids| - 1], cur), At(store, ids[|ids| - 1]).history, cur)
  }

  function Mono(): Stamp -> real {
    (x: Stamp) => x.mono as real
  }

  function SortedStamps(store: Table, ids: seq<TrackId>, cur: Stamp): seq<Stamp> {
    SortStable(Stamps(store, ids, cur), Mono())
  }

  /** The last remembered frame at or before a stamp. */
  function LatestSeen(h: seq<Seen>, at: Stamp): Option<Seen> {
    if h == [] then None
    else if h[|h| - 1].at.mono <= at.mono then Some(h[|h| - 1])
    else LatestSeen(h[..|h| - 1], at)
  }

  /** Where the joining tracks among ids were at a stamp. */
  function MembersAt(store: Table, ids: seq<TrackId>, at: Stamp): seq<Member> {
    if ids == [] then []
    else
      var last := ids[|ids| - 1];
      var seen := LatestSeen(At(store, last).history, at);
      MembersAt(store, ids[..|ids| - 1], at)
      + (if seen.Some? then [Member(last, seen.value.coord, seen.value.score)] else [])
  }

  /** Back-dated messages for the first n stamps, at least a report interval apart. */
  function Backfill(c: Config, store: Table, ids: seq<TrackId>, id: int, stamps: seq<Stamp>, n: nat): seq<Message>
    requires n <= |stamps|
  {
    if n == 0 then []
    else
      var sent, at := Backfill(c, store, ids, id, stamps, n - 1), stamps[n - 1];
      var members := MembersAt(store, ids, at);
      if (sent != [] && at.mono - sent[|sent| - 1].at.mono < c.reportMs) || members == [] then sent
      else sent + [Message(if sent == [] then Enter else Moving, id, at, true, members)]
  }

  function OpenEvent(c: Config, inp: Input, s: State, joining: seq<TrackId>, active: seq<TrackId>): State {
    var id := s.counter + inp.skipped;
    var store := Enrol(s.store, active, id, |active|);
    var starters := Among(FacesLast(store, active), joining);
    var stamps := SortedStamps(store, starters, inp.at);
    var filled := Backfill(c, store, starters, id, stamps, |stamps|);
    var after := ForgetHistory(store, starters, |starters|);
    var first := Message(if filled == [] then Enter else Moving, id, inp.at, false,
                         LiveMembers(after, FacesLast(after, active)));
    s.(store := after, event := Some(Event(id, Now(c, inp), [])), counter := id + 1,
       trace := s.trace + filled + [first], lastReportMs := Some(Now(c, inp)), joined := set t | t in active)
  }

  function CloseEvent(inp: Input, s: State, e: Event, active: seq<TrackId>): State {
    var members := e.finished + active;
    var order := SortStable(members, LeaveKey(s.store));
    s.(event := None, store := ParkThose(s.store, active, |active|), joined := {},
       trace := if members == [] then s.trace   // nothing to report: closed without a leave
                else s.trace + [Message(Leave, e.id, inp.at, false, LiveMembers(s.store, order))])
  }

  /** The active tracks seen since the last report. */
  function SeenSince(store: Table, ids: seq<TrackId>, last: Option<int>): (r: seq<TrackId>)
    ensures forall t :: t in r <==> t in ids && (last.None? || At(store, t).seenMs > last.value)
  {
    if ids == [] then []
    else
      var t := ids[|ids| - 1];
      SeenSince(store, ids[..|ids| - 1], last) + (if last.None? || At(store, t).seenMs > last.value then [t] else [])
  }

  predicate ReportDue(c: Config, s: State, now: int) {
    s.lastReportMs.None? || now - s.lastReportMs.value >= c.reportMs
  }

  function ReportEvent(c: Config, inp: Input, s: State, e: Event, active: seq<TrackId>): State {
    var now := Now(c, inp);
    var seen := SeenSince(s.store, active, s.lastReportMs);
    var s1 := s.(joined := s.joined + set t | t in active);
    if ReportDue(c, s, now) && seen != [] then
      s1.(trace := s.trace + [Message(Moving, e.id, inp.at, false, LiveMembers(s.store, FacesLast(s.store, seen)))],
          lastReportMs := Some(now))
    else s1
  }

  function Lifecycle(c: Config, inp: Input, w: Work): State {
    var active := ActiveIds(w.s.live, w.s.store);
    if w.s.event.None? then
      if w.joining != [] && active != [] then OpenEvent(c, inp, w.s, w.joining, active) else w.s
    else
      var e := w.s.event.value;
      var s := w.s.(store := ForgetHistory(Enrol(w.s.store, w.joining, e.id, |w.joining|), w.joining, |w.joining|));
      if active == [] || Now(c, inp) - e.startedMs >= inp.eventMaxMs then CloseEvent(inp, s, e, active)
      else ReportEvent(c, inp, s, e, active)
  }

  // ----- the tick ---------------------------------------------------------------------------------

  ghost predicate InputOk(s: State, inp: Input) {
    Pipeline.FrameOk(s.live, s.store, inp.dets, inp.assoc, s.ids)
  }

  function Matches(c: Config, s: State, inp: Input): Pipeline.Result
    requires InputOk(s, inp)
  {
    Pipeline.Match(c.norfair, s.live, s.store, inp.dets, inp.assoc, s.ids)
  }

  /** A tick up to its zone check, given what was matched. */
  function Gather(c: Config, s: State, inp: Input, m: Pipeline.Result): (r: Work)
    ensures SameRecord(s, r.s)
  {
    var s0 := Begin(c, s, inp).(ids := m.ids);
    var w1 := FollowAll(c, inp, m, Work(s0, []), s0.live, |s0.live|);
    var w2 := AdmitAll(c, inp, m, Starting(c, s0, inp), w1, |m.claims.unclaimed|);
    var s3 := LinkAll(inp, w2.s, |w2.s.live|);
    var s4 := RememberAll(c, inp, s3, |s3.live|);
    var w5 := ConfirmAll(c, inp, Work(s4, w2.joining), |s4.live|);
    var s6 := ParkAll(w5.s, |w5.s.live|);
    AccompanyAll(Work(s6, w5.joining), |s6.live|)
  }

  function TickWith(c: Config, s: State, inp: Input, m: Pipeline.Result): State {
    Lifecycle(c, inp, HoldForZones(Gather(c, s, inp, m)))
  }

  /** One analysed frame. */
  function Tick(c: Config, s: State, inp: Input): State
    requires InputOk(s, inp)
  {
    TickWith(c, s, inp, Matches(c, s, inp))
  }

  /** A camera before its first frame. */
  function Initial(counter: int): State {
    State([], map[], [], 1, None, None, None, map[], counter, [], {}, {})
  }
}
