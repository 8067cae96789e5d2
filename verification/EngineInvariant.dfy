/** What holds of the event engine within a tick and after it. */
module EngineInvariant {
  import opened Wrappers
  import opened Geometry
  import opened Lists
  import opened Tracks
  import opened Matching
  import opened Engine
  import Norfair
  import Faces
  import Pipeline
  import ScoreGate

  ghost predicate InRecent(s: State, tid: TrackId) {
    exists k :: 0 <= k < |s.recent| && s.recent[k].tid == tid
  }

  ghost predicate RecentOk(recent: seq<Closed>) {
    forall j, k :: 0 <= j < k < |recent| ==> recent[j].tid != recent[k].tid
  }

  ghost predicate InFinished(s: State, tid: TrackId) {
    s.event.Some? && tid in s.event.value.finished
  }

  /** Ids in use belong to tracks; a live id is neither repeated nor recently closed; ids and event
      ids still to be given out are larger than all used ones. */
  ghost predicate Structure(s: State) {
    && NoDup(s.live) && Tracked(s.live, s.store)
    && RecentOk(s.recent)
    && (forall k :: 0 <= k < |s.recent| ==> s.recent[k].tid in s.store && s.recent[k].tid !in s.live)
    && (forall t :: t in s.store ==> t < s.nextId)
    && (forall t :: t in s.store && s.store[t].eventId.Some? ==> s.store[t].eventId.value < s.counter)
    && Norfair.IdsOk(s.store, s.ids)
    && (s.event.Some? ==>
          && s.event.value.id < s.counter
          && NoDup(s.event.value.finished)
          && forall t :: t in s.event.value.finished ==> t in s.store)
  }

  /** A participant of the open event: active now, or in its finished list. */
  ghost predicate Participates(s: State, tid: TrackId) {
    && s.event.Some? && tid in s.store
    && s.store[tid].zoned && s.store[tid].confirmed && s.store[tid].eventId == Some(s.event.value.id)
    && (tid in s.event.value.finished || (tid in s.live && s.store[tid].parked.None?))
  }

  /** What a tick keeps of one track, with J the tracks joining so far. A live moving track is never
      in the finished list; a parked or recently closed one is confirmed; and whoever could take part
      is joining, waits for a zone, or takes part already. A confirmed track of a kind that confirms
      by its own scores passed the score gate or was there when the camera started. */
  ghost predicate Role(s: State, J: set<TrackId>, tid: TrackId)
    requires tid in s.store
  {
    var tr := s.store[tid];
    && (tid in s.live && tr.parked.Some? ==> tr.confirmed)
    && (InRecent(s, tid) ==> tr.confirmed)
    && (tid in s.live && InFinished(s, tid) ==> tr.parked.Some?)
    && (tid in s.live && tr.confirmed && tr.parked.None? ==> tid in J || tr.awaitingZone || tid in s.joined)
    && (tid in J ==> tid in s.live && tr.confirmed)
    && (tid in s.joined ==> Participates(s, tid))
    && (tr.confirmed && ConfirmWith(tr.kind).None? ==> tr.gate.truePositive || tid in s.early)
    && Enlisted(s, J, tid)
  }

  /** A finished track is confirmed and one with an event id has been in a zone. Whoever carries the open
      event's id unparked takes part, or has just woken and is joining. Every track has a score. */
  ghost predicate Enlisted(s: State, J: set<TrackId>, tid: TrackId)
    requires tid in s.store
  {
    var tr := s.store[tid];
    && (InFinished(s, tid) ==> tr.confirmed)
    && (tr.eventId.Some? ==> tr.zoned)
    && (s.event.Some? && tr.eventId == Some(s.event.value.id) && tr.parked.None? ==>
          tid in s.joined || (tid in J && !tr.still))
    && tr.gate.history != []
  }

  /** Within a tick: nobody who took part is lost. */
  ghost predicate Mid(s: State, J: set<TrackId>) {
    && Structure(s)
    && (forall t :: t in J ==> t in s.store)
    && (forall t :: t in s.joined ==> t in s.store)
    && (s.event.Some? <==> s.joined != {})
    && (forall t :: t in s.store ==> Role(s, J, t))
  }

  /** Between ticks: everyone active takes part in the open event, an open event has someone active,
      and a confirmed moving track that has not been in a zone waits for one. */
  ghost predicate Inv(s: State) {
    && Mid(s, {})
    && (forall t :: t in s.live && Active(s.store[t]) ==> t in s.joined)
    && (s.event.Some? ==> exists t :: t in s.live && Active(s.store[t]))
  }

  // ----- single steps -----------------------------------------------------------------------------

  /** r is tr later: the latches hold, and its kind, event and waiting are the same. */
  predicate Later(tr: Track, r: Track) {
    && r.kind == tr.kind && r.awaitingZone == tr.awaitingZone && r.eventId == tr.eventId
    && (tr.confirmed ==> r.confirmed) && (tr.zoned ==> r.zoned)
    && (tr.gate.truePositive ==> r.gate.truePositive) && (tr.gate.history != [] ==> r.gate.history != [])
  }

  /** tr becomes r without changing how it takes part. */
  predicate Quiet(tr: Track, r: Track) {
    Later(tr, r) && r.confirmed == tr.confirmed && r.parked.Some? == tr.parked.Some?
  }

  /** s and r agree on everything about tid. */
  ghost predicate SameFor(s: State, r: State, tid: TrackId) {
    && (tid in s.store) && (tid in r.store) && r.store[tid] == s.store[tid]
    && (tid in r.live <==> tid in s.live)
    && (InRecent(r, tid) <==> InRecent(s, tid))
    && (InFinished(r, tid) <==> InFinished(s, tid))
    && (tid in r.joined <==> tid in s.joined)
    && (tid in r.early <==> tid in s.early)
    && r.event.Some? == s.event.Some?
    && (s.event.Some? ==> r.event.value.id == s.event.value.id)
  }

  lemma SameRole(s: State, r: State, J: set<TrackId>, K: set<TrackId>, tid: TrackId)
    requires SameFor(s, r, tid) && Role(s, J, tid) && (tid in K <==> tid in J)
    ensures Role(r, K, tid)
  {}

  /** A step that concerns only tid keeps Mid if it keeps the structure and tid's own role. */
  lemma OneTrack(s: State, r: State, J: set<TrackId>, K: set<TrackId>, tid: TrackId)
    requires Mid(s, J) && Structure(r) && r.joined == s.joined
    requires forall t :: t in s.store && t != tid ==> SameFor(s, r, t) && (t in K <==> t in J)
    requires forall t :: t in r.store ==> t in s.store || t == tid
    requires tid in r.store && Role(r, K, tid)
    requires forall t :: t in K ==> t in r.store
    requires r.event.Some? == s.event.Some?
    ensures Mid(r, K)
  {
    hide Structure;
    forall t | t in r.store
      ensures Role(r, K, t)
    {
      if t != tid {
        assert SameFor(s, r, t);
        SameRole(s, r, J, K, t);
      }
    }
  }

  lemma MidParts(s: State, J: set<TrackId>)
    requires Mid(s, J)
    ensures Structure(s) && (forall t :: t in J || t in s.joined || t in s.live ==> t in s.store)
    ensures forall k :: 0 <= k < |s.recent| ==> s.recent[k].tid in s.store && s.recent[k].tid !in s.live
  {
    hide Role;
  }

  lemma RoleIn(s: State, J: set<TrackId>, tid: TrackId)
    requires Mid(s, J) && tid in s.store
    ensures Role(s, J, tid)
  {
    hide Role, Structure;
  }

  lemma PutStructure(s: State, tid: TrackId, r: Track)
    requires Structure(s) && tid in s.store && r.kind == s.store[tid].kind && r.eventId == s.store[tid].eventId
    ensures Structure(Put(s, tid, r))
    ensures forall t :: InRecent(Put(s, tid, r), t) <==> InRecent(s, t)
  {}

  /** The same for a step that only rewrites tid's track. */
  lemma OnePut(s: State, J: set<TrackId>, K: set<TrackId>, tid: TrackId, r: Track)
    requires Mid(s, J) && tid in s.store && r.kind == s.store[tid].kind && r.eventId == s.store[tid].eventId
    requires Role(Put(s, tid, r), K, tid)
    requires forall t :: t in K && t != tid ==> t in J
    requires forall t :: t in J && t != tid ==> t in K
    ensures Mid(Put(s, tid, r), K)
  {
    hide Structure, Mid, InRecent, Role;
    MidParts(s, J);
    PutStructure(s, tid, r);
    OneTrack(s, Put(s, tid, r), J, K, tid);
  }

  lemma QuietKeeps(s: State, J: set<TrackId>, tid: TrackId, r: Track)
    requires Mid(s, J) && tid in s.store && Quiet(s.store[tid], r)
    requires tid !in J || r.still == s.store[tid].still
    ensures Mid(Put(s, tid, r), J)
  {
    RoleIn(s, J, tid);
    hide Structure, Mid;
    OnePut(s, J, J, tid, r);
  }

  lemma UnfinishStructure(s: State, tid: TrackId, r: Track)
    requires Structure(s) && tid in s.store && r.kind == s.store[tid].kind && r.eventId == s.store[tid].eventId
    ensures Structure(Put(Unfinish(s, tid), tid, r))
    ensures forall t :: InRecent(Put(Unfinish(s, tid), tid, r), t) <==> InRecent(s, t)
  {}

  lemma WakeKeeps(s: State, J: set<TrackId>, tid: TrackId, r: Track)
    requires Mid(s, J) && tid in s.live && s.store[tid].parked.Some? && r.parked.None? && Later(s.store[tid], r)
    requires !r.still
    ensures Mid(Put(Unfinish(s, tid), tid, r), J + {tid})
  {
    hide Structure, Mid;
    MidParts(s, J);
    RoleIn(s, J, tid);
    UnfinishStructure(s, tid, r);
    OneTrack(s, Put(Unfinish(s, tid), tid, r), J, J + {tid}, tid);
  }

  lemma DropStructure(s: State, tid: TrackId)
    requires Structure(s)
    ensures Structure(s.(live := Without(s.live, tid)))
    ensures forall t :: InRecent(s.(live := Without(s.live, tid)), t) <==> InRecent(s, t)
  {}

  lemma DropKeeps(s: State, J: set<TrackId>, tid: TrackId)
    requires Mid(s, J) && tid in s.live && !s.store[tid].confirmed
    ensures Mid(s.(live := Without(s.live, tid)), J)
  {
    hide Structure, Mid;
    MidParts(s, J);
    RoleIn(s, J, tid);
    DropStructure(s, tid);
    OneTrack(s, s.(live := Without(s.live, tid)), J, J, tid);
  }

  function Close(s: State, tid: TrackId, at: int, done: bool): State {
    var r := s.(live := Without(s.live, tid), recent := s.recent + [Closed(tid, at)]);
    if done then Finish(r, tid) else r
  }

  lemma CloseStructure(s: State, tid: TrackId, at: int, done: bool)
    requires Structure(s) && tid in s.live && (done ==> !InFinished(s, tid))
    ensures Structure(Close(s, tid, at, done))
    ensures forall t :: InRecent(Close(s, tid, at, done), t) <==> InRecent(s, t) || t == tid
  {
    var r := Close(s, tid, at, done);
    assert forall k :: 0 <= k < |s.recent| ==> r.recent[k] == s.recent[k] && r.recent[k].tid != tid;
    assert r.recent[|s.recent|].tid == tid;
  }

  lemma CloseKeeps(s: State, J: set<TrackId>, tid: TrackId, at: int)
    requires Mid(s, J) && tid in s.live && tid !in J && s.store[tid].confirmed
    ensures Mid(Close(s, tid, at, s.store[tid].parked.None?), J)
  {
    hide Structure, Mid;
    MidParts(s, J);
    RoleIn(s, J, tid);
    CloseStructure(s, tid, at, s.store[tid].parked.None?);
    OneTrack(s, Close(s, tid, at, s.store[tid].parked.None?), J, J, tid);
  }

  /** A track moves from the recently closed list back to the live table. */
  function Reopen(s: State, k: nat): State
    requires k < |s.recent|
  {
    s.(live := s.live + [s.recent[k].tid], recent := s.recent[..k] + s.recent[k + 1..])
  }

  lemma ReopenStructure(s: State, k: nat)
    requires Structure(s) && k < |s.recent|
    ensures Structure(Reopen(s, k))
    ensures forall t :: InRecent(Reopen(s, k), t) <==> InRecent(s, t) && t != s.recent[k].tid
  {
    var r, tid := Reopen(s, k), s.recent[k].tid;
    assert tid !in s.live;
    assert forall i :: 0 <= i < |r.recent| ==> r.recent[i] == s.recent[if i < k then i else i + 1];
    forall t
      ensures InRecent(r, t) <==> InRecent(s, t) && t != tid
    {
      if InRecent(s, t) && t != tid {
        var i :| 0 <= i < |s.recent| && s.recent[i].tid == t;
        assert r.recent[if i < k then i else i - 1].tid == t;
      }
    }
  }

  lemma ResumeKeeps(s: State, J: set<TrackId>, k: nat, r: Track)
    requires Mid(s, J) && k < |s.recent| && s.store[s.recent[k].tid].parked.None? && r.parked.None?
    requires Later(s.store[s.recent[k].tid], r)
    ensures Mid(Put(Unfinish(Reopen(s, k), s.recent[k].tid), s.recent[k].tid, r), J + {s.recent[k].tid})
  {
    hide Structure, Mid;
    MidParts(s, J);
    var tid := s.recent[k].tid;
    RoleIn(s, J, tid);
    assert InRecent(s, tid);
    hide InRecent;
    ReopenStructure(s, k);
    UnfinishStructure(Reopen(s, k), tid, r);
    var s1 := Put(Unfinish(Reopen(s, k), tid), tid, r);
    OneTrack(s, s1, J, J + {tid}, tid);
  }

  lemma ResumeParkedKeeps(s: State, J: set<TrackId>, k: nat, r: Track)
    requires Mid(s, J) && k < |s.recent| && r.parked.Some?
    requires Later(s.store[s.recent[k].tid], r)
    ensures Mid(Put(Reopen(s, k), s.recent[k].tid, r), J)
  {
    hide Structure, Mid;
    MidParts(s, J);
    var tid := s.recent[k].tid;
    RoleIn(s, J, tid);
    assert InRecent(s, tid);
    hide InRecent;
    ReopenStructure(s, k);
    PutStructure(Reopen(s, k), tid, r);
    var s1 := Put(Reopen(s, k), tid, r);
    OneTrack(s, s1, J, J, tid);
  }

  /** A new id with its track enters the live table. */
  function Admit(s: State, r: Track, early: bool): State {
    Put(s.(live := s.live + [s.nextId], nextId := s.nextId + 1, early := if early then s.early + {s.nextId} else s.early),
        s.nextId, r)
  }

  lemma AdmitStructure(s: State, r: Track, early: bool)
    requires Structure(s) && r.eventId.None?
    ensures Structure(Admit(s, r, early))
    ensures s.nextId !in s.store && s.nextId !in s.live && !InFinished(s, s.nextId) && !InRecent(s, s.nextId)
    ensures forall t :: InRecent(Admit(s, r, early), t) <==> InRecent(s, t)
  {}

  lemma AdmitKeeps(s: State, J: set<TrackId>, r: Track, early: bool)
    requires Mid(s, J) && r.eventId.None? && r.gate.history != []
    requires r.parked.Some? ==> r.confirmed
    requires r.confirmed && ConfirmWith(r.kind).None? ==> r.gate.truePositive || early
    ensures Mid(Admit(s, r, early), if r.confirmed && r.parked.None? then J + {s.nextId} else J)
  {
    hide Structure, Mid;
    MidParts(s, J);
    var tid := s.nextId;
    AdmitStructure(s, r, early);
    OneTrack(s, Admit(s, r, early), J, if r.confirmed && r.parked.None? then J + {tid} else J, tid);
  }

  lemma ConfirmKeeps(s: State, J: set<TrackId>, tid: TrackId)
    requires Mid(s, J) && tid in s.live && !s.store[tid].confirmed
    requires ConfirmWith(s.store[tid].kind).None? ==> s.store[tid].gate.truePositive
    ensures Mid(Put(s, tid, s.store[tid].(confirmed := true)), J + {tid})
  {
    hide Structure, Mid;
    MidParts(s, J);
    RoleIn(s, J, tid);
    OnePut(s, J, J + {tid}, tid, s.store[tid].(confirmed := true));
  }

  function ParkNow(s: State, tid: TrackId, r: Track): State {
    var s1 := Put(s, tid, r);
    if s.event.Some? && r.eventId == Some(s.event.value.id) then Finish(s1, tid) else s1
  }

  lemma ParkStructure(s: State, tid: TrackId, r: Track)
    requires Structure(s) && tid in s.store && !InFinished(s, tid)
    requires r.kind == s.store[tid].kind && r.eventId == s.store[tid].eventId
    ensures Structure(ParkNow(s, tid, r))
    ensures forall t :: InRecent(ParkNow(s, tid, r), t) <==> InRecent(s, t)
  {}

  lemma ParkKeeps(s: State, J: set<TrackId>, tid: TrackId, r: Track)
    requires Mid(s, J) && tid in s.live && s.store[tid].parked.None? && r.parked.Some? && r.confirmed
    requires Later(s.store[tid], r)
    requires !s.store[tid].confirmed && ConfirmWith(s.store[tid].kind).None? ==> s.store[tid].gate.truePositive
    ensures Mid(ParkNow(s, tid, r), J)
  {
    hide Structure, Mid;
    MidParts(s, J);
    RoleIn(s, J, tid);
    ParkStructure(s, tid, r);
    OneTrack(s, ParkNow(s, tid, r), J, J, tid);
  }

  lemma ReleaseKeeps(s: State, J: set<TrackId>, tid: TrackId)
    requires Mid(s, J) && tid in s.live && s.store[tid].confirmed
    ensures Mid(Put(s, tid, s.store[tid].(awaitingZone := false)), J + {tid})
  {
    hide Structure, Mid;
    MidParts(s, J);
    RoleIn(s, J, tid);
    OnePut(s, J, J + {tid}, tid, s.store[tid].(awaitingZone := false));
  }

  lemma WaitKeeps(s: State, J: set<TrackId>, tid: TrackId)
    requires Mid(s, J) && tid in s.store && s.store[tid].confirmed && !s.store[tid].zoned
    ensures Mid(Put(s, tid, s.store[tid].(awaitingZone := true)), J - {tid})
  {
    hide Structure, Mid;
    MidParts(s, J);
    RoleIn(s, J, tid);
    OnePut(s, J, J - {tid}, tid, s.store[tid].(awaitingZone := true));
  }

  // ----- phases -----------------------------------------------------------------------------------

  function Joining(w: Work): set<TrackId> {
    set t | t in w.joining
  }

  ghost predicate Sane(w: Work) {
    Mid(w.s, Joining(w))
  }

  lemma JoiningAppend(w: Work, s: State, tid: TrackId)
    ensures Joining(Work(s, w.joining + [tid])) == Joining(w) + {tid}
  {}

  lemma TakeIsQuiet(c: Config, tr: Track, d: Detection)
    ensures Quiet(tr, Take(c, tr, d)) && Take(c, tr, d).parked == tr.parked
  {
    ScoreGate.RecordHasHistory(tr.gate, d.score, c.minInit, c.threshold(tr.kind));
    hide Iou, Blend, CenterMoved, LastSizes, ScoreGate.LastScores, ScoreGate.Median;
  }

  lemma NotedIsQuiet(c: Config, inp: Input, tid: TrackId, tr: Track, d: Detection)
    ensures Quiet(tr, Noted(c, inp, tid, tr, d)) && Noted(c, inp, tid, tr, d).parked == tr.parked
    ensures Noted(c, inp, tid, tr, d).still == tr.still
  {
    NoteIsQuiet(tr, d, Now(c, inp), tid in inp.held);
    hide Note;
  }

  lemma NoteIsQuiet(tr: Track, d: Detection, now: int, held: bool)
    ensures Quiet(tr, Note(tr, d, now, held)) && Note(tr, d, now, held).parked == tr.parked
    ensures Note(tr, d, now, held).still == tr.still
  {}

  lemma MatchedKeeps(c: Config, inp: Input, w: Work, tid: TrackId, d: Detection)
    requires Sane(w) && tid in w.s.live && tid !in w.joining
    ensures Sane(Matched(c, inp, w, tid, d))
    ensures Matched(c, inp, w, tid, d).s.live == w.s.live
    ensures Matched(c, inp, w, tid, d).joining in {w.joining, w.joining + [tid]}
  {
    hide Mid, Iou, Shifted, Take, Wake, Noted, Quiet, Later;
    var tr, now := Take(c, At(w.s.store, tid), d), Now(c, inp);
    InStore(w.s, Joining(w), tid);
    var was := w.s.store[tid];
    TakeIsQuiet(c, was, d);
    if tr.parked.Some? && MovedSince(c, tr) {
      if tid in inp.samePixels {
        QuietChain(c, inp, tid, was, tr, Settle(tr), d);
        QuietKeeps(w.s, Joining(w), tid, Noted(c, inp, tid, Settle(tr), d));
      } else {
        WakeChain(c, inp, tid, was, tr, d);
        WakeKeeps(w.s, Joining(w), tid, Noted(c, inp, tid, Wake(c, tr, now), d));
        JoiningAppend(w, Matched(c, inp, w, tid, d).s, tid);
      }
    } else {
      var t1 := if tr.parked.Some? then CountShift(tr) else tr;
      QuietChain(c, inp, tid, was, tr, t1, d);
      QuietKeeps(w.s, Joining(w), tid, Noted(c, inp, tid, t1, d));
    }
  }

  /** A track taken, settled or counted, and noted takes part as before. */
  lemma QuietChain(c: Config, inp: Input, tid: TrackId, was: Track, tr: Track, t1: Track, d: Detection)
    requires Quiet(was, tr)
    requires t1 == tr || (tr.parked.Some? && (t1 == Settle(tr) || t1 == CountShift(tr)))
    ensures Quiet(was, Noted(c, inp, tid, t1, d))
  {
    NotedIsQuiet(c, inp, tid, t1, d);
    hide Noted, LeftSpot, Shifted;
    assert Quiet(tr, t1);
  }

  lemma WakeChain(c: Config, inp: Input, tid: TrackId, was: Track, tr: Track, d: Detection)
    requires Quiet(was, tr)
    ensures var r := Noted(c, inp, tid, Wake(c, tr, Now(c, inp)), d); Later(was, r) && r.parked.None? && !r.still
  {
    hide Noted, Wake;
    WakeIsLater(c, tr, Now(c, inp));
    NotedIsQuiet(c, inp, tid, Wake(c, tr, Now(c, inp)), d);
  }

  lemma InStore(s: State, J: set<TrackId>, tid: TrackId)
    requires Mid(s, J) && tid in s.live
    ensures tid in s.store && At(s.store, tid) == s.store[tid]
  {}

  lemma WakeIsLater(c: Config, tr: Track, now: int)
    ensures Later(tr, Wake(c, tr, now)) && Wake(c, tr, now).parked.None? && !Wake(c, tr, now).still
  {}

  /** A track missed for the last time. */
  function LastMiss(c: Config, inp: Input, tr: Track, tid: TrackId): Track {
    var now := Now(c, inp);
    if tr.kind == Vehicle && tid in inp.pendingAnswers then tr.(holdMs := Some(HoldStart(tr, now))) else tr
  }

  lemma MissedIsOneOf(c: Config, inp: Input, s: State, tid: TrackId)
    requires tid in s.store
    ensures var tr := MissedTrack(c, s.store[tid]);
            var t2, r := LastMiss(c, inp, tr, tid), Missed(c, inp, s, tid);
            || (!tr.confirmed && r == Put(s, tid, tr).(live := Without(s.live, tid)))
            || r == Put(s, tid, tr)
            || r == Put(s, tid, t2)
            || (tr.confirmed && r == Close(Put(s, tid, t2), tid, Now(c, inp), t2.parked.None?))
  {
    hide ScoreGate.Record;
  }

  /** A miss that uses up the track's tolerance. */
  predicate OutOfTolerance(c: Config, tr: Track) {
    tr.missCount + 1 >= Tolerance(c, tr)
  }

  /** A vehicle waiting for its model's answer, for no longer than the answer may take. */
  predicate WaitsForAnswer(c: Config, inp: Input, tid: TrackId, tr: Track) {
    tr.kind == Vehicle && tid in inp.pendingAnswers && Now(c, inp) - HoldStart(tr, Now(c, inp)) < VEHICLE_HOLD_MS
  }

  /** Exactly when a missed track goes, and where to: out of the live table if the miss uses up its
      tolerance, unless it is confirmed and a face kept by its person or a vehicle waiting for an answer;
      a confirmed one into the recently closed list, and into the open event's finished list unless it is
      parked. */
  lemma MissedExactly(c: Config, inp: Input, s: State, tid: TrackId)
    requires tid in s.store && tid in s.live
    ensures var tr, r := s.store[tid], Missed(c, inp, s, tid);
            var goes := OutOfTolerance(c, tr) && (tr.confirmed ==> !KeptByPerson(s, tr) && !WaitsForAnswer(c, inp, tid, tr));
            && r.live == (if goes then Without(s.live, tid) else s.live)
            && r.recent == (if goes && tr.confirmed then s.recent + [Closed(tid, Now(c, inp))] else s.recent)
            && (InFinished(r, tid) <==> InFinished(s, tid) || (goes && tr.confirmed && tr.parked.None? && s.event.Some?))
            && (forall t :: t != tid ==> (InFinished(r, t) <==> InFinished(s, t)))
            && r.store.Keys == s.store.Keys && r.store[tid].missCount == tr.missCount + 1
            && FlagsOf(r.store[tid]) == FlagsOf(tr) && r.store[tid].parked == tr.parked
  {
    MissedCases(c, inp, s, tid);
    MissLeaves(c, inp, s.store[tid], tid);
    hide Missed, MissedTrack, LastMiss, KeptByPerson, WaitsForAnswer, OutOfTolerance, Without;
  }

  /** What a miss leaves alone. */
  lemma MissLeaves(c: Config, inp: Input, tr: Track, tid: TrackId)
    ensures var r, r2 := MissedTrack(c, tr), LastMiss(c, inp, MissedTrack(c, tr), tid);
            && FlagsOf(r) == FlagsOf(tr) == FlagsOf(r2) && r.parked == tr.parked == r2.parked
            && r.missCount == tr.missCount + 1 == r2.missCount && r.personTid == tr.personTid && r.holdMs == tr.holdMs
  {
    hide ScoreGate.Record;
  }

  lemma MissedCases(c: Config, inp: Input, s: State, tid: TrackId)
    requires tid in s.store
    ensures var tr := s.store[tid];
            var t1, t2 := MissedTrack(c, tr), LastMiss(c, inp, MissedTrack(c, tr), tid);
            Missed(c, inp, s, tid)
            == if !OutOfTolerance(c, tr) then Put(s, tid, t1)
               else if !tr.confirmed then Put(s, tid, t1).(live := Without(s.live, tid))
               else if KeptByPerson(s, tr) then Put(s, tid, t1)
               else if WaitsForAnswer(c, inp, tid, tr) then Put(s, tid, t2)
               else Close(Put(s, tid, t2), tid, Now(c, inp), tr.parked.None?)
  {
    MissLeaves(c, inp, s.store[tid], tid);
    SameKeeper(s, tid, MissedTrack(c, s.store[tid]));
    hide MissedTrack, KeptByPerson, Without;
  }

  lemma SameKeeper(s: State, tid: TrackId, r: Track)
    requires tid in s.store && FlagsOf(r) == FlagsOf(s.store[tid]) && r.personTid == s.store[tid].personTid
    ensures KeptByPerson(Put(s, tid, r), r) <==> KeptByPerson(s, s.store[tid])
  {}

  lemma MissIsQuiet(c: Config, inp: Input, tr: Track, tid: TrackId)
    ensures Quiet(tr, MissedTrack(c, tr)) && Quiet(tr, LastMiss(c, inp, MissedTrack(c, tr), tid))
    ensures MissedTrack(c, tr).parked == LastMiss(c, inp, MissedTrack(c, tr), tid).parked == tr.parked
  {
    ScoreGate.RecordHasHistory(tr.gate, 0.0, c.minInit, c.threshold(tr.kind));
    hide ScoreGate.LastScores, ScoreGate.Median;
  }

  lemma MissedKeeps(c: Config, inp: Input, s: State, J: set<TrackId>, tid: TrackId)
    requires Mid(s, J) && tid in s.live && tid !in J
    ensures Mid(Missed(c, inp, s, tid), J)
    ensures forall t :: t in s.live && t != tid ==> t in Missed(c, inp, s, tid).live
  {
    InStore(s, J, tid);
    MissedIsOneOf(c, inp, s, tid);
    hide Mid, MissedTrack, LastMiss, Missed;
    var tr := MissedTrack(c, s.store[tid]);
    var t2, r := LastMiss(c, inp, tr, tid), Missed(c, inp, s, tid);
    MissIsQuiet(c, inp, s.store[tid], tid);
    QuietKeeps(s, J, tid, tr);
    QuietKeeps(s, J, tid, t2);
    if r != Put(s, tid, tr) && r != Put(s, tid, t2) {
      if tr.confirmed {
        CloseKeeps(Put(s, tid, t2), J, tid, Now(c, inp));
      } else {
        DropKeeps(Put(s, tid, tr), J, tid);
      }
    }
  }

  lemma FollowOneKeeps(c: Config, inp: Input, m: Pipeline.Result, w: Work, tid: TrackId)
    requires Sane(w) && tid in w.s.live && tid !in w.joining
    ensures Sane(FollowOne(c, inp, m, w, tid))
    ensures forall t :: t in w.s.live && t != tid ==> t in FollowOne(c, inp, m, w, tid).s.live
    ensures FollowOne(c, inp, m, w, tid).joining in {w.joining, w.joining + [tid]}
  {
    hide Mid, Matched, Missed;
    if tid in m.claims.matches && m.claims.matches[tid] < |inp.dets| {
      MatchedKeeps(c, inp, w, tid, inp.dets[m.claims.matches[tid]]);
    } else {
      MissedKeeps(c, inp, w.s, Joining(w), tid);
      assert Joining(w.(s := Missed(c, inp, w.s, tid))) == Joining(w);
    }
  }

  lemma {:induction false} FollowAllKeeps(c: Config, inp: Input, m: Pipeline.Result, s: State, n: nat)
    requires Mid(s, {}) && n <= |s.live|
    ensures var r := FollowAll(c, inp, m, Work(s, []), s.live, n);
            && Sane(r)
            && (forall k :: n <= k < |s.live| ==> s.live[k] in r.s.live)
            && (forall t :: t in r.joining ==> t in s.live[..n])
  {
    hide Mid, FollowOne;
    if n == 0 {
      assert Joining(Work(s, [])) == {};
    } else {
      FollowAllKeeps(c, inp, m, s, n - 1);
      var w, tid := FollowAll(c, inp, m, Work(s, []), s.live, n - 1), s.live[n - 1];
      LiveDistinct(s, {}, n - 1);
      assert s.live[..n] == s.live[..n - 1] + [tid];
      FollowOneKeeps(c, inp, m, w, tid);
    }
  }

  lemma LiveDistinct(s: State, J: set<TrackId>, n: nat)
    requires Mid(s, J) && n < |s.live|
    ensures s.live[n] !in s.live[..n]
    ensures forall k :: 0 <= k < |s.live| && k != n ==> s.live[k] != s.live[n]
  {}

  lemma ResumeOneKeeps(c: Config, inp: Input, m: Pipeline.Result, w: Work, idx: nat, d: Detection, k: nat)
    requires Sane(w) && k < |w.s.recent| && ResumeHow(At(w.s.store, w.s.recent[k].tid), w.s.event).Some?
    requires idx in m.pending ==> m.pending[idx].kind == At(w.s.store, w.s.recent[k].tid).kind
    ensures Sane(Resume(c, inp, m, w, idx, d, k))
  {
    var tid := w.s.recent[k].tid;
    var tr := At(w.s.store, tid);
    assert tr == w.s.store[tid];
    var s := w.s.(ids := BindPending(w.s, m, idx, tid).ids);
    BindKeeps(w.s, Joining(w), m, idx, tid);
    hide Mid, Resumed;
    var r := Resumed(c, inp, tid, tr, d);
    ResumedIsQuiet(c, inp, tid, tr, d);
    if ResumeHow(tr, w.s.event).value.BackInEvent? {
      ResumeKeeps(s, Joining(w), k, r);
      JoiningAppend(w, Resume(c, inp, m, w, idx, d, k).s, tid);
      assert Resume(c, inp, m, w, idx, d, k).s == Put(Unfinish(Reopen(s, k), tid), tid, r);
    } else {
      ResumeParkedKeeps(s, Joining(w), k, Park(r));
      assert Resume(c, inp, m, w, idx, d, k).s == Put(Reopen(s, k), tid, Park(r));
    }
  }

  lemma ResumedIsQuiet(c: Config, inp: Input, tid: TrackId, tr: Track, d: Detection)
    ensures Quiet(tr, Resumed(c, inp, tid, tr, d))
  {
    hide Iou, Blend, LastSizes, Note, Noted;
    var t1 := Follow(tr, d.coord).(score := d.score, missCount := 0);
    assert Quiet(tr, t1);
    StillIsQuiet(c, t1);
    NotedIsQuiet(c, inp, tid, UpdateStill(c, t1), d);
  }

  lemma StillIsQuiet(c: Config, tr: Track)
    ensures Quiet(tr, UpdateStill(c, tr))
  {
    hide Iou;
  }

  lemma BindKeeps(s: State, J: set<TrackId>, m: Pipeline.Result, idx: nat, tid: TrackId)
    requires Mid(s, J) && tid in s.store
    requires idx in m.pending ==> m.pending[idx].kind == s.store[tid].kind
    ensures Mid(s.(ids := BindPending(s, m, idx, tid).ids), J)
  {
    var r := s.(ids := BindPending(s, m, idx, tid).ids);
    assert Structure(r);
    assert forall t :: InRecent(r, t) <==> InRecent(s, t);
    hide Structure;
    forall t | t in r.store
      ensures Role(r, J, t)
    {
      assert Role(s, J, t);
      SameRole(s, r, J, J, t);
    }
  }

  lemma OpenedFacts(c: Config, inp: Input, starting: bool, tid: TrackId, d: Detection)
    ensures var r := Opened(c, inp, starting, tid, d);
            && r.kind == d.kind && r.eventId.None? && r.parked.Some? == starting
            && (starting ==> r.confirmed)
            && (r.confirmed && !starting ==> r.gate.truePositive) && r.gate.history != []
  {
    ScoreGate.RecordHasHistory(ScoreGate.EMPTY, d.score, c.minInit, c.threshold(d.kind));
    hide Iou, ScoreGate.LastScores, ScoreGate.Median;
  }

  lemma OpenOneKeeps(c: Config, inp: Input, m: Pipeline.Result, starting: bool, w: Work, idx: nat, d: Detection)
    requires Sane(w) && (idx in m.pending ==> m.pending[idx].kind == d.kind)
    ensures Sane(Open(c, inp, m, starting, w, idx, d))
  {
    hide Mid, Opened;
    var tid := w.s.nextId;
    var r := Opened(c, inp, starting, tid, d);
    OpenedFacts(c, inp, starting, tid, d);
    AdmitKeeps(w.s, Joining(w), r, starting);
    var s, J := Admit(w.s, r, starting), if r.confirmed && r.parked.None? then Joining(w) + {tid} else Joining(w);
    assert s.store[tid] == r;
    BindKeeps(s, J, m, idx, tid);
    var o := Open(c, inp, m, starting, w, idx, d);
    assert o.s == s.(ids := BindPending(s, m, idx, tid).ids);
    if r.confirmed && !starting { JoiningAppend(w, o.s, tid); } else { assert Joining(o) == Joining(w); }
  }

  /** A pending Norfair id has the type of its detection. */
  ghost predicate PendingOk(inp: Input, m: Pipeline.Result) {
    forall i :: i in m.pending && i < |inp.dets| ==> m.pending[i].kind == inp.dets[i].kind
  }

  lemma {:induction false} AdmitAllKeeps(c: Config, inp: Input, m: Pipeline.Result, starting: bool, w: Work, n: nat)
    requires Sane(w) && PendingOk(inp, m) && n <= |m.claims.unclaimed|
    ensures Sane(AdmitAll(c, inp, m, starting, w, n))
  {
    hide Mid, Resume, Open, InsideParked, CanResume;
    if n > 0 {
      AdmitAllKeeps(c, inp, m, starting, w, n - 1);
      var p, idx := AdmitAll(c, inp, m, starting, w, n - 1), m.claims.unclaimed[n - 1];
      AdmitOneKeeps(c, inp, m, starting, p, idx);
    }
  }

  lemma AdmitOneKeeps(c: Config, inp: Input, m: Pipeline.Result, starting: bool, w: Work, idx: nat)
    requires Sane(w) && PendingOk(inp, m)
    ensures Sane(AdmitOne(c, inp, m, starting, w, idx))
  {
    hide Mid, Resume, Open, InsideParked, ResumeIou;
    if idx < |inp.dets| && !InsideParked(w.s, inp.dets[idx]) {
      var k := FindResume(w.s, inp.dets[idx], |w.s.recent|);
      if k.Some? {
        ResumeOneKeeps(c, inp, m, w, idx, inp.dets[idx], k.value);
      } else {
        OpenOneKeeps(c, inp, m, starting, w, idx, inp.dets[idx]);
      }
    }
  }

  lemma LinkPairKeeps(s: State, J: set<TrackId>, fid: TrackId, pid: TrackId)
    requires Mid(s, J) && fid in s.store && pid in s.store
    ensures Mid(LinkPair(s, fid, pid), J)
  {
    hide Mid;
    var f1 := s.store[fid].(personTid := Some(pid));
    QuietKeeps(s, J, fid, f1);
    var s1 := Put(s, fid, f1);
    QuietKeeps(s1, J, pid, WithFace(s1, s1.store[pid], fid));
  }

  lemma LinkOneKeeps(inp: Input, s: State, J: set<TrackId>, fid: TrackId)
    requires Mid(s, J) && fid in s.live
    ensures Mid(LinkOne(inp, s, fid), J)
  {
    hide Mid, LinkPair, Faces.Owner;
    InStore(s, J, fid);
    var pid := PersonOf(s, s.store[fid]);
    if pid.Some? {
      OwnerIsLive(s, s.store[fid]);
      hide PersonOf;
      InStore(s, J, pid.value);
      LinkPairKeeps(s, J, fid, pid.value);
      var s1 := LinkPair(s, fid, pid.value);
      assert fid in s1.store by { LinkPairStore(s, fid, pid.value); }
      var face, person := s1.store[fid], At(s1.store, pid.value);
      QuietKeeps(s1, J, fid, face.(zoned := face.zoned || (person.zoned && inp.faceZone(person.coord))));
    }
  }

  lemma OwnerIsLive(s: State, face: Track)
    requires PersonOf(s, face).Some?
    ensures PersonOf(s, face).value in s.live
  {}

  lemma LinkPairStore(s: State, fid: TrackId, pid: TrackId)
    ensures fid in LinkPair(s, fid, pid).store
  {}

  lemma {:induction false} LinkAllKeeps(inp: Input, s: State, J: set<TrackId>, n: nat)
    requires Mid(s, J) && n <= |s.live|
    ensures Mid(LinkAll(inp, s, n), J)
  {
    hide Mid, LinkOne;
    if n > 0 {
      LinkAllKeeps(inp, s, J, n - 1);
      LinkOneKeeps(inp, LinkAll(inp, s, n - 1), J, s.live[n - 1]);
    }
  }

  lemma {:induction false} RememberAllKeeps(c: Config, inp: Input, s: State, J: set<TrackId>, n: nat)
    requires Mid(s, J) && n <= |s.live|
    ensures Mid(RememberAll(c, inp, s, n), J)
  {
    hide Mid, RememberOne;
    if n > 0 {
      RememberAllKeeps(c, inp, s, J, n - 1);
      RememberOneKeeps(c, inp, RememberAll(c, inp, s, n - 1), J, s.live[n - 1]);
    }
  }

  lemma RememberOneKeeps(c: Config, inp: Input, p: State, J: set<TrackId>, tid: TrackId)
    requires Mid(p, J) && tid in p.live
    ensures Mid(RememberOne(c, inp, p, tid), J)
  {
    hide Mid, LastSeen;
    InStore(p, J, tid);
    var tr := p.store[tid];
    QuietKeeps(p, J, tid, tr.(history := LastSeen(tr.history + [Seen(inp.at, tr.coord, tr.score)])));
  }

  lemma {:induction false} ConfirmAllKeeps(c: Config, inp: Input, w: Work, n: nat)
    requires Sane(w) && n <= |w.s.live|
    ensures Sane(ConfirmAll(c, inp, w, n))
  {
    hide Mid, ConfirmOne;
    if n > 0 {
      ConfirmAllKeeps(c, inp, w, n - 1);
      ConfirmOneKeeps(c, inp, ConfirmAll(c, inp, w, n - 1), w.s.live[n - 1]);
    }
  }

  lemma ConfirmOneKeeps(c: Config, inp: Input, p: Work, tid: TrackId)
    requires Sane(p) && tid in p.s.live
    ensures Sane(ConfirmOne(c, inp, p, tid))
  {
    hide Mid;
    InStore(p.s, Joining(p), tid);
    if Confirmable(c, inp, p.s.store[tid]) {
      ConfirmKeeps(p.s, Joining(p), tid);
      JoiningAppend(p, ConfirmOne(c, inp, p, tid).s, tid);
    }
  }

  lemma {:induction false} ParkAllKeeps(s: State, J: set<TrackId>, n: nat)
    requires Mid(s, J) && n <= |s.live|
    ensures Mid(ParkAll(s, n), J)
  {
    hide Mid, ParkOne;
    if n > 0 {
      ParkAllKeeps(s, J, n - 1);
      ParkOneKeeps(ParkAll(s, n - 1), J, s.live[n - 1]);
    }
  }

  lemma ParkOneKeeps(p: State, J: set<TrackId>, tid: TrackId)
    requires Mid(p, J) && tid in p.live
    ensures Mid(ParkOne(p, tid), J)
  {
    InStore(p, J, tid);
    hide Mid;
    var tr := p.store[tid];
    var t1 := if StandsStill(tr) && !tr.confirmed && tr.gate.truePositive && !tr.leftFirstBox
              then tr.(confirmed := true) else tr;
    if StandsStill(t1) && t1.confirmed {
      ParkKeeps(p, J, tid, Park(t1));
    }
  }

  lemma {:induction false} AccompanyAllKeeps(w: Work, n: nat)
    requires Sane(w) && n <= |w.s.live|
    ensures Sane(AccompanyAll(w, n))
  {
    hide HasParent;
    if n > 0 {
      AccompanyAllKeeps(w, n - 1);
      var p, tid := AccompanyAll(w, n - 1), w.s.live[n - 1];
      InStore(p.s, Joining(p), tid);
      hide Mid;
      if AccompanyOne(p, tid) != p {
        ConfirmKeeps(p.s, Joining(p), tid);
        JoiningAppend(p, AccompanyOne(p, tid).s, tid);
      }
    }
  }

  /** A confirmed track waiting for a zone has not been in one. */
  ghost predicate WaitsOutside(s: State, tid: TrackId) {
    tid in s.store && s.store[tid].awaitingZone && s.store[tid].confirmed ==> !s.store[tid].zoned
  }

  /** So far nobody is lost and those released have been in a zone. */
  ghost predicate Released(p: Work, J: set<TrackId>) {
    && Mid(p.s, J + Joining(p))
    && forall t :: t in p.joining ==> t in p.s.store && p.s.store[t].zoned
  }

  lemma {:induction false} ReleaseAllKeeps(s: State, J: set<TrackId>, n: nat)
    requires Mid(s, J) && n <= |s.live|
    ensures var r := ReleaseAll(s, n);
            && Released(r, J)
            && (forall k :: 0 <= k < n ==> WaitsOutside(r.s, s.live[k]))
  {
    hide Mid, ReleaseOne, WaitsOutside;
    if n == 0 {
      assert J + Joining(ReleaseAll(s, 0)) == J;
    } else {
      hide Released;
      ReleaseAllKeeps(s, J, n - 1);
      ReleaseOneKeeps(ReleaseAll(s, n - 1), J, s.live[n - 1]);
    }
  }

  lemma ReleaseOneKeeps(p: Work, J: set<TrackId>, tid: TrackId)
    requires Released(p, J) && tid in p.s.live
    ensures var r := ReleaseOne(p, tid);
            && Released(r, J)
            && WaitsOutside(r.s, tid)
            && (forall t :: WaitsOutside(p.s, t) ==> WaitsOutside(r.s, t))
  {
    InStore(p.s, J + Joining(p), tid);
    hide Mid;
    if ReleaseOne(p, tid) != p {
      ReleaseKeeps(p.s, J + Joining(p), tid);
      JoiningAppend(p, ReleaseOne(p, tid).s, tid);
      assert J + Joining(ReleaseOne(p, tid)) == J + Joining(p) + {tid};
    }
  }

  function Rest(joining: seq<TrackId>, n: nat): set<TrackId>
    requires n <= |joining|
  {
    set k | n <= k < |joining| :: joining[k]
  }

  lemma {:induction false} HoldAllKeeps(w: Work, joining: seq<TrackId>, n: nat)
    requires n <= |joining| && Mid(w.s, Rest(joining, 0) + Joining(w))
    requires forall t :: t in w.s.live ==> WaitsOutside(w.s, t)
    requires forall t :: t in w.joining ==> t in w.s.store && w.s.store[t].zoned
    ensures var r := HoldAll(w, joining, n);
            && Mid(r.s, Rest(joining, n) + Joining(r))
            && (forall t :: t in w.s.live ==> WaitsOutside(r.s, t))
            && (forall t :: t in r.joining ==> t in r.s.store && r.s.store[t].zoned)
  {
    hide Mid, HoldOne, WaitsOutside;
    if n > 0 {
      HoldAllKeeps(w, joining, n - 1);
      var p, tid := HoldAll(w, joining, n - 1), joining[n - 1];
      assert Rest(joining, n - 1) == Rest(joining, n) + {tid};
      HoldOneKeeps(p, Rest(joining, n - 1), tid, Rest(joining, n));
    }
  }

  lemma HoldOneKeeps(p: Work, R: set<TrackId>, tid: TrackId, R': set<TrackId>)
    requires tid in R && R == R' + {tid} && Mid(p.s, R + Joining(p))
    requires forall t :: t in p.joining ==> t in p.s.store && p.s.store[t].zoned
    ensures var r := HoldOne(p, tid);
            && Mid(r.s, R' + Joining(r))
            && (forall t :: WaitsOutside(p.s, t) ==> WaitsOutside(r.s, t))
            && (forall t :: t in r.joining ==> t in r.s.store && r.s.store[t].zoned)
  {
    var r := HoldOne(p, tid);
    assert tid in R + Joining(p);
    JoiningIsLive(p.s, R + Joining(p), tid);
    hide Mid;
    if tid in p.joining {
      assert R' + Joining(p) == R + Joining(p);
    } else if p.s.store[tid].zoned {
      JoiningAppend(p, p.s, tid);
      assert R' + Joining(r) == R + Joining(p);
    } else {
      WaitKeeps(p.s, R + Joining(p), tid);
      WaitGrows(r.s, R + Joining(p) - {tid}, R' + Joining(p), tid);
      assert Joining(r) == Joining(p);
    }
  }

  lemma JoiningIsLive(s: State, J: set<TrackId>, tid: TrackId)
    requires Mid(s, J) && tid in J
    ensures tid in s.store && tid in s.live && s.store[tid].confirmed && At(s.store, tid) == s.store[tid]
  {
    assert Role(s, J, tid);
  }

  lemma WaitGrows(s: State, J: set<TrackId>, K: set<TrackId>, tid: TrackId)
    requires Mid(s, J) && tid in s.live && s.store[tid].confirmed
    requires J <= K && K <= J + {tid}
    ensures Mid(s, K)
  {
    forall t | t in s.store
      ensures Role(s, K, t)
    {
      assert Role(s, J, t);
    }
  }

  lemma {:induction false} YoungKeepsDistinct(c: Config, recent: seq<Closed>, now: int)
    requires RecentOk(recent)
    ensures RecentOk(Young(c, recent, now))
  {
    if recent != [] {
      YoungKeepsDistinct(c, recent[..|recent| - 1], now);
      var r := Young(c, recent[..|recent| - 1], now);
      forall k | 0 <= k < |r|
        ensures r[k].tid != recent[|recent| - 1].tid
      {
        assert r[k] in recent[..|recent| - 1];
      }
    }
  }

  lemma BeginStructure(c: Config, s: State, inp: Input, ids: Norfair.Ids)
    requires Structure(s) && Norfair.IdsOk(s.store, ids)
    ensures Structure(Begin(c, s, inp).(ids := ids))
    ensures forall t :: InRecent(Begin(c, s, inp), t) ==> InRecent(s, t)
  {
    var r := Begin(c, s, inp);
    var young := Young(c, s.recent, Now(c, inp));
    YoungKeepsDistinct(c, s.recent, Now(c, inp));
    forall k | 0 <= k < |r.recent|
      ensures r.recent[k] in s.recent
    {
      assert r.recent[k] in young;
    }
  }

  lemma BeginKeeps(c: Config, s: State, J: set<TrackId>, inp: Input, ids: Norfair.Ids)
    requires Mid(s, J) && Norfair.IdsOk(s.store, ids)
    ensures Mid(Begin(c, s, inp).(ids := ids), J)
  {
    BeginStructure(c, s, inp, ids);
    hide Structure;
    var r := Begin(c, s, inp).(ids := ids);
    assert forall t :: InRecent(r, t) <==> InRecent(Begin(c, s, inp), t);
    forall t | t in r.store
      ensures Role(r, J, t)
    {
      assert Role(s, J, t);
    }
  }

  /** The tick up to its zone check keeps everything within-tick. */
  lemma GatherIsSane(c: Config, s: State, inp: Input, m: Pipeline.Result)
    requires Mid(s, {}) && Norfair.IdsOk(s.store, m.ids) && PendingOk(inp, m)
    ensures Sane(Gather(c, s, inp, m))
  {
    hide Mid, Begin, Starting;
    var s0 := Begin(c, s, inp).(ids := m.ids);
    BeginKeeps(c, s, {}, inp, m.ids);
    var w1 := FollowAll(c, inp, m, Work(s0, []), s0.live, |s0.live|);
    FollowAllKeeps(c, inp, m, s0, |s0.live|);
    var w2 := AdmitAll(c, inp, m, Starting(c, s0, inp), w1, |m.claims.unclaimed|);
    AdmitAllKeeps(c, inp, m, Starting(c, s0, inp), w1, |m.claims.unclaimed|);
    var s3 := LinkAll(inp, w2.s, |w2.s.live|);
    LinkAllKeeps(inp, w2.s, Joining(w2), |w2.s.live|);
    var s4 := RememberAll(c, inp, s3, |s3.live|);
    RememberAllKeeps(c, inp, s3, Joining(w2), |s3.live|);
    assert Joining(Work(s4, w2.joining)) == Joining(w2);
    var w5 := ConfirmAll(c, inp, Work(s4, w2.joining), |s4.live|);
    ConfirmAllKeeps(c, inp, Work(s4, w2.joining), |s4.live|);
    var s6 := ParkAll(w5.s, |w5.s.live|);
    ParkAllKeeps(w5.s, Joining(w5), |w5.s.live|);
    assert Joining(Work(s6, w5.joining)) == Joining(w5);
    AccompanyAllKeeps(Work(s6, w5.joining), |s6.live|);
  }

  /** After the zone check: those joining have been in a zone, and whoever confirmed has not waits. */
  ghost predicate Settled(w: Work) {
    && Sane(w)
    && (forall t :: t in w.joining ==> t in w.s.store && w.s.store[t].zoned)
    && (forall t :: t in w.s.live ==> WaitsOutside(w.s, t))
  }

  lemma HoldForZonesSettles(w: Work)
    requires Sane(w)
    ensures Settled(HoldForZones(w))
  {
    hide Mid, WaitsOutside;
    var p := ReleaseAll(w.s, |w.s.live|);
    ReleaseAllKeeps(w.s, Joining(w), |w.s.live|);
    assert Rest(w.joining, 0) == Joining(w) by {
      forall t | t in w.joining
        ensures t in Rest(w.joining, 0)
      {
        var k :| 0 <= k < |w.joining| && w.joining[k] == t;
      }
    }
    forall t | t in p.s.live
      ensures WaitsOutside(p.s, t)
    {
      var k :| 0 <= k < |w.s.live| && w.s.live[k] == t;
      assert WaitsOutside(p.s, w.s.live[k]);
    }
    HoldAllKeeps(p, w.joining, |w.joining|);
    var r := HoldAll(p, w.joining, |w.joining|);
    assert Rest(w.joining, |w.joining|) + Joining(r) == Joining(r);
  }

  // ----- the event --------------------------------------------------------------------------------

  /** Nobody unparked, confirmed and zoned is outside the joining and the participants. */
  lemma ActiveAreIn(w: Work, tid: TrackId)
    requires Settled(w) && tid in w.s.live && Active(w.s.store[tid])
    ensures tid in w.joining || tid in w.s.joined
  {
    assert Role(w.s, Joining(w), tid) && WaitsOutside(w.s, tid);
  }

  lemma {:induction false} EnrolAt(store: Table, ids: seq<TrackId>, id: int, n: nat)
    requires n <= |ids| && forall t :: t in ids ==> t in store
    ensures var r := Enrol(store, ids, id, n);
            && r.Keys == store.Keys
            && forall t :: t in store ==> r[t] == if t in ids[..n] then TakePart(store[t], id) else store[t]
  {
    assert forall tr: Track :: TakePart(TakePart(tr, id), id) == TakePart(tr, id);
    hide TakePart;
    if n > 0 {
      EnrolAt(store, ids, id, n - 1);
      assert ids[..n] == ids[..n - 1] + [ids[n - 1]];
    }
  }

  lemma {:induction false} ForgetAt(store: Table, ids: seq<TrackId>, n: nat)
    requires n <= |ids| && forall t :: t in ids ==> t in store
    ensures var r := ForgetHistory(store, ids, n);
            && r.Keys == store.Keys
            && forall t :: t in store ==> r[t] == if t in ids[..n] then Forget(store[t]) else store[t]
  {
    assert forall tr: Track :: Forget(Forget(tr)) == Forget(tr);
    hide Forget;
    if n > 0 {
      ForgetAt(store, ids, n - 1);
      assert ids[..n] == ids[..n - 1] + [ids[n - 1]];
    }
  }

  lemma {:induction false} ParkThoseAt(store: Table, ids: seq<TrackId>, n: nat)
    requires n <= |ids| && forall t :: t in ids ==> t in store
    ensures var r := ParkThose(store, ids, n);
            && r.Keys == store.Keys
            && forall t :: t in store ==> r[t] == if t in ids[..n] then Park(store[t]) else store[t]
  {
    assert forall tr: Track :: Park(Park(tr)) == Park(tr);
    hide Park;
    if n > 0 {
      ParkThoseAt(store, ids, n - 1);
      assert ids[..n] == ids[..n - 1] + [ids[n - 1]];
    }
  }

  lemma ParkAllOf(store: Table, ids: seq<TrackId>)
    requires forall t :: t in ids ==> t in store
    ensures var r := ParkThose(store, ids, |ids|);
            && r.Keys == store.Keys
            && forall t :: t in store ==> r[t] == if t in ids then Park(store[t]) else store[t]
  {
    ParkThoseAt(store, ids, |ids|);
    assert ids[..|ids|] == ids;
  }

  /** The tracks of ids take part in event id: their history is forgotten as well. */
  ghost predicate Enrolled(store: Table, r: Table, ids: seq<TrackId>, id: int) {
    r.Keys == store.Keys && forall t :: t in store ==> EnrolledOne(store[t], r[t], t in ids, id)
  }

  predicate EnrolledOne(tr: Track, r: Track, taken: bool, id: int) {
    && r.kind == tr.kind && r.confirmed == tr.confirmed && r.parked == tr.parked && r.zoned == tr.zoned
    && r.awaitingZone == tr.awaitingZone && r.gate == tr.gate
    && r.eventId == if taken then Some(id) else tr.eventId
  }

  lemma EnrolAll(store: Table, ids: seq<TrackId>, id: int)
    requires forall t :: t in ids ==> t in store
    ensures var r := Enrol(store, ids, id, |ids|);
            && r.Keys == store.Keys
            && forall t :: t in store ==> r[t] == if t in ids then TakePart(store[t], id) else store[t]
  {
    EnrolAt(store, ids, id, |ids|);
    assert ids[..|ids|] == ids;
  }

  lemma ForgetAll(store: Table, ids: seq<TrackId>)
    requires forall t :: t in ids ==> t in store
    ensures var r := ForgetHistory(store, ids, |ids|);
            && r.Keys == store.Keys
            && forall t :: t in store ==> r[t] == store[t] || r[t] == Forget(store[t])
  {
    ForgetAt(store, ids, |ids|);
  }

  lemma EnrolJoining(store: Table, ids: seq<TrackId>, id: int)
    requires forall t :: t in ids ==> t in store
    ensures Enrolled(store, ForgetHistory(Enrol(store, ids, id, |ids|), ids, |ids|), ids, id)
  {
    var p := Enrol(store, ids, id, |ids|);
    EnrolAll(store, ids, id);
    ForgetAll(p, ids);
    EnrolThenForget(store, p, ForgetHistory(p, ids, |ids|), ids, id);
  }

  lemma EnrolThenForget(store: Table, p: Table, r: Table, ids: seq<TrackId>, id: int)
    requires p.Keys == store.Keys && r.Keys == p.Keys
    requires forall t :: t in store ==> p[t] == if t in ids then TakePart(store[t], id) else store[t]
    requires forall t :: t in p ==> r[t] == p[t] || r[t] == Forget(p[t])
    ensures Enrolled(store, r, ids, id)
  {}

  lemma FacesLastMembers(store: Table, ids: seq<TrackId>)
    requires NoDup(ids)
    ensures NoDup(FacesLast(store, ids))
    ensures forall t :: t in FacesLast(store, ids) <==> t in ids
  {
    SortStableKeeps(ids, FaceKey(store));
    NoDupByMultiset(ids, FacesLast(store, ids));
  }

  lemma OpenEventEnrols(c: Config, inp: Input, s: State, joining: seq<TrackId>, active: seq<TrackId>)
    requires NoDup(active) && forall t :: t in active ==> t in s.store
    ensures Enrolled(s.store, OpenEvent(c, inp, s, joining, active).store, active, s.counter + inp.skipped)
  {
    hide OpenEvent;
    var id := s.counter + inp.skipped;
    hide FacesLast, Enrol, ForgetHistory;
    var store := Enrol(s.store, active, id, |active|);
    EnrolAll(s.store, active, id);
    FacesLastMembers(store, active);
    var starters := Among(FacesLast(store, active), joining);
    ForgetAll(store, starters);
    var after := ForgetHistory(store, starters, |starters|);
    EnrolThenForget(s.store, store, after, active, id);
    OpenEventStore(c, inp, s, joining, active);
  }

  lemma OpenEventStructure(s: State, r: State, active: seq<TrackId>, id: int)
    requires Structure(s) && s.event.None? && s.counter <= id
    requires Enrolled(s.store, r.store, active, id)
    requires r.live == s.live && r.recent == s.recent && r.nextId == s.nextId && r.ids == s.ids
    requires r.counter == id + 1 && r.event.Some? && r.event.value.id == id && r.event.value.finished == []
    ensures Structure(r)
  {
    forall t | t in r.store
      ensures t < r.nextId && r.store[t].kind == s.store[t].kind
      ensures r.store[t].eventId.Some? ==> r.store[t].eventId.value < r.counter
    {
      assert EnrolledOne(s.store[t], r.store[t], t in active, id);
    }
  }

  /** A new event opens with everyone active. */
  lemma OpenRoles(w: Work, r: State, active: seq<TrackId>, id: int)
    requires Settled(w) && w.s.event.None? && active == ActiveIds(w.s.live, w.s.store)
    requires Enrolled(w.s.store, r.store, active, id)
    requires r.live == w.s.live && r.recent == w.s.recent && r.early == w.s.early
    requires r.event.Some? && r.event.value.id == id && r.event.value.finished == [] && w.s.counter <= id
    requires r.joined == set t | t in active
    ensures forall t :: t in r.store ==> Role(r, {}, t)
  {
    assert w.s.joined == {};
    assert forall t :: t in w.s.store ==> w.s.store[t].eventId != Some(id);
    hide Structure, Sane;
    forall t | t in r.store
      ensures Role(r, {}, t)
    {
      assert EnrolledOne(w.s.store[t], r.store[t], t in active, id);
      SettledRole(w, t);
      TakesPart(w, r, t, t in active);
    }
  }

  /** A new event opens with everyone active. */
  lemma OpenInv(w: Work, r: State, active: seq<TrackId>, id: int)
    requires Settled(w) && w.s.event.None? && active == ActiveIds(w.s.live, w.s.store) && active != []
    requires w.s.counter <= id && Enrolled(w.s.store, r.store, active, id)
    requires r.live == w.s.live && r.recent == w.s.recent && r.nextId == w.s.nextId && r.ids == w.s.ids
    requires r.counter == id + 1 && r.event.Some? && r.event.value.id == id && r.event.value.finished == []
    requires r.early == w.s.early && r.joined == set t | t in active
    ensures Inv(r)
  {
    hide *;
    SettledStructure(w);
    OpenEventStructure(w.s, r, active, id);
    OpenRoles(w, r, active, id);
    ActiveJoined(w, r, active, active, id);
    InvFromRoles(r, active[0]);
  }

  lemma OpenEventInv(c: Config, inp: Input, w: Work, active: seq<TrackId>)
    requires Settled(w) && w.s.event.None? && active == ActiveIds(w.s.live, w.s.store) && active != []
    ensures Inv(OpenEvent(c, inp, w.s, w.joining, active))
  {
    hide OpenEvent, Inv, Sane, Enrolled;
    OpenEventFields(c, inp, w.s, w.joining, active);
    ActiveInStore(w, active);
    OpenEventEnrols(c, inp, w.s, w.joining, active);
    OpenInv(w, OpenEvent(c, inp, w.s, w.joining, active), active, w.s.counter + inp.skipped);
  }

  lemma ActiveInStore(w: Work, active: seq<TrackId>)
    requires Settled(w) && active == ActiveIds(w.s.live, w.s.store)
    ensures NoDup(active) && forall t :: t in active ==> t in w.s.store
  {}

  /** Taking part does not change who is active. */
  lemma ActiveAgain(store: Table, r: Table, ids: seq<TrackId>, id: int)
    requires Enrolled(store, r, ids, id)
    ensures forall t :: t in store ==> (Active(r[t]) <==> Active(store[t]))
  {
    forall t | t in store
      ensures Active(r[t]) <==> Active(store[t])
    {
      assert EnrolledOne(store[t], r[t], t in ids, id);
    }
  }

  lemma SettledRole(w: Work, t: TrackId)
    requires Settled(w) && t in w.s.store
    ensures Role(w.s, Joining(w), t)
    ensures t in w.s.live ==> WaitsOutside(w.s, t)
    ensures t in w.joining ==> w.s.store[t].zoned
    ensures At(w.s.store, t) == w.s.store[t]
  {}

  lemma OpenEventFields(c: Config, inp: Input, s: State, joining: seq<TrackId>, active: seq<TrackId>)
    ensures var r := OpenEvent(c, inp, s, joining, active);
            && r.live == s.live && r.recent == s.recent && r.early == s.early
            && r.joined == (set t | t in active)
            && r.nextId == s.nextId && r.ids == s.ids && r.counter == s.counter + inp.skipped + 1
            && r.event == Some(Event(s.counter + inp.skipped, Now(c, inp), []))
  {
    hide Enrol, FacesLast, Among, ForgetHistory, Backfill, SortedStamps, LiveMembers;
  }

  lemma OpenEventStore(c: Config, inp: Input, s: State, joining: seq<TrackId>, active: seq<TrackId>)
    ensures var store := Enrol(s.store, active, s.counter + inp.skipped, |active|);
            var starters := Among(FacesLast(store, active), joining);
            OpenEvent(c, inp, s, joining, active).store == ForgetHistory(store, starters, |starters|)
  {
    hide Enrol, FacesLast, Among, ForgetHistory, Backfill, SortedStamps, LiveMembers;
  }

  /** The role of a track once those joining take part in event id (everyone active has joined). */
  lemma TakesPart(w: Work, r: State, t: TrackId, taken: bool)
    requires Settled(w) && t in w.s.store && t in r.store && r.event.Some?
    requires EnrolledOne(w.s.store[t], r.store[t], taken, r.event.value.id)
    requires r.live == w.s.live && r.recent == w.s.recent && r.early == w.s.early
    requires t in r.joined <==> t in w.s.joined || (t in w.s.live && Active(w.s.store[t]))
    requires t in w.s.joined ==> Participates(w.s, t) && r.event == w.s.event
    requires t in w.s.live && Active(w.s.store[t]) && t !in w.s.joined ==> taken
    requires r.event == w.s.event || r.event.value.finished == []
    requires taken ==> t in w.joining || (t in w.s.live && Active(w.s.store[t]))
    requires r.event == w.s.event || w.s.store[t].eventId != Some(r.event.value.id)
    ensures Role(r, {}, t)
  {
    SettledRole(w, t);
    hide Settled, Sane, Mid;
    assert InRecent(r, t) <==> InRecent(w.s, t);
  }

  lemma InvFromRoles(r: State, someone: TrackId)
    requires Structure(r) && r.event.Some?
    requires forall t :: t in r.store ==> Role(r, {}, t)
    requires forall t :: t in r.joined ==> t in r.store
    requires forall t :: t in r.live && t in r.store && Active(r.store[t]) ==> t in r.joined
    requires someone in r.live && someone in r.store && Active(r.store[someone]) && someone in r.joined
    ensures Inv(r)
  {}

  /** With nobody active an idle camera stays idle. */
  lemma IdleInv(w: Work)
    requires Settled(w) && w.s.event.None? && ActiveIds(w.s.live, w.s.store) == []
    ensures Inv(w.s)
  {
    var s := w.s;
    forall t | t in s.store
      ensures Role(s, {}, t)
      ensures t in s.live ==> !Active(s.store[t])
    {
      SettledRole(w, t);
      assert t in s.live && Active(At(s.store, t)) ==> t in ActiveIds(s.live, s.store);
    }
  }

  lemma ReportStructure(s: State, r: State, joining: seq<TrackId>, id: int)
    requires Structure(s) && id < s.counter && Enrolled(s.store, r.store, joining, id)
    requires r.live == s.live && r.recent == s.recent && r.nextId == s.nextId && r.ids == s.ids
    requires r.counter == s.counter && (r.event == s.event || r.event.None?)
    ensures Structure(r)
  {
    forall t | t in r.store
      ensures t < r.nextId && r.store[t].kind == s.store[t].kind
      ensures r.store[t].eventId.Some? ==> r.store[t].eventId.value < r.counter
    {
      assert EnrolledOne(s.store[t], r.store[t], t in joining, id);
    }
  }

  /** The open event goes on: those joining take part from now on. */
  lemma ReportRoles(w: Work, r: State, active: seq<TrackId>)
    requires Settled(w) && w.s.event.Some? && active == ActiveIds(w.s.live, w.s.store)
    requires Enrolled(w.s.store, r.store, w.joining, w.s.event.value.id)
    requires r.live == w.s.live && r.recent == w.s.recent && r.early == w.s.early && r.event == w.s.event
    requires r.joined == w.s.joined + set t | t in active
    ensures forall t :: t in r.store ==> Role(r, {}, t)
  {
    var s := w.s;
    hide Structure, Sane;
    forall t | t in r.store
      ensures Role(r, {}, t)
    {
      assert EnrolledOne(s.store[t], r.store[t], t in w.joining, s.event.value.id);
      SettledRole(w, t);
      if t in s.live && Active(s.store[t]) { ActiveAreIn(w, t); }
      TakesPart(w, r, t, t in w.joining);
    }
  }

  /** The open event goes on: those joining take part from now on. */
  lemma ReportInv(w: Work, r: State, active: seq<TrackId>)
    requires Settled(w) && w.s.event.Some? && active == ActiveIds(w.s.live, w.s.store) && active != []
    requires Enrolled(w.s.store, r.store, w.joining, w.s.event.value.id)
    requires r.live == w.s.live && r.recent == w.s.recent && r.nextId == w.s.nextId && r.ids == w.s.ids
    requires r.counter == w.s.counter && r.event == w.s.event && r.early == w.s.early
    requires r.joined == w.s.joined + set t | t in active
    ensures Inv(r)
  {
    hide *;
    SettledStructure(w);
    ReportStructure(w.s, r, w.joining, w.s.event.value.id);
    ReportRoles(w, r, active);
    ActiveJoined(w, r, active, w.joining, w.s.event.value.id);
    InvFromRoles(r, active[0]);
  }

  lemma SettledStructure(w: Work)
    requires Settled(w)
    ensures Structure(w.s) && (w.s.event.Some? ==> w.s.event.value.id < w.s.counter)
    ensures w.s.event.None? ==> w.s.joined == {}
  {
    hide Role;
  }

  /** Everyone active has joined, and somebody is. */
  lemma ActiveJoined(w: Work, r: State, active: seq<TrackId>, ids: seq<TrackId>, id: int)
    requires Settled(w) && active == ActiveIds(w.s.live, w.s.store) && active != []
    requires Enrolled(w.s.store, r.store, ids, id) && r.live == w.s.live
    requires r.joined == w.s.joined + set t | t in active
    ensures forall t :: t in r.joined ==> t in r.store
    ensures forall t :: t in r.live && t in r.store && Active(r.store[t]) ==> t in r.joined
    ensures active[0] in r.live && active[0] in r.store && Active(r.store[active[0]]) && active[0] in r.joined
  {
    hide ActiveIds, EnrolledOne, Role, Structure;
    ActiveAgain(w.s.store, r.store, ids, id);
    assert active[0] in active;
  }

  lemma CloseRoles(w: Work, store: Table, r: State, active: seq<TrackId>)
    requires Settled(w) && w.s.event.Some? && active == ActiveIds(w.s.live, w.s.store)
    requires Enrolled(w.s.store, store, w.joining, w.s.event.value.id) && r.store.Keys == store.Keys
    requires forall t :: t in store ==> r.store[t] == if t in active then Park(store[t]) else store[t]
    requires r.live == w.s.live && r.recent == w.s.recent && r.event == None && r.early == w.s.early && r.joined == {}
    ensures forall t :: t in r.store ==> Role(r, {}, t) && (t in r.live ==> !Active(r.store[t]))
  {
    var s := w.s;
    hide Structure, Sane, Enrolled;
    forall t | t in r.store
      ensures Role(r, {}, t) && (t in r.live ==> !Active(r.store[t]))
    {
      EnrolledAt(s.store, store, w.joining, s.event.value.id, t);
      SettledRole(w, t);
      LeavesQuietly(w, r, t, store[t]);
    }
  }

  /** The event closes: whoever is still in view is parked. */
  lemma CloseInv(w: Work, s1: State, r: State, active: seq<TrackId>)
    requires Settled(w) && w.s.event.Some? && active == ActiveIds(w.s.live, w.s.store)
    requires Enrolled(w.s.store, s1.store, w.joining, w.s.event.value.id)
    requires r.store == ParkThose(s1.store, active, |active|)
    requires r.live == w.s.live && r.recent == w.s.recent && r.nextId == w.s.nextId && r.ids == w.s.ids
    requires r.counter == w.s.counter && r.event == None && r.early == w.s.early && r.joined == {}
    ensures Inv(r)
  {
    assert forall t :: t in active ==> t in s1.store;
    hide ActiveIds, Park, EnrolledOne;
    ParkAllOf(s1.store, active);
    hide ParkThose;
    ReportStructure(w.s, r.(store := s1.store), w.joining, w.s.event.value.id);
    CloseEventStructure(s1.store, r);
    CloseRoles(w, s1.store, r, active);
    hide Structure, Sane, Enrolled;
    InvWhenIdle(r);
  }

  lemma EnrolledAt(store: Table, r: Table, ids: seq<TrackId>, id: int, t: TrackId)
    requires Enrolled(store, r, ids, id) && t in r
    ensures t in store && EnrolledOne(store[t], r[t], t in ids, id)
  {}

  /** The role of a track after its event has closed. */
  lemma LeavesQuietly(w: Work, r: State, t: TrackId, t1: Track)
    requires Settled(w) && t in w.s.store && t in r.store && r.event.None? && r.joined == {}
    requires w.s.event.Some? && EnrolledOne(w.s.store[t], t1, t in w.joining, w.s.event.value.id)
    requires r.store[t] == if t in w.s.live && Active(w.s.store[t]) then Park(t1) else t1
    requires r.live == w.s.live && r.recent == w.s.recent && r.early == w.s.early
    ensures Role(r, {}, t)
    ensures t in r.live ==> !Active(r.store[t])
  {
    SettledRole(w, t);
    hide Settled, Sane, Mid;
    assert InRecent(r, t) <==> InRecent(w.s, t);
    assert Participates(w.s, t) ==> w.s.store[t].zoned;
  }

  lemma CloseEventStructure(store: Table, r: State)
    requires Structure(r.(store := store)) && r.store.Keys == store.Keys
    requires forall t :: t in store ==> r.store[t] == store[t] || r.store[t] == Park(store[t])
    ensures Structure(r)
  {}

  lemma InvWhenIdle(r: State)
    requires Structure(r) && r.event.None? && r.joined == {}
    requires forall t :: t in r.store ==> Role(r, {}, t)
    requires forall t :: t in r.live && t in r.store ==> !Active(r.store[t])
    ensures Inv(r)
  {}

  lemma LifecycleInv(c: Config, inp: Input, w: Work)
    requires Settled(w)
    ensures Inv(Lifecycle(c, inp, w))
  {
    hide Mid, Inv, OpenEvent, ActiveIds, Settled, Structure, Enrolled;
    var active := ActiveIds(w.s.live, w.s.store);
    if w.s.event.None? {
      if active == [] {
        IdleInv(w);
      } else {
        ActiveJoin(w, active);
        OpenEventInv(c, inp, w, active);
      }
    } else {
      var e := w.s.event.value;
      JoiningInStore(w);
      EnrolJoining(w.s.store, w.joining, e.id);
      var s := w.s.(store := ForgetHistory(Enrol(w.s.store, w.joining, e.id, |w.joining|), w.joining, |w.joining|));
      if active == [] || Now(c, inp) - e.startedMs >= inp.eventMaxMs {
        CloseInv(w, s, CloseEvent(inp, s, e, active), active);
      } else {
        ReportInv(w, ReportEvent(c, inp, s, e, active), active);
      }
    }
  }

  lemma JoiningInStore(w: Work)
    requires Settled(w)
    ensures forall t :: t in w.joining ==> t in w.s.store
  {}

  lemma ActiveJoin(w: Work, active: seq<TrackId>)
    requires Settled(w) && w.s.event.None? && active == ActiveIds(w.s.live, w.s.store) && active != []
    ensures w.joining != []
  {
    assert active[0] in active;
    assert active[0] in w.s.store;
    ActiveAreIn(w, active[0]);
  }

  /** The invariant of the event engine: every tick keeps it. */
  lemma TickKeepsInv(c: Config, s: State, inp: Input)
    requires Inv(s) && InputOk(s, inp)
    ensures Inv(Tick(c, s, inp))
  {
    hide Mid, Gather, HoldForZones, Lifecycle;
    var m := Matches(c, s, inp);
    MatchesFacts(c, s, inp);
    GatherIsSane(c, s, inp, m);
    HoldForZonesSettles(Gather(c, s, inp, m));
    LifecycleInv(c, inp, HoldForZones(Gather(c, s, inp, m)));
  }

  lemma MatchesFacts(c: Config, s: State, inp: Input)
    requires InputOk(s, inp)
    ensures Norfair.IdsOk(s.store, Matches(c, s, inp).ids) && PendingOk(inp, Matches(c, s, inp))
  {
    Pipeline.MatchIsSound(c.norfair, s.live, s.store, inp.dets, inp.assoc, s.ids);
  }

  /** What a frame's detections and associations promise: repeated boxes and associations carry the
      type of what they belong to. */
  ghost predicate FrameOk(s: State, inp: Input) {
    Norfair.SeededOk(s.live, s.store, inp.dets) && Norfair.AssocOk(inp.dets, inp.assoc)
  }

  lemma InvGivesInputOk(s: State, inp: Input)
    requires Inv(s) && FrameOk(s, inp)
    ensures InputOk(s, inp)
  {}

  lemma InitialInv(counter: int)
    ensures Inv(Initial(counter))
  {}
}
