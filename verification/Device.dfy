/** A camera's tracking state, changed in place frame by frame. Track objects are shared: the live
    table, the recently closed list and the finished list of the open event name the same objects.
    Every loop of a tick is proved to be its fold of Engine.dfy, and a whole tick to be Engine.Tick. */
module Devices {
  import opened Wrappers
  import opened Geometry
  import opened Lists
  import opened Tracks
  import opened Matching
  import opened Engine
  import opened TrackObjects
  import opened EngineInvariant
  import Norfair
  import Faces
  import Pipeline
  import Matchers

  class Device {
    const c: Config
    var live: seq<TrackId>                      // the keys of the tracks dict, in insertion order
    var objects: map<TrackId, TrackObject>      // every track made so far, by its tracker id
    var recent: seq<Closed>
    var nextId: TrackId
    var startedMs: Option<int>
    var event: Option<Event>
    var lastReportMs: Option<int>
    var ids: Norfair.Ids
    var counter: int
    var sent: seq<Message>
    ghost var joined: set<TrackId>
    ghost var early: set<TrackId>

    /** Two ids never share an object, and every id in use has one. */
    ghost predicate Valid()
      reads this`objects, this`live, this`recent, this`nextId
    {
      && (forall t, u :: t in objects && u in objects && t != u ==> objects[t] != objects[u])
      && (forall t :: t in live ==> t in objects)
      && (forall k :: 0 <= k < |recent| ==> recent[k].tid in objects)
      && (forall t :: t in objects ==> t < nextId)
    }

    function Store(): Table
      reads this`objects, objects.Values
    {
      map t | t in objects :: objects[t].tr
    }

    ghost function View(): State
      reads this, objects.Values
    {
      State(live, Store(), recent, nextId, startedMs, event, lastReportMs, ids, counter, sent, joined, early)
    }

    constructor (c: Config, counter: int)
      ensures Valid() && View() == Initial(counter) && this.c == c
    {
      this.c := c;
      live, objects, recent, nextId, startedMs, event, lastReportMs := [], map[], [], 1, None, None, None;
      ids, this.counter, sent, joined, early := map[], counter, [], {}, {};
    }

    /** Only tid's track was changed. */
    twostate lemma OneChanged(tid: TrackId)
      requires old(Valid()) && tid in objects && objects == old(objects)
      requires forall t :: t in objects && objects[t] != objects[tid] ==> objects[t].tr == old(objects[t].tr)
      ensures Store() == old(Store())[tid := objects[tid].tr]
    {}

    lemma StoreAt(tid: TrackId)
      requires tid in objects
      ensures At(View().store, tid) == objects[tid].tr
    {}

    // ----- 1. live tracks -------------------------------------------------------------------------

    /** The recently closed tracks that may still be resumed. */
    method StillYoung(inp: Input) returns (young: seq<Closed>)
      ensures young == Young(c, recent, Now(c, inp))
    {
      young := [];
      for k := 0 to |recent|
        invariant young == Young(c, recent[..k], Now(c, inp))
      {
        assert recent[..k + 1][..k] == recent[..k];
        if Now(c, inp) - recent[k].atMs <= c.resumeMs { young := young + [recent[k]]; }
      }
      assert recent[..|recent|] == recent;
    }

    method Begin(inp: Input)
      requires Valid()
      modifies this`recent, this`startedMs
      ensures Valid() && View() == Engine.Begin(c, old(View()), inp)
    {
      hide Store, Young;
      var young := StillYoung(inp);
      recent := LastClosed(young);
      assert forall k :: 0 <= k < |recent| ==> recent[k] in young;
      if inp.restarted { startedMs := None; }
      if startedMs.None? && inp.analysed { startedMs := Some(Now(c, inp)); }
    }

    /** The finished list without tid. */
    method TakeBack(tid: TrackId)
      modifies this`event
      ensures View() == Unfinish(old(View()), tid)
    {
      if event.Some? { event := Some(event.value.(finished := Without(event.value.finished, tid))); }
    }

    method Matched(inp: Input, joining: seq<TrackId>, tid: TrackId, d: Detection) returns (more: seq<TrackId>)
      requires Valid() && tid in objects
      modifies this`event, objects[tid]
      ensures Valid() && more in {joining, joining + [tid]}
      ensures Work(View(), more) == Engine.Matched(c, inp, Work(old(View()), joining), tid, d)
    {
      hide Tracks.Take, Tracks.MovedSince, Tracks.Wake, Tracks.Note, Tracks.Settle, CountShift, Without, Store, Valid;
      var o := objects[tid];
      StoreAt(tid);
      more := joining;
      o.Take(c, d);
      if o.tr.parked.Some? {
        ghost var taken := o.tr;
        var moved := o.MovedSince(c);
        if moved {
          MovedForgets(c, inp, taken);
          assert o.tr.parked.Some? by { CountKeepsSpot(taken); }
          if tid in inp.samePixels {
            o.Settle();
          } else {
            o.Wake(c, Now(c, inp));
            TakeBack(tid);
            more := more + [tid];
          }
        }
      }
      o.Note(d, Now(c, inp), tid in inp.held);
      o.tr := o.tr.(seenMs := Now(c, inp));
      OneChanged(tid);
    }

    static lemma CountKeepsSpot(tr: Track)
      requires tr.parked.Some?
      ensures CountShift(tr).parked == tr.parked
    {
      hide Shifted, LeftSpot;
    }

    /** Waking and settling forget the shifts counted. */
    static lemma MovedForgets(c: Config, inp: Input, tr: Track)
      requires tr.parked.Some?
      ensures Tracks.Settle(CountShift(tr)) == Tracks.Settle(tr)
      ensures Tracks.Wake(c, CountShift(tr), Now(c, inp)) == Tracks.Wake(c, tr, Now(c, inp))
    {
      hide Shifted, LeftSpot, Iou;
    }

    /** tid leaves the live table for the recently closed list; an unparked one has finished. */
    method CloseTrack(tid: TrackId, now: int)
      requires Valid() && tid in objects
      modifies this`live, this`recent, this`event
      ensures Valid() && View() == Close(old(View()), tid, now, objects[tid].tr.parked.None?)
    {
      if event.Some? && objects[tid].tr.parked.None? {
        event := Some(event.value.(finished := event.value.finished + [tid]));
      }
      live := Without(live, tid);
      recent := recent + [Closed(tid, now)];
    }

    /** A face's person is tracked and not parked. */
    method PersonHolds(tr: Track) returns (yes: bool)
      requires Valid()
      ensures yes == KeptByPerson(View(), tr)
    {
      return tr.kind == Face && tr.personTid.Some? && tr.personTid.value in live
             && objects[tr.personTid.value].tr.parked.None?;
    }

    method CountMiss(tid: TrackId)
      requires Valid() && tid in objects
      modifies objects[tid]
      ensures objects[tid].tr == MissedTrack(c, old(objects[tid].tr))
      ensures View() == Put(old(View()), tid, objects[tid].tr)
    {
      hide Tracks.RecordScore, Store;
      var o := objects[tid];
      o.tr := o.tr.(missCount := o.tr.missCount + 1);
      o.RecordScore(c, 0.0);
      OneChanged(tid);
    }

    /** A vehicle that would close notes when it started waiting for its model's answer. */
    method StartHold(tid: TrackId, now: int)
      requires Valid() && tid in objects
      modifies objects[tid]
      ensures objects[tid].tr == old(objects[tid].tr).(holdMs := Some(HoldStart(old(objects[tid].tr), now)))
      ensures View() == Put(old(View()), tid, objects[tid].tr)
    {
      hide Store;
      var o := objects[tid];
      if o.tr.holdMs.None? { o.tr := o.tr.(holdMs := Some(now)); }
      OneChanged(tid);
    }

    /** A track missed too often closes, unless it is a vehicle still waiting for its answer. */
    method CloseOrWait(inp: Input, tid: TrackId)
      requires Valid() && tid in objects
      modifies this`live, this`recent, this`event, objects[tid]
      ensures Valid() && View() == ClosedOrWaiting(c, inp, old(View()), tid, old(objects[tid].tr))
    {
      hide Close, Store, Valid;
      var o, now := objects[tid], Now(c, inp);
      if o.tr.kind == Vehicle && tid in inp.pendingAnswers {
        StartHold(tid, now);
        if now - o.tr.holdMs.value < VEHICLE_HOLD_MS { return; }
      }
      CloseTrack(tid, now);
    }

    static ghost function ClosedOrWaiting(c: Config, inp: Input, s: State, tid: TrackId, tr: Track): State {
      var now := Now(c, inp);
      var t2 := tr.(holdMs := Some(HoldStart(tr, now)));
      if tr.kind == Vehicle && tid in inp.pendingAnswers then
        if now - HoldStart(tr, now) < VEHICLE_HOLD_MS then Put(s, tid, t2)
        else Close(Put(s, tid, t2), tid, now, t2.parked.None?)
      else Close(s, tid, now, tr.parked.None?)
    }

    method Missed(inp: Input, tid: TrackId)
      requires Valid() && tid in objects
      modifies this`live, this`recent, this`event, objects[tid]
      ensures Valid() && View() == Engine.Missed(c, inp, old(View()), tid)
    {
      hide *;
      var o := objects[tid];
      StoreAt(tid);
      MissedCases(c, inp, View(), tid);
      CountMiss(tid);
      var tolerance := Tolerance(c, o.tr);
      if !o.tr.confirmed && o.tr.missCount >= tolerance {
        Drop(tid);
        return;
      }
      var held := PersonHolds(o.tr);
      if held || o.tr.missCount < tolerance { return; }
      CloseOrWait(inp, tid);
    }

    method Drop(tid: TrackId)
      requires Valid()
      modifies this`live
      ensures Valid() && View() == old(View()).(live := Without(old(View()).live, tid))
    {
      live := Without(live, tid);
    }

    static lemma PutAgain(s: State, tid: TrackId, tr: Track, u: Track)
      ensures Put(Put(s, tid, tr), tid, u) == Put(s, tid, u)
    {}

    /** The ways a missed track can come out. */
    static lemma MissedCases(c: Config, inp: Input, s: State, tid: TrackId)
      ensures var tr := MissedTrack(c, At(s.store, tid));
              var s1 := Put(s, tid, tr);
              Engine.Missed(c, inp, s, tid)
              == if !tr.confirmed && tr.missCount >= Tolerance(c, tr) then s1.(live := Without(s1.live, tid))
                 else if KeptByPerson(s1, tr) || tr.missCount < Tolerance(c, tr) then s1
                 else ClosedOrWaiting(c, inp, s1, tid, tr)
    {
      var tr := MissedTrack(c, At(s.store, tid));
      hide MissedTrack, Without, KeptByPerson, At, Tolerance, HoldStart, Now;
      PutAgain(s, tid, tr, tr.(holdMs := Some(HoldStart(tr, Now(c, inp)))));
    }

    method FollowOne(inp: Input, m: Pipeline.Result, joining: seq<TrackId>, tid: TrackId) returns (more: seq<TrackId>)
      requires Valid() && tid in objects
      modifies this`live, this`recent, this`event, objects[tid]
      ensures Valid() && more in {joining, joining + [tid]}
      ensures Work(View(), more) == Engine.FollowOne(c, inp, m, Work(old(View()), joining), tid)
    {
      hide Engine.Matched, Engine.Missed, Store, Valid;
      more := joining;
      if tid in m.claims.matches && m.claims.matches[tid] < |inp.dets| {
        more := Matched(inp, joining, tid, inp.dets[m.claims.matches[tid]]);
      } else {
        Missed(inp, tid);
      }
    }

    /** Every id of a list has a track. */
    ghost predicate Known(s: seq<TrackId>)
      reads this`objects
    {
      forall t :: t in s ==> t in objects
    }

    method FollowAll(inp: Input, m: Pipeline.Result) returns (joining: seq<TrackId>)
      requires Valid()
      modifies this`live, this`recent, this`event, objects.Values
      ensures Valid() && Known(joining)
      ensures Work(View(), joining)
              == Engine.FollowAll(c, inp, m, Work(old(View()), []), old(live), |old(live)|)
    {
      hide Engine.FollowOne, Store;
      joining := [];
      var tids := live;
      for n := 0 to |tids|
        invariant Valid() && Known(joining) && Known(tids)
        invariant Work(View(), joining) == Engine.FollowAll(c, inp, m, Work(old(View()), []), tids, n)
      {
        joining := FollowOne(inp, m, joining, tids[n]);
      }
    }

    // ----- 2. unclaimed detections ----------------------------------------------------------------

    /** A box on part of a parked track of its type is that track, not a new one. */
    method InsideParked(d: Detection) returns (yes: bool)
      requires Valid()
      ensures yes == Engine.InsideParked(View(), d)
    {
      hide PartOf;
      for k := 0 to |live|
        invariant forall j :: 0 <= j < k ==>
                    !(At(View().store, live[j]).kind == d.kind && At(View().store, live[j]).parked.Some?
                      && PartOf(d.coord, At(View().store, live[j]).parked.value))
      {
        var tr := objects[live[k]].tr;
        assert At(View().store, live[k]) == tr;
        if tr.kind != d.kind || tr.parked.None? { continue; }
        if PartOf(d.coord, tr.parked.value) { return true; }
      }
      return false;
    }

    /** The recently closed track a detection continues. */
    method FindResume(d: Detection) returns (found: Option<nat>)
      requires Valid()
      ensures found == Engine.FindResume(View(), d, |recent|)
    {
      hide Engine.ResumeIou, ResumeHow;
      found := None;
      var bestIou := RESUME_IOU;
      for k := 0 to |recent|
        invariant found == Engine.FindResume(View(), d, k)
        invariant found.Some? ==> found.value < k
        invariant bestIou == if found.Some? then ResumeIou(objects[recent[found.value].tid].tr, d) else RESUME_IOU
        invariant bestIou >= RESUME_IOU
      {
        var tr := objects[recent[k].tid].tr;
        assert At(View().store, recent[k].tid) == tr;
        if tr.kind != d.kind { continue; }
        var iou := ResumeIou(tr, d);
        if iou < bestIou { continue; }
        if ResumeHow(tr, event).Some? { found, bestIou := Some(k), iou; }
      }
    }

    method BindPending(m: Pipeline.Result, idx: nat, tid: TrackId)
      modifies this`ids
      ensures View() == Engine.BindPending(old(View()), m, idx, tid)
    {
      hide Store;
      if idx in m.pending { ids := ids[m.pending[idx] := tid]; }
    }

    /** A resumed track takes its detection. */
    method TakeResumed(inp: Input, tid: TrackId, d: Detection)
      requires Valid() && tid in objects
      modifies objects[tid]
      ensures objects[tid].tr == Resumed(c, inp, tid, old(objects[tid].tr), d)
      ensures View() == Put(old(View()), tid, objects[tid].tr)
    {
      hide Tracks.Follow, Tracks.UpdateStill, Tracks.Note, Store;
      var o := objects[tid];
      o.Follow(d.coord);
      o.tr := o.tr.(score := d.score);
      o.tr := o.tr.(missCount := 0);
      o.UpdateStill(c);
      o.Note(d, Now(c, inp), tid in inp.held);
      o.tr := o.tr.(seenMs := Now(c, inp));
      OneChanged(tid);
    }

    method ParkTrack(tid: TrackId)
      requires Valid() && tid in objects
      modifies objects[tid]
      ensures objects[tid].tr == Park(old(objects[tid].tr))
      ensures View() == Put(old(View()), tid, objects[tid].tr)
    {
      hide Store, Tracks.Park;
      objects[tid].Park();
      OneChanged(tid);
    }

    /** The k-th recently closed track is live again. */
    method ReopenTrack(k: nat)
      requires Valid() && k < |recent|
      modifies this`live, this`recent
      ensures Valid() && View() == Reopen(old(View()), k)
    {
      hide Store;
      live := live + [recent[k].tid];
      recent := recent[..k] + recent[k + 1..];
    }

    /** The k-th recently closed track is live again and takes its detection. */
    method ContinueTrack(inp: Input, m: Pipeline.Result, idx: nat, d: Detection, k: nat)
      requires Valid() && k < |recent|
      modifies this`live, this`recent, this`ids, objects[recent[k].tid]
      ensures Valid()
      ensures var tid := old(recent[k].tid);
              && objects[tid].tr == Resumed(c, inp, tid, old(objects[recent[k].tid].tr), d)
              && View() == Put(Engine.BindPending(Reopen(old(View()), k), m, idx, tid), tid, objects[tid].tr)
    {
      hide *;
      RecentKnown(k);
      var tid := recent[k].tid;
      ReopenTrack(k);
      BindPending(m, idx, tid);
      TakeResumed(inp, tid, d);
    }

    lemma RecentKnown(k: nat)
      requires Valid() && k < |recent|
      ensures recent[k].tid in objects
    {}

    method Resume(inp: Input, m: Pipeline.Result, joining: seq<TrackId>, idx: nat, d: Detection, k: nat)
      returns (more: seq<TrackId>)
      requires Valid() && k < |recent| && ResumeHow(At(View().store, recent[k].tid), View().event).Some?
      modifies this`live, this`recent, this`ids, this`event, objects[recent[k].tid]
      ensures Valid() && more in {joining, joining + [old(recent[k].tid)]}
      ensures Work(View(), more) == Engine.Resume(c, inp, m, Work(old(View()), joining), idx, d, k)
    {
      hide *;
      ResumingIs(inp, m, joining, idx, d, k);
      var tid := recent[k].tid;
      var how := ResumeHow(objects[tid].tr, event).value;
      ContinueTrack(inp, m, idx, d, k);
      more := joining;
      if how.BackInEvent? {
        TakeBack(tid);
        more := more + [tid];
      } else {
        ParkTrack(tid);
      }
    }

    static lemma ResumeIs(c: Config, inp: Input, m: Pipeline.Result, w: Work, idx: nat, d: Detection, k: nat)
      requires k < |w.s.recent| && ResumeHow(At(w.s.store, w.s.recent[k].tid), w.s.event).Some?
      ensures var tid := w.s.recent[k].tid;
              var tr := At(w.s.store, tid);
              var r := Resumed(c, inp, tid, tr, d);
              var s := Put(Engine.BindPending(Reopen(w.s, k), m, idx, tid), tid, r);
              Engine.Resume(c, inp, m, w, idx, d, k)
              == if ResumeHow(tr, w.s.event).value.BackInEvent? then Work(Unfinish(s, tid), w.joining + [tid])
                 else w.(s := Put(s, tid, Park(r)))
    {
      hide Resumed, Park, Without;
    }

    lemma ResumingIs(inp: Input, m: Pipeline.Result, joining: seq<TrackId>, idx: nat, d: Detection, k: nat)
      requires Valid() && k < |recent| && ResumeHow(At(View().store, recent[k].tid), View().event).Some?
      ensures recent[k].tid in objects
      ensures var tid, s := recent[k].tid, View();
              var tr := objects[tid].tr;
              var r := Resumed(c, inp, tid, tr, d);
              var s1 := Put(Engine.BindPending(Reopen(s, k), m, idx, tid), tid, r);
              && At(s.store, tid) == tr && ResumeHow(tr, event).Some?
              && Engine.Resume(c, inp, m, Work(s, joining), idx, d, k)
                 == if ResumeHow(tr, event).value.BackInEvent? then Work(Unfinish(s1, tid), joining + [tid])
                    else Work(Put(s1, tid, Park(r)), joining)
    {
      var tid := recent[k].tid;
      StoreAt(tid);
      ResumeIs(c, inp, m, Work(View(), joining), idx, d, k);
      hide Engine.Resume, Engine.BindPending, Put, Resumed, Park, Unfinish, ResumeHow, Store;
    }

    /** A new track; in the startup window it is confirmed at once and parked. */
    method MakeTrack(inp: Input, starting: bool, tid: TrackId, d: Detection) returns (o: TrackObject)
      ensures fresh(o) && o.tr == Opened(c, inp, starting, tid, d)
    {
      hide Tracks.RecordScore, Tracks.UpdateStill, Tracks.Note, Tracks.Park, Tracks.Fresh;
      o := new TrackObject(d, Now(c, inp));
      o.RecordScore(c, d.score);
      o.tr := o.tr.(confirmed := starting || (inp.confirmMs <= 0 && o.tr.gate.truePositive && ConfirmWith(d.kind).None?));
      o.UpdateStill(c);
      o.Note(d, Now(c, inp), tid in inp.held);
      o.tr := o.tr.(seenMs := Now(c, inp));
      if starting { o.Park(); }
    }

    /** The tracks made before are still there. */
    twostate predicate Kept()
      reads this`objects
    {
      && (forall t :: t in old(objects) ==> t in objects && objects[t] == old(objects[t]))
      && (forall t :: t in objects && t !in old(objects) ==> fresh(objects[t]))
    }

    method Enter(tid: TrackId, o: TrackObject, starting: bool)
      requires Valid() && tid == nextId && forall t :: t in objects ==> objects[t] != o
      modifies this`live, this`objects, this`nextId, this`early
      ensures Valid() && objects == old(objects)[tid := o]
      ensures View() == Admit(old(View()), o.tr, starting)
    {
      live := live + [tid];
      objects := objects[tid := o];
      nextId := nextId + 1;
      if starting { early := early + {tid}; }
      assert Store() == old(Store())[tid := o.tr];
    }

    method Open(inp: Input, m: Pipeline.Result, starting: bool, joining: seq<TrackId>, idx: nat, d: Detection)
      returns (more: seq<TrackId>)
      requires Valid()
      modifies this`live, this`objects, this`nextId, this`ids, this`early
      ensures Valid() && Kept() && (Known(joining) ==> Known(more))
      ensures Work(View(), more) == Engine.Open(c, inp, m, starting, Work(old(View()), joining), idx, d)
    {
      hide Opened, Store;
      var tid := nextId;
      var o := MakeTrack(inp, starting, tid, d);
      Enter(tid, o, starting);
      BindPending(m, idx, tid);
      more := if o.tr.confirmed && !starting then joining + [tid] else joining;
    }

    method AdmitOne(inp: Input, m: Pipeline.Result, starting: bool, joining: seq<TrackId>, idx: nat)
      returns (more: seq<TrackId>)
      requires Valid() && Known(joining)
      modifies this`live, this`objects, this`recent, this`nextId, this`ids, this`event, this`early, objects.Values
      ensures Valid() && Kept() && Known(more)
      ensures Work(View(), more) == Engine.AdmitOne(c, inp, m, starting, Work(old(View()), joining), idx)
    {
      hide Engine.InsideParked, Engine.FindResume, Engine.Resume, Engine.Open, ResumeHow, Store, Valid;
      more := joining;
      if idx >= |inp.dets| { return; }
      var d := inp.dets[idx];
      var part := InsideParked(d);
      if part { return; }
      var k := FindResume(d);
      if k.Some? {
        RecentKnown(k.value);
        more := Resume(inp, m, joining, idx, d, k.value);
      } else {
        more := Open(inp, m, starting, joining, idx, d);
      }
    }

    method AdmitAll(inp: Input, m: Pipeline.Result, starting: bool, joining: seq<TrackId>) returns (more: seq<TrackId>)
      requires Valid() && Known(joining)
      modifies this`live, this`objects, this`recent, this`nextId, this`ids, this`event, this`early, objects.Values
      ensures Valid() && Kept() && Known(more)
      ensures Work(View(), more)
              == Engine.AdmitAll(c, inp, m, starting, Work(old(View()), joining), |m.claims.unclaimed|)
    {
      hide Engine.AdmitOne, Store, Valid;
      more := joining;
      for n := 0 to |m.claims.unclaimed|
        invariant Valid() && Kept() && Known(more)
        invariant Work(View(), more) == Engine.AdmitAll(c, inp, m, starting, Work(old(View()), joining), n)
      {
        more := AdmitOne(inp, m, starting, more, m.claims.unclaimed[n]);
      }
    }

    // ----- faces and their people -----------------------------------------------------------------

    method PersonOf(face: Track) returns (pid: Option<TrackId>)
      requires Valid()
      ensures pid == Engine.PersonOf(View(), face) && (pid.Some? ==> pid.value in objects)
    {
      hide Faces.Owner, Store;
      pid := face.personTid;
      if pid.None? || pid.value !in live { pid := Faces.Owner(live, Store(), face.coord, map[], None); }
    }

    method LinkPair(fid: TrackId, pid: TrackId)
      requires Valid() && fid in objects && pid in objects
      modifies objects[fid], objects[pid]
      ensures View() == Engine.LinkPair(old(View()), fid, pid)
    {
      var face, person := objects[fid], objects[pid];
      StoreAt(fid);
      hide Store;
      face.tr := face.tr.(personTid := Some(pid));
      OneChanged(fid);
      label linked:
      StoreAt(pid);
      if person.tr.faceTid.None? || person.tr.faceTid.value !in live { person.tr := person.tr.(faceTid := Some(fid)); }
      OneChanged@linked(pid);
    }

    method LinkZone(inp: Input, fid: TrackId, pid: TrackId)
      requires Valid() && fid in objects && pid in objects
      modifies objects[fid]
      ensures View() == Engine.LinkZone(inp, old(View()), fid, pid)
    {
      StoreAt(fid);
      StoreAt(pid);
      hide Store;
      var face, person := objects[fid], objects[pid];
      if !face.tr.zoned && person.tr.zoned && inp.faceZone(person.tr.coord) { face.tr := face.tr.(zoned := true); }
      OneChanged(fid);
    }

    method LinkOne(inp: Input, fid: TrackId)
      requires Valid() && fid in objects
      modifies objects.Values
      ensures View() == Engine.LinkOne(inp, old(View()), fid)
    {
      StoreAt(fid);
      hide Engine.LinkPair, Engine.LinkZone, Engine.PersonOf, Store;
      var face := objects[fid].tr;
      if face.kind != Face { return; }
      var pid := PersonOf(face);
      if pid.None? { return; }
      LinkPair(fid, pid.value);
      LinkZone(inp, fid, pid.value);
    }

    method LinkAll(inp: Input)
      requires Valid()
      modifies objects.Values
      ensures View() == Engine.LinkAll(inp, old(View()), |live|)
    {
      hide Engine.LinkOne, Store;
      for n := 0 to |live|
        invariant View() == Engine.LinkAll(inp, old(View()), n)
      {
        assert live[n] in live;
        LinkOne(inp, live[n]);
      }
    }

    // ----- 2a, 2b. history and confirmation -------------------------------------------------------

    method RememberAll(inp: Input)
      requires Valid()
      modifies objects.Values
      ensures View() == Engine.RememberAll(c, inp, old(View()), |live|)
    {
      hide LastSeen, Store;
      for n := 0 to |live|
        invariant View() == Engine.RememberAll(c, inp, old(View()), n)
      {
        label before:
        assert live[n] in live;
        var o := objects[live[n]];
        StoreAt(live[n]);
        if !o.tr.confirmed && o.tr.seenMs == Now(c, inp) {
          o.tr := o.tr.(history := LastSeen(o.tr.history + [Seen(inp.at, o.tr.coord, o.tr.score)]));
          OneChanged@before(live[n]);
        }
      }
    }

    /** tid is confirmed. */
    method Confirm(tid: TrackId)
      requires Valid() && tid in objects
      modifies objects[tid]
      ensures View() == Put(old(View()), tid, At(old(View()).store, tid).(confirmed := true))
    {
      StoreAt(tid);
      hide Store;
      objects[tid].tr := objects[tid].tr.(confirmed := true);
      OneChanged(tid);
    }

    method ConfirmAll(inp: Input, joining: seq<TrackId>) returns (more: seq<TrackId>)
      requires Valid() && Known(joining)
      modifies objects.Values
      ensures Known(more)
      ensures Work(View(), more) == Engine.ConfirmAll(c, inp, Work(old(View()), joining), |live|)
    {
      hide Confirmable, Store;
      more := joining;
      for n := 0 to |live|
        invariant Known(more)
        invariant Work(View(), more) == Engine.ConfirmAll(c, inp, Work(old(View()), joining), n)
      {
        assert live[n] in live;
        StoreAt(live[n]);
        if Confirmable(c, inp, objects[live[n]].tr) {
          Confirm(live[n]);
          more := more + [live[n]];
        }
      }
    }

    // ----- 3. parking -----------------------------------------------------------------------------

    method ParkOne(tid: TrackId)
      requires Valid() && tid in objects
      modifies this`event, objects[tid]
      ensures View() == Engine.ParkOne(old(View()), tid)
    {
      StoreAt(tid);
      ParkOneIs(View(), tid);
      hide Store, Tracks.Park, Engine.ParkOne;
      var o := objects[tid];
      if StandsStill(o.tr) && !o.tr.confirmed && o.tr.gate.truePositive && !o.tr.leftFirstBox {
        o.tr := o.tr.(confirmed := true);
      }
      if StandsStill(o.tr) && o.tr.confirmed {
        o.Park();
        OneChanged(tid);
        FinishHere(tid);
      }
    }

    /** A participant of the open event that parks has finished. */
    method FinishHere(tid: TrackId)
      requires Valid() && tid in objects
      modifies this`event
      ensures View() == if event.Some? && objects[tid].tr.eventId == Some(event.value.id)
                        then Finish(old(View()), tid) else old(View())
    {
      hide Store;
      if event.Some? && objects[tid].tr.eventId == Some(event.value.id) {
        event := Some(event.value.(finished := event.value.finished + [tid]));
      }
    }

    static lemma ParkOneIs(s: State, tid: TrackId)
      ensures var tr := At(s.store, tid);
              var doubtful := StandsStill(tr) && !tr.confirmed && tr.gate.truePositive && !tr.leftFirstBox;
              var t1 := if doubtful then tr.(confirmed := true) else tr;
              var s1 := Put(s, tid, Park(t1));
              && (doubtful ==> StandsStill(t1) && t1.confirmed)
              && Engine.ParkOne(s, tid)
                 == if !(StandsStill(t1) && t1.confirmed) then s
                    else if s1.event.Some? && Park(t1).eventId == Some(s1.event.value.id) then Finish(s1, tid) else s1
    {}

    method ParkAll()
      requires Valid()
      modifies this`event, objects.Values
      ensures View() == Engine.ParkAll(old(View()), |live|)
    {
      hide Engine.ParkOne, Store;
      for n := 0 to |live|
        invariant View() == Engine.ParkAll(old(View()), n)
      {
        assert live[n] in live;
        ParkOne(live[n]);
      }
    }

    // ----- 3b, 3c. faces and plates, zones --------------------------------------------------------

    method HasParent(kind: ObjectType) returns (yes: bool)
      requires Valid()
      ensures yes == Engine.HasParent(View(), kind)
    {
      for k := 0 to |live|
        invariant forall j :: 0 <= j < k ==>
                    !(At(View().store, live[j]).kind == kind && At(View().store, live[j]).confirmed
                      && At(View().store, live[j]).parked.None?)
      {
        var tr := objects[live[k]].tr;
        assert At(View().store, live[k]) == tr;
        if tr.kind == kind && tr.confirmed && tr.parked.None? { return true; }
      }
      return false;
    }

    method AccompanyOne(joining: seq<TrackId>, tid: TrackId) returns (more: seq<TrackId>)
      requires Valid() && tid in objects
      modifies objects[tid]
      ensures more in {joining, joining + [tid]}
      ensures Work(View(), more) == Engine.AccompanyOne(Work(old(View()), joining), tid)
    {
      StoreAt(tid);
      hide Engine.HasParent, Store;
      more := joining;
      var tr := objects[tid].tr;
      var parent := ConfirmWith(tr.kind);
      if tr.kind == Face && !tr.nameable { return; }
      if parent.None? || tr.confirmed || tr.missCount > 0 { return; }
      var found := HasParent(parent.value);
      if found {
        Confirm(tid);
        more := more + [tid];
      }
    }

    method AccompanyAll(joining: seq<TrackId>) returns (more: seq<TrackId>)
      requires Valid() && Known(joining)
      modifies objects.Values
      ensures Known(more)
      ensures Work(View(), more) == Engine.AccompanyAll(Work(old(View()), joining), |live|)
    {
      hide Engine.AccompanyOne, Store;
      more := joining;
      for n := 0 to |live|
        invariant Known(more)
        invariant Work(View(), more) == Engine.AccompanyAll(Work(old(View()), joining), n)
      {
        assert live[n] in live;
        more := AccompanyOne(more, live[n]);
      }
    }

    method SetAwaiting(tid: TrackId, waits: bool)
      requires Valid() && tid in objects
      modifies objects[tid]
      ensures View() == Put(old(View()), tid, At(old(View()).store, tid).(awaitingZone := waits))
    {
      StoreAt(tid);
      hide Store;
      objects[tid].tr := objects[tid].tr.(awaitingZone := waits);
      OneChanged(tid);
    }

    /** Those who waited for a zone and have been in one, then the joining ones that have; the others
        wait. */
    method HoldForZones(joining: seq<TrackId>) returns (out: seq<TrackId>)
      requires Valid() && Known(joining)
      modifies objects.Values
      ensures Known(out)
      ensures Work(View(), out) == Engine.HoldForZones(Work(old(View()), joining))
    {
      hide Store;
      out := [];
      for n := 0 to |live|
        invariant Known(out)
        invariant Work(View(), out) == Engine.ReleaseAll(old(View()), n)
      {
        assert live[n] in live;
        StoreAt(live[n]);
        var tr := objects[live[n]].tr;
        if tr.awaitingZone && tr.zoned && tr.confirmed {
          SetAwaiting(live[n], false);
          out := out + [live[n]];
        }
      }
      out := HoldAll(joining, out);
    }

    method HoldAll(joining: seq<TrackId>, released: seq<TrackId>) returns (out: seq<TrackId>)
      requires Valid() && Known(joining) && Known(released)
      modifies objects.Values
      ensures Known(out)
      ensures Work(View(), out) == Engine.HoldAll(Work(old(View()), released), joining, |joining|)
    {
      hide Store;
      out := released;
      for n := 0 to |joining|
        invariant Known(out)
        invariant Work(View(), out) == Engine.HoldAll(Work(old(View()), released), joining, n)
      {
        StoreAt(joining[n]);
        if joining[n] in out { continue; }
        if objects[joining[n]].tr.zoned {
          out := out + [joining[n]];
        } else {
          SetAwaiting(joining[n], true);
        }
      }
    }

    // ----- 4. the camera event --------------------------------------------------------------------

    method ActiveTracks() returns (active: seq<TrackId>)
      requires Valid()
      ensures active == ActiveIds(live, View().store) && Known(active)
    {
      hide Valid, Store, Known, Active, At;
      LiveKnown();
      active := [];
      for n := 0 to |live|
        invariant active == ActiveIds(live[..n], View().store)
      {
        StoreAt(live[n]);
        ActiveIdsNext(live, View().store, n);
        if Active(objects[live[n]].tr) { active := active + [live[n]]; }
      }
      assert live[..|live|] == live;
      ActiveKnown();
    }

    lemma LiveKnown()
      requires Valid()
      ensures forall t :: t in live ==> t in objects
    {}

    lemma ActiveKnown()
      requires Valid()
      ensures Known(ActiveIds(live, View().store))
    {
      hide Store;
    }

    method Enrol(tids: seq<TrackId>, id: int)
      requires Valid() && Known(tids)
      modifies objects.Values
      ensures View() == old(View()).(store := Engine.Enrol(old(View()).store, tids, id, |tids|))
    {
      hide TakePart, Store;
      for n := 0 to |tids|
        invariant View() == old(View()).(store := Engine.Enrol(old(View()).store, tids, id, n))
      {
        label before:
        StoreAt(tids[n]);
        objects[tids[n]].tr := TakePart(objects[tids[n]].tr, id);
        OneChanged@before(tids[n]);
      }
    }

    method ForgetHistory(tids: seq<TrackId>)
      requires Valid() && Known(tids)
      modifies objects.Values
      ensures View() == old(View()).(store := Engine.ForgetHistory(old(View()).store, tids, |tids|))
    {
      hide Forget, Store;
      for n := 0 to |tids|
        invariant View() == old(View()).(store := Engine.ForgetHistory(old(View()).store, tids, n))
      {
        label before:
        StoreAt(tids[n]);
        objects[tids[n]].tr := Forget(objects[tids[n]].tr);
        OneChanged@before(tids[n]);
      }
    }

    method ParkThose(tids: seq<TrackId>)
      requires Valid() && Known(tids)
      modifies objects.Values
      ensures View() == old(View()).(store := Engine.ParkThose(old(View()).store, tids, |tids|))
    {
      hide Tracks.Park, Store;
      for n := 0 to |tids|
        invariant View() == old(View()).(store := Engine.ParkThose(old(View()).store, tids, n))
      {
        StoreAt(tids[n]);
        ParkTrack(tids[n]);
      }
    }

    /** Back-dated messages of a new event, from the histories of its joining tracks. */
    method Backfill(inp: Input, id: int, starters: seq<TrackId>) returns (messages: seq<Message>)
      ensures var stamps := SortedStamps(Store(), starters, inp.at);
              messages == Engine.Backfill(c, Store(), starters, id, stamps, |stamps|)
    {
      hide SortedStamps, MembersAt, Store;
      var stamps := SortedStamps(Store(), starters, inp.at);
      var last: Option<int> := None;
      messages := [];
      for n := 0 to |stamps|
        invariant messages == Engine.Backfill(c, Store(), starters, id, stamps, n)
        invariant last == if messages == [] then None else Some(messages[|messages| - 1].at.mono)
      {
        var at := stamps[n];
        if last.Some? && at.mono - last.value < c.reportMs { continue; }
        var members := MembersAt(Store(), starters, at);
        if members == [] { continue; }
        messages := messages + [Message(if last.None? then Engine.Enter else Moving, id, at, true, members)];
        last := Some(at.mono);
      }
    }

    method OpenEvent(inp: Input, joining: seq<TrackId>, active: seq<TrackId>)
      requires Valid() && Known(active)
      modifies this`event, this`counter, this`sent, this`lastReportMs, this`joined, objects.Values
      ensures View() == Engine.OpenEvent(c, inp, old(View()), joining, active)
    {
      OpenEventIs(c, inp, View(), joining, active);
      hide Store, Known, Valid, Engine.OpenEvent, Engine.Enrol, Engine.ForgetHistory, Engine.Backfill, SortedStamps,
        FacesLast, LiveMembers, Among;
      var id := counter + inp.skipped;
      Enrol(active, id);
      StartersKnown(Store(), active, joining);
      var starters := Among(FacesLast(Store(), active), joining);
      var filled := Backfill(inp, id, starters);
      ForgetHistory(starters);
      Begun(inp, id, filled + [Message(if filled == [] then Engine.Enter else Moving, id, inp.at, false,
                                       LiveMembers(Store(), FacesLast(Store(), active)))], set t | t in active);
    }

    /** Event id is open and its first messages are sent. */
    method Begun(inp: Input, id: int, messages: seq<Message>, ghost everyone: set<TrackId>)
      modifies this`event, this`counter, this`sent, this`lastReportMs, this`joined
      ensures View() == old(View()).(event := Some(Event(id, Now(c, inp), [])), counter := id + 1,
                                     trace := old(View()).trace + messages, lastReportMs := Some(Now(c, inp)),
                                     joined := everyone)
    {
      hide Store;
      event := Some(Event(id, Now(c, inp), []));
      counter := id + 1;
      sent := sent + messages;
      lastReportMs := Some(Now(c, inp));
      joined := everyone;
    }

    static lemma OpenEventIs(c: Config, inp: Input, s: State, joining: seq<TrackId>, active: seq<TrackId>)
      ensures var id := s.counter + inp.skipped;
              var store := Engine.Enrol(s.store, active, id, |active|);
              var starters := Among(FacesLast(store, active), joining);
              var stamps := SortedStamps(store, starters, inp.at);
              var filled := Engine.Backfill(c, store, starters, id, stamps, |stamps|);
              var after := Engine.ForgetHistory(store, starters, |starters|);
              var first := Message(if filled == [] then Engine.Enter else Moving, id, inp.at, false,
                                   LiveMembers(after, FacesLast(after, active)));
              Engine.OpenEvent(c, inp, s, joining, active)
              == s.(store := after).(event := Some(Event(id, Now(c, inp), [])), counter := id + 1,
                                     trace := s.trace + (filled + [first]), lastReportMs := Some(Now(c, inp)),
                                     joined := set t | t in active)
    {
      hide Engine.Backfill, SortedStamps, FacesLast, LiveMembers, Engine.Enrol, Engine.ForgetHistory, Among;
    }

    lemma StartersKnown(store: Table, tids: seq<TrackId>, joining: seq<TrackId>)
      requires Known(tids)
      ensures Known(Among(FacesLast(store, tids), joining))
    {
      SortStableKeeps(tids, FaceKey(store));
      forall t | t in FacesLast(store, tids)
        ensures t in tids
      {
        assert t in multiset(FacesLast(store, tids));
      }
    }

    method CloseEvent(inp: Input, e: Event, active: seq<TrackId>)
      requires Valid() && Known(active)
      modifies this`event, this`sent, this`joined, objects.Values
      ensures View() == Engine.CloseEvent(inp, old(View()), e, active)
    {
      hide Store, LiveMembers, Engine.ParkThose;
      var members := e.finished + active;
      if members != [] {
        var order := SortStable(members, LeaveKey(Store()));
        sent := sent + [Message(Leave, e.id, inp.at, false, LiveMembers(Store(), order))];
      }
      ParkThose(active);
      event := None;
      joined := {};
    }

    method ReportEvent(inp: Input, e: Event, active: seq<TrackId>)
      requires Valid()
      modifies this`sent, this`lastReportMs, this`joined
      ensures View() == Engine.ReportEvent(c, inp, old(View()), e, active)
    {
      hide Store, LiveMembers, FacesLast, SeenSince;
      var now := Now(c, inp);
      joined := joined + set t | t in active;
      if lastReportMs.None? || now - lastReportMs.value >= c.reportMs {
        var seen := SeenSince(Store(), active, lastReportMs);
        if seen != [] {
          sent := sent + [Message(Moving, e.id, inp.at, false, LiveMembers(Store(), FacesLast(Store(), seen)))];
          lastReportMs := Some(now);
        }
      }
    }

    method Lifecycle(inp: Input, joining: seq<TrackId>)
      requires Valid() && Known(joining)
      modifies this`event, this`counter, this`sent, this`lastReportMs, this`joined, objects.Values
      ensures View() == Engine.Lifecycle(c, inp, Work(old(View()), joining))
    {
      hide Store, ActiveIds, Engine.OpenEvent, Engine.CloseEvent, Engine.ReportEvent, Engine.Enrol, Engine.ForgetHistory;
      var active := ActiveTracks();
      if event.None? {
        if joining != [] && active != [] { OpenEvent(inp, joining, active); }
        return;
      }
      var e := event.value;
      Enrol(joining, e.id);
      ForgetHistory(joining);
      if active == [] || Now(c, inp) - e.startedMs >= inp.eventMaxMs {
        CloseEvent(inp, e, active);
      } else {
        ReportEvent(inp, e, active);
      }
    }

    // ----- the tick -------------------------------------------------------------------------------

    /** A tick up to its zone check. */
    method Gather(inp: Input, m: Pipeline.Result) returns (joining: seq<TrackId>)
      requires Valid()
      modifies this`live, this`objects, this`recent, this`nextId, this`startedMs, this`ids, this`event, this`early
      modifies objects.Values
      ensures Valid() && Kept() && Known(joining)
      ensures Work(View(), joining) == Engine.Gather(c, old(View()), inp, m)
    {
      hide Store, Valid, Known, Engine.Begin, Starting, Engine.FollowAll, Engine.AdmitAll, Engine.LinkAll,
        Engine.RememberAll, Engine.ConfirmAll, Engine.ParkAll, Engine.AccompanyAll;
      joining := Meet(inp, m);
      LinkAndRemember(inp);
      joining := SettleTracks(inp, joining);
    }

    /** The matched and the missed tracks, and what is new. */
    method Meet(inp: Input, m: Pipeline.Result) returns (joining: seq<TrackId>)
      requires Valid()
      modifies this`live, this`objects, this`recent, this`nextId, this`startedMs, this`ids, this`event, this`early
      modifies objects.Values
      ensures Valid() && Kept() && Known(joining)
      ensures var s0 := Engine.Begin(c, old(View()), inp).(ids := m.ids);
              var w1 := Engine.FollowAll(c, inp, m, Work(s0, []), s0.live, |s0.live|);
              Work(View(), joining) == Engine.AdmitAll(c, inp, m, Starting(c, s0, inp), w1, |m.claims.unclaimed|)
    {
      hide Store, Valid, Known, Engine.Begin, Starting, Engine.FollowAll, Engine.AdmitAll;
      Prepare(inp, m.ids);
      var starting := IsStarting(inp);
      joining := FollowAll(inp, m);
      joining := AdmitAll(inp, m, starting, joining);
    }

    /** The persons of faces and the vehicles of plates, and the frames tracks are remembered by. */
    method LinkAndRemember(inp: Input)
      requires Valid()
      modifies objects.Values
      ensures var s3 := Engine.LinkAll(inp, old(View()), |live|);
              View() == Engine.RememberAll(c, inp, s3, |s3.live|)
    {
      hide Store, Valid, Engine.LinkAll, Engine.RememberAll;
      LinkAll(inp);
      RememberAll(inp);
    }

    /** Confirmation, parking and the parents of faces and plates. */
    method SettleTracks(inp: Input, joining: seq<TrackId>) returns (more: seq<TrackId>)
      requires Valid() && Known(joining)
      modifies this`event, objects.Values
      ensures Known(more)
      ensures var w5 := Engine.ConfirmAll(c, inp, Work(old(View()), joining), |live|);
              var s6 := Engine.ParkAll(w5.s, |w5.s.live|);
              Work(View(), more) == Engine.AccompanyAll(Work(s6, w5.joining), |s6.live|)
    {
      hide Store, Valid, Known, Engine.ConfirmAll, Engine.ParkAll, Engine.AccompanyAll;
      more := ConfirmAll(inp, joining);
      ParkAll();
      more := AccompanyAll(more);
    }

    method Prepare(inp: Input, ids: Norfair.Ids)
      requires Valid()
      modifies this`recent, this`startedMs, this`ids
      ensures Valid() && View() == Engine.Begin(c, old(View()), inp).(ids := ids)
    {
      hide Store, Engine.Begin;
      Begin(inp);
      this.ids := ids;
    }

    method IsStarting(inp: Input) returns (yes: bool)
      ensures yes == Starting(c, View(), inp)
    {
      return startedMs.None? || Now(c, inp) - startedMs.value <= STARTUP_WINDOW_MS;
    }

    /** One analysed frame: the state becomes Engine.Tick's, and what holds between ticks holds again. */
    method Tick(inp: Input)
      requires Valid() && Inv(View()) && InputOk(View(), inp)
      modifies this, objects.Values
      ensures Valid() && Kept()
      ensures View() == Engine.Tick(c, old(View()), inp)
      ensures Inv(View())
    {
      hide Store, Inv, Engine.Gather, Engine.HoldForZones, Engine.Lifecycle, Pipeline.Match;
      TickKeepsInv(c, View(), inp);
      var m := Matchers.Match(c.norfair, live, Store(), inp.dets, inp.assoc, ids);
      var joining := Gather(inp, m);
      joining := HoldForZones(joining);
      Lifecycle(inp, joining);
    }
  }
}
