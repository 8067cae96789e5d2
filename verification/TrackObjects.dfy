/** A track as the source keeps it: one dict, changed in place and shared by the live table, the
    recently closed list and an event's finished list. Here it is an object holding the dict's keys
    as one record; each method is the update of one frame, proved to be the function of Tracks.dfy. */
module TrackObjects {
  import opened Wrappers
  import opened Geometry
  import opened Tracks
  import ScoreGate

  class TrackObject {
    var tr: Track

    constructor (d: Detection, now: int)
      ensures tr == Fresh(d, now)
    {
      tr := Fresh(d, now);
    }

    method Follow(b: Box)
      modifies this
      ensures tr == Tracks.Follow(old(tr), b)
    {
      var steps := 1.0 + tr.missCount as real;
      var prev := if tr.smooth.Some? then tr.smooth.value else tr.coord;
      tr := tr.(vx := (CenterX(b) - CenterX(tr.coord)) / steps, vy := (CenterY(b) - CenterY(tr.coord)) / steps);
      tr := tr.(smooth := Some(Box(Blend(b.x, prev.x), Blend(b.y, prev.y), Blend(b.w, prev.w), Blend(b.h, prev.h))));
      tr := tr.(coord := b, sizes := LastSizes(tr.sizes + [(b.w, b.h)]));
    }

    method RecordScore(c: Config, score: real)
      modifies this
      ensures tr == Tracks.RecordScore(c, old(tr), score)
    {
      hide ScoreGate.Record;
      var g := ScoreGate.AddScore(tr.gate, score, c.minInit, c.threshold(tr.kind));
      tr := tr.(gate := g);
    }

    method UpdateStill(c: Config)
      modifies this
      ensures tr == Tracks.UpdateStill(c, old(tr))
    {
      hide Iou;
      if tr.anchor.None? || Iou(tr.coord, tr.anchor.value) < STILL_IOU {
        tr := tr.(anchor := Some(tr.coord), stillTicks := 0, still := 0 >= c.stillTicks);
      } else {
        tr := tr.(stillTicks := tr.stillTicks + 1, still := tr.stillTicks + 1 >= c.stillTicks);
      }
    }

    method Park()
      modifies this
      ensures tr == Tracks.Park(old(tr))
    {
      tr := tr.(parked := Some(tr.coord));
      tr := tr.(movedTicks := 0);
    }

    /** Whether a parked track has really moved off its spot; counts its shifts. */
    method MovedSince(c: Config) returns (yes: bool)
      requires tr.parked.Some?
      modifies this
      ensures yes == Tracks.MovedSince(c, old(tr))
      ensures tr == CountShift(old(tr))
    {
      hide LeftSpot, Shifted;
      if LeftSpot(tr.coord, tr.parked.value) { return true; }
      tr := tr.(movedTicks := if Shifted(tr.coord, tr.parked.value) then tr.movedTicks + 1 else 0);
      return tr.movedTicks >= c.resumeTicks;
    }

    /** A matched track takes its detection's box and score. */
    method Take(c: Config, d: Detection)
      modifies this
      ensures tr == Tracks.Take(c, old(tr), d)
    {
      hide Tracks.Follow, Tracks.RecordScore, Tracks.UpdateStill, Iou, CenterMoved;
      Follow(d.coord);
      tr := tr.(score := d.score);
      tr := tr.(missCount := 0);
      CompareToFirst(d.coord);
      RecordScore(c, d.score);
      UpdateStill(c);
    }

    /** Whether a box has gone from where the track began. */
    method CompareToFirst(b: Box)
      modifies this
      ensures tr == old(tr).(moved := old(tr).moved || CenterMoved(old(tr).firstCoord, b),
                             leftFirstBox := old(tr).leftFirstBox || Iou(old(tr).firstCoord, b) < STILL_IOU)
    {
      hide Iou, CenterMoved;
      if CenterMoved(tr.firstCoord, b) { tr := tr.(moved := true); }
      if Iou(tr.firstCoord, b) < STILL_IOU { tr := tr.(leftFirstBox := true); }
    }

    method Wake(c: Config, now: int)
      modifies this
      ensures tr == Tracks.Wake(c, old(tr), now)
    {
      hide Tracks.UpdateStill;
      tr := tr.(parked := None);
      tr := tr.(movedTicks := 0);
      tr := tr.(firstShownMs := now);
      tr := tr.(anchor := None);
      UpdateStill(c);
    }

    method Settle()
      requires tr.parked.Some?
      modifies this
      ensures tr == Tracks.Settle(old(tr))
    {
      tr := tr.(coord := tr.parked.value);
      tr := tr.(movedTicks := 0);
    }

    /** The detection's zone and face reading carried onto the track. */
    method Note(d: Detection, now: int, held: bool)
      modifies this
      ensures tr == Tracks.Note(old(tr), d, now, held)
    {
      if d.inZone && !held { tr := tr.(zoned := true); }
      if d.kind == Face && !d.small && !tr.nameable {
        tr := tr.(nameable := true);
        tr := tr.(firstShownMs := now);
        tr := tr.(history := []);
      }
    }
  }
}
