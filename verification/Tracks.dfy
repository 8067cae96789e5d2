/** Detections, tracks and what one frame does to one track. A track is a dict in the source; here
    it is a value, and TrackObjects.dfy holds the objects that are changed in place. */
module Tracks {
  import opened Wrappers
  import opened Geometry
  import opened Reals
  import ScoreGate

  type TrackId = nat

  type pos = n: nat | n > 0 witness 1

  datatype ObjectType = Person | Vehicle | Animal | Face | LicensePlate | Other(name: string)

  /** What a face or plate confirms with: it is only looked for inside that parent. */
  function ConfirmWith(kind: ObjectType): Option<ObjectType> {
    match kind
    case Face => Some(Person)
    case LicensePlate => Some(Vehicle)
    case _ => None
  }

  predicate ParksWhenStill(kind: ObjectType) {
    kind == Vehicle
  }

  // (wall ms, monotonic ms) at which a frame was read.
  datatype Stamp = Stamp(wall: int, mono: int)

  /** One detection of a frame. seeded: the repeated box of that parked track; clipped: still cut
      off by its crop; small: a face too small to name; parent: the person box a face was read in;
      inZone: its foot is in a zone for its type. */
  datatype Detection = Detection(
    kind: ObjectType, coord: Box, score: real, seeded: Option<TrackId>, clipped: bool, small: bool,
    inZone: bool, parent: Option<Box>)

  /** One remembered frame of an unconfirmed track. */
  datatype Seen = Seen(at: Stamp, coord: Box, score: real)

  datatype Track = Track(
    kind: ObjectType,
    coord: Box,
    score: real,
    firstCoord: Box,
    smooth: Option<Box>,
    vx: real,
    vy: real,
    sizes: seq<(real, real)>,
    firstShownMs: int,
    seenMs: int,
    missCount: nat,
    gate: ScoreGate.Gate,
    confirmed: bool,
    moved: bool,
    leftFirstBox: bool,
    anchor: Option<Box>,
    stillTicks: nat,
    still: bool,
    parked: Option<Box>,         // stationary_coord
    movedTicks: nat,
    zoned: bool,
    awaitingZone: bool,
    nameable: bool,
    history: seq<Seen>,
    eventId: Option<int>,
    personTid: Option<TrackId>,
    faceTid: Option<TrackId>,
    holdMs: Option<int>)         // fm_hold_ms

  /** Settings fixed while the program runs. */
  datatype Config = Config(
    reportMs: int,               // REPORT_INTERVAL_MS
    missTicks: pos,              // MOTION_MISS_TOLERANCE_TICKS
    parkedTicks: pos,            // PARKED_MISS_TOLERANCE_TICKS
    stillTicks: pos,             // STILL_TICKS
    resumeTicks: pos,            // STATIONARY_RESUME_TICKS
    minInit: int,                // MIN_INITIALIZED
    threshold: ObjectType -> real,
    resumeMs: int,               // RESUME_S * 1000
    delayMs: int,                // the camera's residual delay
    norfair: bool)               // TRACKER == "norfair"

  const STILL_IOU := 0.7
  const STATIONARY_LEFT_IOU := 0.3
  const STATIONARY_RESUME_DISTANCE := 50.0
  const SAME_SIZE_LOW := 0.7
  const SAME_SIZE_HIGH := 1.4
  const BOX_SMOOTHING := 0.6
  const SIZE_HISTORY := 8
  const BACKFILL_MAX := 50
  const STARTUP_WINDOW_MS := 15000
  const VEHICLE_HOLD_MS := 2500

  function Blend(c: real, p: real): real {
    BOX_SMOOTHING * c + (1.0 - BOX_SMOOTHING) * p
  }

  function LastSizes(s: seq<(real, real)>): seq<(real, real)> {
    if |s| <= SIZE_HISTORY then s else s[|s| - SIZE_HISTORY..]
  }

  /** Move a track to a new raw box: velocity per tick and the smoothed reporting box. */
  function Follow(tr: Track, b: Box): Track {
    var steps := 1.0 + tr.missCount as real;
    var prev := if tr.smooth.Some? then tr.smooth.value else tr.coord;
    tr.(vx := (CenterX(b) - CenterX(tr.coord)) / steps,
        vy := (CenterY(b) - CenterY(tr.coord)) / steps,
        smooth := Some(Box(Blend(b.x, prev.x), Blend(b.y, prev.y), Blend(b.w, prev.w), Blend(b.h, prev.h))),
        coord := b,
        sizes := LastSizes(tr.sizes + [(b.w, b.h)]))
  }

  function RecordScore(c: Config, tr: Track, score: real): Track {
    tr.(gate := ScoreGate.Record(tr.gate, score, c.minInit, c.threshold(tr.kind)))
  }

  /** Advance a track's stillness against its anchor box. */
  function UpdateStill(c: Config, tr: Track): Track {
    if tr.anchor.None? || Iou(tr.coord, tr.anchor.value) < STILL_IOU then
      tr.(anchor := Some(tr.coord), stillTicks := 0, still := 0 >= c.stillTicks)
    else
      tr.(stillTicks := tr.stillTicks + 1, still := tr.stillTicks + 1 >= c.stillTicks)
  }

  function Park(tr: Track): Track {
    tr.(parked := Some(tr.coord), movedTicks := 0)
  }

  /** Shifted off the parked spot at about the same size. */
  predicate Shifted(cur: Box, spot: Box) {
    var ratio := cur.w * cur.h / Max(1.0, spot.w * spot.h);
    && Square(CenterX(cur) - CenterX(spot)) + Square(CenterY(cur) - CenterY(spot))
       > Square(STATIONARY_RESUME_DISTANCE)
    && SAME_SIZE_LOW <= ratio <= SAME_SIZE_HIGH
  }

  /** The track's box has left its parked spot altogether. */
  predicate LeftSpot(cur: Box, spot: Box) {
    Iou(cur, spot) < STATIONARY_LEFT_IOU
  }

  function ShiftCount(count: nat, cur: Box, spot: Box): nat {
    if Shifted(cur, spot) then count + 1 else 0
  }

  /** A parked track has really moved off its spot. */
  predicate MovedSince(c: Config, tr: Track)
    requires tr.parked.Some?
  {
    LeftSpot(tr.coord, tr.parked.value) || ShiftCount(tr.movedTicks, tr.coord, tr.parked.value) >= c.resumeTicks
  }

  /** The shift counter after the test above. */
  function CountShift(tr: Track): Track
    requires tr.parked.Some?
  {
    if LeftSpot(tr.coord, tr.parked.value) then tr
    else tr.(movedTicks := ShiftCount(tr.movedTicks, tr.coord, tr.parked.value))
  }

  /** A matched track takes its detection's box and score. */
  function Take(c: Config, tr: Track, d: Detection): Track {
    var t1 := Follow(tr, d.coord).(score := d.score, missCount := 0);
    var t2 := t1.(moved := t1.moved || CenterMoved(t1.firstCoord, d.coord),
                  leftFirstBox := t1.leftFirstBox || Iou(t1.firstCoord, d.coord) < STILL_IOU);
    UpdateStill(c, RecordScore(c, t2, d.score))
  }

  /** A parked track that moved rejoins as a fresh participant. */
  function Wake(c: Config, tr: Track, now: int): Track {
    UpdateStill(c, tr.(parked := None, movedTicks := 0, firstShownMs := now, anchor := None))
  }

  /** Its boxes moved but its pixels did not: it stays where it parked. */
  function Settle(tr: Track): Track
    requires tr.parked.Some?
  {
    tr.(coord := tr.parked.value, movedTicks := 0)
  }

  /** The detection's zone and face reading carried onto the track; held: still only seen in the
      frame corner it started in. */
  function Note(tr: Track, d: Detection, now: int, held: bool): Track {
    var t1 := tr.(zoned := tr.zoned || (d.inZone && !held));
    if d.kind == Face && !d.small && !t1.nameable then
      t1.(nameable := true, firstShownMs := now, history := [])
    else
      t1
  }

  /** A track's keys before its first score. */
  function Fresh(d: Detection, now: int): Track {
    Track(d.kind, d.coord, d.score, d.coord, None, 0.0, 0.0, [], now, now, 0, ScoreGate.EMPTY, false, false, false,
          None, 0, false, None, 0, false, false, false, [], None, None, None, None)
  }

  function New(c: Config, d: Detection, now: int): Track {
    RecordScore(c, Fresh(d, now), d.score)
  }

  /** The flags the event lifecycle reads. */
  datatype Flags = Flags(kind: ObjectType, confirmed: bool, parked: bool, zoned: bool,
                         awaitingZone: bool, eventId: Option<int>)

  function FlagsOf(tr: Track): Flags {
    Flags(tr.kind, tr.confirmed, tr.parked.Some?, tr.zoned, tr.awaitingZone, tr.eventId)
  }

  predicate Active(tr: Track) {
    tr.parked.None? && tr.confirmed && tr.zoned
  }
}
