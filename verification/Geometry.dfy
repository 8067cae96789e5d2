/** Boxes in the normalised 0-1000 space of a frame, and how they are compared. */
module Geometry {
  import opened Reals

  // [x, y, w, h]: top-left corner, width, height.
  datatype Box = Box(x: real, y: real, w: real, h: real)

  function Abs(a: real): real {
    if a < 0.0 then -a else a
  }

  function CenterX(b: Box): real {
    b.x + b.w / 2.0
  }

  function CenterY(b: Box): real {
    b.y + b.h / 2.0
  }

  function Square(a: real): real {
    a * a
  }

  function Overlap(a: Box, b: Box): real {
    Max(0.0, Min(a.x + a.w, b.x + b.w) - Max(a.x, b.x))
    * Max(0.0, Min(a.y + a.h, b.y + b.h) - Max(a.y, b.y))
  }

  /** Intersection over union; 0 for an empty union. */
  function Iou(a: Box, b: Box): real {
    var inter := Overlap(a, b);
    var union := a.w * a.h + b.w * b.h - inter;
    if union > 0.0 then inter / union else 0.0
  }

  lemma IouSymmetric(a: Box, b: Box)
    ensures Iou(a, b) == Iou(b, a)
  {
    OverlapSymmetric(a, b);
    hide Overlap;
  }

  lemma OverlapSymmetric(a: Box, b: Box)
    ensures Overlap(a, b) == Overlap(b, a)
  {}

  /** Box b's centre is more than a quarter of box a's size away from a's centre. */
  predicate CenterMoved(a: Box, b: Box) {
    || Abs(CenterX(b) - CenterX(a)) > 0.25 * a.w
    || Abs(CenterY(b) - CenterY(a)) > 0.25 * a.h
  }

  predicate CenterInside(inner: Box, outer: Box) {
    && outer.x <= CenterX(inner) <= outer.x + outer.w
    && outer.y <= CenterY(inner) <= outer.y + outer.h
  }

  /** How far down box the centre of face lies: 0 at its top, 1 at its bottom. */
  function FaceDepth(face: Box, box: Box): real {
    (face.y + face.h / 2.0 - box.y) / Max(1.0, box.h)
  }

  const SIZE_RATIO_MAX := 2.0
  const SIZE_JUMP_INSIDE := 0.8

  predicate SideJump(a: real, b: real) {
    var p, q := Max(a, 0.000001), Max(b, 0.000001);
    Max(p, q) / Min(p, q) > SIZE_RATIO_MAX
  }

  /** Box b is another object beside a, not a grown or moved: over twice (or under half) as wide
      or tall, unless the smaller one lies mostly inside the larger. */
  predicate SizeJump(a: Box, b: Box) {
    var small, large := if a.w * a.h <= b.w * b.h then a else b, if a.w * a.h <= b.w * b.h then b else a;
    var iw := Min(small.x + small.w, large.x + large.w) - Max(small.x, large.x);
    var ih := Min(small.y + small.h, large.y + large.h) - Max(small.y, large.y);
    if iw > 0.0 && ih > 0.0 && iw * ih >= SIZE_JUMP_INSIDE * Max(small.w * small.h, 0.000001) then
      false
    else
      SideJump(a.w, b.w) || SideJump(a.h, b.h)
  }

  const INSIDE_PARKED_FRACTION := 0.7

  /** At least INSIDE_PARKED_FRACTION of box lies on the parked spot. */
  predicate PartOf(box: Box, spot: Box) {
    var iw := Min(box.x + box.w, spot.x + spot.w) - Max(box.x, spot.x);
    var ih := Min(box.y + box.h, spot.y + spot.h) - Max(box.y, spot.y);
    iw > 0.0 && ih > 0.0 && iw * ih / Max(1.0, box.w * box.h) >= INSIDE_PARKED_FRACTION
  }
}
