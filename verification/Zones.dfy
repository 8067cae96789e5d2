/** Whether a point is in a zone: ray casting over the zone's corners. Reals stand for the floats. */
module Zones {
  import opened Reals

  datatype Point = Point(x: real, y: real)

  /** Where the edge from a to b meets the height y. */
  function MeetsAt(a: Point, b: Point, y: real): real
    requires a.y != b.y
  {
    (b.x - a.x) * (y - a.y) / (b.y - a.y) + a.x
  }

  predicate Straddles(a: Point, b: Point, y: real) {
    (a.y > y) != (b.y > y)
  }

  /** The ray to the right of p crosses the edge from a to b. */
  predicate Crosses(p: Point, a: Point, b: Point) {
    Straddles(a, b, p.y) && p.x < MeetsAt(a, b, p.y)
  }

  predicate Xor(a: bool, b: bool) {
    a != b
  }

  /** An odd number of the edges along a path is crossed. */
  function Path(p: Point, s: seq<Point>): bool {
    if |s| < 2 then false
    else Xor(Path(p, s[..|s| - 1]), Crosses(p, s[|s| - 2], s[|s| - 1]))
  }

  /** An odd number of the edges of a closed polygon is crossed. */
  predicate Inside(p: Point, polygon: seq<Point>)
    requires polygon != []
  {
    Xor(Crosses(p, polygon[|polygon| - 1], polygon[0]), Path(p, polygon))
  }

  method PointInPolygon(p: Point, polygon: seq<Point>) returns (inside: bool)
    requires polygon != []
    ensures inside == Inside(p, polygon)
  {
    hide Crosses;
    inside := false;
    var one := polygon[|polygon| - 1];
    for i := 0 to |polygon|
      invariant one == polygon[if i == 0 then |polygon| - 1 else i - 1]
      invariant inside == (i > 0 && Xor(Crosses(p, polygon[|polygon| - 1], polygon[0]), Path(p, polygon[..i])))
    {
      var two := polygon[i];
      if i > 0 { assert polygon[..i + 1][..i] == polygon[..i]; }
      if Crosses(p, one, two) { inside := !inside; }
      one := two;
    }
    assert polygon[..|polygon|] == polygon;
  }

  // ----- edges ------------------------------------------------------------------------------------

  /** An edge meets a height where it does whichever way it is walked. */
  lemma MeetsBothWays(a: Point, b: Point, y: real)
    requires a.y != b.y
    ensures MeetsAt(a, b, y) == MeetsAt(b, a, y)
  {
    var d, m, n := b.y - a.y, (b.x - a.x) * (y - a.y) / (b.y - a.y), (a.x - b.x) * (y - b.y) / (a.y - b.y);
    assert m * d == (b.x - a.x) * (y - a.y);
    assert n * d == -((a.x - b.x) * (y - b.y)) by {
      assert n * (a.y - b.y) == (a.x - b.x) * (y - b.y);
    }
    assert (b.x - a.x) * (y - a.y) - (b.x - a.x) * (y - b.y) == (b.x - a.x) * d;
    assert m * d - n * d == (b.x - a.x) * (y - a.y) + (a.x - b.x) * (y - b.y) == (b.x - a.x) * d;
    assert (m - n - (b.x - a.x)) * d == 0.0;
  }

  lemma CrossesBothWays(p: Point, a: Point, b: Point)
    ensures Crosses(p, a, b) == Crosses(p, b, a)
  {
    if Straddles(a, b, p.y) { MeetsBothWays(a, b, p.y); }
  }

  lemma Fraction(e: real, d: real)
    requires (0.0 <= e <= d && d != 0.0) || (d <= e <= 0.0 && d != 0.0)
    ensures 0.0 <= e / d <= 1.0
  {
    var t := e / d;
    assert t * d == e;
    assert (t - 1.0) * d == e - d;
    Signs(t, d);
    Signs(t - 1.0, d);
  }

  lemma PartOf(w: real, t: real)
    requires 0.0 <= t <= 1.0
    ensures if w >= 0.0 then 0.0 <= w * t <= w else w <= w * t <= 0.0
  {
    assert w * t + w * (1.0 - t) == w;
    Signs(w, t);
    Signs(w, 1.0 - t);
  }

  lemma DivideLast(w: real, e: real, d: real)
    requires d != 0.0
    ensures w * e / d == w * (e / d)
  {}

  /** A straddling edge meets the height between its ends. */
  lemma MeetsBetween(a: Point, b: Point, y: real)
    requires Straddles(a, b, y)
    ensures (a.x <= MeetsAt(a, b, y) <= b.x) || (b.x <= MeetsAt(a, b, y) <= a.x)
  {
    Fraction(y - a.y, b.y - a.y);
    PartOf(b.x - a.x, (y - a.y) / (b.y - a.y));
    MeetsIs(a, b, y);
    hide *;
    Within(a.x, b.x, (b.x - a.x) * ((y - a.y) / (b.y - a.y)), MeetsAt(a, b, y));
  }

  lemma MeetsIs(a: Point, b: Point, y: real)
    requires a.y != b.y
    ensures MeetsAt(a, b, y) == (b.x - a.x) * ((y - a.y) / (b.y - a.y)) + a.x
  {
    DivideLast(b.x - a.x, y - a.y, b.y - a.y);
  }

  lemma Within(p: real, q: real, d: real, m: real)
    requires m == d + p && (if q - p >= 0.0 then 0.0 <= d <= q - p else q - p <= d <= 0.0)
    ensures p <= m <= q || q <= m <= p
  {}

  // ----- paths ------------------------------------------------------------------------------------

  /** A path counts as its two parts. */
  lemma {:induction false} PathSplits(p: Point, s: seq<Point>, i: nat)
    requires i < |s|
    ensures Path(p, s) == Xor(Path(p, s[..i + 1]), Path(p, s[i..]))
    decreases |s| - i
  {
    hide Crosses;
    if i == |s| - 1 {
      assert s[..i + 1] == s;
    } else {
      PathSplits(p, s[..|s| - 1], i);
      assert s[..|s| - 1][..i + 1] == s[..i + 1];
      assert s[i..][..|s[i..]| - 1] == s[..|s| - 1][i..];
    }
  }

  function Reversed(s: seq<Point>): (r: seq<Point>)
    ensures |r| == |s| && forall i :: 0 <= i < |s| ==> r[i] == s[|s| - 1 - i]
  {
    seq(|s|, i requires 0 <= i < |s| => s[|s| - 1 - i])
  }

  lemma {:induction false} PathReversed(p: Point, s: seq<Point>)
    ensures Path(p, Reversed(s)) == Path(p, s)
  {
    if |s| >= 2 {
      var r, front := Reversed(s), s[..|s| - 1];
      PathReversed(p, front);
      PathSplits(p, r, 1);
      assert r[1..] == Reversed(front);
      CrossesBothWays(p, s[|s| - 2], s[|s| - 1]);
      assert r[..2][..1] == [s[|s| - 1]];
    }
  }

  lemma PathJoins(p: Point, a: seq<Point>, b: seq<Point>)
    requires a != [] && b != []
    ensures Path(p, a + b) == Xor(Xor(Path(p, a), Crosses(p, a[|a| - 1], b[0])), Path(p, b))
  {
    hide Crosses;
    var s := a + b;
    PathSplits(p, s, |a|);
    assert s[..|a| + 1][..|a|] == a && s[|a|..] == b;
  }

  // ----- what does not matter ---------------------------------------------------------------------

  /** The corner a polygon starts at does not matter. */
  lemma StartDoesNotMatter(p: Point, polygon: seq<Point>, k: nat)
    requires polygon != [] && k <= |polygon|
    ensures Inside(p, polygon[k..] + polygon[..k]) == Inside(p, polygon)
  {
    hide Crosses;
    var a, b := polygon[..k], polygon[k..];
    assert polygon == a + b;
    if a == [] {
      assert b + a == polygon;
    } else if b == [] {
      assert b + a == polygon;
    } else {
      PathJoins(p, a, b);
      PathJoins(p, b, a);
    }
  }

  /** Nor does the direction it is walked in. */
  lemma DirectionDoesNotMatter(p: Point, polygon: seq<Point>)
    requires polygon != []
    ensures Inside(p, Reversed(polygon)) == Inside(p, polygon)
  {
    PathReversed(p, polygon);
    CrossesBothWays(p, polygon[|polygon| - 1], polygon[0]);
  }

  // ----- outside the bounding box -----------------------------------------------------------------

  /** An odd number of edges along a path straddles y. */
  function Straddling(y: real, s: seq<Point>): bool {
    if |s| < 2 then false
    else Xor(Straddling(y, s[..|s| - 1]), Straddles(s[|s| - 2], s[|s| - 1], y))
  }

  /** That is told by its ends, so a closed polygon straddles any height an even number of times. */
  lemma {:induction false} StraddlingIsToldByTheEnds(y: real, s: seq<Point>)
    requires s != []
    ensures Straddling(y, s) == Straddles(s[0], s[|s| - 1], y)
  {
    if |s| >= 2 { StraddlingIsToldByTheEnds(y, s[..|s| - 1]); }
  }

  /** Left of every corner each straddling edge is crossed. */
  lemma {:induction false} LeftCrossesAll(p: Point, s: seq<Point>)
    requires forall i :: 0 <= i < |s| ==> p.x < s[i].x
    ensures Path(p, s) == Straddling(p.y, s)
  {
    if |s| >= 2 {
      LeftCrossesAll(p, s[..|s| - 1]);
      LeftCrosses(p, s[|s| - 2], s[|s| - 1]);
    }
  }

  lemma LeftCrosses(p: Point, a: Point, b: Point)
    requires p.x < a.x && p.x < b.x
    ensures Crosses(p, a, b) == Straddles(a, b, p.y)
  {
    if Straddles(a, b, p.y) { MeetsBetween(a, b, p.y); }
  }

  /** p's ray cannot cross an edge between these corners: they are all left of p, all above or all below. */
  predicate Beyond(p: Point, s: seq<Point>) {
    || (forall i :: 0 <= i < |s| ==> s[i].x <= p.x)
    || (forall i :: 0 <= i < |s| ==> s[i].y > p.y)
    || (forall i :: 0 <= i < |s| ==> s[i].y <= p.y)
  }

  lemma BeyondCrossesNot(p: Point, s: seq<Point>, i: nat, j: nat)
    requires Beyond(p, s) && i < |s| && j < |s|
    ensures !Crosses(p, s[i], s[j])
  {
    if Straddles(s[i], s[j], p.y) { MeetsBetween(s[i], s[j], p.y); }
  }

  lemma {:induction false} BeyondCrossesNone(p: Point, s: seq<Point>, n: nat)
    requires Beyond(p, s) && n <= |s|
    ensures !Path(p, s[..n])
  {
    if n >= 2 {
      BeyondCrossesNone(p, s, n - 1);
      BeyondCrossesNot(p, s, n - 2, n - 1);
      assert s[..n][..n - 1] == s[..n - 1];
    }
  }

  /** A point outside a polygon's bounding box is not in the polygon. */
  lemma OutsideTheBoxIsOutside(p: Point, polygon: seq<Point>)
    requires polygon != []
    requires || (forall i :: 0 <= i < |polygon| ==> p.x < polygon[i].x)
             || (forall i :: 0 <= i < |polygon| ==> p.x > polygon[i].x)
             || (forall i :: 0 <= i < |polygon| ==> p.y < polygon[i].y)
             || (forall i :: 0 <= i < |polygon| ==> p.y > polygon[i].y)
    ensures !Inside(p, polygon)
  {
    var last := |polygon| - 1;
    if forall i :: 0 <= i < |polygon| ==> p.x < polygon[i].x {
      LeftCrossesAll(p, polygon);
      LeftCrosses(p, polygon[last], polygon[0]);
      StraddlingIsToldByTheEnds(p.y, polygon);
    } else {
      BeyondCrossesNone(p, polygon, |polygon|);
      assert polygon[..|polygon|] == polygon;
      BeyondCrossesNot(p, polygon, last, 0);
    }
  }

  // ----- chords -----------------------------------------------------------------------------------

  /** Cut along a chord between two corners: a point is in exactly one of the pieces if and only if it
      is in the whole. */
  lemma ChordSplits(p: Point, polygon: seq<Point>, i: nat, j: nat)
    requires i < j < |polygon|
    ensures var one, two := polygon[i..j + 1], polygon[j..] + polygon[..i + 1];
            Inside(p, polygon) == Xor(Inside(p, one), Inside(p, two))
  {
    CrossesBothWays(p, polygon[i], polygon[j]);
    hide Crosses, Path;
    var one, two := polygon[i..j + 1], polygon[j..] + polygon[..i + 1];
    PathSplits(p, polygon, i);
    PathSplits(p, polygon[i..], j - i);
    assert polygon[i..][..j - i + 1] == one && polygon[i..][j - i..] == polygon[j..];
    PathJoins(p, polygon[j..], polygon[..i + 1]);
  }
}
