/** Where the detector looks: square regions around groups of boxes, and the squares of the first look
    at a frame. Reals stand for the floats. */
module Regions {
  import opened Lists
  import opened Reals

  /** (x1, y1, x2, y2) in frame pixels. */
  datatype Box = Box(x1: real, y1: real, x2: real, y2: real)

  /** A region's corners. */
  datatype Square = Square(x1: int, y1: int, x2: int, y2: int)

  /** int() of a float: towards zero. */
  function Trunc(v: real): int {
    if v >= 0.0 then v.Floor else -(-v).Floor
  }

  function Short(h: nat, w: nat): nat {
    if h <= w then h else w
  }

  /** The side of a region: multiplier times the longest extent rounded down to a multiple of 4, at least
      minSize and at most the frame's short side. */
  function Side(h: nat, w: nat, extent: real, minSize: nat, multiplier: real): nat {
    var wanted := (extent * multiplier / 4.0).Floor * 4;
    var atLeast := if wanted >= minSize then wanted else minSize;
    var most := Short(h, w) / 4 * 4;
    if atLeast <= most then atLeast else most
  }

  /** Where a side around [lo, hi] starts, kept inside [0, end]. */
  function Start(lo: real, hi: real, side: nat, end: nat): int {
    var at := Trunc((hi - lo) / 2.0 + lo - side as real / 2.0);
    if at < 0 then 0
    else if at > end - side then if end - side >= 0 then end - side else 0
    else at
  }

  function Longest(b: Box): real {
    Max(b.x2 - b.x1, b.y2 - b.y1)
  }

  function CalculateRegion(h: nat, w: nat, b: Box, minSize: nat, multiplier: real): Square {
    var side := Side(h, w, Longest(b), minSize, multiplier);
    var x, y := Start(b.x1, b.x2, side, w), Start(b.y1, b.y2, side, h);
    Square(x, y, x + side, y + side)
  }

  /** For any box at all, upside down or far outside, its region is a square inside the frame. */
  lemma RegionIsSquareInFrame(h: nat, w: nat, b: Box, minSize: nat, multiplier: real)
    ensures var r := CalculateRegion(h, w, b, minSize, multiplier);
            && r.x2 - r.x1 == r.y2 - r.y1
            && 0 <= r.x1 <= r.x2 <= w && 0 <= r.y1 <= r.y2 <= h
            && (r.x2 - r.x1 >= minSize || r.x2 - r.x1 == Short(h, w) / 4 * 4)
  {
    var side := Side(h, w, Longest(b), minSize, multiplier);
    assert side <= Short(h, w) / 4 * 4 <= Short(h, w);
    hide Trunc;
  }

  predicate InFrame(h: nat, w: nat, b: Box) {
    0.0 <= b.x1 <= b.x2 <= w as real && 0.0 <= b.y1 <= b.y2 <= h as real
  }

  predicate Holds(r: Square, b: Box) {
    r.x1 as real <= b.x1 && r.y1 as real <= b.y1 && b.x2 <= r.x2 as real && b.y2 <= r.y2 as real
  }

  // ----- when a region holds its box --------------------------------------------------------------

  /** There is room for [lo, hi] in its side: it is moved to an edge of the frame, or half of what is to
      spare makes up for rounding its start down. */
  predicate Room(lo: real, hi: real, side: nat, end: nat) {
    var start := (lo + hi - side as real) / 2.0;
    || start < 0.0
    || start.Floor > end - side
    || start - start.Floor as real <= (side as real - (hi - lo)) / 2.0
  }

  /** Truncation and clamping included, a side holds an extent in the frame exactly if there is room. */
  lemma StartHoldsIff(lo: real, hi: real, side: nat, end: nat)
    requires 0.0 <= lo <= hi <= end as real && side <= end
    ensures Start(lo, hi, side, end) as real <= lo && hi <= (Start(lo, hi, side, end) + side) as real
            <==> Room(lo, hi, side, end)
  {
    var v := (hi - lo) / 2.0 + lo - side as real / 2.0;
    assert v == (lo + hi - side as real) / 2.0;
    if v >= 0.0 {
      assert Trunc(v) == v.Floor && v.Floor as real <= v < v.Floor as real + 1.0;
    } else {
      assert v <= Trunc(v) as real <= 0.0;
    }
  }

  lemma SideFits(h: nat, w: nat, extent: real, minSize: nat, multiplier: real)
    ensures Side(h, w, extent, minSize, multiplier) <= Short(h, w) / 4 * 4 <= Short(h, w)
  {}

  lemma RegionIs(h: nat, w: nat, b: Box, minSize: nat, multiplier: real)
    ensures var side := Side(h, w, Longest(b), minSize, multiplier);
            var x, y := Start(b.x1, b.x2, side, w), Start(b.y1, b.y2, side, h);
            && CalculateRegion(h, w, b, minSize, multiplier) == Square(x, y, x + side, y + side)
            && side <= h && side <= w
  {
    SideFits(h, w, Longest(b), minSize, multiplier);
    hide Side, Start;
  }

  lemma HoldsByAxis(x: int, y: int, side: nat, b: Box)
    ensures Holds(Square(x, y, x + side, y + side), b)
            <==> (x as real <= b.x1 && b.x2 <= (x + side) as real) && (y as real <= b.y1 && b.y2 <= (y + side) as real)
  {}

  /** For any minimum size and multiplier: a box in the frame is inside its region exactly if there is
      room for it both ways. */
  lemma RegionHoldsIff(h: nat, w: nat, b: Box, minSize: nat, multiplier: real)
    requires InFrame(h, w, b)
    ensures var side := Side(h, w, Longest(b), minSize, multiplier);
            Holds(CalculateRegion(h, w, b, minSize, multiplier), b)
            <==> Room(b.x1, b.x2, side, w) && Room(b.y1, b.y2, side, h)
  {
    var side := Side(h, w, Longest(b), minSize, multiplier);
    RegionIs(h, w, b, minSize, multiplier);
    hide Side, Start, Room, CalculateRegion, Longest;
    StartHoldsIff(b.x1, b.x2, side, w);
    StartHoldsIff(b.y1, b.y2, side, h);
    HoldsByAxis(Start(b.x1, b.x2, side, w), Start(b.y1, b.y2, side, h), side, b);
  }

  lemma RoomBounds(lo: real, hi: real, side: nat, end: nat)
    requires 0.0 <= lo <= hi <= end as real && side <= end
    ensures side as real >= hi - lo + 2.0 ==> Room(lo, hi, side, end)
    ensures Room(lo, hi, side, end) ==> side as real >= hi - lo
  {
    var start := (lo + hi - side as real) / 2.0;
    assert start.Floor as real <= start < start.Floor as real + 1.0;
  }

  /** So it is inside if its longest side with two pixels to spare fits the region's side, and outside
      if its longest side does not fit. */
  lemma RegionHolds(h: nat, w: nat, b: Box, minSize: nat, multiplier: real)
    requires InFrame(h, w, b)
    ensures var side, r := Side(h, w, Longest(b), minSize, multiplier), CalculateRegion(h, w, b, minSize, multiplier);
            && (Longest(b) + 2.0 <= side as real ==> Holds(r, b))
            && (Holds(r, b) ==> Longest(b) <= side as real)
  {
    var side := Side(h, w, Longest(b), minSize, multiplier);
    RegionIs(h, w, b, minSize, multiplier);
    RegionHoldsIff(h, w, b, minSize, multiplier);
    hide Side, Start, Room, CalculateRegion, Holds;
    RoomBounds(b.x1, b.x2, side, w);
    RoomBounds(b.y1, b.y2, side, h);
  }

  predicate Whole(v: real) {
    v == v.Floor as real
  }

  /** Corners on whole pixels, as motion boxes have them. */
  predicate WholeBox(b: Box) {
    Whole(b.x1) && Whole(b.y1) && Whole(b.x2) && Whole(b.y2)
  }

  /** On whole pixels half a pixel is lost only where an odd number of pixels is to spare. */
  lemma WholeRoom(lo: real, hi: real, side: nat, end: nat)
    requires Whole(lo) && Whole(hi) && 0.0 <= lo <= hi <= end as real && side <= end
    ensures Room(lo, hi, side, end) <==> side as real >= hi - lo
  {
    RoomBounds(lo, hi, side, end);
    if side as real >= hi - lo { HalfIsSpared(lo.Floor, hi.Floor, side, (lo + hi - side as real) / 2.0); }
  }

  lemma HalfIsSpared(lo: int, hi: int, side: int, start: real)
    requires side >= hi - lo && start == (lo + hi - side) as real / 2.0
    ensures start - start.Floor as real <= (side as real - (hi - lo) as real) / 2.0
  {
    var n := lo + hi - side;
    if n % 2 == 0 {
      assert start == (n / 2) as real;
    } else {
      assert start == (n / 2) as real + 0.5;
      assert start.Floor == n / 2;
      assert side - (hi - lo) >= 1;
    }
  }

  /** A box on whole pixels is inside its region exactly if its longest side is not longer than the
      region's. */
  lemma WholeBoxHeldIff(h: nat, w: nat, b: Box, minSize: nat, multiplier: real)
    requires InFrame(h, w, b) && WholeBox(b)
    ensures Holds(CalculateRegion(h, w, b, minSize, multiplier), b)
            <==> Longest(b) <= Side(h, w, Longest(b), minSize, multiplier) as real
  {
    var side := Side(h, w, Longest(b), minSize, multiplier);
    RegionIs(h, w, b, minSize, multiplier);
    RegionHoldsIff(h, w, b, minSize, multiplier);
    hide Side, Start, Room, CalculateRegion, Holds, Whole;
    WholeRoom(b.x1, b.x2, side, w);
    WholeRoom(b.y1, b.y2, side, h);
  }

  const CLUSTER_MULTIPLIER := 1.35

  lemma NoSmaller(a: real, b: real, c: real)
    requires a >= 0.0 && b <= c
    ensures a * b <= a * c
  {}

  /** With the program's multipliers (1.35 and 2) and a minimum size above a few pixels only the frame's
      short side can be too little. */
  lemma OnlyTheFrameLimits(h: nat, w: nat, extent: real, minSize: nat, multiplier: real)
    requires extent >= 0.0 && multiplier >= CLUSTER_MULTIPLIER
    ensures var side, short := Side(h, w, extent, minSize, multiplier), Short(h, w) / 4 * 4;
            && (minSize >= 12 ==> (extent <= side as real <==> extent <= short as real))
            && (minSize >= 20 ==> (extent + 2.0 <= side as real <==> extent + 2.0 <= short as real))
  {
    var wanted := (extent * multiplier / 4.0).Floor * 4;
    assert wanted as real > extent * multiplier - 4.0;
    NoSmaller(extent, 1.35, multiplier);
    assert wanted as real > extent * 1.35 - 4.0;
    assert extent >= 12.0 ==> wanted as real > extent;
    assert extent >= 18.0 ==> wanted as real > extent + 2.0;
  }

  // ----- clusters ---------------------------------------------------------------------------------

  function Area(b: Box): real {
    (b.x2 - b.x1 + 1.0) * (b.y2 - b.y1 + 1.0)
  }

  function SquareArea(r: Square): int {
    (r.x2 - r.x1 + 1) * (r.y2 - r.y1 + 1)
  }

  function Union(a: Box, b: Box): Box {
    Box(Min(a.x1, b.x1), Min(a.y1, b.y1), Max(a.x2, b.x2), Max(a.y2, b.y2))
  }

  /** The extent of a cluster. */
  function Extent(boxes: seq<Box>, cluster: seq<nat>): Box
    requires cluster != [] && Indices(cluster, |boxes|)
  {
    if |cluster| == 1 then boxes[cluster[0]]
    else Union(Extent(boxes, cluster[..|cluster| - 1]), boxes[cluster[|cluster| - 1]])
  }

  function ClusterRegion(h: nat, w: nat, minRegion: nat, cluster: seq<nat>, boxes: seq<Box>): Square
    requires cluster != [] && Indices(cluster, |boxes|)
  {
    CalculateRegion(h, w, Extent(boxes, cluster), minRegion, CLUSTER_MULTIPLIER)
  }

  lemma {:induction false} ExtentInFrame(h: nat, w: nat, boxes: seq<Box>, cluster: seq<nat>)
    requires cluster != [] && Indices(cluster, |boxes|)
    requires AllInFrame(h, w, boxes, cluster)
    ensures InFrame(h, w, Extent(boxes, cluster))
  {
    if |cluster| > 1 {
      var front := cluster[..|cluster| - 1];
      assert forall k :: 0 <= k < |front| ==> front[k] == cluster[k];
      ExtentInFrame(h, w, boxes, front);
    }
  }

  ghost predicate AllInFrame(h: nat, w: nat, boxes: seq<Box>, cluster: seq<nat>)
    requires Indices(cluster, |boxes|)
  {
    forall k :: 0 <= k < |cluster| ==> InFrame(h, w, boxes[cluster[k]])
  }

  /** The square holds every box of the cluster. */
  ghost predicate HoldsAll(r: Square, boxes: seq<Box>, cluster: seq<nat>)
    requires Indices(cluster, |boxes|)
  {
    forall k :: 0 <= k < |cluster| ==> Holds(r, boxes[cluster[k]])
  }

  /** Holding every box of a cluster is holding its extent. */
  lemma {:induction false} HoldsAllIsExtent(r: Square, boxes: seq<Box>, cluster: seq<nat>)
    requires cluster != [] && Indices(cluster, |boxes|)
    ensures HoldsAll(r, boxes, cluster) <==> Holds(r, Extent(boxes, cluster))
  {
    if |cluster| > 1 {
      var front, last := cluster[..|cluster| - 1], cluster[|cluster| - 1];
      HoldsAllIsExtent(r, boxes, front);
      assert HoldsAll(r, boxes, cluster) <==> HoldsAll(r, boxes, front) && Holds(r, boxes[last]) by {
        assert forall k :: 0 <= k < |front| ==> cluster[k] == front[k];
      }
    }
  }

  /** A cluster's region holds all of its boxes exactly if there is room for its extent both ways. */
  lemma ClusterHeldIff(h: nat, w: nat, minRegion: nat, cluster: seq<nat>, boxes: seq<Box>)
    requires cluster != [] && Indices(cluster, |boxes|) && AllInFrame(h, w, boxes, cluster)
    ensures var e := Extent(boxes, cluster);
            var side := Side(h, w, Longest(e), minRegion, CLUSTER_MULTIPLIER);
            HoldsAll(ClusterRegion(h, w, minRegion, cluster, boxes), boxes, cluster)
            <==> Room(e.x1, e.x2, side, w) && Room(e.y1, e.y2, side, h)
  {
    ExtentInFrame(h, w, boxes, cluster);
    HoldsAllIsExtent(ClusterRegion(h, w, minRegion, cluster, boxes), boxes, cluster);
    RegionHoldsIff(h, w, Extent(boxes, cluster), minRegion, CLUSTER_MULTIPLIER);
    hide Side, Room, CalculateRegion, Extent, HoldsAll, Holds;
  }

  /** It does if the longest extent with two pixels to spare fits the frame's short side (rounded down
      to a multiple of 4), and it does not if the longest extent alone does not fit. */
  lemma ClusterRegionHoldsMembers(h: nat, w: nat, minRegion: nat, cluster: seq<nat>, boxes: seq<Box>)
    requires minRegion >= 20 && cluster != [] && Indices(cluster, |boxes|) && AllInFrame(h, w, boxes, cluster)
    ensures var longest, short := Longest(Extent(boxes, cluster)), (Short(h, w) / 4 * 4) as real;
            var held := HoldsAll(ClusterRegion(h, w, minRegion, cluster, boxes), boxes, cluster);
            && (longest + 2.0 <= short ==> held)
            && (held ==> longest <= short)
  {
    var e := Extent(boxes, cluster);
    ExtentInFrame(h, w, boxes, cluster);
    HoldsAllIsExtent(ClusterRegion(h, w, minRegion, cluster, boxes), boxes, cluster);
    RegionHolds(h, w, e, minRegion, CLUSTER_MULTIPLIER);
    OnlyTheFrameLimits(h, w, Longest(e), minRegion, CLUSTER_MULTIPLIER);
    hide Side, CalculateRegion, Extent, HoldsAll, Holds, Short;
  }

  lemma {:induction false} ExtentIsWhole(boxes: seq<Box>, cluster: seq<nat>)
    requires cluster != [] && Indices(cluster, |boxes|)
    requires forall k :: 0 <= k < |cluster| ==> WholeBox(boxes[cluster[k]])
    ensures WholeBox(Extent(boxes, cluster))
  {
    if |cluster| > 1 {
      var front := cluster[..|cluster| - 1];
      assert forall k :: 0 <= k < |front| ==> front[k] == cluster[k];
      ExtentIsWhole(boxes, front);
    }
  }

  /** On whole pixels "covering every box" holds of a cluster exactly if its longest extent fits the
      frame's short side, rounded down to a multiple of 4. */
  lemma WholeClusterHeldIff(h: nat, w: nat, minRegion: nat, cluster: seq<nat>, boxes: seq<Box>)
    requires minRegion >= 12 && cluster != [] && Indices(cluster, |boxes|) && AllInFrame(h, w, boxes, cluster)
    requires forall k :: 0 <= k < |cluster| ==> WholeBox(boxes[cluster[k]])
    ensures HoldsAll(ClusterRegion(h, w, minRegion, cluster, boxes), boxes, cluster)
            <==> Longest(Extent(boxes, cluster)) <= (Short(h, w) / 4 * 4) as real
  {
    var e := Extent(boxes, cluster);
    ExtentInFrame(h, w, boxes, cluster);
    ExtentIsWhole(boxes, cluster);
    HoldsAllIsExtent(ClusterRegion(h, w, minRegion, cluster, boxes), boxes, cluster);
    WholeBoxHeldIff(h, w, e, minRegion, CLUSTER_MULTIPLIER);
    OnlyTheFrameLimits(h, w, Longest(e), minRegion, CLUSTER_MULTIPLIER);
    hide Side, CalculateRegion, Extent, HoldsAll, Holds, Short, WholeBox;
  }

  /** How far a cluster seeded by this box may reach. sqrt is an input. */
  function Boundary(b: Box, minRegion: nat, sqrt: real -> real): Square {
    var bw, bh := b.x2 - b.x1, b.y2 - b.y1;
    var reach := Trunc(sqrt((if bw * bh >= 0.0 then bw * bh else -(bw * bh)) / 0.1));
    var most := if minRegion >= reach then minRegion else reach;
    var cx, cy := bw / 2.0 + b.x1, bh / 2.0 + b.y1;
    var dx, dy := Trunc(most as real - bw / 2.0 * 1.1), Trunc(most as real - bh / 2.0 * 1.1);
    Square(Trunc(cx - dx as real), Trunc(cy - dy as real), Trunc(cx + dx as real), Trunc(cy + dy as real))
  }

  /** Some box of a group would be under 5% of a region larger than the minimum. */
  predicate TooSmall(h: nat, w: nat, minRegion: nat, cluster: seq<nat>, boxes: seq<Box>)
    requires cluster != [] && Indices(cluster, |boxes|)
  {
    var r := ClusterRegion(h, w, minRegion, cluster, boxes);
    r.x2 - r.x1 > minRegion
    && exists k :: 0 <= k < |cluster| && Area(boxes[cluster[k]]) < 0.05 * SquareArea(r) as real
  }

  /** A group of boxes fit for one region. */
  ghost predicate Fit(h: nat, w: nat, minRegion: nat, cluster: seq<nat>, boxes: seq<Box>) {
    && cluster != [] && Indices(cluster, |boxes|)
    && (forall i, j :: 0 <= i < j < |cluster| ==> cluster[i] < cluster[j])
    && (|cluster| >= 2 ==> !TooSmall(h, w, minRegion, cluster, boxes))
  }

  ghost predicate InSome(clusters: seq<seq<nat>>, i: nat) {
    exists c :: 0 <= c < |clusters| && i in clusters[c]
  }

  /** Each index below n is in exactly one cluster, and only used ones are in any. */
  ghost predicate Partition(clusters: seq<seq<nat>>, used: set<nat>) {
    && (forall i: nat :: i in used <==> InSome(clusters, i))
    && (forall c, d :: 0 <= c < d < |clusters| ==> forall i :: i in clusters[c] ==> i !in clusters[d])
  }

  /** The members of a cluster below n, in rising order. */
  function Below(cluster: seq<nat>, n: nat): (r: seq<nat>)
    ensures Indices(r, n) && forall j :: j in r <==> j in cluster && j < n
    ensures forall i, j :: 0 <= i < j < |r| ==> r[i] < r[j]
  {
    if n == 0 then []
    else
      var r: seq<nat> := Below(cluster, n - 1);
      if n - 1 in cluster then r + [n - 1] else r
  }

  /** Box j joins the cluster of a seed at its turn: it is unused, lies inside the seed's boundary, and
      does not make the group too wide for its smallest box. */
  ghost predicate Joins(h: nat, w: nat, minRegion: nat, boxes: seq<Box>, sqrt: real -> real, seed: nat, used: set<nat>,
                        cluster: seq<nat>, j: nat)
    requires seed < |boxes| && j < |boxes|
  {
    && j !in used && Holds(Boundary(boxes[seed], minRegion, sqrt), boxes[j])
    && !TooSmall(h, w, minRegion, Below(cluster, j) + [j], boxes)
  }

  /** The cluster of a seed among the boxes not used: the seed, and every box that joins at its turn, in
      index order. */
  ghost predicate ClusterOf(h: nat, w: nat, minRegion: nat, boxes: seq<Box>, sqrt: real -> real, seed: nat,
                            used: set<nat>, cluster: seq<nat>)
    requires seed < |boxes|
  {
    && seed in cluster && cluster == Below(cluster, |boxes|)
    && forall j: nat :: j < |boxes| && j != seed ==>
         (j in cluster <==> Joins(h, w, minRegion, boxes, sqrt, seed, used, cluster, j))
  }

  lemma {:induction false} BelowAppend(cluster: seq<nat>, j: nat, n: nat)
    requires n <= j
    ensures Below(cluster + [j], n) == Below(cluster, n)
  {
    if n > 0 { BelowAppend(cluster, j, n - 1); }
  }

  lemma {:induction false} BelowFrom(cluster: seq<nat>, n: nat, m: nat)
    requires n <= m && forall j :: j in cluster ==> j < n
    ensures Below(cluster, m) == Below(cluster, n)
    decreases m
  {
    if n < m { BelowFrom(cluster, n, m - 1); }
  }

  /** The boxes below n that join the seed have joined. */
  ghost predicate GrownTo(h: nat, w: nat, minRegion: nat, boxes: seq<Box>, sqrt: real -> real, seed: nat, used: set<nat>,
                          cluster: seq<nat>, n: nat)
    requires seed < n <= |boxes|
  {
    && seed in cluster && cluster == Below(cluster, n)
    && (forall j: nat :: j < n && j != seed ==>
          (j in cluster <==> Joins(h, w, minRegion, boxes, sqrt, seed, used, cluster, j)))
  }

  lemma JoinsAppend(h: nat, w: nat, minRegion: nat, boxes: seq<Box>, sqrt: real -> real, seed: nat, used: set<nat>,
                    cluster: seq<nat>, j: nat, n: nat)
    requires seed < |boxes| && j < n < |boxes|
    ensures Joins(h, w, minRegion, boxes, sqrt, seed, used, cluster + [n], j)
            <==> Joins(h, w, minRegion, boxes, sqrt, seed, used, cluster, j)
  {
    BelowAppend(cluster, n, j);
  }

  /** The turn of box n, behind the seed. */
  lemma GrowsBy(h: nat, w: nat, minRegion: nat, boxes: seq<Box>, sqrt: real -> real, seed: nat, used: set<nat>,
                cluster: seq<nat>, n: nat)
    requires seed < n < |boxes| && GrownTo(h, w, minRegion, boxes, sqrt, seed, used, cluster, n)
    ensures cluster == Below(cluster, n)
    ensures var joins := Joins(h, w, minRegion, boxes, sqrt, seed, used, cluster, n);
            GrownTo(h, w, minRegion, boxes, sqrt, seed, used, if joins then cluster + [n] else cluster, n + 1)
  {
    hide Joins;
    forall j: nat | j < n && j != seed
      ensures Joins(h, w, minRegion, boxes, sqrt, seed, used, cluster + [n], j)
              <==> Joins(h, w, minRegion, boxes, sqrt, seed, used, cluster, j)
    {
      JoinsAppend(h, w, minRegion, boxes, sqrt, seed, used, cluster, j, n);
    }
    BelowAppend(cluster, n, n);
    JoinsAtTurn(h, w, minRegion, boxes, sqrt, seed, used, cluster, n);
  }

  lemma TakesTurn(h: nat, w: nat, minRegion: nat, boxes: seq<Box>, sqrt: real -> real, seed: nat, used: set<nat>,
                  cluster: seq<nat>, n: nat)
    requires seed < n < |boxes| && GrownTo(h, w, minRegion, boxes, sqrt, seed, used, cluster, n)
    ensures n !in cluster && Indices(cluster + [n], |boxes|)
    ensures var joins := n !in used && Holds(Boundary(boxes[seed], minRegion, sqrt), boxes[n])
                         && !TooSmall(h, w, minRegion, cluster + [n], boxes);
            && (joins ==> GrownTo(h, w, minRegion, boxes, sqrt, seed, used, cluster + [n], n + 1))
            && (!joins ==> GrownTo(h, w, minRegion, boxes, sqrt, seed, used, cluster, n + 1))
  {
    GrowsBy(h, w, minRegion, boxes, sqrt, seed, used, cluster, n);
    assert n !in Below(cluster, n);
    hide TooSmall, Holds, Boundary, Below, GrownTo;
  }

  /** Whether a box joins does not depend on itself being there. */
  lemma JoinsAtTurn(h: nat, w: nat, minRegion: nat, boxes: seq<Box>, sqrt: real -> real, seed: nat, used: set<nat>,
                    cluster: seq<nat>, n: nat)
    requires seed < |boxes| && n < |boxes|
    ensures Joins(h, w, minRegion, boxes, sqrt, seed, used, cluster + [n], n)
            <==> Joins(h, w, minRegion, boxes, sqrt, seed, used, cluster, n)
  {
    BelowAppend(cluster, n, n);
  }

  /** The boxes that join a seed, in index order. */
  method Grow(h: nat, w: nat, minRegion: nat, boxes: seq<Box>, seed: nat, sqrt: real -> real, used: set<nat>)
    returns (cluster: seq<nat>)
    requires seed < |boxes| && seed !in used && forall j: nat :: j < seed ==> j in used
    ensures ClusterOf(h, w, minRegion, boxes, sqrt, seed, used, cluster)
    ensures Fit(h, w, minRegion, cluster, boxes) && cluster[0] == seed
    ensures forall j :: j in cluster ==> j !in used
  {
    hide *;
    cluster := [seed];
    var taken := used + {seed};
    var boundary := Boundary(boxes[seed], minRegion, sqrt);
    StartsWithSeed(h, w, minRegion, boxes, sqrt, seed, used);
    for j := 0 to |boxes|
      invariant seed in cluster && forall i :: i in taken <==> i in used || i in cluster
      invariant GrownTo(h, w, minRegion, boxes, sqrt, seed, used, cluster, if j > seed then j else seed + 1)
    {
      if j > seed { TakesTurn(h, w, minRegion, boxes, sqrt, seed, used, cluster, j); }
      if j in taken || !Holds(boundary, boxes[j]) { continue; }
      var candidate := cluster + [j];
      if TooSmall(h, w, minRegion, candidate, boxes) { continue; }
      cluster := candidate;
      taken := taken + {j};
    }
    GrownIsCluster(h, w, minRegion, boxes, sqrt, seed, used, cluster);
    ClusterIsFit(h, w, minRegion, boxes, sqrt, seed, used, cluster);
  }

  lemma {:induction false} BelowLast(cluster: seq<nat>, n: nat)
    requires cluster != [] && cluster == Below(cluster, n)
    ensures var last := cluster[|cluster| - 1]; Below(cluster, last) + [last] == cluster
  {
    var last := cluster[|cluster| - 1];
    assert last in cluster;
    forall j | j in cluster
      ensures j < last + 1
    {
      var k :| 0 <= k < |cluster| && cluster[k] == j;
    }
    BelowFrom(cluster, last + 1, n);
  }

  /** A cluster starts with its seed, and a larger one is not too wide for its smallest box. */
  lemma ClusterIsFit(h: nat, w: nat, minRegion: nat, boxes: seq<Box>, sqrt: real -> real, seed: nat, used: set<nat>,
                     cluster: seq<nat>)
    requires seed < |boxes| && ClusterOf(h, w, minRegion, boxes, sqrt, seed, used, cluster)
    requires seed !in used && forall j: nat :: j < seed ==> j in used
    ensures Fit(h, w, minRegion, cluster, boxes) && cluster[0] == seed
    ensures forall j :: j in cluster ==> j !in used
  {
    hide TooSmall, Holds, Boundary, Below;
    var last := cluster[|cluster| - 1];
    assert cluster[0] in cluster && last in cluster;
    assert forall j :: j in cluster ==> j !in used && j >= seed;
    assert cluster[0] == seed by {
      var k :| 0 <= k < |cluster| && cluster[k] == seed;
    }
    BelowLast(cluster, |boxes|);
    if |cluster| >= 2 { assert Joins(h, w, minRegion, boxes, sqrt, seed, used, cluster, last); }
  }

  lemma StartsWithSeed(h: nat, w: nat, minRegion: nat, boxes: seq<Box>, sqrt: real -> real, seed: nat, used: set<nat>)
    requires seed < |boxes| && forall j: nat :: j < seed ==> j in used
    ensures GrownTo(h, w, minRegion, boxes, sqrt, seed, used, [seed], seed + 1)
  {
    BelowNone([seed], seed);
  }

  lemma {:induction false} BelowNone(cluster: seq<nat>, n: nat)
    requires forall j :: j in cluster ==> j >= n
    ensures Below(cluster, n) == []
  {
    if n > 0 { BelowNone(cluster, n - 1); }
  }

  lemma GrownIsCluster(h: nat, w: nat, minRegion: nat, boxes: seq<Box>, sqrt: real -> real, seed: nat, used: set<nat>,
                       cluster: seq<nat>)
    requires seed < |boxes| && GrownTo(h, w, minRegion, boxes, sqrt, seed, used, cluster, |boxes|)
    ensures ClusterOf(h, w, minRegion, boxes, sqrt, seed, used, cluster)
  {
    hide Joins, Below;
  }

  lemma PartitionGrows(clusters: seq<seq<nat>>, used: set<nat>, cluster: seq<nat>)
    requires Partition(clusters, used) && forall j :: j in cluster ==> j !in used
    ensures Partition(clusters + [cluster], used + set j | j in cluster)
  {
    var more := clusters + [cluster];
    forall i: nat
      ensures InSome(more, i) <==> InSome(clusters, i) || i in cluster
    {
      if InSome(clusters, i) {
        var c :| 0 <= c < |clusters| && i in clusters[c];
        assert i in more[c];
      }
      if i in cluster { assert i in more[|clusters|]; }
    }
    forall c, d | 0 <= c < d < |more|
      ensures forall i :: i in more[c] ==> i !in more[d]
    {
      if d == |clusters| {
        forall i | i in more[c]
          ensures i !in more[d]
        {
          assert i in clusters[c] && InSome(clusters, i);
        }
      }
    }
  }

  /** The indices in some cluster. */
  ghost function Taken(clusters: seq<seq<nat>>): set<nat> {
    if clusters == [] then {}
    else
      var last := clusters[|clusters| - 1];
      Taken(clusters[..|clusters| - 1]) + set j | j in last
  }

  /** Cluster after cluster: each is that of the first box in none before it, among the boxes in none
      before it. */
  ghost predicate ClustersInTurn(h: nat, w: nat, minRegion: nat, boxes: seq<Box>, sqrt: real -> real,
                                 clusters: seq<seq<nat>>) {
    forall c :: 0 <= c < |clusters| ==> NextCluster(h, w, minRegion, boxes, sqrt, Taken(clusters[..c]), clusters[c])
  }

  ghost predicate NextCluster(h: nat, w: nat, minRegion: nat, boxes: seq<Box>, sqrt: real -> real, used: set<nat>,
                              cluster: seq<nat>) {
    && cluster != [] && cluster[0] < |boxes| && cluster[0] !in used
    && (forall j: nat :: j < cluster[0] ==> j in used)
    && ClusterOf(h, w, minRegion, boxes, sqrt, cluster[0], used, cluster)
  }

  /** The grouping of these boxes: clusters in turn until every box is in one. */
  ghost predicate Grouping(h: nat, w: nat, minRegion: nat, boxes: seq<Box>, sqrt: real -> real,
                           clusters: seq<seq<nat>>) {
    && ClustersInTurn(h, w, minRegion, boxes, sqrt, clusters)
    && forall i: nat :: i < |boxes| <==> i in Taken(clusters)
  }

  lemma InTurnAppend(h: nat, w: nat, minRegion: nat, boxes: seq<Box>, sqrt: real -> real, clusters: seq<seq<nat>>,
                     cluster: seq<nat>)
    requires ClustersInTurn(h, w, minRegion, boxes, sqrt, clusters)
    requires NextCluster(h, w, minRegion, boxes, sqrt, Taken(clusters), cluster)
    ensures ClustersInTurn(h, w, minRegion, boxes, sqrt, clusters + [cluster])
    ensures Taken(clusters + [cluster]) == Taken(clusters) + set j | j in cluster
  {
    hide NextCluster;
    var more := clusters + [cluster];
    assert more[..|clusters|] == clusters;
    assert forall c :: 0 <= c < |clusters| ==> more[..c] == clusters[..c];
  }

  /** Group the boxes that fit one region: each box is in exactly one group; a group is that of the first
      box in no group before it, and holds every unused box within that one's boundary that does not make
      it too wide. */
  method ClusterCandidates(h: nat, w: nat, minRegion: nat, boxes: seq<Box>, sqrt: real -> real)
    returns (clusters: seq<seq<nat>>)
    ensures Grouping(h, w, minRegion, boxes, sqrt, clusters)
    ensures forall c :: 0 <= c < |clusters| ==> Fit(h, w, minRegion, clusters[c], boxes)
    ensures forall i: nat :: i < |boxes| <==> InSome(clusters, i)
    ensures forall c, d :: 0 <= c < d < |clusters| ==> forall i :: i in clusters[c] ==> i !in clusters[d]
  {
    clusters := [];
    var used: set<nat> := {};
    hide Fit, NextCluster, ClustersInTurn;
    assert ClustersInTurn(h, w, minRegion, boxes, sqrt, []) by { NoneInTurn(h, w, minRegion, boxes, sqrt); }
    for i := 0 to |boxes|
      invariant Partition(clusters, used) && used == Taken(clusters)
      invariant ClustersInTurn(h, w, minRegion, boxes, sqrt, clusters)
      invariant forall c :: 0 <= c < |clusters| ==> Fit(h, w, minRegion, clusters[c], boxes)
      invariant forall j: nat :: j < i ==> j in used
      invariant forall j :: j in used ==> j < |boxes|
    {
      if i in used { continue; }
      var cluster := Grow(h, w, minRegion, boxes, i, sqrt, used);
      FitMembers(h, w, minRegion, cluster, boxes);
      PartitionGrows(clusters, used, cluster);
      assert NextCluster(h, w, minRegion, boxes, sqrt, used, cluster) by {
        IsNext(h, w, minRegion, boxes, sqrt, used, cluster);
      }
      InTurnAppend(h, w, minRegion, boxes, sqrt, clusters, cluster);
      clusters := clusters + [cluster];
      used := used + set j | j in cluster;
    }
  }

  lemma NoneInTurn(h: nat, w: nat, minRegion: nat, boxes: seq<Box>, sqrt: real -> real)
    ensures ClustersInTurn(h, w, minRegion, boxes, sqrt, [])
  {}

  lemma IsNext(h: nat, w: nat, minRegion: nat, boxes: seq<Box>, sqrt: real -> real, used: set<nat>, cluster: seq<nat>)
    requires cluster != [] && cluster[0] < |boxes| && cluster[0] !in used
    requires forall j: nat :: j < cluster[0] ==> j in used
    requires ClusterOf(h, w, minRegion, boxes, sqrt, cluster[0], used, cluster)
    ensures NextCluster(h, w, minRegion, boxes, sqrt, used, cluster)
  {}

  lemma FitMembers(h: nat, w: nat, minRegion: nat, cluster: seq<nat>, boxes: seq<Box>)
    requires Fit(h, w, minRegion, cluster, boxes)
    ensures forall j :: j in cluster ==> j < |boxes|
    ensures cluster != [] && cluster[0] in cluster && Indices(cluster, |boxes|)
  {}

  // ----- there is one grouping --------------------------------------------------------------------

  lemma {:induction false} SameBelow(h: nat, w: nat, minRegion: nat, boxes: seq<Box>, sqrt: real -> real, seed: nat,
                                     used: set<nat>, a: seq<nat>, b: seq<nat>, n: nat)
    requires seed < |boxes| && n <= |boxes|
    requires ClusterOf(h, w, minRegion, boxes, sqrt, seed, used, a) && ClusterOf(h, w, minRegion, boxes, sqrt, seed, used, b)
    ensures Below(a, n) == Below(b, n)
  {
    hide TooSmall, Holds, Boundary;
    if n > 0 {
      SameBelow(h, w, minRegion, boxes, sqrt, seed, used, a, b, n - 1);
      assert n - 1 != seed ==> (n - 1 in a <==> Joins(h, w, minRegion, boxes, sqrt, seed, used, a, n - 1));
      assert n - 1 != seed ==> (n - 1 in b <==> Joins(h, w, minRegion, boxes, sqrt, seed, used, b, n - 1));
    }
  }

  lemma SameNext(h: nat, w: nat, minRegion: nat, boxes: seq<Box>, sqrt: real -> real, used: set<nat>, a: seq<nat>, b: seq<nat>)
    requires NextCluster(h, w, minRegion, boxes, sqrt, used, a) && NextCluster(h, w, minRegion, boxes, sqrt, used, b)
    ensures a == b
  {
    hide Joins, Below;
    assert a[0] == b[0];
    SameBelow(h, w, minRegion, boxes, sqrt, a[0], used, a, b, |boxes|);
  }

  lemma {:induction false} TakenIn(clusters: seq<seq<nat>>, c: nat, i: nat)
    requires c < |clusters| && i in clusters[c]
    ensures i in Taken(clusters)
  {
    if c < |clusters| - 1 { TakenIn(clusters[..|clusters| - 1], c, i); }
  }

  lemma InGrouping(h: nat, w: nat, minRegion: nat, boxes: seq<Box>, sqrt: real -> real, clusters: seq<seq<nat>>, c: nat)
    requires Grouping(h, w, minRegion, boxes, sqrt, clusters) && c < |clusters|
    ensures NextCluster(h, w, minRegion, boxes, sqrt, Taken(clusters[..c]), clusters[c])
  {
    hide NextCluster, Taken;
  }

  lemma SameTaken(h: nat, w: nat, minRegion: nat, boxes: seq<Box>, sqrt: real -> real, a: seq<seq<nat>>, b: seq<seq<nat>>)
    requires Grouping(h, w, minRegion, boxes, sqrt, a) && Grouping(h, w, minRegion, boxes, sqrt, b)
    ensures forall i: nat :: i in Taken(a) <==> i in Taken(b)
  {
    hide ClustersInTurn, Taken;
  }

  /** Two groupings of the same boxes agree from the front; neither goes on when every box is taken. */
  lemma {:induction false} GroupingsAgree(h: nat, w: nat, minRegion: nat, boxes: seq<Box>, sqrt: real -> real,
                                          a: seq<seq<nat>>, b: seq<seq<nat>>, n: nat)
    requires Grouping(h, w, minRegion, boxes, sqrt, a) && Grouping(h, w, minRegion, boxes, sqrt, b) && n <= |a|
    ensures n <= |b| && a[..n] == b[..n]
  {
    hide *;
    if n > 0 {
      GroupingsAgree(h, w, minRegion, boxes, sqrt, a, b, n - 1);
      InGrouping(h, w, minRegion, boxes, sqrt, a, n - 1);
      NextIsNew(h, w, minRegion, boxes, sqrt, Taken(a[..n - 1]), a[n - 1]);
      TakenIn(a, n - 1, a[n - 1][0]);
      SameTaken(h, w, minRegion, boxes, sqrt, a, b);
      assert b[..|b|] == b;
      InGrouping(h, w, minRegion, boxes, sqrt, b, n - 1);
      SameNext(h, w, minRegion, boxes, sqrt, Taken(a[..n - 1]), a[n - 1], b[n - 1]);
      assert a[..n] == a[..n - 1] + [a[n - 1]] && b[..n] == b[..n - 1] + [b[n - 1]];
    }
  }

  lemma NextIsNew(h: nat, w: nat, minRegion: nat, boxes: seq<Box>, sqrt: real -> real, used: set<nat>, cluster: seq<nat>)
    requires NextCluster(h, w, minRegion, boxes, sqrt, used, cluster)
    ensures cluster != [] && cluster[0] in cluster && cluster[0] !in used
  {}

  /** The promise leaves no choice: any two groupings of the same boxes are the same. */
  lemma GroupingIsUnique(h: nat, w: nat, minRegion: nat, boxes: seq<Box>, sqrt: real -> real,
                         a: seq<seq<nat>>, b: seq<seq<nat>>)
    requires Grouping(h, w, minRegion, boxes, sqrt, a) && Grouping(h, w, minRegion, boxes, sqrt, b)
    ensures a == b
  {
    GroupingsAgree(h, w, minRegion, boxes, sqrt, a, b, |a|);
    GroupingsAgree(h, w, minRegion, boxes, sqrt, b, a, |b|);
    assert a[..|a|] == a && b[..|b|] == b;
  }

  /** A region for every group of boxes. */
  method RegionsFor(h: nat, w: nat, boxes: seq<Box>, minRegion: nat, sqrt: real -> real)
    returns (regions: seq<Square>, clusters: seq<seq<nat>>)
    ensures boxes == [] <==> regions == []
    ensures |clusters| == |regions|
    ensures Grouping(h, w, minRegion, boxes, sqrt, clusters)
    ensures forall i: nat :: i < |boxes| <==> InSome(clusters, i)
    ensures forall c :: 0 <= c < |clusters| ==>
              Fit(h, w, minRegion, clusters[c], boxes) && regions[c] == ClusterRegion(h, w, minRegion, clusters[c], boxes)
  {
    regions, clusters := [], [];
    hide Grouping, TooSmall, CalculateRegion;
    if boxes == [] {
      NothingToGroup(h, w, minRegion, boxes, sqrt);
      return;
    }
    clusters := ClusterCandidates(h, w, minRegion, boxes, sqrt);
    assert InSome(clusters, 0);
    for c := 0 to |clusters|
      invariant |regions| == c
      invariant forall d :: 0 <= d < c ==> regions[d] == ClusterRegion(h, w, minRegion, clusters[d], boxes)
    {
      FitMembers(h, w, minRegion, clusters[c], boxes);
      regions := regions + [ClusterRegion(h, w, minRegion, clusters[c], boxes)];
    }
  }

  lemma NothingToGroup(h: nat, w: nat, minRegion: nat, boxes: seq<Box>, sqrt: real -> real)
    requires boxes == []
    ensures Grouping(h, w, minRegion, boxes, sqrt, [])
  {}

  /** "Holding every box of a cluster", for boxes on whole pixels in the frame: each region holds all boxes of
      its own cluster exactly if no cluster's longest extent is longer than the frame's short side (rounded
      down to a multiple of 4). */
  lemma ClusterRegionsHoldIff(h: nat, w: nat, boxes: seq<Box>, minRegion: nat, clusters: seq<seq<nat>>)
    requires minRegion >= 12 && forall i :: 0 <= i < |boxes| ==> InFrame(h, w, boxes[i]) && WholeBox(boxes[i])
    requires forall c :: 0 <= c < |clusters| ==> clusters[c] != [] && Indices(clusters[c], |boxes|)
    ensures (forall c :: 0 <= c < |clusters| ==> HoldsAll(ClusterRegion(h, w, minRegion, clusters[c], boxes), boxes, clusters[c]))
            <==> (forall c :: 0 <= c < |clusters| ==>
                    Longest(Extent(boxes, clusters[c])) <= (Short(h, w) / 4 * 4) as real)
  {
    forall c | 0 <= c < |clusters|
      ensures HoldsAll(ClusterRegion(h, w, minRegion, clusters[c], boxes), boxes, clusters[c])
              <==> Longest(Extent(boxes, clusters[c])) <= (Short(h, w) / 4 * 4) as real
    {
      hide InFrame, WholeBox, ClusterRegion, Extent, TooSmall, Longest, Short;
      WholeClusterHeldIff(h, w, minRegion, clusters[c], boxes);
    }
  }

  /** Some region holds the box, its own cluster's or another one's. */
  ghost predicate Covered(regions: seq<Square>, b: Box) {
    exists c :: 0 <= c < |regions| && Holds(regions[c], b)
  }

  /** The region of each cluster. */
  ghost predicate AreRegions(h: nat, w: nat, boxes: seq<Box>, minRegion: nat, clusters: seq<seq<nat>>, regions: seq<Square>) {
    && |clusters| == |regions|
    && (forall c :: 0 <= c < |clusters| ==>
          clusters[c] != [] && Indices(clusters[c], |boxes|)
          && regions[c] == ClusterRegion(h, w, minRegion, clusters[c], boxes))
    && forall i: nat :: i < |boxes| ==> InSome(clusters, i)
  }

  /** How much longer than its longest extent a region's side must be to hold a cluster for certain. */
  ghost function Spare(boxes: seq<Box>): real {
    if forall i :: 0 <= i < |boxes| ==> WholeBox(boxes[i]) then 0.0 else 2.0
  }

  /** "Covering every box": if no cluster's longest extent, with two pixels to spare or on whole pixels without,
      is longer than the frame's short side, every box is in some region; and if every box is, then no box is
      longer. OtherRegionCovers shows that a cluster can be. */
  lemma RegionsCover(h: nat, w: nat, boxes: seq<Box>, minRegion: nat, clusters: seq<seq<nat>>, regions: seq<Square>)
    requires minRegion >= 20 && AreRegions(h, w, boxes, minRegion, clusters, regions)
    requires forall i :: 0 <= i < |boxes| ==> InFrame(h, w, boxes[i])
    ensures var short := (Short(h, w) / 4 * 4) as real;
            var covered := forall i :: 0 <= i < |boxes| ==> Covered(regions, boxes[i]);
            && ((forall c :: 0 <= c < |clusters| ==> Longest(Extent(boxes, clusters[c])) + Spare(boxes) <= short) ==> covered)
            && (covered ==> forall i :: 0 <= i < |boxes| ==> Longest(boxes[i]) <= short)
  {
    hide InFrame, ClusterRegion, Extent, Longest, Short, Covered, InSome, HoldsAll, Spare;
    if forall c :: 0 <= c < |clusters| ==> Longest(Extent(boxes, clusters[c])) + Spare(boxes) <= (Short(h, w) / 4 * 4) as real {
      forall c | 0 <= c < |clusters|
        ensures HoldsAll(regions[c], boxes, clusters[c])
      {
        ShortIsHeld(h, w, boxes, minRegion, clusters[c]);
      }
      AllCovered(boxes, clusters, regions);
    }
    forall i | 0 <= i < |boxes| && Covered(regions, boxes[i])
      ensures Longest(boxes[i]) <= (Short(h, w) / 4 * 4) as real
    {
      CoveredIsShort(h, w, boxes, minRegion, clusters, regions, boxes[i]);
    }
  }

  lemma ShortIsHeld(h: nat, w: nat, boxes: seq<Box>, minRegion: nat, cluster: seq<nat>)
    requires minRegion >= 20 && cluster != [] && Indices(cluster, |boxes|)
    requires forall i :: 0 <= i < |boxes| ==> InFrame(h, w, boxes[i])
    requires Longest(Extent(boxes, cluster)) + Spare(boxes) <= (Short(h, w) / 4 * 4) as real
    ensures HoldsAll(ClusterRegion(h, w, minRegion, cluster, boxes), boxes, cluster)
  {
    hide InFrame, WholeBox, ClusterRegion, Extent, Longest, Short, HoldsAll;
    ClusterRegionHoldsMembers(h, w, minRegion, cluster, boxes);
    if Spare(boxes) == 0.0 { WholeClusterHeldIff(h, w, minRegion, cluster, boxes); }
  }

  lemma CoveredIsShort(h: nat, w: nat, boxes: seq<Box>, minRegion: nat, clusters: seq<seq<nat>>, regions: seq<Square>, b: Box)
    requires AreRegions(h, w, boxes, minRegion, clusters, regions) && Covered(regions, b)
    ensures Longest(b) <= (Short(h, w) / 4 * 4) as real
  {
    hide Extent, Longest, Short, Holds, CalculateRegion, InSome;
    var c :| 0 <= c < |regions| && Holds(regions[c], b);
    HeldIsShort(h, w, Extent(boxes, clusters[c]), minRegion, b);
  }

  lemma AllCovered(boxes: seq<Box>, clusters: seq<seq<nat>>, regions: seq<Square>)
    requires |clusters| == |regions| && forall c :: 0 <= c < |clusters| ==> Indices(clusters[c], |boxes|)
    requires forall c :: 0 <= c < |clusters| ==> HoldsAll(regions[c], boxes, clusters[c])
    requires forall i: nat :: i < |boxes| ==> InSome(clusters, i)
    ensures forall i :: 0 <= i < |boxes| ==> Covered(regions, boxes[i])
  {
    hide Holds;
    forall i: nat | i < |boxes|
      ensures Covered(regions, boxes[i])
    {
      assert InSome(clusters, i);
      var c :| 0 <= c < |clusters| && i in clusters[c];
      var k :| 0 <= k < |clusters[c]| && clusters[c][k] == i;
    }
  }

  /** Nothing longer than the frame's short side is in any region, whatever the region is of. */
  lemma HeldIsShort(h: nat, w: nat, e: Box, minRegion: nat, b: Box)
    requires Holds(CalculateRegion(h, w, e, minRegion, CLUSTER_MULTIPLIER), b)
    ensures Longest(b) <= (Short(h, w) / 4 * 4) as real
  {
    RegionIs(h, w, e, minRegion, CLUSTER_MULTIPLIER);
    SideFits(h, w, Longest(e), minRegion, CLUSTER_MULTIPLIER);
    hide Side, Start, CalculateRegion, Short;
  }

  /** The side is capped at the frame's short side, so nothing longer is ever inside its region. */
  lemma TooLongSticksOut(h: nat, w: nat, b: Box, minSize: nat, multiplier: real)
    requires Longest(b) > (Short(h, w) / 4 * 4) as real
    ensures !Holds(CalculateRegion(h, w, b, minSize, multiplier), b)
  {
    SideFits(h, w, Longest(b), minSize, multiplier);
    hide Side, Start;
  }

  /** Boxes the program groups can stick out of their region: two small boxes side by side in a wide, low
      frame get one region, which holds neither. */
  method WideClusterSticksOut(sqrt: real -> real) returns (regions: seq<Square>)
    ensures var boxes := [Box(0.0, 0.0, 40.0, 40.0), Box(200.0, 0.0, 240.0, 40.0)];
            && regions == [Square(70, 0, 170, 100)]
            && !Holds(regions[0], boxes[0]) && !Holds(regions[0], boxes[1])
  {
    var boxes := [Box(0.0, 0.0, 40.0, 40.0), Box(200.0, 0.0, 240.0, 40.0)];
    var clusters;
    regions, clusters := RegionsFor(100, 640, boxes, 320, sqrt);
    hide Grouping;
    WideGrouping(boxes, sqrt);
    GroupingIsUnique(100, 640, 320, boxes, sqrt, clusters, [[0, 1]]);
    WideRegion(boxes);
  }

  lemma WideRegion(boxes: seq<Box>)
    requires boxes == [Box(0.0, 0.0, 40.0, 40.0), Box(200.0, 0.0, 240.0, 40.0)]
    ensures ClusterRegion(100, 640, 320, [0, 1], boxes) == Square(70, 0, 170, 100)
  {
    var cluster: seq<nat> := [0, 1];
    assert cluster[..1] == [0];
    assert Extent(boxes, [0]) == boxes[0];
    assert Extent(boxes, cluster) == Box(0.0, 0.0, 240.0, 40.0);
    hide Extent;
    WideSide();
    assert Start(0.0, 240.0, 100, 640) == 70 && Start(0.0, 40.0, 100, 100) == 0;
    hide Start, Side;
  }

  lemma WideSide()
    ensures Side(100, 640, 240.0, 320, CLUSTER_MULTIPLIER) == 100
  {
    assert (240.0 * CLUSTER_MULTIPLIER / 4.0).Floor == 81;
  }

  lemma WideBoundary(sqrt: real -> real)
    ensures Holds(Boundary(Box(0.0, 0.0, 40.0, 40.0), 320, sqrt), Box(200.0, 0.0, 240.0, 40.0))
  {
    var reach := Trunc(sqrt(1600.0 / 0.1));
    var most := if 320 >= reach then 320 else reach;
    assert most as real - 40.0 / 2.0 * 1.1 == (most - 22) as real;
    assert Trunc((most - 22) as real) == most - 22;
  }

  lemma WideGrouping(boxes: seq<Box>, sqrt: real -> real)
    requires boxes == [Box(0.0, 0.0, 40.0, 40.0), Box(200.0, 0.0, 240.0, 40.0)]
    ensures Grouping(100, 640, 320, boxes, sqrt, [[0, 1]])
  {
    var cluster: seq<nat> := [0, 1];
    var clusters := [cluster];
    assert clusters[..0] == [];
    assert Taken(clusters) == {0, 1};
    hide Taken, NextCluster;
    WideNext(boxes, sqrt, cluster);
  }

  lemma WideNext(boxes: seq<Box>, sqrt: real -> real, cluster: seq<nat>)
    requires boxes == [Box(0.0, 0.0, 40.0, 40.0), Box(200.0, 0.0, 240.0, 40.0)] && cluster == [0, 1]
    ensures NextCluster(100, 640, 320, boxes, sqrt, {}, cluster)
  {
    hide *;
    WideBelow(cluster);
    WideJoins(boxes, sqrt, cluster);
    OneJoins(100, 640, 320, boxes, sqrt, cluster);
  }

  lemma WideBelow(cluster: seq<nat>)
    requires cluster == [0, 1]
    ensures Below(cluster, 2) == cluster && Below(cluster, 1) + [1] == cluster
  {
    assert Below(cluster, 0) == [] && Below(cluster, 1) == [0];
  }

  lemma OneJoins(h: nat, w: nat, minRegion: nat, boxes: seq<Box>, sqrt: real -> real, cluster: seq<nat>)
    requires |boxes| == 2 && cluster == [0, 1] && Below(cluster, 2) == cluster
    requires Joins(h, w, minRegion, boxes, sqrt, 0, {}, cluster, 1)
    ensures NextCluster(h, w, minRegion, boxes, sqrt, {}, cluster)
  {
    hide Joins, Below;
    assert 0 in cluster && 1 in cluster;
  }

  lemma WideJoins(boxes: seq<Box>, sqrt: real -> real, cluster: seq<nat>)
    requires boxes == [Box(0.0, 0.0, 40.0, 40.0), Box(200.0, 0.0, 240.0, 40.0)] && cluster == [0, 1]
    requires Below(cluster, 1) + [1] == cluster
    ensures Joins(100, 640, 320, boxes, sqrt, 0, {}, cluster, 1)
  {
    WideBoundary(sqrt);
    WideRegion(boxes);
    hide Boundary, Holds, ClusterRegion, Area, Below;
  }

  /** Three boxes that are grouped, and a fourth, too small for their region, inside the third. */
  const FOUR := [Box(150.0, 0.0, 250.0, 100.0), Box(0.0, 0.0, 100.0, 100.0), Box(301.0, 0.0, 401.0, 100.0),
                 Box(341.0, 40.0, 361.0, 60.0)]

  /** A cluster can be too long for its region and still every box be in some region: the third box sticks out
      of its own cluster's region and is in the fourth one's. */
  method OtherRegionCovers(sqrt: real -> real) returns (regions: seq<Square>, clusters: seq<seq<nat>>)
    ensures Grouping(400, 640, 320, FOUR, sqrt, clusters) && clusters == [[0, 1, 2], [3]]
    ensures AreRegions(400, 640, FOUR, 320, clusters, regions) && regions == [Square(0, 0, 400, 400), Square(191, 0, 511, 320)]
    ensures Longest(Extent(FOUR, clusters[0])) == 401.0 && !Holds(regions[0], FOUR[2])
    ensures forall i :: 0 <= i < 4 ==> InFrame(400, 640, FOUR[i]) && WholeBox(FOUR[i]) && Covered(regions, FOUR[i])
  {
    hide *;
    FourIndices();
    regions, clusters := RegionsFor(400, 640, FOUR, 320, sqrt);
    FourGrouping(sqrt);
    GroupingIsUnique(400, 640, 320, FOUR, sqrt, clusters, [[0, 1, 2], [3]]);
    FourRegions();
    RegionsAre(regions, clusters);
    FourAreCovered(regions, clusters);
  }

  lemma FourIndices()
    ensures |FOUR| == 4 && Indices([0, 1, 2], 4) && Indices([3], 4)
  {}

  lemma RegionsAre(regions: seq<Square>, clusters: seq<seq<nat>>)
    requires clusters == [[0, 1, 2], [3]] && |regions| == 2
    requires regions[0] == ClusterRegion(400, 640, 320, clusters[0], FOUR) && regions[1] == ClusterRegion(400, 640, 320, clusters[1], FOUR)
    ensures regions == [Square(0, 0, 400, 400), Square(191, 0, 511, 320)] && AreRegions(400, 640, FOUR, 320, clusters, regions)
  {
    FourRegions();
    hide ClusterRegion;
    assert 0 in clusters[0] && 1 in clusters[0] && 2 in clusters[0] && 3 in clusters[1];
  }

  lemma FourAreCovered(regions: seq<Square>, clusters: seq<seq<nat>>)
    requires regions == [Square(0, 0, 400, 400), Square(191, 0, 511, 320)] && clusters == [[0, 1, 2], [3]]
    ensures Longest(Extent(FOUR, clusters[0])) == 401.0 && !Holds(regions[0], FOUR[2])
    ensures forall i :: 0 <= i < 4 ==> InFrame(400, 640, FOUR[i]) && WholeBox(FOUR[i]) && Covered(regions, FOUR[i])
  {
    FourExtents();
    hide Extent;
    assert Holds(regions[0], FOUR[0]) && Holds(regions[0], FOUR[1]) && Holds(regions[1], FOUR[2]) && Holds(regions[1], FOUR[3]);
  }

  lemma FourExtents()
    ensures Extent(FOUR, [0, 1]) == Box(0.0, 0.0, 250.0, 100.0)
    ensures Extent(FOUR, [0, 1, 2]) == Extent(FOUR, [0, 1, 2, 3]) == Box(0.0, 0.0, 401.0, 100.0)
    ensures Extent(FOUR, [3]) == FOUR[3]
  {
    assert [0, 1][..1] == [0] && [0, 1, 2][..2] == [0, 1] && [0, 1, 2, 3][..3] == [0, 1, 2];
    assert Extent(FOUR, [0]) == FOUR[0];
    assert Extent(FOUR, [0, 1]) == Union(FOUR[0], FOUR[1]);
    assert Extent(FOUR, [0, 1, 2]) == Union(Extent(FOUR, [0, 1]), FOUR[2]);
    assert Extent(FOUR, [0, 1, 2, 3]) == Union(Extent(FOUR, [0, 1, 2]), FOUR[3]);
  }

  lemma RegionOf(cluster: seq<nat>, e: Box, r: Square)
    requires cluster != [] && Indices(cluster, 4) && Extent(FOUR, cluster) == e && CalculateRegion(400, 640, e, 320, CLUSTER_MULTIPLIER) == r
    ensures ClusterRegion(400, 640, 320, cluster, FOUR) == r
  {
    hide Extent, CalculateRegion;
  }

  lemma RegionFrom(e: Box, side: nat, x: int, y: int)
    requires Side(400, 640, Longest(e), 320, CLUSTER_MULTIPLIER) == side
    requires Start(e.x1, e.x2, side, 640) == x && Start(e.y1, e.y2, side, 400) == y
    ensures CalculateRegion(400, 640, e, 320, CLUSTER_MULTIPLIER) == Square(x, y, x + side, y + side)
  {
    hide Side, Start, Longest;
  }

  lemma FourStarts()
    ensures Start(0.0, 250.0, 336, 640) == 0 && Start(0.0, 100.0, 336, 400) == 0
    ensures Start(0.0, 401.0, 400, 640) == 0 && Start(0.0, 100.0, 400, 400) == 0
    ensures Start(341.0, 361.0, 320, 640) == 191 && Start(40.0, 60.0, 320, 400) == 0
  {}

  /** What the four groups that are looked at get. */
  ghost predicate FourRegionsAre(two: Square, three: Square, four: Square, last: Square) {
    && ClusterRegion(400, 640, 320, [0, 1], FOUR) == two && ClusterRegion(400, 640, 320, [0, 1, 2], FOUR) == three
    && ClusterRegion(400, 640, 320, [0, 1, 2, 3], FOUR) == four && ClusterRegion(400, 640, 320, [3], FOUR) == last
  }

  lemma FourRegions()
    ensures FourRegionsAre(Square(0, 0, 336, 336), Square(0, 0, 400, 400), Square(0, 0, 400, 400), Square(191, 0, 511, 320))
  {
    FourExtents();
    FourSides();
    FourStarts();
    hide Extent, Side, Start, CalculateRegion, ClusterRegion;
    RegionFrom(Extent(FOUR, [0, 1]), 336, 0, 0);
    RegionFrom(Extent(FOUR, [0, 1, 2]), 400, 0, 0);
    RegionFrom(FOUR[3], 320, 191, 0);
    RegionOf([0, 1], Extent(FOUR, [0, 1]), Square(0, 0, 336, 336));
    RegionOf([0, 1, 2], Extent(FOUR, [0, 1, 2]), Square(0, 0, 400, 400));
    RegionOf([0, 1, 2, 3], Extent(FOUR, [0, 1, 2, 3]), Square(0, 0, 400, 400));
    RegionOf([3], FOUR[3], Square(191, 0, 511, 320));
  }

  lemma FourSides()
    ensures Side(400, 640, 250.0, 320, CLUSTER_MULTIPLIER) == 336
    ensures Side(400, 640, 401.0, 320, CLUSTER_MULTIPLIER) == 400
    ensures Side(400, 640, 20.0, 320, CLUSTER_MULTIPLIER) == 320
  {
    assert (250.0 * CLUSTER_MULTIPLIER / 4.0).Floor == 84;
    assert (401.0 * CLUSTER_MULTIPLIER / 4.0).Floor == 135;
    assert (20.0 * CLUSTER_MULTIPLIER / 4.0).Floor == 6;
  }

  lemma FourBoundary(sqrt: real -> real)
    ensures var r := Boundary(FOUR[0], 320, sqrt); Holds(r, FOUR[1]) && Holds(r, FOUR[2])
  {
    var reach := Trunc(sqrt(10000.0 / 0.1));
    var most := if 320 >= reach then 320 else reach;
    assert most as real - 100.0 / 2.0 * 1.1 == (most - 55) as real;
    assert Trunc((most - 55) as real) == most - 55;
  }

  lemma FourSizes()
    ensures !TooSmall(400, 640, 320, [0, 1], FOUR) && !TooSmall(400, 640, 320, [0, 1, 2], FOUR)
    ensures TooSmall(400, 640, 320, [0, 1, 2, 3], FOUR)
  {
    FourRegions();
    hide ClusterRegion;
    assert Area(FOUR[0]) == Area(FOUR[1]) == Area(FOUR[2]) == 10201.0 && Area(FOUR[3]) == 441.0;
    assert [0, 1, 2, 3][3] == 3;
  }

  lemma BelowNext(cluster: seq<nat>, n: nat, front: seq<nat>, there: bool)
    requires Below(cluster, n) == front && there == (n in cluster)
    ensures Below(cluster, n + 1) == if there then front + [n] else front
  {}

  lemma BelowZero(cluster: seq<nat>)
    ensures Below(cluster, 0) == []
  {}

  lemma FourMembers(a: seq<nat>)
    requires a == [0, 1, 2]
    ensures 0 in a && 1 in a && 2 in a && 3 !in a
  {}

  lemma FirstBelow(a: seq<nat>)
    requires a == [0, 1, 2]
    ensures Below(a, 1) == [0] && Below(a, 2) == [0, 1] && Below(a, 3) == a == Below(a, 4)
  {
    hide *;
    FourMembers(a);
    BelowZero(a);
    BelowNext(a, 0, [], true);
    assert [] + [0] == [0];
    BelowNext(a, 1, [0], true);
    assert [0] + [1] == [0, 1];
    BelowNext(a, 2, [0, 1], true);
    assert [0, 1] + [2] == a;
    BelowNext(a, 3, a, false);
  }

  lemma LastBelow(b: seq<nat>)
    requires b == [3]
    ensures Below(b, 4) == b
  {
    hide *;
    BelowNone(b, 3);
    BelowNext(b, 3, [], true);
  }

  lemma FourJoins(sqrt: real -> real)
    ensures Joins(400, 640, 320, FOUR, sqrt, 0, {}, [0, 1, 2], 1) && Joins(400, 640, 320, FOUR, sqrt, 0, {}, [0, 1, 2], 2)
    ensures !Joins(400, 640, 320, FOUR, sqrt, 0, {}, [0, 1, 2], 3)
  {
    hide TooSmall, Boundary, Holds, Below;
    FirstBelow([0, 1, 2]);
    FourSizes();
    FourBoundary(sqrt);
    assert [0] + [1] == [0, 1] && [0, 1] + [2] == [0, 1, 2] && [0, 1, 2] + [3] == [0, 1, 2, 3];
  }

  lemma NotAgain(h: nat, w: nat, minRegion: nat, boxes: seq<Box>, sqrt: real -> real, seed: nat, used: set<nat>, cluster: seq<nat>)
    requires seed < |boxes|
    ensures forall j: nat :: j < |boxes| && j in used ==> !Joins(h, w, minRegion, boxes, sqrt, seed, used, cluster, j)
  {
    hide TooSmall, Boundary, Holds, Below;
  }

  lemma FirstIsNext(h: nat, w: nat, minRegion: nat, boxes: seq<Box>, sqrt: real -> real, cluster: seq<nat>)
    requires |boxes| == 4 && cluster == [0, 1, 2] && cluster == Below(cluster, 4)
    requires Joins(h, w, minRegion, boxes, sqrt, 0, {}, cluster, 1) && Joins(h, w, minRegion, boxes, sqrt, 0, {}, cluster, 2)
    requires !Joins(h, w, minRegion, boxes, sqrt, 0, {}, cluster, 3)
    ensures NextCluster(h, w, minRegion, boxes, sqrt, {}, cluster)
  {
    hide Joins, Below;
    assert 0 in cluster && 1 in cluster && 2 in cluster && 3 !in cluster;
  }

  lemma LastIsNext(h: nat, w: nat, minRegion: nat, boxes: seq<Box>, sqrt: real -> real, cluster: seq<nat>)
    requires |boxes| == 4 && cluster == [3] && cluster == Below(cluster, 4)
    ensures NextCluster(h, w, minRegion, boxes, sqrt, {0, 1, 2}, cluster)
  {
    NotAgain(h, w, minRegion, boxes, sqrt, 3, {0, 1, 2}, cluster);
    hide Joins, Below;
    assert 3 in cluster;
  }

  lemma TwoInTurn(h: nat, w: nat, minRegion: nat, boxes: seq<Box>, sqrt: real -> real, a: seq<nat>, b: seq<nat>, used: set<nat>)
    requires used == (set j | j in a) && (forall i: nat :: i < |boxes| <==> i in a || i in b)
    requires NextCluster(h, w, minRegion, boxes, sqrt, {}, a) && NextCluster(h, w, minRegion, boxes, sqrt, used, b)
    ensures Grouping(h, w, minRegion, boxes, sqrt, [a, b])
  {
    hide NextCluster, ClustersInTurn, Taken;
    var none: seq<seq<nat>> := [];
    NoneInTurn(h, w, minRegion, boxes, sqrt);
    NoneTaken(none);
    InTurnAppend(h, w, minRegion, boxes, sqrt, none, a);
    assert none + [a] == [a] && Taken([a]) == used;
    InTurnAppend(h, w, minRegion, boxes, sqrt, [a], b);
    assert [a] + [b] == [a, b];
  }

  lemma NoneTaken(clusters: seq<seq<nat>>)
    requires clusters == []
    ensures Taken(clusters) == {}
  {}

  lemma FourGrouping(sqrt: real -> real)
    ensures Grouping(400, 640, 320, FOUR, sqrt, [[0, 1, 2], [3]])
  {
    hide *;
    var a: seq<nat>, b: seq<nat> := [0, 1, 2], [3];
    FourIndices();
    FirstBelow(a);
    LastBelow(b);
    FourJoins(sqrt);
    FirstIsNext(400, 640, 320, FOUR, sqrt, a);
    LastIsNext(400, 640, 320, FOUR, sqrt, b);
    assert forall i: nat :: i < 4 <==> i in a || i in b;
    TwoInTurn(400, 640, 320, FOUR, sqrt, a, b, {0, 1, 2});
  }

  // ----- the first look ---------------------------------------------------------------------------

  /** round() of n / d: halves go to the even neighbour. */
  function Round(n: nat, d: nat): nat
    requires d > 0
  {
    var q, r := n / d, n % d;
    if 2 * r < d || (2 * r == d && q % 2 == 0) then q else q + 1
  }

  function StartupSide(h: nat, w: nat): nat {
    var s := Short(h, w) / 4 * 4;
    if s >= 4 then s else 4
  }

  function Long(h: nat, w: nat): nat {
    if h >= w then h else w
  }

  /** How many squares: the long side over their side, rounded up, at least one. */
  function StartupCount(h: nat, w: nat): nat {
    var n := (Long(h, w) + StartupSide(h, w) - 1) / StartupSide(h, w);
    if n >= 1 then n else 1
  }

  /** Where the i-th of count squares starts, with slack between the first one and the last. */
  function Spread(i: nat, count: nat, slack: nat): nat {
    if count <= 1 then 0 else Round(i * slack, count - 1)
  }

  function Offset(h: nat, w: nat, i: nat): nat {
    if Long(h, w) < StartupSide(h, w) then 0
    else Spread(i, StartupCount(h, w), Long(h, w) - StartupSide(h, w))
  }

  function StartupRegion(h: nat, w: nat, i: nat): Square {
    var at, side := Offset(h, w, i), StartupSide(h, w);
    if w >= h then Square(at, 0, at + side, side) else Square(0, at, side, at + side)
  }

  lemma {:induction false} MulMonotone(a: nat, b: nat, c: nat)
    requires a <= b
    ensures a * c <= b * c
  {}

  lemma QuotientBounds(n: nat, d: nat)
    requires d > 0
    ensures n == n / d * d + n % d && 0 <= n % d < d
  {}

  lemma SmallerQuotient(a: nat, r: nat, b: nat, s: nat, d: nat)
    requires a * d + r <= b * d + s && s < d
    ensures a <= b
  {
    if a > b { MulMonotone(b + 1, a, d); }
  }

  lemma QuotientMonotone(m: nat, n: nat, d: nat)
    requires d > 0 && m <= n
    ensures m / d < n / d || (m / d == n / d && m % d <= n % d)
  {
    QuotientBounds(m, d);
    QuotientBounds(n, d);
    SmallerQuotient(m / d, m % d, n / d, n % d, d);
  }

  lemma RoundMonotone(m: nat, n: nat, d: nat)
    requires d > 0 && m <= n
    ensures Round(m, d) <= Round(n, d)
  {
    QuotientMonotone(m, n, d);
  }

  lemma QuotientShift(n: nat, d: nat, k: nat)
    requires d > 0
    ensures (n + k * d) / d == n / d + k && (n + k * d) % d == n % d
  {
    QuotientBounds(n, d);
    assert (n / d + k) * d == n / d * d + k * d;
    OneQuotient(n + k * d, d, n / d + k, n % d);
  }

  lemma OneQuotient(n: nat, d: nat, q: nat, r: nat)
    requires d > 0 && n == q * d + r && r < d
    ensures n / d == q && n % d == r
  {
    QuotientBounds(n, d);
    SmallerQuotient(n / d, n % d, q, r, d);
    SmallerQuotient(q, r, n / d, n % d, d);
  }

  /** Half-even rounding moves with an even shift. */
  lemma RoundShift(n: nat, d: nat, k: nat)
    requires d > 0 && k % 2 == 0
    ensures Round(n + k * d, d) == Round(n, d) + k
  {
    QuotientShift(n, d, k);
  }

  lemma RoundWhole(k: nat, d: nat)
    requires d > 0
    ensures Round(k * d, d) == k
  {
    QuotientShift(0, d, k);
  }

  /** The squares of the first look, along the long side. */
  method StartupRegions(h: nat, w: nat) returns (r: seq<Square>)
    ensures |r| == StartupCount(h, w) && forall i :: 0 <= i < |r| ==> r[i] == StartupRegion(h, w, i)
  {
    r := [];
    for i := 0 to StartupCount(h, w)
      invariant |r| == i && forall k :: 0 <= k < i ==> r[k] == StartupRegion(h, w, k)
    {
      r := r + [StartupRegion(h, w, i)];
    }
  }

  /** The squares of the first look start at 0, end at the long edge, and leave no gap between them; on
      the short side they miss at most 3 pixels. */
  lemma StartupCovers(h: nat, w: nat)
    requires h >= 4 && w >= 4
    ensures var n, side := StartupCount(h, w), StartupSide(h, w);
            && Offset(h, w, 0) == 0
            && Offset(h, w, n - 1) + side == Long(h, w)
            && (forall i: nat :: i < n - 1 ==> Offset(h, w, i) <= Offset(h, w, i + 1) <= Offset(h, w, i) + side)
            && side <= Short(h, w) <= side + 3
  {
    hide StartupCount, StartupSide, Long, Short, Spread, Spans;
    StartupCountFits(h, w);
    SideMissesLittle(h, w);
    SpreadCovers(StartupCount(h, w), StartupSide(h, w), Long(h, w) - StartupSide(h, w));
  }

  lemma SideMissesLittle(h: nat, w: nat)
    requires h >= 4 && w >= 4
    ensures StartupSide(h, w) <= Short(h, w) <= StartupSide(h, w) + 3
  {}

  /** count squares spread over a slack of at most count - 1 sides. */
  lemma SpreadCovers(count: nat, side: nat, slack: nat)
    requires count >= 1 && side % 4 == 0 && Spans(count, side, slack)
    ensures Spread(0, count, slack) == 0 && Spread(count - 1, count, slack) == slack
    ensures forall i: nat :: i < count - 1 ==>
              Spread(i, count, slack) <= Spread(i + 1, count, slack) <= Spread(i, count, slack) + side
  {
    hide Round;
    if count > 1 {
      RoundWhole(0, count - 1);
      RoundWhole(slack, count - 1);
      assert (count - 1) * slack == slack * (count - 1);
      forall i: nat | i < count - 1
        ensures Spread(i, count, slack) <= Spread(i + 1, count, slack) <= Spread(i, count, slack) + side
      {
        OffsetsMeet(i, count - 1, side, slack);
      }
    }
  }

  /** count sides, the first at 0, reach over a slack. */
  predicate Spans(count: nat, side: nat, slack: nat)
    requires count >= 1
  {
    slack <= (count - 1) * side && (count == 1 ==> slack == 0)
  }

  lemma StartupCountFits(h: nat, w: nat)
    requires h >= 4 && w >= 4
    ensures var n, side, long := StartupCount(h, w), StartupSide(h, w), Long(h, w);
            n >= 1 && side <= long && side % 4 == 0 && Spans(n, side, long - side)
  {
    var n, side, long := StartupCount(h, w), StartupSide(h, w), Long(h, w);
    QuotientBounds(long + side - 1, side);
    assert n * side >= long by {
      assert n * side + (side - 1) >= long + side - 1;
    }
    assert (n - 1) * side == n * side - side;
  }

  lemma OffsetsMeet(i: nat, d: nat, side: nat, slack: nat)
    requires d > 0 && side % 2 == 0 && slack <= d * side
    ensures Round(i * slack, d) <= Round((i + 1) * slack, d) <= Round(i * slack, d) + side
  {
    assert (i + 1) * slack == i * slack + slack;
    RoundMonotone(i * slack, (i + 1) * slack, d);
    assert d * side == side * d;
    RoundMonotone((i + 1) * slack, i * slack + side * d, d);
    RoundShift(i * slack, d, side);
  }
}
