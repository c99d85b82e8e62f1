/** Geometry helpers of the OSM backend: spherical distance, way length, the local
    tangent-plane transform, polyline "scarcification" and the ray-casting
    point-in-polygon test.

    Floating point is modelled by exact reals. The transcendental functions and the
    two vector-library operations the source relies on are not defined here: they are
    fields of a `Numerics` value that every operation needing them takes as a
    parameter, so nothing is assumed about them beyond what a lemma states in its
    `requires`. */
module GeoMath {
  import opened Wrappers
  import opened Seqs

  /** A geographic point `[lon, lat]` in degrees. */
  datatype Point = Point(lon: real, lat: real)

  /** A point of the local Cartesian plane, in metres. */
  datatype XY = XY(x: real, y: real)

  /** The numeric environment: `Math.sin/cos/acos/tan/log`, the distance of a point from
      the line through the origin with a given direction (the vector library's
      `Line.create([0,0], dir).distanceFrom(q)`), and `rayIntersectsBetweenPoints(p, v, p0, p1)`. */
  datatype Numerics = Numerics(
    sin: real -> real,
    cos: real -> real,
    acos: real -> real,
    tan: real -> real,
    log: real -> real,
    lineDistance: (XY, XY) -> real,
    rayIntersects: (XY, XY, XY, XY) -> bool)

  /** `Math.PI` as a decimal. */
  const PI: real := 3.141592653589793
  /** Earth radius in metres. */
  const R: real := 6371000.0
  const DEG2RAD: real := PI / 180.0
  const DEG2METER: real := PI * R / 180.0
  /** Tolerance of `same`, in degrees. */
  const SAME_TOLERANCE: real := 0.000000001

  function Abs(x: real): real {
    if x < 0.0 then -x else x
  }

  /** True when both coordinates differ by less than the tolerance. */
  predicate Same(p0: Point, p1: Point) {
    Abs(p0.lon - p1.lon) < SAME_TOLERANCE && Abs(p0.lat - p1.lat) < SAME_TOLERANCE
  }

  // ---------------------------------------------------------------------------
  // Distance

  /** The spherical law of cosines term whose arc cosine is the central angle. */
  function CosineArgument(m: Numerics, p1: Point, p2: Point): real {
    var lon1 := p1.lon * DEG2RAD;
    var lon2 := p2.lon * DEG2RAD;
    var lat1 := p1.lat * DEG2RAD;
    var lat2 := p2.lat * DEG2RAD;
    m.sin(lat1) * m.sin(lat2) + m.cos(lat1) * m.cos(lat2) * m.cos(lon2 - lon1)
  }

  /** Rounding guard before `acos`: the argument is forced into [-1, 1]. */
  function ClampUnit(a: real): (c: real)
    ensures -1.0 <= c <= 1.0
    ensures -1.0 <= a <= 1.0 ==> c == a
    ensures a < -1.0 ==> c == -1.0
    ensures a > 1.0 ==> c == 1.0
  {
    var low := if a < -1.0 then -1.0 else a;
    if low > 1.0 then 1.0 else low
  }

  function PointDistance(m: Numerics, p1: Point, p2: Point): real {
    m.acos(ClampUnit(CosineArgument(m, p1, p2))) * R
  }

  /** `acos` is only ever evaluated inside its domain: the distance is `R` times the
      arc cosine of some value in [-1, 1]. */
  lemma PointDistanceClamped(m: Numerics, p1: Point, p2: Point)
    ensures exists a: real {:trigger m.acos(a)} :: -1.0 <= a <= 1.0 && PointDistance(m, p1, p2) == m.acos(a) * R
  {
    var a := ClampUnit(CosineArgument(m, p1, p2));
    assert -1.0 <= a <= 1.0 && PointDistance(m, p1, p2) == m.acos(a) * R;
  }

  ghost predicate AcosRange(m: Numerics) {
    forall x: real :: -1.0 <= x <= 1.0 ==> 0.0 <= m.acos(x) <= PI
  }

  /** With a principal-value `acos`, every distance lies in [0, PI * R], whatever the
      rounding of the cosine term. */
  lemma PointDistanceBounds(m: Numerics, p1: Point, p2: Point)
    requires AcosRange(m)
    ensures 0.0 <= PointDistance(m, p1, p2) <= PI * R
  {
    var a := ClampUnit(CosineArgument(m, p1, p2));
    assert 0.0 <= m.acos(a) <= PI;
  }

  ghost predicate CosEven(m: Numerics) {
    forall x: real :: m.cos(-x) == m.cos(x)
  }

  lemma PointDistanceSymmetric(m: Numerics, p1: Point, p2: Point)
    requires CosEven(m)
    ensures PointDistance(m, p1, p2) == PointDistance(m, p2, p1)
  {
    var d := p2.lon * DEG2RAD - p1.lon * DEG2RAD;
    assert m.cos(-d) == m.cos(d);
    assert p1.lon * DEG2RAD - p2.lon * DEG2RAD == -d;
    var lat1, lat2 := p1.lat * DEG2RAD, p2.lat * DEG2RAD;
    assert m.cos(lat1) * m.cos(lat2) * m.cos(d) == m.cos(lat2) * m.cos(lat1) * m.cos(-d);
    assert m.sin(lat1) * m.sin(lat2) == m.sin(lat2) * m.sin(lat1);
    assert CosineArgument(m, p1, p2) == CosineArgument(m, p2, p1);
  }

  ghost predicate PythagoreanIdentity(m: Numerics) {
    forall x: real :: m.sin(x) * m.sin(x) + m.cos(x) * m.cos(x) == 1.0
  }

  lemma PointDistanceSelf(m: Numerics, p: Point)
    requires PythagoreanIdentity(m) && m.cos(0.0) == 1.0 && m.acos(1.0) == 0.0
    ensures PointDistance(m, p, p) == 0.0
  {
    var lat := p.lat * DEG2RAD;
    assert m.sin(lat) * m.sin(lat) + m.cos(lat) * m.cos(lat) == 1.0;
    assert p.lon * DEG2RAD - p.lon * DEG2RAD == 0.0;
    assert CosineArgument(m, p, p) == 1.0;
  }

  // ---------------------------------------------------------------------------
  // Way length

  /** A distance between two points. */
  type Metric = (Point, Point) -> real

  /** `pointDistance` with the numeric environment fixed. */
  function Distance(m: Numerics): Metric {
    (p: Point, q: Point) => PointDistance(m, p, q)
  }

  /** Sum of the distances `d` between consecutive points, each pair measured from the
      later point to the earlier one, as the source's loop does. */
  function PathLength(d: Metric, coords: seq<Point>): real
  {
    if |coords| <= 1 then 0.0
    else PathLength(d, coords[..|coords| - 1]) + d(coords[|coords| - 1], coords[|coords| - 2])
  }

  /** The length of a way in metres. */
  function WayLengthOf(m: Numerics, coords: seq<Point>): real {
    PathLength(Distance(m), coords)
  }

  method WayLength(m: Numerics, coords: seq<Point>) returns (len: real)
    ensures len == WayLengthOf(m, coords)
    ensures |coords| <= 1 ==> len == 0.0
  {
    len := SumOfSteps(Distance(m), coords);
  }

  /** The loop of `wayLength`, with the distance function as a parameter: every point
      after the first adds its distance to the point before it. */
  method SumOfSteps(d: Metric, coords: seq<Point>) returns (len: real)
    ensures len == PathLength(d, coords)
  {
    len := 0.0;
    var i := 0;
    while i < |coords|
      invariant 0 <= i <= |coords|
      invariant len == PathLength(d, coords[..i])
    {
      if i > 0 {
        assert coords[..i + 1] == coords[..i] + [coords[i]];
        PathLengthAppend(d, coords[..i], coords[i]);
        len := len + d(coords[i], coords[i - 1]);
      }
      i := i + 1;
    }
    assert coords[..i] == coords;
  }

  /** Appending a point adds exactly its distance to the previous last point. */
  lemma {:induction false} PathLengthAppend(d: Metric, coords: seq<Point>, p: Point)
    requires |coords| >= 1
    ensures PathLength(d, coords + [p]) == PathLength(d, coords) + d(p, coords[|coords| - 1])
  {
    var longer := coords + [p];
    assert longer[..|coords|] == coords;
    assert longer[|longer| - 1] == p && longer[|longer| - 2] == coords[|coords| - 1];
  }

  /** Lengths of two ways joined end to start add up, plus the joining segment. */
  lemma {:induction false} PathLengthConcat(d: Metric, a: seq<Point>, b: seq<Point>)
    requires |a| >= 1 && |b| >= 1
    ensures PathLength(d, a + b) == PathLength(d, a) + d(b[0], a[|a| - 1]) + PathLength(d, b)
    decreases |b|
  {
    if |b| == 1 {
      PathLengthAppend(d, a, b[0]);
      assert a + b == a + [b[0]];
    } else {
      var b' := b[..|b| - 1];
      PathLengthConcat(d, a, b');
      assert (a + b)[..|a + b| - 1] == a + b';
      assert b'[0] == b[0];
    }
  }

  /** With non-negative distances the length is non-negative. */
  lemma {:induction false} PathLengthNonNegative(d: Metric, coords: seq<Point>)
    requires forall p: Point, q: Point :: d(p, q) >= 0.0
    ensures PathLength(d, coords) >= 0.0
    decreases |coords|
  {
    if |coords| > 1 {
      PathLengthNonNegative(d, coords[..|coords| - 1]);
    }
  }

  lemma WayLengthNonNegative(m: Numerics, coords: seq<Point>)
    requires AcosRange(m)
    ensures WayLengthOf(m, coords) >= 0.0
  {
    forall p: Point, q: Point
      ensures Distance(m)(p, q) >= 0.0
    {
      PointDistanceBounds(m, p, q);
    }
    PathLengthNonNegative(Distance(m), coords);
  }

  // ---------------------------------------------------------------------------
  // Local tangent plane

  /** A transform anchored at a base point `[lon, lat]`. */
  datatype Transform = Transform(lon: real, lat: real) {

    /** The vertical scale `log(tan(PI/4 + lat/2))`, taken at the base latitude. */
    function Scale(m: Numerics): real {
      m.log(m.tan(0.25 * PI + 0.5 * lat * DEG2RAD))
    }

    function GetXY(m: Numerics, p: Point): XY {
      XY((p.lon - lon) * DEG2METER, (p.lat - lat) * DEG2METER * Scale(m))
    }

    /** `None` stands for the non-finite result the source computes when the scale is 0. */
    function GetLatLon(m: Numerics, xy: XY): (r: Option<Point>)
      ensures r.None? <==> Scale(m) == 0.0
    {
      var k := Scale(m);
      if k == 0.0 then None else Some(Point(lon + xy.x / DEG2METER, lat + xy.y / DEG2METER / k))
    }
  }

  function TransformAt(p0: Point): Transform {
    Transform(p0.lon, p0.lat)
  }

  lemma GetXYBase(m: Numerics, p0: Point)
    ensures TransformAt(p0).GetXY(m, p0) == XY(0.0, 0.0)
  {
  }

  lemma GetLatLonOfGetXY(m: Numerics, p0: Point, p: Point)
    requires TransformAt(p0).Scale(m) != 0.0
    ensures TransformAt(p0).GetLatLon(m, TransformAt(p0).GetXY(m, p)) == Some(p)
  {
    var k := TransformAt(p0).Scale(m);
    var xy := TransformAt(p0).GetXY(m, p);
    assert xy.x / DEG2METER == p.lon - p0.lon;
    assert xy.y / DEG2METER == (p.lat - p0.lat) * k;
    assert xy.y / DEG2METER / k == p.lat - p0.lat;
  }

  lemma GetXYOfGetLatLon(m: Numerics, p0: Point, xy: XY)
    requires TransformAt(p0).Scale(m) != 0.0
    ensures TransformAt(p0).GetLatLon(m, xy).Some?
    ensures TransformAt(p0).GetXY(m, TransformAt(p0).GetLatLon(m, xy).value) == xy
  {
    var k := TransformAt(p0).Scale(m);
    var q := TransformAt(p0).GetLatLon(m, xy).value;
    assert (q.lon - p0.lon) * DEG2METER == xy.x;
    assert q.lat - p0.lat == xy.y / DEG2METER / k;
    assert (xy.y / DEG2METER / k) * DEG2METER * k == xy.y;
  }

  // ---------------------------------------------------------------------------
  // Scarcification

  /** Deviation of the middle point from the line joining its neighbours, measured in
      the plane anchored at the first one; when the first and last coincide in that
      plane (no line can be built) it is the distance from first to middle. */
  function MiddlemanDeviation(m: Numerics, p0: Point, p1: Point, p2: Point): real {
    var tf := TransformAt(p0);
    var direction := tf.GetXY(m, p2);
    if direction == XY(0.0, 0.0) then PointDistance(m, p0, p1)
    else m.lineDistance(direction, tf.GetXY(m, p1))
  }

  function DropTheMiddleman(m: Numerics, p0: Point, p1: Point, p2: Point, deviation: real): (r: seq<Point>)
    ensures r == [p0, p2] || r == [p0, p1, p2]
    ensures |r| == 2 <==> MiddlemanDeviation(m, p0, p1, p2) < deviation && PointDistance(m, p0, p2) <= 7.0 * deviation
  {
    if MiddlemanDeviation(m, p0, p1, p2) >= deviation || PointDistance(m, p0, p2) > 7.0 * deviation then
      [p0, p1, p2]
    else
      [p0, p2]
  }

  /** A triplet processor: given three consecutive points and the tolerance, the
      points to keep of them. */
  type Processor = (Point, Point, Point, real) -> seq<Point>

  /** Every result holds at least one point (the backward pass reads the first). */
  ghost predicate NonEmptyResults(proc: Processor) {
    forall a: Point, b: Point, c: Point, d: real :: |proc(a, b, c, d)| > 0
  }

  /** A processor that keeps both ends and either drops or keeps the middle point. */
  ghost predicate WellFormed(proc: Processor) {
    && NonEmptyResults(proc)
    && forall a: Point, b: Point, c: Point, d: real :: proc(a, b, c, d) == [a, c] || proc(a, b, c, d) == [a, b, c]
  }

  /** `dropTheMiddleman` with the numeric environment fixed. */
  function Middleman(m: Numerics): Processor {
    (p0: Point, p1: Point, p2: Point, deviation: real) => DropTheMiddleman(m, p0, p1, p2, deviation)
  }

  lemma MiddlemanWellFormed(m: Numerics)
    ensures WellFormed(Middleman(m))
  {
    forall a: Point, b: Point, c: Point, d: real
      ensures Middleman(m)(a, b, c, d) == [a, c] || Middleman(m)(a, b, c, d) == [a, b, c]
    {
      assert Middleman(m)(a, b, c, d) == DropTheMiddleman(m, a, b, c, d);
    }
    forall a: Point, b: Point, c: Point, d: real ensures |Middleman(m)(a, b, c, d)| > 0 {
      assert Middleman(m)(a, b, c, d) == DropTheMiddleman(m, a, b, c, d);
    }
  }

  /** The processor keeps the middle point of the triplet centred at `j`. */
  predicate KeepsMiddle(proc: Processor, coords: seq<Point>, deviation: real, j: int)
    requires 1 <= j < |coords| - 1
  {
    proc(coords[j - 1], coords[j], coords[j + 1], deviation) == [coords[j - 1], coords[j], coords[j + 1]]
  }

  /** What the forward pass appends for one result: all of it but the first point. */
  function AfterFirst(r: seq<Point>): seq<Point> {
    if r == [] then [] else r[1..]
  }

  /** The forward pass from loop index `i` on: triplets `(i-2, i-1, i)` with stride 2,
      then the last point when the loop stopped exactly at the end. */
  function ForwardRest(coords: seq<Point>, deviation: real, proc: Processor, i: nat): seq<Point>
    requires 2 <= i <= |coords| + 1
    decreases |coords| + 1 - i
  {
    if i < |coords| then
      AfterFirst(proc(coords[i - 2], coords[i - 1], coords[i], deviation)) + ForwardRest(coords, deviation, proc, i + 2)
    else if i == |coords| then [coords[|coords| - 1]]
    else []
  }

  function ForwardPass(coords: seq<Point>, deviation: real, proc: Processor): seq<Point>
    requires |coords| >= 1
  {
    [coords[0]] + ForwardRest(coords, deviation, proc, 2)
  }

  method ProcessForwardInTriplets(coords: seq<Point>, deviation: real, processor: Processor)
    returns (scarce: seq<Point>)
    requires |coords| >= 1
    ensures scarce == ForwardPass(coords, deviation, processor)
  {
    scarce := [coords[0]];
    var i := 2;
    while i < |coords|
      invariant 2 <= i <= |coords| + 1
      invariant scarce + ForwardRest(coords, deviation, processor, i) == ForwardPass(coords, deviation, processor)
    {
      var reminder := processor(coords[i - 2], coords[i - 1], coords[i], deviation);
      var rest := AfterFirst(reminder);
      ghost var before := scarce;
      ForwardRestAppend(coords, deviation, processor, i, before);
      var k := 0;
      while k < |rest|
        invariant 0 <= k <= |rest|
        invariant scarce == before + rest[..k]
      {
        scarce := scarce + [rest[k]];
        k := k + 1;
      }
      assert rest[..k] == rest;
      i := i + 2;
    }
    if i == |coords| {
      scarce := scarce + [coords[|coords| - 1]];
    }
  }

  /** One loop step of the forward pass moves a triplet's points from the pass still to
      run to the end of the points already collected. */
  lemma ForwardRestAppend(coords: seq<Point>, deviation: real, proc: Processor, i: nat, earlier: seq<Point>)
    requires 2 <= i < |coords|
    ensures earlier + ForwardRest(coords, deviation, proc, i) ==
      (earlier + AfterFirst(proc(coords[i - 2], coords[i - 1], coords[i], deviation))) + ForwardRest(coords, deviation, proc, i + 2)
  {
  }

  /** What the backward pass puts in front for one result: its first two points when
      it has three, else its first point. */
  function FirstOfTriplet(r: seq<Point>): seq<Point>
    requires |r| > 0
  {
    if |r| == 3 then [r[0], r[1]] else [r[0]]
  }

  /** The backward pass down to loop index `i`: triplets `(i, i+1, i+2)` with stride 2
      from the end, then the first point when the loop stopped at -1. */
  function BackwardRest(coords: seq<Point>, deviation: real, proc: Processor, i: int): seq<Point>
    requires NonEmptyResults(proc)
    requires -2 <= i <= |coords| - 3
    decreases i + 2
  {
    if i >= 0 then
      BackwardRest(coords, deviation, proc, i - 2) + FirstOfTriplet(proc(coords[i], coords[i + 1], coords[i + 2], deviation))
    else if i == -1 then [coords[0]]
    else []
  }

  function BackwardPass(coords: seq<Point>, deviation: real, proc: Processor): seq<Point>
    requires NonEmptyResults(proc)
    requires |coords| >= 1
  {
    BackwardRest(coords, deviation, proc, |coords| - 3) + [coords[|coords| - 1]]
  }

  method ProcessBackwardInTriplets(coords: seq<Point>, deviation: real, processor: Processor)
    returns (scarce: seq<Point>)
    requires NonEmptyResults(processor)
    requires |coords| >= 1
    ensures scarce == BackwardPass(coords, deviation, processor)
  {
    scarce := [coords[|coords| - 1]];
    var i := |coords| - 3;
    while i >= 0
      invariant -2 <= i <= |coords| - 3
      invariant BackwardRest(coords, deviation, processor, i) + scarce == BackwardPass(coords, deviation, processor)
    {
      var reminder := processor(coords[i], coords[i + 1], coords[i + 2], deviation);
      BackwardRestPrepend(coords, deviation, processor, i, scarce);
      if |reminder| == 3 {
        scarce := [reminder[0], reminder[1]] + scarce;
      } else {
        scarce := [reminder[0]] + scarce;
      }
      i := i - 2;
    }
    BackwardRestEnd(coords, deviation, processor, i);
    if i == -1 {
      scarce := [coords[0]] + scarce;
    }
  }

  /** One loop step of the backward pass moves a triplet's points from the pass still to
      run to the front of the points already collected. */
  lemma BackwardRestPrepend(coords: seq<Point>, deviation: real, proc: Processor, i: int, later: seq<Point>)
    requires NonEmptyResults(proc)
    requires 0 <= i <= |coords| - 3
    ensures var r := proc(coords[i], coords[i + 1], coords[i + 2], deviation);
      BackwardRest(coords, deviation, proc, i) + later ==
        BackwardRest(coords, deviation, proc, i - 2) + ((if |r| == 3 then [r[0], r[1]] else [r[0]]) + later)
  {
  }

  /** The single point `[x]` is a subsequence of `[y, x]`. */
  lemma SubseqOfPair(x: Point, y: Point)
    ensures IsSubseq([x], [y, x])
  {
    assert [y, x][1..] == [x];
    assert [x][1..] == [];
    assert IsSubseq([x][1..], [x][1..]);
  }

  /** Every middle point the forward pass tests from loop index `i` on is kept. */
  ghost predicate KeepsForwardFrom(proc: Processor, coords: seq<Point>, deviation: real, i: nat)
    requires 2 <= i
    decreases |coords| + 1 - i
  {
    i < |coords| ==> KeepsMiddle(proc, coords, deviation, i - 1) && KeepsForwardFrom(proc, coords, deviation, i + 2)
  }

  /** The middle points tested from `i` on are those at `i - 1`, `i + 1`, `i + 3`, ... */
  lemma {:induction false} KeepsForwardFromAll(proc: Processor, coords: seq<Point>, deviation: real, i: nat)
    requires 2 <= i
    ensures KeepsForwardFrom(proc, coords, deviation, i) <==>
      forall j {:trigger KeepsMiddle(proc, coords, deviation, j)} :: i - 1 <= j < |coords| - 1 && (j - i + 1) % 2 == 0 ==> KeepsMiddle(proc, coords, deviation, j)
    decreases |coords| + 1 - i
  {
    if i < |coords| {
      KeepsForwardFromAll(proc, coords, deviation, i + 2);
      if KeepsForwardFrom(proc, coords, deviation, i) {
        forall j | i - 1 <= j < |coords| - 1 && (j - i + 1) % 2 == 0
          ensures KeepsMiddle(proc, coords, deviation, j)
        {
          if j != i - 1 {
            assert (j - (i + 2) + 1) % 2 == 0;
          }
        }
      }
      if forall j {:trigger KeepsMiddle(proc, coords, deviation, j)} :: i - 1 <= j < |coords| - 1 && (j - i + 1) % 2 == 0 ==> KeepsMiddle(proc, coords, deviation, j) {
        assert KeepsMiddle(proc, coords, deviation, i - 1);
        forall j | i + 1 <= j < |coords| - 1 && (j - (i + 2) + 1) % 2 == 0
          ensures KeepsMiddle(proc, coords, deviation, j)
        {
          assert (j - i + 1) % 2 == 0;
        }
      }
    }
  }

  /** What the forward pass appends for a well-formed result: the middle and last
      points when the middle is kept, else the last point. */
  lemma AfterFirstOfTriplet(proc: Processor, a: Point, b: Point, c: Point, d: real)
    requires WellFormed(proc)
    ensures proc(a, b, c, d) == [a, b, c] ==> AfterFirst(proc(a, b, c, d)) == [b, c]
    ensures proc(a, b, c, d) != [a, b, c] ==> AfterFirst(proc(a, b, c, d)) == [c]
  {
    var r := proc(a, b, c, d);
    assert r == [a, c] || r == [a, b, c];
    assert [a, c][1..] == [c] && [a, b, c][1..] == [b, c];
  }

  lemma {:induction false} ForwardRestSubseq(coords: seq<Point>, deviation: real, proc: Processor, i: nat)
    requires WellFormed(proc)
    requires 2 <= i <= |coords| + 1
    ensures IsSubseq(ForwardRest(coords, deviation, proc, i), coords[i - 1..])
    ensures i <= |coords| ==> ForwardRest(coords, deviation, proc, i) != []
    ensures i <= |coords| ==> ForwardRest(coords, deviation, proc, i)[|ForwardRest(coords, deviation, proc, i)| - 1] == coords[|coords| - 1]
    decreases |coords| + 1 - i
  {
    if i < |coords| {
      ForwardRestSubseq(coords, deviation, proc, i + 2);
      ForwardSubseqStep(coords, deviation, proc, i);
      ForwardLastStep(coords, deviation, proc, i);
    } else if i == |coords| {
      assert coords[i - 1..] == [coords[i - 1]];
      SubseqRefl(ForwardRest(coords, deviation, proc, i));
    }
  }

  /** The step of `ForwardRestSubseq`: one triplet in front of a pass that keeps a
      subsequence keeps a subsequence. */
  lemma ForwardSubseqStep(coords: seq<Point>, deviation: real, proc: Processor, i: nat)
    requires WellFormed(proc)
    requires 2 <= i < |coords|
    requires IsSubseq(ForwardRest(coords, deviation, proc, i + 2), coords[i + 1..])
    ensures IsSubseq(ForwardRest(coords, deviation, proc, i), coords[i - 1..])
  {
    var r := proc(coords[i - 2], coords[i - 1], coords[i], deviation);
    var tail := ForwardRest(coords, deviation, proc, i + 2);
    assert ForwardRest(coords, deviation, proc, i) == AfterFirst(r) + tail;
    AfterFirstOfTriplet(proc, coords[i - 2], coords[i - 1], coords[i], deviation);
    var pair := [coords[i - 1], coords[i]];
    SuffixSplit(coords, i - 1);
    if AfterFirst(r) == pair {
      SubseqRefl(pair);
    } else {
      SubseqOfPair(coords[i], coords[i - 1]);
    }
    SubseqConcat(AfterFirst(r), pair, tail, coords[i + 1..]);
  }

  /** The other half of the step: the pass still ends with the last point. */
  lemma ForwardLastStep(coords: seq<Point>, deviation: real, proc: Processor, i: nat)
    requires WellFormed(proc)
    requires 2 <= i < |coords|
    requires i + 2 <= |coords| ==>
      (ForwardRest(coords, deviation, proc, i + 2) != []
       && ForwardRest(coords, deviation, proc, i + 2)[|ForwardRest(coords, deviation, proc, i + 2)| - 1] == coords[|coords| - 1])
    ensures ForwardRest(coords, deviation, proc, i) != []
    ensures ForwardRest(coords, deviation, proc, i)[|ForwardRest(coords, deviation, proc, i)| - 1] == coords[|coords| - 1]
  {
    var rest := ForwardRest(coords, deviation, proc, i);
    var r := proc(coords[i - 2], coords[i - 1], coords[i], deviation);
    var tail := ForwardRest(coords, deviation, proc, i + 2);
    assert rest == AfterFirst(r) + tail;
    AfterFirstOfTriplet(proc, coords[i - 2], coords[i - 1], coords[i], deviation);
    if i + 2 > |coords| {
      assert tail == [] && rest == AfterFirst(r);
    } else {
      assert rest[|rest| - 1] == tail[|tail| - 1];
    }
  }

  /** One step of the forward pass is the identity on its suffix exactly when it keeps
      the middle point and the rest of the pass is the identity. */
  lemma ForwardRestStep(coords: seq<Point>, deviation: real, proc: Processor, i: nat)
    requires WellFormed(proc)
    requires 2 <= i < |coords|
    ensures ForwardRest(coords, deviation, proc, i) == coords[i - 1..] <==>
      KeepsMiddle(proc, coords, deviation, i - 1) && ForwardRest(coords, deviation, proc, i + 2) == coords[i + 1..]
  {
    var rest := ForwardRest(coords, deviation, proc, i);
    var r := proc(coords[i - 2], coords[i - 1], coords[i], deviation);
    var tail := ForwardRest(coords, deviation, proc, i + 2);
    assert rest == AfterFirst(r) + tail;
    AfterFirstOfTriplet(proc, coords[i - 2], coords[i - 1], coords[i], deviation);
    var pair := [coords[i - 1], coords[i]];
    var after := coords[i + 1..];
    SuffixSplit(coords, i - 1);
    if KeepsMiddle(proc, coords, deviation, i - 1) {
      assert rest == pair + tail;
      if rest == pair + after {
        assert tail == rest[2..] == after;
      }
    } else {
      ForwardRestSubseq(coords, deviation, proc, i + 2);
      SubseqLength(tail, after);
      assert |rest| < |coords[i - 1..]|;
    }
  }

  /** At the end the forward pass copies what is left and tests nothing. */
  lemma ForwardRestEnd(coords: seq<Point>, deviation: real, proc: Processor, i: nat)
    requires 2 <= i && |coords| <= i <= |coords| + 1
    ensures ForwardRest(coords, deviation, proc, i) == coords[i - 1..]
    ensures KeepsForwardFrom(proc, coords, deviation, i)
  {
    if i == |coords| {
      assert coords[i - 1..] == [coords[i - 1]];
    }
  }

  lemma {:induction false} ForwardRestIdentity(coords: seq<Point>, deviation: real, proc: Processor, i: nat)
    requires WellFormed(proc)
    requires 2 <= i <= |coords| + 1
    ensures ForwardRest(coords, deviation, proc, i) == coords[i - 1..] <==> KeepsForwardFrom(proc, coords, deviation, i)
    decreases |coords| + 1 - i
  {
    if i < |coords| {
      ForwardRestIdentity(coords, deviation, proc, i + 2);
      ForwardRestStep(coords, deviation, proc, i);
      assert KeepsForwardFrom(proc, coords, deviation, i) <==>
        KeepsMiddle(proc, coords, deviation, i - 1) && KeepsForwardFrom(proc, coords, deviation, i + 2);
    } else {
      ForwardRestEnd(coords, deviation, proc, i);
    }
  }

  /** The forward pass starts with the first point, ends with the last, keeps an
      in-order subsequence and is the identity exactly when every tested middle point
      (the odd indices) is kept. */
  lemma ForwardPassShape(coords: seq<Point>, deviation: real, proc: Processor)
    requires WellFormed(proc)
    requires |coords| >= 1
    ensures var r := ForwardPass(coords, deviation, proc);
      && |r| >= 1
      && r[0] == coords[0]
      && r[|r| - 1] == coords[|coords| - 1]
      && IsSubseq(r, coords)
      && (r == coords <==> forall j {:trigger KeepsMiddle(proc, coords, deviation, j)} :: 1 <= j < |coords| - 1 && j % 2 == 1 ==> KeepsMiddle(proc, coords, deviation, j))
  {
    var rest := ForwardRest(coords, deviation, proc, 2);
    ForwardRestSubseq(coords, deviation, proc, 2);
    ForwardRestIdentity(coords, deviation, proc, 2);
    SubseqRefl([coords[0]]);
    SubseqConcat([coords[0]], [coords[0]], rest, coords[1..]);
    assert coords == [coords[0]] + coords[1..];
    assert ForwardPass(coords, deviation, proc) == coords <==> rest == coords[1..];
    OddIndicesForward(proc, coords, deviation);
  }

  lemma OddIndicesForward(proc: Processor, coords: seq<Point>, deviation: real)
    ensures KeepsForwardFrom(proc, coords, deviation, 2) <==>
      forall j {:trigger KeepsMiddle(proc, coords, deviation, j)} :: 1 <= j < |coords| - 1 && j % 2 == 1 ==> KeepsMiddle(proc, coords, deviation, j)
  {
    KeepsForwardFromAll(proc, coords, deviation, 2);
    forall j
      ensures (1 <= j < |coords| - 1 && (j - 2 + 1) % 2 == 0) <==> (1 <= j < |coords| - 1 && j % 2 == 1)
    {
    }
  }

  /** Every middle point the backward pass tests from loop index `i` down is kept. */
  ghost predicate KeepsBackwardFrom(proc: Processor, coords: seq<Point>, deviation: real, i: int)
    requires -2 <= i <= |coords| - 3
    decreases i + 2
  {
    i >= 0 ==> KeepsMiddle(proc, coords, deviation, i + 1) && KeepsBackwardFrom(proc, coords, deviation, i - 2)
  }

  /** The middle points tested from `i` down are those at `i + 1`, `i - 1`, `i - 3`, ... */
  lemma {:induction false} KeepsBackwardFromAll(proc: Processor, coords: seq<Point>, deviation: real, i: int)
    requires -2 <= i <= |coords| - 3
    ensures KeepsBackwardFrom(proc, coords, deviation, i) <==>
      forall j {:trigger KeepsMiddle(proc, coords, deviation, j)} :: 1 <= j <= i + 1 && (i + 1 - j) % 2 == 0 ==> KeepsMiddle(proc, coords, deviation, j)
    decreases i + 2
  {
    if i >= 0 {
      KeepsBackwardFromAll(proc, coords, deviation, i - 2);
      if KeepsBackwardFrom(proc, coords, deviation, i) {
        forall j | 1 <= j <= i + 1 && (i + 1 - j) % 2 == 0
          ensures KeepsMiddle(proc, coords, deviation, j)
        {
          if j != i + 1 {
            assert (i - 2 + 1 - j) % 2 == 0;
          }
        }
      }
      if forall j {:trigger KeepsMiddle(proc, coords, deviation, j)} :: 1 <= j <= i + 1 && (i + 1 - j) % 2 == 0 ==> KeepsMiddle(proc, coords, deviation, j) {
        assert KeepsMiddle(proc, coords, deviation, i + 1);
        forall j | 1 <= j <= i - 1 && (i - 2 + 1 - j) % 2 == 0
          ensures KeepsMiddle(proc, coords, deviation, j)
        {
          assert (i + 1 - j) % 2 == 0;
        }
      }
    }
  }

  lemma {:induction false} BackwardRestSubseq(coords: seq<Point>, deviation: real, proc: Processor, i: int)
    requires WellFormed(proc)
    requires -2 <= i <= |coords| - 3
    ensures IsSubseq(BackwardRest(coords, deviation, proc, i), coords[..i + 2])
    ensures i >= -1 ==> BackwardRest(coords, deviation, proc, i) != [] && BackwardRest(coords, deviation, proc, i)[0] == coords[0]
    decreases i + 2
  {
    if i >= 0 {
      BackwardRestSubseq(coords, deviation, proc, i - 2);
      BackwardSubseqStep(coords, deviation, proc, i);
      BackwardFirstStep(coords, deviation, proc, i);
    } else if i == -1 {
      assert coords[..i + 2] == [coords[0]];
      SubseqRefl(BackwardRest(coords, deviation, proc, i));
    }
  }

  /** What the backward pass puts in front for a well-formed result: the first and
      middle points when the middle is kept, else the first point. */
  lemma FirstOfWellFormed(proc: Processor, a: Point, b: Point, c: Point, d: real)
    requires WellFormed(proc)
    ensures proc(a, b, c, d) == [a, b, c] ==> FirstOfTriplet(proc(a, b, c, d)) == [a, b]
    ensures proc(a, b, c, d) != [a, b, c] ==> FirstOfTriplet(proc(a, b, c, d)) == [a]
  {
    var r := proc(a, b, c, d);
    assert r == [a, c] || r == [a, b, c];
  }

  /** The step of `BackwardRestSubseq`: one triplet after a pass that keeps a
      subsequence keeps a subsequence. */
  lemma BackwardSubseqStep(coords: seq<Point>, deviation: real, proc: Processor, i: int)
    requires WellFormed(proc)
    requires 0 <= i <= |coords| - 3
    requires IsSubseq(BackwardRest(coords, deviation, proc, i - 2), coords[..i])
    ensures IsSubseq(BackwardRest(coords, deviation, proc, i), coords[..i + 2])
  {
    var r := proc(coords[i], coords[i + 1], coords[i + 2], deviation);
    var front := BackwardRest(coords, deviation, proc, i - 2);
    assert BackwardRest(coords, deviation, proc, i) == front + FirstOfTriplet(r);
    FirstOfWellFormed(proc, coords[i], coords[i + 1], coords[i + 2], deviation);
    var pair := [coords[i], coords[i + 1]];
    assert coords[..i + 2] == coords[..i] + pair;
    if FirstOfTriplet(r) == pair {
      SubseqRefl(pair);
    } else {
      assert IsSubseq([coords[i]], pair) by {
        assert pair[1..] == [coords[i + 1]];
        assert [coords[i]][1..] == [];
      }
    }
    SubseqConcat(front, coords[..i], FirstOfTriplet(r), pair);
  }

  /** The other half of the step: the pass still starts with the first point. */
  lemma BackwardFirstStep(coords: seq<Point>, deviation: real, proc: Processor, i: int)
    requires WellFormed(proc)
    requires 0 <= i <= |coords| - 3
    requires i - 2 >= -1 ==>
      (BackwardRest(coords, deviation, proc, i - 2) != [] && BackwardRest(coords, deviation, proc, i - 2)[0] == coords[0])
    ensures BackwardRest(coords, deviation, proc, i) != [] && BackwardRest(coords, deviation, proc, i)[0] == coords[0]
  {
    var rest := BackwardRest(coords, deviation, proc, i);
    var r := proc(coords[i], coords[i + 1], coords[i + 2], deviation);
    var front := BackwardRest(coords, deviation, proc, i - 2);
    assert rest == front + FirstOfTriplet(r);
    FirstOfWellFormed(proc, coords[i], coords[i + 1], coords[i + 2], deviation);
    if i - 2 < -1 {
      assert front == [] && rest == FirstOfTriplet(r);
    } else {
      assert rest[0] == front[0];
    }
  }

  /** One step of the backward pass is the identity on its prefix exactly when it keeps
      the middle point and the rest of the pass is the identity. */
  lemma BackwardRestStep(coords: seq<Point>, deviation: real, proc: Processor, i: int)
    requires WellFormed(proc)
    requires 0 <= i <= |coords| - 3
    ensures BackwardRest(coords, deviation, proc, i) == coords[..i + 2] <==>
      KeepsMiddle(proc, coords, deviation, i + 1) && BackwardRest(coords, deviation, proc, i - 2) == coords[..i]
  {
    var rest := BackwardRest(coords, deviation, proc, i);
    var r := proc(coords[i], coords[i + 1], coords[i + 2], deviation);
    var front := BackwardRest(coords, deviation, proc, i - 2);
    assert rest == front + FirstOfTriplet(r);
    FirstOfWellFormed(proc, coords[i], coords[i + 1], coords[i + 2], deviation);
    var pair := [coords[i], coords[i + 1]];
    var before := coords[..i];
    assert coords[..i + 2] == before + pair;
    if KeepsMiddle(proc, coords, deviation, i + 1) {
      assert rest == front + pair;
      if rest == before + pair {
        assert front == rest[..|rest| - 2] == before;
      }
    } else {
      BackwardRestSubseq(coords, deviation, proc, i - 2);
      SubseqLength(front, before);
      assert |rest| < |coords[..i + 2]|;
    }
  }

  /** At the start the backward pass copies what is left and tests nothing. */
  lemma BackwardRestEnd(coords: seq<Point>, deviation: real, proc: Processor, i: int)
    requires NonEmptyResults(proc)
    requires -2 <= i < 0 && i <= |coords| - 3
    ensures BackwardRest(coords, deviation, proc, i) == coords[..i + 2]
    ensures KeepsBackwardFrom(proc, coords, deviation, i)
  {
    if i == -1 {
      assert coords[..i + 2] == [coords[0]];
    }
  }

  lemma {:induction false} BackwardRestIdentity(coords: seq<Point>, deviation: real, proc: Processor, i: int)
    requires WellFormed(proc)
    requires -2 <= i <= |coords| - 3
    ensures BackwardRest(coords, deviation, proc, i) == coords[..i + 2] <==> KeepsBackwardFrom(proc, coords, deviation, i)
    decreases i + 2
  {
    if i >= 0 {
      BackwardRestIdentity(coords, deviation, proc, i - 2);
      BackwardRestStep(coords, deviation, proc, i);
      assert KeepsBackwardFrom(proc, coords, deviation, i) <==>
        KeepsMiddle(proc, coords, deviation, i + 1) && KeepsBackwardFrom(proc, coords, deviation, i - 2);
    } else {
      BackwardRestEnd(coords, deviation, proc, i);
    }
  }

  /** The backward pass starts with the first point, ends with the last, keeps an
      in-order subsequence and is the identity exactly when every tested middle point
      (those an even number of places before the end) is kept. */
  lemma BackwardPassShape(coords: seq<Point>, deviation: real, proc: Processor)
    requires WellFormed(proc)
    requires |coords| >= 1
    ensures var r := BackwardPass(coords, deviation, proc);
      && |r| >= 1
      && r[0] == coords[0]
      && r[|r| - 1] == coords[|coords| - 1]
      && IsSubseq(r, coords)
      && (r == coords <==> forall j {:trigger KeepsMiddle(proc, coords, deviation, j)} :: 1 <= j < |coords| - 1 && (|coords| - j) % 2 == 0 ==> KeepsMiddle(proc, coords, deviation, j))
  {
    var n := |coords|;
    var front := BackwardRest(coords, deviation, proc, n - 3);
    BackwardRestSubseq(coords, deviation, proc, n - 3);
    SubseqRefl([coords[n - 1]]);
    SubseqConcat(front, coords[..n - 1], [coords[n - 1]], [coords[n - 1]]);
    assert coords == coords[..n - 1] + [coords[n - 1]];
    BackwardPassIdentity(coords, deviation, proc);
  }

  /** The identity half of `BackwardPassShape`. */
  lemma BackwardPassIdentity(coords: seq<Point>, deviation: real, proc: Processor)
    requires WellFormed(proc)
    requires |coords| >= 1
    ensures BackwardPass(coords, deviation, proc) == coords <==>
      forall j {:trigger KeepsMiddle(proc, coords, deviation, j)} :: 1 <= j < |coords| - 1 && (|coords| - j) % 2 == 0 ==> KeepsMiddle(proc, coords, deviation, j)
  {
    var n := |coords|;
    var front := BackwardRest(coords, deviation, proc, n - 3);
    BackwardRestIdentity(coords, deviation, proc, n - 3);
    assert coords == coords[..n - 1] + [coords[n - 1]];
    assert BackwardPass(coords, deviation, proc) == coords <==> front == coords[..n - 1];
    EvenDistanceBackward(proc, coords, deviation);
  }

  lemma EvenDistanceBackward(proc: Processor, coords: seq<Point>, deviation: real)
    requires |coords| >= 1
    ensures KeepsBackwardFrom(proc, coords, deviation, |coords| - 3) <==>
      forall j {:trigger KeepsMiddle(proc, coords, deviation, j)} :: 1 <= j < |coords| - 1 && (|coords| - j) % 2 == 0 ==> KeepsMiddle(proc, coords, deviation, j)
  {
    var n := |coords|;
    KeepsBackwardFromAll(proc, coords, deviation, n - 3);
    if KeepsBackwardFrom(proc, coords, deviation, n - 3) {
      forall j | 1 <= j < n - 1 && (n - j) % 2 == 0
        ensures KeepsMiddle(proc, coords, deviation, j)
      {
        assert (n - 3 + 1 - j) % 2 == 0;
      }
    }
    if forall j {:trigger KeepsMiddle(proc, coords, deviation, j)} :: 1 <= j < n - 1 && (n - j) % 2 == 0 ==> KeepsMiddle(proc, coords, deviation, j) {
      forall j | 1 <= j <= n - 3 + 1 && (n - 3 + 1 - j) % 2 == 0
        ensures KeepsMiddle(proc, coords, deviation, j)
      {
        assert (n - j) % 2 == 0;
      }
    }
  }

  function Midpoint(p0: Point, p1: Point): Point {
    Point((p0.lon + p1.lon) * 0.5, (p0.lat + p1.lat) * 0.5)
  }

  /** Default tolerance of the way simplification cache, in metres. */
  const SCARCE_DEVIATION: real := 300.0

  /** Simplification to a fixed point. The source also runs the forward pass here but
      overwrites its result before use, so only the backward pass counts. */
  function ScarceWay(m: Numerics, coords: seq<Point>, deviation: real): (r: seq<Point>)
    requires |coords| >= 1
    ensures 1 <= |r| <= |coords|
    decreases |coords|
  {
    if |coords| < 2 then coords
    else if |coords| == 2 then
      (if PointDistance(m, coords[0], coords[1]) <= deviation then [Midpoint(coords[0], coords[1])] else coords)
    else
      MiddlemanWellFormed(m);
      var scarce := BackwardPass(coords, deviation, Middleman(m));
      BackwardPassShape(coords, deviation, Middleman(m));
      SubseqLength(scarce, coords);
      if |scarce| < |coords| then ScarceWay(m, scarce, deviation) else scarce
  }

  lemma ScarceWayShortInputs(m: Numerics, coords: seq<Point>, deviation: real)
    requires 1 <= |coords| <= 2
    ensures |coords| == 1 ==> ScarceWay(m, coords, deviation) == coords
    ensures |coords| == 2 ==>
      (|ScarceWay(m, coords, deviation)| == 1 <==> PointDistance(m, coords[0], coords[1]) <= deviation)
    ensures |coords| == 2 && PointDistance(m, coords[0], coords[1]) <= deviation ==>
      ScarceWay(m, coords, deviation) == [Midpoint(coords[0], coords[1])]
    ensures |coords| == 2 && PointDistance(m, coords[0], coords[1]) > deviation ==>
      ScarceWay(m, coords, deviation) == coords
  {
  }

  /** For three or more points: recursion on the backward pass while it shrinks, and the
      input itself once the pass removes nothing. */
  lemma ScarceWayLongInputs(m: Numerics, coords: seq<Point>, deviation: real)
    requires |coords| >= 3
    ensures (MiddlemanWellFormed(m); var scarce := BackwardPass(coords, deviation, Middleman(m));
      && (|scarce| < |coords| ==> ScarceWay(m, coords, deviation) == ScarceWay(m, scarce, deviation))
      && (|scarce| >= |coords| ==> ScarceWay(m, coords, deviation) == coords))
  {
    MiddlemanWellFormed(m);
    var scarce := BackwardPass(coords, deviation, Middleman(m));
    BackwardPassShape(coords, deviation, Middleman(m));
    SubseqLength(scarce, coords);
    if |scarce| >= |coords| {
      SubseqSameLength(scarce, coords);
    }
  }

  /** `r` is an in-order subsequence of `coords` with the same first and last point,
      unless it is a single point. */
  predicate KeepsEnds(r: seq<Point>, coords: seq<Point>)
    requires |coords| >= 1
  {
    |r| >= 2 ==> IsSubseq(r, coords) && r[0] == coords[0] && r[|r| - 1] == coords[|coords| - 1]
  }

  /** Unless the way collapsed to a single point, the simplified way is an in-order
      subsequence of the input with the same first and last point. */
  lemma {:induction false} ScarceWayKeepsEnds(m: Numerics, coords: seq<Point>, deviation: real)
    requires |coords| >= 1
    ensures KeepsEnds(ScarceWay(m, coords, deviation), coords)
    decreases |coords|
  {
    if |coords| <= 2 {
      ScarceWayShortInputs(m, coords, deviation);
      SubseqRefl(coords);
    } else {
      MiddlemanWellFormed(m);
      var scarce := BackwardPass(coords, deviation, Middleman(m));
      BackwardPassShape(coords, deviation, Middleman(m));
      if |scarce| < |coords| {
        ScarceWayKeepsEnds(m, scarce, deviation);
      }
      ScarceWayEndsStep(m, coords, deviation);
    }
  }

  /** The step of `ScarceWayKeepsEnds` for three or more points. */
  lemma ScarceWayEndsStep(m: Numerics, coords: seq<Point>, deviation: real)
    requires |coords| >= 3
    requires (MiddlemanWellFormed(m); var scarce := BackwardPass(coords, deviation, Middleman(m));
      && |scarce| >= 1 && KeepsEnds(scarce, coords)
      && (|scarce| < |coords| ==> KeepsEnds(ScarceWay(m, scarce, deviation), scarce)))
    ensures KeepsEnds(ScarceWay(m, coords, deviation), coords)
  {
    MiddlemanWellFormed(m);
    var scarce := BackwardPass(coords, deviation, Middleman(m));
    var r := ScarceWay(m, coords, deviation);
    ScarceWayLongInputs(m, coords, deviation);
    if |scarce| < |coords| {
      if |r| >= 2 {
        SubseqTrans(r, scarce, coords);
      }
    } else {
      SubseqRefl(coords);
    }
  }

  /** `scarceWay` with its entry check: an empty way fails the assertion. The recursive
      calls never do, because every pass keeps at least one point. */
  function ScarceWayChecked(m: Numerics, coords: seq<Point>, deviation: real): (r: Result<seq<Point>, JsError>)
    ensures r.Failure? <==> |coords| == 0
    ensures r.Failure? ==> r.error == AssertionError
    ensures r.Success? ==> r.value == ScarceWay(m, coords, deviation)
    ensures r.Success? ==> 1 <= |r.value| <= |coords| && KeepsEnds(r.value, coords)
  {
    if |coords| == 0 then Failure(AssertionError)
    else
      ScarceWayKeepsEnds(m, coords, deviation);
      Success(ScarceWay(m, coords, deviation))
  }

  /** Simplifying a simplified way changes nothing. */
  lemma {:induction false} ScarceWayIdempotent(m: Numerics, coords: seq<Point>, deviation: real)
    requires |coords| >= 1
    ensures ScarceWay(m, ScarceWay(m, coords, deviation), deviation) == ScarceWay(m, coords, deviation)
    decreases |coords|
  {
    var r := ScarceWay(m, coords, deviation);
    if |coords| == 2 {
      ScarceWayShortInputs(m, coords, deviation);
      if |r| == 1 {
        ScarceWayShortInputs(m, r, deviation);
      }
    } else if |coords| >= 3 {
      MiddlemanWellFormed(m);
      var scarce := BackwardPass(coords, deviation, Middleman(m));
      ScarceWayLongInputs(m, coords, deviation);
      if |scarce| < |coords| {
        ScarceWayIdempotent(m, scarce, deviation);
      }
    }
  }

  // ---------------------------------------------------------------------------
  // Point in polygon

  /** For each index `i`, whether `func` holds of the wrap-around pair `(i, i+1 mod n)`. */
  function PairHits(coords: seq<Point>, func: (Point, Point) -> bool): (hits: seq<bool>)
    ensures |hits| == |coords|
  {
    seq(|coords|, i requires 0 <= i < |coords| => func(coords[i], coords[Successor(i, |coords|)]))
  }

  /** The index after `i` in a ring of `n` entries, `(i + 1) % n`. */
  function Successor(i: nat, n: nat): (r: nat)
    requires i < n
    ensures r < n
    ensures r == if i + 1 < n then i + 1 else 0
  {
    if i + 1 < n then (ModBelow(i + 1, n); (i + 1) % n) else (ModSelf(n); (i + 1) % n)
  }

  method MapCoordinatePairs(coords: seq<Point>, func: (Point, Point) -> bool) returns (counter: nat)
    ensures counter == CountTrue(PairHits(coords, func))
    ensures counter <= |coords|
  {
    ghost var hits := PairHits(coords, func);
    counter := 0;
    var i := 0;
    while i < |coords|
      invariant 0 <= i <= |coords|
      invariant counter == CountTrue(hits[..i])
    {
      CountTrueSnoc(hits, i);
      assert (i + 1) % |coords| == Successor(i, |coords|);
      if func(coords[i], coords[(i + 1) % |coords|]) {
        counter := counter + 1;
      }
      i := i + 1;
    }
    assert hits[..i] == hits;
  }

  lemma ModBelow(a: int, n: int)
    requires 0 <= a < n
    ensures a % n == a
  {
  }

  lemma ModSelf(n: int)
    requires 0 < n
    ensures n % n == 0
  {
  }

  /** The pair outcome at `i` in terms of its two points. */
  lemma PairHitsAt(coords: seq<Point>, func: (Point, Point) -> bool, i: nat)
    requires i < |coords|
    ensures i + 1 < |coords| ==> PairHits(coords, func)[i] == func(coords[i], coords[i + 1])
    ensures i + 1 == |coords| ==> PairHits(coords, func)[i] == func(coords[i], coords[0])
  {
    var j := Successor(i, |coords|);
    assert PairHits(coords, func)[i] == func(coords[i], coords[j]);
  }

  lemma PairHitsRotateInner(coords: seq<Point>, func: (Point, Point) -> bool, k: nat)
    requires k < |coords| - 1
    ensures PairHits(coords[1..] + [coords[0]], func)[k] == PairHits(coords, func)[k + 1]
  {
    var rotated := coords[1..] + [coords[0]];
    PairHitsAt(rotated, func, k);
    PairHitsAt(coords, func, k + 1);
    assert rotated[k] == coords[k + 1];
    if k < |coords| - 2 {
      assert rotated[k + 1] == coords[k + 2];
    } else {
      assert rotated[0] == coords[1];
    }
  }

  lemma PairHitsRotateLast(coords: seq<Point>, func: (Point, Point) -> bool)
    requires |coords| >= 1
    ensures PairHits(coords[1..] + [coords[0]], func)[|coords| - 1] == PairHits(coords, func)[0]
  {
    var rotated := coords[1..] + [coords[0]];
    PairHitsAt(rotated, func, |coords| - 1);
    PairHitsAt(coords, func, 0);
    assert rotated[|coords| - 1] == coords[0];
    if |coords| > 1 {
      assert rotated[0] == coords[1];
    }
  }

  /** Rotating the coordinates by one rotates the pair outcomes by one. */
  lemma PairHitsRotate(coords: seq<Point>, func: (Point, Point) -> bool)
    requires |coords| >= 1
    ensures PairHits(coords[1..] + [coords[0]], func) == PairHits(coords, func)[1..] + [PairHits(coords, func)[0]]
  {
    var h := PairHits(coords, func);
    forall k | 0 <= k < |coords|
      ensures PairHits(coords[1..] + [coords[0]], func)[k] == (h[1..] + [h[0]])[k]
    {
      if k < |coords| - 1 {
        PairHitsRotateInner(coords, func, k);
      } else {
        PairHitsRotateLast(coords, func);
      }
    }
  }

  /** The source's edge test: the 45-degree ray from the probe, in the plane anchored at
      the probe, against the transformed edge. */
  function RayHits(m: Numerics, p: Point): (Point, Point) -> bool {
    (p1: Point, p2: Point) =>
      m.rayIntersects(XY(0.0, 0.0), XY(1.0, 1.0), TransformAt(p).GetXY(m, p1), TransformAt(p).GetXY(m, p2))
  }

  /** Odd number of edge hits over the wrap-around pairs of the ring without its first vertex. */
  predicate PointInPolygon(m: Numerics, poly: seq<Point>, p: Point) {
    CountTrue(PairHits(AfterFirst(poly), RayHits(m, p))) % 2 == 1
  }

  method IsPointInPolygon(m: Numerics, poly: seq<Point>, p: Point) returns (inside: bool)
    ensures inside == PointInPolygon(m, poly, p)
  {
    var count := MapCoordinatePairs(AfterFirst(poly), RayHits(m, p));
    inside := count % 2 == 1;
  }

  /** A closed ring `[v0, v1, ..., v0]` started one vertex later: `[v1, ..., v0, v1]`. */
  function RotateRing(poly: seq<Point>): (r: seq<Point>)
    requires |poly| >= 2
    ensures |r| == |poly|
  {
    poly[1..] + [poly[1]]
  }

  /** Starting a closed ring at another vertex does not change the containment answer. */
  lemma PointInPolygonRotate(m: Numerics, poly: seq<Point>, p: Point)
    requires |poly| >= 2 && poly[0] == poly[|poly| - 1]
    ensures RotateRing(poly)[0] == RotateRing(poly)[|poly| - 1]
    ensures PointInPolygon(m, RotateRing(poly), p) == PointInPolygon(m, poly, p)
  {
    var s := poly[1..];
    assert AfterFirst(RotateRing(poly)) == s[1..] + [s[0]];
    PairHitsRotate(s, RayHits(m, p));
    CountTrueRotate(PairHits(s, RayHits(m, p)));
  }
}
