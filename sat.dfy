/**
 * What the separating-axis tests compute, as functions of their inputs:
 * projection ranges, the separation test on one axis, the bookkeeping of a
 * detailed test, the scan over a polygon's edges against a circle, and the
 * circle-circle and point-in-circle tests.
 */
module Sat {
  import opened Geometry
  import opened Shapes

  function Abs(r: real): real { if r < 0.0 then -r else r }

  /** Projection range [lo, hi] of a vertex set on an axis. */
  datatype Range = Range(lo: real, hi: real)

  /**
   * The running minimum and maximum of the projections, started at
   * Number.MAX_VALUE and -Number.MAX_VALUE.
   */
  function Flatten(points: seq<Vec>, axis: Vec): Range
  {
    if points == [] then Range(MaxValue, -MaxValue)
    else
      var r := Flatten(points[..|points| - 1], axis);
      var dot := Dot(points[|points| - 1], axis);
      Range(if dot < r.lo then dot else r.lo, if dot > r.hi then dot else r.hi)
  }

  /**
   * Every projection lies in the range; each bound is either its start value
   * or the projection of some vertex.
   */
  lemma {:induction false} FlattenBounds(points: seq<Vec>, axis: Vec)
    ensures var r := Flatten(points, axis);
      && r.lo <= MaxValue && -MaxValue <= r.hi
      && (forall k :: 0 <= k < |points| ==> r.lo <= Dot(points[k], axis) <= r.hi)
      && (r.lo == MaxValue || exists k :: 0 <= k < |points| && r.lo == Dot(points[k], axis))
      && (r.hi == -MaxValue || exists k :: 0 <= k < |points| && r.hi == Dot(points[k], axis))
  {
    if points != [] {
      var init := points[..|points| - 1];
      FlattenBounds(init, axis);
      var r, r0 := Flatten(points, axis), Flatten(init, axis);
      forall k | 0 <= k < |points| ensures r.lo <= Dot(points[k], axis) <= r.hi {
        if k < |points| - 1 {
          assert points[k] == init[k];
        }
      }
      if r.lo != MaxValue && r.lo == r0.lo {
        var k :| 0 <= k < |init| && r0.lo == Dot(init[k], axis);
        assert points[k] == init[k];
      }
      if r.hi != -MaxValue && r.hi == r0.hi {
        var k :| 0 <= k < |init| && r0.hi == Dot(init[k], axis);
        assert points[k] == init[k];
      }
    }
  }

  /**
   * For a non-empty vertex set whose projections are finite doubles, both
   * bounds are attained: they are the least and the greatest projection.
   */
  lemma FlattenAttained(points: seq<Vec>, axis: Vec)
    requires |points| > 0
    requires forall k :: 0 <= k < |points| ==> -MaxValue <= Dot(points[k], axis) <= MaxValue
    ensures exists k :: 0 <= k < |points| && Flatten(points, axis).lo == Dot(points[k], axis)
    ensures exists k :: 0 <= k < |points| && Flatten(points, axis).hi == Dot(points[k], axis)
  {
    FlattenBounds(points, axis);
    var r := Flatten(points, axis);
    if r.lo == MaxValue {
      assert r.lo <= Dot(points[0], axis) <= MaxValue;
    }
    if r.hi == -MaxValue {
      assert r.hi >= Dot(points[0], axis) >= -MaxValue;
    }
  }

  /** Two ranges are apart when one ends strictly before the other begins; touching ranges are not. */
  predicate Separated(ra: Range, rb: Range)
  {
    ra.lo > rb.hi || rb.lo > ra.hi
  }

  /** Two polygons as the tests see them: position and world-space vertices of each. */
  datatype Pair = Pair(aPos: Vec, aPoints: seq<Vec>, bPos: Vec, bPoints: seq<Vec>)
  {
    function Swap(): Pair { Pair(bPos, bPoints, aPos, aPoints) }

    /** A's range on the axis. */
    function RangeA(axis: Vec): Range { Flatten(aPoints, axis) }

    /** B's range on the axis, moved by the projection of B's position relative to A's. */
    function RangeB(axis: Vec): Range
    {
      var r := Flatten(bPoints, axis);
      var shift := Dot(Sub(bPos, aPos), axis);
      Range(r.lo + shift, r.hi + shift)
    }

    predicate SeparatesOn(axis: Vec) { Separated(RangeA(axis), RangeB(axis)) }
  }

  /** An axis separates A from B exactly when it separates B from A. */
  lemma SeparatesOnSymmetric(p: Pair, axis: Vec)
    ensures p.SeparatesOn(axis) == p.Swap().SeparatesOn(axis)
  {
    assert Dot(Sub(p.aPos, p.bPos), axis) == -Dot(Sub(p.bPos, p.aPos), axis);
  }

  /** Which shape a detailed result refers to. */
  datatype ShapeRef = NoShape | PolygonRef(polygon: Polygon) | CircleRef(circle: Circle)

  /** The value of a collision-details record. */
  datatype Details = Details(
    a: ShapeRef, b: ShapeRef,
    overlapN: Vec, overlapV: Vec, overlap: real,
    aInB: bool, bInA: bool)

  /** clear(): both containment flags true, the overlap at Number.MAX_VALUE; the rest kept. */
  function Cleared(d: Details): (r: Details)
    ensures r.aInB && r.bInA && r.overlap == MaxValue
    ensures r.a == d.a && r.b == d.b && r.overlapN == d.overlapN && r.overlapV == d.overlapV
  {
    d.(aInB := true, bInA := true, overlap := MaxValue)
  }

  /** The signed overlap of two intersecting ranges, and what it says about containment. */
  function AxisDetails(d: Details, ra: Range, rb: Range, axis: Vec): Details
  {
    var t: (real, bool, bool) :=
      if ra.lo < rb.lo then
        if ra.hi < rb.hi then (ra.hi - rb.lo, false, false)
        else
          var option1, option2 := ra.hi - rb.lo, rb.hi - ra.lo;
          (if option1 < option2 then option1 else -option2, false, d.bInA)
      else
        if ra.hi > rb.hi then (ra.lo - rb.hi, false, false)
        else
          var option1, option2 := ra.hi - rb.lo, rb.hi - ra.lo;
          (if option1 < option2 then option1 else -option2, d.aInB, false);
    var overlap := t.0;
    var d1 := d.(aInB := t.1, bInA := t.2);
    if Abs(overlap) < d.overlap then
      d1.(overlap := Abs(overlap), overlapN := if overlap < 0.0 then Neg(axis) else axis)
    else d1
  }

  /**
   * One axis's bookkeeping: the overlap never grows, is replaced only by a
   * strictly smaller magnitude (so on a tie the earlier axis stays), the
   * normal then becomes the axis or its reverse, and a containment flag can
   * only go from true to false.
   */
  lemma AxisDetailsMonotone(d: Details, ra: Range, rb: Range, axis: Vec)
    ensures var r := AxisDetails(d, ra, rb, axis);
      && r.overlap <= d.overlap
      && (r.aInB ==> d.aInB) && (r.bInA ==> d.bInA)
      && r.a == d.a && r.b == d.b && r.overlapV == d.overlapV
      && ((r.overlap == d.overlap && r.overlapN == d.overlapN)
          || (0.0 <= r.overlap < d.overlap && (r.overlapN == axis || r.overlapN == Neg(axis))))
  {
  }

  /** The bookkeeping of a run of axes, none of them separating, in order. */
  function Fold(p: Pair, d: Details, axes: seq<Vec>): Details
  {
    if axes == [] then d
    else
      var axis := axes[|axes| - 1];
      AxisDetails(Fold(p, d, axes[..|axes| - 1]), p.RangeA(axis), p.RangeB(axis), axis)
  }

  lemma {:induction false} FoldMonotone(p: Pair, d: Details, axes: seq<Vec>)
    ensures var r := Fold(p, d, axes);
      && r.overlap <= d.overlap
      && (r.aInB ==> d.aInB) && (r.bInA ==> d.bInA)
      && r.a == d.a && r.b == d.b && r.overlapV == d.overlapV
  {
    if axes != [] {
      var axis := axes[|axes| - 1];
      FoldMonotone(p, d, axes[..|axes| - 1]);
      AxisDetailsMonotone(Fold(p, d, axes[..|axes| - 1]), p.RangeA(axis), p.RangeB(axis), axis);
    }
  }

  /** On this axis A's range lies within B's. */
  predicate AInsideOn(p: Pair, axis: Vec)
  {
    p.RangeB(axis).lo <= p.RangeA(axis).lo && p.RangeA(axis).hi <= p.RangeB(axis).hi
  }

  /** On this axis B's range lies within A's, strictly past A's low end. */
  predicate BInsideOn(p: Pair, axis: Vec)
  {
    p.RangeA(axis).lo < p.RangeB(axis).lo && p.RangeB(axis).hi <= p.RangeA(axis).hi
  }

  /**
   * What the containment flags mean: after the bookkeeping of a run of axes,
   * aInB holds exactly when it held before and A's range lies within B's on
   * every axis of the run; bInA likewise, except that B must start strictly
   * after A (equal low ends count against B).
   */
  lemma {:induction false} FoldContainment(p: Pair, d: Details, axes: seq<Vec>)
    ensures Fold(p, d, axes).aInB <==> d.aInB && forall j :: 0 <= j < |axes| ==> AInsideOn(p, axes[j])
    ensures Fold(p, d, axes).bInA <==> d.bInA && forall j :: 0 <= j < |axes| ==> BInsideOn(p, axes[j])
  {
    if axes != [] {
      var init := axes[..|axes| - 1];
      FoldContainment(p, d, init);
      forall j | 0 <= j < |init| ensures init[j] == axes[j] { }
    }
  }

  /** After at least one axis, the two flags are never both true. */
  lemma FlagsExclusive(p: Pair, d: Details, axes: seq<Vec>)
    requires |axes| > 0
    ensures !(Fold(p, d, axes).aInB && Fold(p, d, axes).bInA)
  {
    FoldContainment(p, d, axes);
  }

  /** The position of the first separating axis, or the number of axes when none separates. */
  function FirstSeparating(p: Pair, axes: seq<Vec>): (k: nat)
    ensures k <= |axes|
    ensures forall j :: 0 <= j < k ==> !p.SeparatesOn(axes[j])
    ensures k < |axes| ==> p.SeparatesOn(axes[k])
  {
    if axes == [] then 0
    else if p.SeparatesOn(axes[0]) then 0
    else 1 + FirstSeparating(p, axes[1..])
  }

  /** One step of a scan: the axis at k either is the first separating one or is passed. */
  lemma ScanStep(p: Pair, axes: seq<Vec>, k: nat)
    requires k < |axes| && k <= FirstSeparating(p, axes)
    ensures p.SeparatesOn(axes[k]) ==> FirstSeparating(p, axes) == k
    ensures !p.SeparatesOn(axes[k]) ==> k + 1 <= FirstSeparating(p, axes)
  {
  }

  /** Folding one more axis is one more step of the bookkeeping. */
  lemma FoldSnoc(p: Pair, d: Details, axes: seq<Vec>, axis: Vec)
    ensures Fold(p, d, axes + [axis]) == AxisDetails(Fold(p, d, axes), p.RangeA(axis), p.RangeB(axis), axis)
  {
    assert (axes + [axis])[..|axes|] == axes;
  }

  /** The axes a polygon-polygon test tries: A's normals, then B's. */
  function TestAxes(aNormals: seq<Vec>, bNormals: seq<Vec>): seq<Vec>
  {
    aNormals + bNormals
  }

  /** The answer of the polygon-polygon test: no axis separates. */
  function PolygonsHit(p: Pair, axes: seq<Vec>): bool
  {
    FirstSeparating(p, axes) == |axes|
  }

  /**
   * The details record after the scan: the bookkeeping of every axis before
   * the first separating one, starting from a cleared record.
   */
  function PolygonsScan(p: Pair, d: Details, axes: seq<Vec>): Details
  {
    Fold(p, Cleared(d), axes[..FirstSeparating(p, axes)])
  }

  /** The polygons collide exactly when none of the tried axes separates them. */
  lemma PolygonsHitIff(p: Pair, axes: seq<Vec>)
    ensures PolygonsHit(p, axes) <==> forall axis :: axis in axes ==> !p.SeparatesOn(axis)
  {
    var k := FirstSeparating(p, axes);
    if k < |axes| {
      assert axes[k] in axes;
    } else {
      forall axis | axis in axes ensures !p.SeparatesOn(axis) {
        var j :| 0 <= j < |axes| && axes[j] == axis;
      }
    }
  }

  /** The answer does not depend on which polygon is A, though the axes are tried in another order. */
  lemma PolygonsHitSymmetric(p: Pair, aNormals: seq<Vec>, bNormals: seq<Vec>)
    ensures PolygonsHit(p, TestAxes(aNormals, bNormals)) == PolygonsHit(p.Swap(), TestAxes(bNormals, aNormals))
  {
    var axes, swapped := TestAxes(aNormals, bNormals), TestAxes(bNormals, aNormals);
    PolygonsHitIff(p, axes);
    PolygonsHitIff(p.Swap(), swapped);
    forall axis ensures axis in axes <==> axis in swapped {
    }
    forall axis ensures p.SeparatesOn(axis) == p.Swap().SeparatesOn(axis) {
      SeparatesOnSymmetric(p, axis);
    }
  }

  lemma {:induction false} FirstSeparatingPrefix(p: Pair, axes: seq<Vec>, rest: seq<Vec>)
    requires FirstSeparating(p, axes) < |axes|
    ensures FirstSeparating(p, axes + rest) == FirstSeparating(p, axes)
  {
    if !p.SeparatesOn(axes[0]) {
      assert (axes + rest)[1..] == axes[1..] + rest;
      FirstSeparatingPrefix(p, axes[1..], rest);
    }
  }

  /** When no axis of the first list separates, the search goes on into the second. */
  lemma {:induction false} FirstSeparatingAppend(p: Pair, axes: seq<Vec>, rest: seq<Vec>)
    requires FirstSeparating(p, axes) == |axes|
    ensures FirstSeparating(p, axes + rest) == |axes| + FirstSeparating(p, rest)
  {
    if axes == [] {
      assert axes + rest == rest;
    } else {
      assert (axes + rest)[0] == axes[0];
      assert (axes + rest)[1..] == axes[1..] + rest;
      FirstSeparatingAppend(p, axes[1..], rest);
    }
  }

  /** Folding two lists of axes in turn is folding their concatenation. */
  lemma {:induction false} FoldAppend(p: Pair, d: Details, axes: seq<Vec>, rest: seq<Vec>)
    ensures Fold(p, d, axes + rest) == Fold(p, Fold(p, d, axes), rest)
  {
    if rest == [] {
      assert axes + rest == axes;
    } else {
      assert (axes + rest)[..|axes + rest| - 1] == axes + rest[..|rest| - 1];
      FoldAppend(p, d, axes, rest[..|rest| - 1]);
    }
  }

  /** A cleared record that remembers only an overlap direction. */
  function Seed(n: Vec): (d: Details)
    ensures Cleared(d) == d && d.overlapN == n
  {
    Details(NoShape, NoShape, n, Zero, MaxValue, true, true)
  }

  /** The bookkeeping never reads the shape references or the overlap vector it starts with. */
  lemma {:induction false} FoldIgnoresShapes(p: Pair, d: Details, axes: seq<Vec>, a: ShapeRef, b: ShapeRef, v: Vec)
    ensures Fold(p, d.(a := a, b := b, overlapV := v), axes) == Fold(p, d, axes).(a := a, b := b, overlapV := v)
  {
    if axes != [] {
      var front, axis := axes[..|axes| - 1], axes[|axes| - 1];
      FoldIgnoresShapes(p, d, front, a, b, v);
      AxisIgnoresShapes(Fold(p, d, front), p.RangeA(axis), p.RangeB(axis), axis, a, b, v);
    }
  }

  /** One axis's bookkeeping passes the shape references and the overlap vector through. */
  lemma AxisIgnoresShapes(d: Details, ra: Range, rb: Range, axis: Vec, a: ShapeRef, b: ShapeRef, v: Vec)
    ensures AxisDetails(d.(a := a, b := b, overlapV := v), ra, rb, axis) == AxisDetails(d, ra, rb, axis).(a := a, b := b, overlapV := v)
  {
  }

  /**
   * What a scan leaves depends on the record it starts from only through
   * the overlap direction: clear() resets the rest, and the shape
   * references and overlap vector pass through untouched.
   */
  lemma PolygonsScanFromDirection(p: Pair, d: Details, axes: seq<Vec>)
    ensures PolygonsScan(p, d, axes) == PolygonsScan(p, Seed(d.overlapN), axes).(a := d.a, b := d.b, overlapV := d.overlapV)
  {
    assert Cleared(d) == Seed(d.overlapN).(a := d.a, b := d.b, overlapV := d.overlapV);
    FoldIgnoresShapes(p, Seed(d.overlapN), axes[..FirstSeparating(p, axes)], d.a, d.b, d.overlapV);
  }

  /** When one of A's normals separates, B's are never tried. */
  lemma PolygonsScanStopsInA(p: Pair, d: Details, aNormals: seq<Vec>, bNormals: seq<Vec>)
    requires FirstSeparating(p, aNormals) < |aNormals|
    ensures !PolygonsHit(p, aNormals + bNormals)
    ensures PolygonsScan(p, d, aNormals + bNormals) ==
              Fold(p, Cleared(d), aNormals[..FirstSeparating(p, aNormals)])
  {
    var k := FirstSeparating(p, aNormals);
    FirstSeparatingPrefix(p, aNormals, bNormals);
    assert (aNormals + bNormals)[..k] == aNormals[..k];
  }

  /** When none of A's normals separates, the scan goes on over B's from where A's left the record. */
  lemma PolygonsScanGoesOn(p: Pair, d: Details, aNormals: seq<Vec>, bNormals: seq<Vec>)
    requires FirstSeparating(p, aNormals) == |aNormals|
    ensures PolygonsHit(p, aNormals + bNormals) == (FirstSeparating(p, bNormals) == |bNormals|)
    ensures PolygonsScan(p, d, aNormals + bNormals) ==
              Fold(p, Fold(p, Cleared(d), aNormals), bNormals[..FirstSeparating(p, bNormals)])
  {
    var axes := aNormals + bNormals;
    var kb := FirstSeparating(p, bNormals);
    FirstSeparatingAppend(p, aNormals, bNormals);
    var prefix := bNormals[..kb];
    var k := |aNormals| + kb;
    assert FirstSeparating(p, axes) == k;
    assert PolygonsScan(p, d, axes) == Fold(p, Cleared(d), axes[..k]);
    assert axes[..k] == aNormals + prefix;
    FoldAppend(p, Cleared(d), aNormals, prefix);
  }

  /**
   * Short circuit: once an axis separates, the axes after it are never
   * looked at; replacing them changes neither the answer nor the record.
   */
  lemma ShortCircuit(p: Pair, d: Details, axes: seq<Vec>, rest: seq<Vec>)
    requires FirstSeparating(p, axes) < |axes|
    ensures !PolygonsHit(p, axes) && !PolygonsHit(p, axes + rest)
    ensures PolygonsScan(p, d, axes + rest) == PolygonsScan(p, d, axes)
  {
    var k := FirstSeparating(p, axes);
    FirstSeparatingPrefix(p, axes, rest);
    assert (axes + rest)[..k] == axes[..k];
  }

  /** The Voronoi region of a point relative to an edge: before its start, along it, past its end. */
  datatype Region = LeftRegion | MiddleRegion | RightRegion

  function VoronoiRegion(line: Vec, point: Vec): Region
  {
    var len2 := Len2(line);
    var dp := Dot(point, line);
    if dp < 0.0 then LeftRegion
    else if dp > len2 then RightRegion
    else MiddleRegion
  }

  /**
   * For an edge of non-zero length the middle region is where the point's
   * projection on the edge's line falls between the edge's ends.
   */
  lemma MiddleRegionOnSegment(line: Vec, point: Vec)
    requires Len2(line) > 0.0
    ensures VoronoiRegion(line, point) == MiddleRegion <==> 0.0 <= Dot(point, line) / Len2(line) <= 1.0
  {
    var dp, len2 := Dot(point, line), Len2(line);
    var t := dp / len2;
    assert dp == t * len2;
    assert t <= 1.0 <==> t * len2 <= len2;
    assert t >= 0.0 <==> t * len2 >= 0.0;
  }

  /**
   * A polygon against a circle: the polygon's world-space vertices and edges,
   * the circle's centre relative to the polygon's position, and its radius.
   */
  datatype Probe = Probe(points: seq<Vec>, edges: seq<Vec>, centre: Vec, radius: real)
  {
    predicate WellFormed() { |edges| == |points| }
  }

  /**
   * A record r improves on d: the overlap's magnitude is no larger, a
   * containment flag only goes from true to false, the rest is kept.
   */
  predicate Improves(r: Details, d: Details)
  {
    && Abs(r.overlap) <= Abs(d.overlap)
    && (r.aInB ==> d.aInB) && (r.bInA ==> d.bInA)
    && r.a == d.a && r.b == d.b && r.overlapV == d.overlapV
  }

  /**
   * What one edge contributes: the circle is proved apart, or the scan goes
   * on; either way with the record as the edge left it.
   */
  datatype Step = Apart(d: Details) | Going(d: Details)

  /** A candidate axis and overlap replace the record's only when strictly smaller in magnitude. */
  function Candidate(d: Details, n: Vec, overlap: real): (s: Step)
    ensures s.Going? && Improves(s.d, d)
    ensures s.d.overlap == overlap || s.d == d
    ensures Abs(overlap) >= Abs(d.overlap) ==> s.d == d
  {
    if Abs(overlap) < Abs(d.overlap) then Going(d.(overlap := overlap, overlapN := n)) else Going(d)
  }

  /** The circle centre seen from the far end of a vertex: the separating axis is vertex-to-centre. */
  function VertexStep(d: Details, toCentre: Vec, radius: real, detailed: bool, m: MathLib): (s: Step)
    ensures Improves(s.d, d)
    ensures s.Apart? <==> Len(toCentre, m) > radius
  {
    var dist := Len(toCentre, m);
    if dist > radius then Apart(d)
    else if detailed then Candidate(d.(bInA := false), Normalize(toCentre, m), radius - dist)
    else Going(d)
  }

  /** Edge i of the polygon against the circle. */
  function EdgeStep(c: Probe, i: nat, detailed: bool, d: Details, m: MathLib): (s: Step)
    requires c.WellFormed() && i < |c.points|
    ensures Improves(s.d, d)
  {
    var r := c.radius;
    var point := Sub(c.centre, c.points[i]);
    var d1 := if detailed && Len2(point) > r * r then d.(aInB := false) else d;
    match VoronoiRegion(c.edges[i], point)
    case LeftRegion => LeftStep(c, i, detailed, d1, m)
    case RightRegion => RightStep(c, i, detailed, d1, m)
    case MiddleRegion => MiddleStep(d1, c.edges[i], point, r, detailed, m)
  }

  /**
   * The circle centre before the start of edge i: when it is also past the
   * end of the previous edge, the nearest feature is the vertex they share.
   */
  function LeftStep(c: Probe, i: nat, detailed: bool, d: Details, m: MathLib): (s: Step)
    requires c.WellFormed() && i < |c.points|
    ensures Improves(s.d, d)
  {
    var prev := if i == 0 then |c.points| - 1 else i - 1;
    var point2 := Sub(c.centre, c.points[prev]);
    if VoronoiRegion(c.edges[prev], point2) == RightRegion then
      VertexStep(d, Sub(c.centre, c.points[i]), c.radius, detailed, m)
    else Going(d)
  }

  /**
   * The circle centre past the end of edge i: when it is also before the
   * start of the next edge, the nearest feature is the vertex they share.
   */
  function RightStep(c: Probe, i: nat, detailed: bool, d: Details, m: MathLib): (s: Step)
    requires c.WellFormed() && i < |c.points|
    ensures Improves(s.d, d)
  {
    var next := if i == |c.points| - 1 then 0 else i + 1;
    var pointNext := Sub(c.centre, c.points[next]);
    if VoronoiRegion(c.edges[next], pointNext) == LeftRegion then VertexStep(d, pointNext, c.radius, detailed, m)
    else Going(d)
  }

  /** The circle centre along the edge: the separating axis is the edge's unit normal. */
  function MiddleStep(d: Details, edge: Vec, point: Vec, radius: real, detailed: bool, m: MathLib): (s: Step)
    ensures Improves(s.d, d)
    ensures s.Apart? <==> Dot(point, Normalize(Perp(edge), m)) > 0.0 && Abs(Dot(point, Normalize(Perp(edge), m))) > radius
  {
    var normal := Normalize(Perp(edge), m);
    var dist := Dot(point, normal);
    if dist > 0.0 && Abs(dist) > radius then Apart(d)
    else if detailed then
      var overlap := radius - dist;
      Candidate(if dist >= 0.0 || overlap < 2.0 * radius then d.(bInA := false) else d, normal, overlap)
    else Going(d)
  }

  /** The scan over the first n edges, stopping at the first one that proves the shapes apart. */
  function CircleScan(c: Probe, n: nat, detailed: bool, d: Details, m: MathLib): (s: Step)
    requires c.WellFormed() && n <= |c.points|
    ensures Improves(s.d, d)
  {
    if n == 0 then Going(d)
    else
      match CircleScan(c, n - 1, detailed, d, m)
      case Apart(d') => Apart(d')
      case Going(d') => EdgeStep(c, n - 1, detailed, d', m)
  }

  /** Once an edge proves the shapes apart, no later edge is examined: answer and record stay. */
  lemma {:induction false} CircleScanApartStays(c: Probe, n: nat, n': nat, detailed: bool, d: Details, m: MathLib)
    requires c.WellFormed() && n <= n' <= |c.points|
    requires CircleScan(c, n, detailed, d, m).Apart?
    ensures CircleScan(c, n', detailed, d, m) == CircleScan(c, n, detailed, d, m)
    decreases n' - n
  {
    if n < n' {
      CircleScanApartStays(c, n, n' - 1, detailed, d, m);
    }
  }

  /** The detailed test gives the same yes/no answer as the plain one. */
  lemma {:induction false} CircleScanDetailAgnostic(c: Probe, n: nat, d: Details, d': Details, m: MathLib)
    requires c.WellFormed() && n <= |c.points|
    ensures CircleScan(c, n, true, d, m).Apart? == CircleScan(c, n, false, d', m).Apart?
  {
    if n > 0 {
      CircleScanDetailAgnostic(c, n - 1, d, d', m);
    }
  }

  lemma ImprovesTransitive(r: Details, s: Details, d: Details)
    requires Improves(r, s) && Improves(s, d)
    ensures Improves(r, d)
  {
  }

  /** The final record of a detailed test that found a collision. */
  function Concluded(d: Details, a: ShapeRef, b: ShapeRef): (r: Details)
    ensures r.overlapV == Scale(r.overlapN, r.overlap)
  {
    d.(a := a, b := b, overlapV := Scale(d.overlapN, d.overlap))
  }

  /** testCirclePolygon's view of a polygon-circle result: the shapes swapped, the vectors reversed. */
  function Mirror(d: Details): Details
  {
    d.(a := d.b, b := d.a, overlapN := Neg(d.overlapN), overlapV := Neg(d.overlapV),
       aInB := d.bInA, bInA := d.aInB)
  }

  /** Mirroring twice restores the record; it keeps the overlap and the overlap vector's relation. */
  lemma MirrorInvolutive(d: Details)
    ensures Mirror(Mirror(d)) == d
    ensures Mirror(d).overlap == d.overlap
    ensures d.overlapV == Scale(d.overlapN, d.overlap) ==>
              Mirror(d).overlapV == Scale(Mirror(d).overlapN, Mirror(d).overlap)
  {
  }

  /** The vector from A's centre to B's, in the order the source builds it. */
  function CentreOffset(a: Circle, b: Circle): (v: Vec)
    ensures v == Sub(b.Centre(), a.Centre())
  {
    Sub(Sub(Add(b.position, b.offset), a.position), a.offset)
  }

  /** Circles collide when the squared centre distance is at most the squared radius sum. */
  predicate CirclesHit(a: Circle, b: Circle)
  {
    var total := a.radius + b.radius;
    Len2(CentreOffset(a, b)) <= total * total
  }

  /** The detailed record of two colliding circles. */
  function CirclesDetails(d: Details, a: Circle, b: Circle, m: MathLib): Details
  {
    var diff := CentreOffset(a, b);
    var total := a.radius + b.radius;
    var dist := m.sqrt(Len2(diff));
    var n := Normalize(diff, m);
    var overlap := total - dist;
    Cleared(d).(a := CircleRef(a), b := CircleRef(b), overlap := overlap, overlapN := n,
                overlapV := Scale(n, overlap),
                aInB := a.radius <= b.radius && dist <= b.radius - a.radius,
                bInA := b.radius <= a.radius && dist <= a.radius - b.radius)
  }

  /** Whichever circle is A, the yes/no answer is the same. */
  lemma CirclesHitSymmetric(a: Circle, b: Circle)
    ensures CirclesHit(a, b) == CirclesHit(b, a)
  {
    var u := Sub(b.Centre(), a.Centre());
    assert Sub(a.Centre(), b.Centre()) == Neg(u);
    assert Len2(Neg(u)) == Len2(u);
  }

  /**
   * Given a true square root of the squared centre distance, the test is
   * "distance at most the sum of the radii".
   */
  lemma CirclesHitByDistance(a: Circle, b: Circle, dist: real)
    requires a.radius >= 0.0 && b.radius >= 0.0
    requires dist >= 0.0 && dist * dist == Len2(CentreOffset(a, b))
    ensures CirclesHit(a, b) <==> dist <= a.radius + b.radius
  {
    var total := a.radius + b.radius;
    if dist <= total {
      assert dist * dist <= total * dist <= total * total;
      assert CirclesHit(a, b);
    } else {
      var gap, sum := dist - total, dist + total;
      assert gap > 0.0 && sum > 0.0;
      assert gap * sum > 0.0;
      assert dist * dist - total * total == gap * sum;
      assert !CirclesHit(a, b);
    }
  }

  /**
   * Only a circle's radius can decide containment: A is reported inside B
   * and B inside A at once only for equal radii and coinciding centres
   * (as far as the square root tells).
   */
  lemma CirclesContainment(d: Details, a: Circle, b: Circle, m: MathLib)
    ensures var r := CirclesDetails(d, a, b, m);
      r.aInB && r.bInA ==> a.radius == b.radius && m.sqrt(Len2(CentreOffset(a, b))) <= 0.0
  {
  }

  /** pointInCircle: the squared distance from the centre is at most the squared radius. */
  predicate PointInCircle(p: Vec, c: Circle)
  {
    Len2(Sub(Sub(p, c.position), c.offset)) <= c.radius * c.radius
  }

  /** A point is in a circle exactly when a circle of radius zero at the point touches it. */
  lemma PointInCircleAsCircle(p: Vec, c: Circle)
    ensures PointInCircle(p, c) == CirclesHit(Circle(p, Zero, 0.0), c)
  {
    var u := Sub(Sub(p, c.position), c.offset);
    assert CentreOffset(Circle(p, Zero, 0.0), c) == Neg(u);
    assert Len2(Neg(u)) == Len2(u);
  }
}
