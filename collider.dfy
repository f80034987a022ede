/**
 * The collision engine object: one details record shared by every test, a
 * point-sized polygon for point-in-polygon queries, and two stacks of scratch
 * objects (ten vectors, five arrays) that each test pops and pushes back.
 * The arrays are given their two entries up front rather than on first use;
 * flattenPointsOn writes both before it reads either.  Each test is proved
 * against the functions of module Sat; the stacks are proved to come back
 * with the same objects they lent out.
 */
module Collision {
  import opened Geometry
  import opened Shapes
  import opened Sat

  const VectorSlots: nat := 10
  const ArraySlots: nat := 5

  /** Side of the tiny box that stands for a point in pointInPolygon. */
  const TestPointSize: real := 0.000001

  const TestCorners: seq<Vec> :=
    [Zero, Vec(TestPointSize, 0.0), Vec(TestPointSize, TestPointSize), Vec(0.0, TestPointSize)]

  /** No element occurs twice. */
  ghost predicate Unique<T>(s: seq<T>)
  {
    forall i, j :: 0 <= i < j < |s| ==> s[i] != s[j]
  }

  /** The top of a stack without twins does not occur again below it. */
  lemma PopUnique<T>(s: seq<T>)
    requires |s| > 0 && Unique(s)
    ensures Unique(s[..|s| - 1]) && s[|s| - 1] !in s[..|s| - 1]
  {
  }

  /** Pushing an element that is not on the stack keeps it without twins. */
  lemma PushUnique<T>(s: seq<T>, x: T)
    requires Unique(s) && x !in s
    ensures Unique(s + [x])
  {
  }

  /** The two top entries of a stack exchanged. */
  function SwapTop<T>(s: seq<T>): (r: seq<T>)
    requires |s| >= 2
    ensures |r| == |s| && multiset(r) == multiset(s)
    ensures Unique(s) ==> Unique(r)
  {
    assert s == s[..|s| - 2] + [s[|s| - 2]] + [s[|s| - 1]];
    s[..|s| - 2] + [s[|s| - 1], s[|s| - 2]]
  }

  /** Exchanging the two top entries twice restores the stack. */
  lemma SwapTopTwice<T>(s: seq<T>)
    requires |s| >= 2
    ensures SwapTop(SwapTop(s)) == s
  {
  }

  /** A stack without twins is one where every element is counted at most once. */
  lemma {:induction false} UniqueCounts<T>(s: seq<T>)
    ensures Unique(s) <==> forall x :: multiset(s)[x] <= 1
  {
    if s != [] {
      var t, y := s[..|s| - 1], s[|s| - 1];
      assert s == t + [y];
      UniqueCounts(t);
      assert multiset(s) == multiset(t) + multiset{y};
      if Unique(s) {
        assert Unique(t) && y !in t by {
          forall i, j | 0 <= i < j < |t| ensures t[i] != t[j] {
            assert t[i] == s[i] && t[j] == s[j];
          }
          forall i | 0 <= i < |t| ensures t[i] != y {
            assert t[i] == s[i];
          }
        }
      } else {
        var i, j :| 0 <= i < j < |s| && s[i] == s[j];
        if j < |t| {
          assert t[i] == t[j];
          var x :| multiset(t)[x] > 1;
          assert multiset(s)[x] > 1;
        } else {
          assert t[i] == y && y in multiset(t);
          assert multiset(s)[y] > 1;
        }
      }
    }
  }

  /** A rearranged stack without twins has none either. */
  lemma UniquePermutation<T>(s: seq<T>, t: seq<T>)
    requires Unique(s) && multiset(t) == multiset(s)
    ensures Unique(t)
  {
    UniqueCounts(s);
    UniqueCounts(t);
  }

  /** n fresh scratch vectors, all distinct. */
  method NewVectors(n: nat) returns (vs: seq<Vector>)
    ensures |vs| == n && Unique(vs)
    ensures forall v :: v in vs ==> fresh(v)
  {
    vs := [];
    while |vs| < n
      invariant |vs| <= n && Unique(vs)
      invariant forall v :: v in vs ==> fresh(v)
    {
      var v := new Vector(0.0, 0.0);
      vs := vs + [v];
    }
  }

  /** n fresh two-entry scratch arrays, all distinct. */
  method NewArrays(n: nat) returns (rs: seq<array<real>>)
    ensures |rs| == n && Unique(rs)
    ensures forall r :: r in rs ==> fresh(r) && r.Length == 2
  {
    rs := [];
    while |rs| < n
      invariant |rs| <= n && Unique(rs)
      invariant forall r :: r in rs ==> fresh(r) && r.Length == 2
    {
      var r := new real[2];
      rs := rs + [r];
    }
  }

  /** A stack that is another or the other with its top two exchanged has the same top two. */
  lemma SameTopTwo<T>(r: seq<T>, s: seq<T>)
    requires |s| >= 2 && (r == s || r == SwapTop(s))
    ensures |r| == |s|
    ensures r[|r| - 1] == s[|s| - 1] || r[|r| - 1] == s[|s| - 2]
    ensures r[|r| - 2] == s[|s| - 1] || r[|r| - 2] == s[|s| - 2]
    ensures s[|s| - 1] != s[|s| - 2] ==> r[|r| - 1] != r[|r| - 2]
  {
  }

  /** Exchanging the two top arrays keeps them distinct and two entries long. */
  lemma SwapTopKeepsRanges(s: seq<array<real>>)
    requires |s| >= 2 && Unique(s) && forall k :: 0 <= k < |s| ==> s[k].Length == 2
    ensures Unique(SwapTop(s)) && forall k :: 0 <= k < |SwapTop(s)| ==> SwapTop(s)[k].Length == 2
  {
  }

  /** What an edge of the polygon-circle test offers the record: nothing, or a candidate axis and overlap. */
  function Offer(d: Details, n: Vector?, overlap: real): Step
    reads n
  {
    if n == null then Going(d) else Candidate(d, n.Value(), overlap)
  }

  /** The polygon-polygon result: the scan, concluded when a detailed test finds a collision. */
  function PolygonsOutcome(p: Pair, d: Details, axes: seq<Vec>, a: Polygon, b: Polygon, detailed: bool): Details
  {
    var scan := PolygonsScan(p, d, axes);
    if detailed && PolygonsHit(p, axes) then Concluded(scan, PolygonRef(a), PolygonRef(b)) else scan
  }

  /** The polygon-circle result: the scan's record, concluded when a detailed test finds a collision. */
  function CircleOutcome(scan: Step, polygon: Polygon, circle: Circle, detailed: bool): Details
  {
    if detailed && scan.Going? then Concluded(scan.d, PolygonRef(polygon), CircleRef(circle)) else scan.d
  }

  function PairOf(a: Polygon, b: Polygon): Pair
    reads a, b, a.position, b.position
  {
    Pair(a.position.Value(), a.calcPoints, b.position.Value(), b.calcPoints)
  }

  function ProbeOf(polygon: Polygon, circle: Circle): Probe
    reads polygon, polygon.position
  {
    Probe(polygon.calcPoints, polygon.edges,
          Sub(Add(circle.position, circle.offset), polygon.position.Value()), circle.radius)
  }

  /** The four top entries of a stack without twins are distinct and not found below. */
  lemma TopFourDistinct<T>(s: seq<T>)
    requires |s| >= 4 && Unique(s)
    ensures s[|s| - 1] != s[|s| - 2] && s[|s| - 1] != s[|s| - 3] && s[|s| - 1] != s[|s| - 4]
    ensures s[|s| - 2] != s[|s| - 3] && s[|s| - 2] != s[|s| - 4] && s[|s| - 3] != s[|s| - 4]
  {
  }

  /**
   * The stack after testPolygonCircle, which found `low` below the vectors
   * d (the top), c, b, a it took: d, c, b go back as circlePos, edge, point
   * (top last); the fourth vector `a`, taken only in a left region, stays in
   * place unless the test ends there, when it goes back on top of them.
   */
  function Restack<T>(low: seq<T>, a: T, b: T, c: T, d: T, leftCase: bool): (r: seq<T>)
    ensures |r| == |low| + 4
  {
    if leftCase then low + [d, c, b, a] else low + [a, d, c, b]
  }

  /** Whichever path the test took, the stack holds the same entries as before. */
  lemma RestackPermutes<T>(low: seq<T>, a: T, b: T, c: T, d: T, leftCase: bool)
    ensures multiset(Restack(low, a, b, c, d, leftCase)) == multiset(low + [a, b, c, d])
  {
    if leftCase {
      ReversedFour(low, a, b, c, d);
    } else {
      TurnedFour(low, a, b, c, d);
    }
  }

  lemma ReversedFour<T>(low: seq<T>, a: T, b: T, c: T, d: T)
    ensures multiset(low + [d, c, b, a]) == multiset(low + [a, b, c, d])
  {
  }

  lemma TurnedFour<T>(low: seq<T>, a: T, b: T, c: T, d: T)
    ensures multiset(low + [a, d, c, b]) == multiset(low + [a, b, c, d])
  {
  }

  /** The record a detailed test fills in; every test shares one. */
  class CollisionDetails {
    var a: ShapeRef
    var b: ShapeRef
    const overlapN: Vector
    const overlapV: Vector
    var overlap: real
    var aInB: bool
    var bInA: bool

    constructor ()
      ensures fresh(overlapN) && fresh(overlapV) && overlapN != overlapV
      ensures Value() == Details(NoShape, NoShape, Zero, Zero, MaxValue, true, true)
    {
      a, b := NoShape, NoShape;
      overlapN := new Vector(0.0, 0.0);
      overlapV := new Vector(0.0, 0.0);
      overlap := MaxValue;
      aInB, bInA := true, true;
    }

    function Value(): Details
      reads this, overlapN, overlapV
    {
      Details(a, b, overlapN.Value(), overlapV.Value(), overlap, aInB, bInA)
    }

    /** clear(): flags back to true and the overlap back to its largest value. */
    method Clear()
      modifies this
      ensures Value() == Cleared(old(Value()))
    {
      aInB := true;
      bInA := true;
      overlap := MaxValue;
    }

    /** The end of a detailed test that found a collision: the shapes, and the overlap vector. */
    method Conclude(a: ShapeRef, b: ShapeRef)
      requires overlapN != overlapV
      modifies this, overlapV
      ensures Value() == Concluded(old(Value()), a, b)
    {
      this.a := a;
      this.b := b;
      overlapV.Copy(overlapN.Value());
      overlapV.ScaleInPlace(overlap);
    }
  }

  class Collider {
    var vectors: seq<Vector>
    var arrays: seq<array<real>>
    const details: CollisionDetails
    const testPoint: Polygon
    const math: MathLib

    /**
     * The scratch stacks hold no object twice and none that the details
     * record or the test point uses; every scratch array has two entries;
     * the test point is the tiny box at the origin.
     */
    ghost predicate Valid()
      reads this, testPoint
    {
      && details.overlapN != details.overlapV
      && Unique(vectors) && Unique(arrays)
      && details.overlapN !in vectors && details.overlapV !in vectors
      && testPoint.position !in vectors
      && testPoint.position != details.overlapN && testPoint.position != details.overlapV
      && (forall k :: 0 <= k < |arrays| ==> arrays[k].Length == 2)
      && testPoint.Valid() && testPoint.calcPoints == TestCorners
    }

    constructor (m: MathLib)
      ensures Valid() && math == m
      ensures |vectors| == VectorSlots && |arrays| == ArraySlots
      ensures fresh(details) && fresh(details.overlapN) && fresh(details.overlapV)
      ensures forall v :: v in vectors ==> fresh(v)
      ensures forall r :: r in arrays ==> fresh(r)
      ensures details.Value() == Details(NoShape, NoShape, Zero, Zero, MaxValue, true, true)
    {
      math := m;
      var d := new CollisionDetails();
      details := d;
      var tp := Box(Zero, TestPointSize, TestPointSize).ToPolygon(m);
      testPoint := tp;
      WorldPointsUnmoved(tp.PointValues(), m);
      var vs := NewVectors(VectorSlots);
      var rs := NewArrays(ArraySlots);
      vectors, arrays := vs, rs;
    }

    /** _flattenPointsOn: the least and the greatest projection, written into the two entries. */
    method FlattenPointsOn(points: seq<Vec>, normal: Vec, result: array<real>)
      requires result.Length == 2
      modifies result
      ensures result[0] == Flatten(points, normal).lo && result[1] == Flatten(points, normal).hi
    {
      var min, max := MaxValue, -MaxValue;
      var i := 0;
      while i < |points|
        invariant 0 <= i <= |points|
        invariant Range(min, max) == Flatten(points[..i], normal)
      {
        assert points[..i + 1][..i] == points[..i];
        var dot := Dot(points[i], normal);
        if dot < min {
          min := dot;
        }
        if dot > max {
          max := dot;
        }
        i := i + 1;
      }
      assert points[..|points|] == points;
      result[0] := min;
      result[1] := max;
    }

    /**
     * _isSeparatingAxis: whether the axis separates the two vertex sets and,
     * when it does not, the overlap bookkeeping on the shared record.  The
     * scratch vector comes back to its place; the two scratch arrays come
     * back exchanged.
     */
    method IsSeparatingAxis(p: Pair, axis: Vec) returns (separating: bool)
      requires Valid() && |vectors| >= 1 && |arrays| >= 2
      modifies this, details, details.overlapN
      modifies vectors[|vectors| - 1], arrays[|arrays| - 1], arrays[|arrays| - 2]
      ensures Valid() && vectors == old(vectors) && arrays == SwapTop(old(arrays))
      ensures separating == p.SeparatesOn(axis)
      ensures details.Value() ==
        if separating then old(details.Value())
        else AxisDetails(old(details.Value()), p.RangeA(axis), p.RangeB(axis), axis)
    {
      var vs, rs;
      separating, vs, rs := SeparatingOnStacks(p, axis, vectors, arrays);
      vectors, arrays := vs, rs;
    }

    /**
     * _isSeparatingAxis on stacks held as values: two arrays and a vector
     * taken off the tops, the test, and the three pushed back in the order
     * the source pushes them.
     */
    method SeparatingOnStacks(p: Pair, axis: Vec, vs: seq<Vector>, rs: seq<array<real>>)
      returns (separating: bool, vs': seq<Vector>, rs': seq<array<real>>)
      requires |vs| >= 1 && |rs| >= 2
      requires rs[|rs| - 1] != rs[|rs| - 2] && rs[|rs| - 1].Length == 2 && rs[|rs| - 2].Length == 2
      requires details.overlapN != details.overlapV
      requires vs[|vs| - 1] != details.overlapN && vs[|vs| - 1] != details.overlapV
      modifies details, details.overlapN, vs[|vs| - 1], rs[|rs| - 1], rs[|rs| - 2]
      ensures vs' == vs && rs' == SwapTop(rs)
      ensures separating == p.SeparatesOn(axis)
      ensures separating ==> details.Value() == old(details.Value())
      ensures !separating ==> details.Value() == AxisDetails(old(details.Value()), p.RangeA(axis), p.RangeB(axis), axis)
    {
      vs', rs' := vs, rs;
      var rangeA := rs'[|rs'| - 1];
      rs' := rs'[..|rs'| - 1];
      var rangeB := rs'[|rs'| - 1];
      rs' := rs'[..|rs'| - 1];
      var offsetV := vs'[|vs'| - 1];
      vs' := vs'[..|vs'| - 1];
      separating := SeparationTest(p, axis, rangeA, rangeB, offsetV);
      vs' := vs' + [offsetV];
      rs' := rs' + [rangeA];
      rs' := rs' + [rangeB];
    }

    /** The body of _isSeparatingAxis between taking the scratch objects and giving them back. */
    method SeparationTest(p: Pair, axis: Vec, rangeA: array<real>, rangeB: array<real>, offsetV: Vector)
      returns (separating: bool)
      requires rangeA.Length == 2 && rangeB.Length == 2 && rangeA != rangeB
      requires details.overlapN != details.overlapV
      requires offsetV != details.overlapN && offsetV != details.overlapV
      modifies details, details.overlapN, rangeA, rangeB, offsetV
      ensures separating == p.SeparatesOn(axis)
      ensures details.Value() ==
        if separating then old(details.Value())
        else AxisDetails(old(details.Value()), p.RangeA(axis), p.RangeB(axis), axis)
    {
      offsetV.Copy(p.bPos);
      offsetV.SubVec(p.aPos);
      var projectedOffset := Dot(offsetV.Value(), axis);
      FlattenPointsOn(p.aPoints, axis, rangeA);
      FlattenPointsOn(p.bPoints, axis, rangeB);
      rangeB[0] := rangeB[0] + projectedOffset;
      rangeB[1] := rangeB[1] + projectedOffset;
      assert Range(rangeA[0], rangeA[1]) == p.RangeA(axis);
      assert Range(rangeB[0], rangeB[1]) == p.RangeB(axis);
      if rangeA[0] > rangeB[1] || rangeB[0] > rangeA[1] {
        return true;
      }
      AxisBookkeeping(Range(rangeA[0], rangeA[1]), Range(rangeB[0], rangeB[1]), axis);
      separating := false;
    }

    /** The detailed part of _isSeparatingAxis, for two ranges that are not apart. */
    method AxisBookkeeping(rangeA: Range, rangeB: Range, axis: Vec)
      requires details.overlapN != details.overlapV
      modifies details, details.overlapN
      ensures details.Value() == AxisDetails(old(details.Value()), rangeA, rangeB, axis)
    {
      var overlap: real;
      if rangeA.lo < rangeB.lo {
        details.aInB := false;
        if rangeA.hi < rangeB.hi {
          overlap := rangeA.hi - rangeB.lo;
          details.bInA := false;
        } else {
          var option1 := rangeA.hi - rangeB.lo;
          var option2 := rangeB.hi - rangeA.lo;
          overlap := if option1 < option2 then option1 else -option2;
        }
      } else {
        details.bInA := false;
        if rangeA.hi > rangeB.hi {
          overlap := rangeA.lo - rangeB.hi;
          details.aInB := false;
        } else {
          var option1 := rangeA.hi - rangeB.lo;
          var option2 := rangeB.hi - rangeA.lo;
          overlap := if option1 < option2 then option1 else -option2;
        }
      }
      var absOverlap := Abs(overlap);
      if absOverlap < details.overlap {
        details.overlap := absOverlap;
        details.overlapN.Copy(axis);
        if overlap < 0.0 {
          details.overlapN.Reverse();
        }
      }
    }

    /**
     * One of testPolygonPolygon's loops: the axes tried in turn until one
     * separates.  Answers the position of that axis, or the number of axes.
     */
    method ScanAxes(pair: Pair, axes: seq<Vec>, vs: seq<Vector>, rs: seq<array<real>>)
      returns (k: nat, rs': seq<array<real>>)
      requires |vs| >= 1 && |rs| >= 2
      requires rs[|rs| - 1] != rs[|rs| - 2] && rs[|rs| - 1].Length == 2 && rs[|rs| - 2].Length == 2
      requires details.overlapN != details.overlapV
      requires vs[|vs| - 1] != details.overlapN && vs[|vs| - 1] != details.overlapV
      modifies details, details.overlapN, vs[|vs| - 1], rs[|rs| - 1], rs[|rs| - 2]
      ensures rs' == rs || rs' == SwapTop(rs)
      ensures k == FirstSeparating(pair, axes)
      ensures details.Value() == Fold(pair, old(details.Value()), axes[..k])
    {
      ghost var d0 := details.Value();
      SwapTopTwice(rs);
      rs' := rs;
      ghost var tried := [];
      k := 0;
      while k < |axes|
        invariant k <= |axes| && k <= FirstSeparating(pair, axes)
        invariant rs' == rs || rs' == SwapTop(rs)
        invariant tried == axes[..k]
        invariant details.Value() == Fold(pair, d0, tried)
      {
        ScanStep(pair, axes, k);
        assert axes[..k + 1] == tried + [axes[k]];
        FoldSnoc(pair, d0, tried, axes[k]);
        SameTopTwo(rs', rs);
        var separating, vs';
        separating, vs', rs' := SeparatingOnStacks(pair, axes[k], vs, rs');
        if separating {
          break;
        }
        tried := tried + [axes[k]];
        k := k + 1;
      }
      assert k == |axes| ==> axes[..k] == axes;
    }

    /**
     * testPolygonPolygon: A's normals, then B's, each tried in turn until one
     * separates.  The bookkeeping on the record is done on every axis tried,
     * detailed or not; a detailed test that finds a collision concludes the
     * record with the shapes and the overlap vector.
     */
    method TestPolygonPolygon(a: Polygon, b: Polygon, detailed: bool) returns (hit: bool)
      requires Valid() && a.Valid() && b.Valid() && |vectors| >= 1 && |arrays| >= 2
      modifies this, details, details.overlapN, details.overlapV
      modifies vectors[|vectors| - 1], arrays[|arrays| - 1], arrays[|arrays| - 2]
      ensures Valid() && vectors == old(vectors)
      ensures arrays == old(arrays) || arrays == SwapTop(old(arrays))
      ensures hit == PolygonsHit(old(PairOf(a, b)), TestAxes(a.normals, b.normals))
      ensures details.Value() ==
        PolygonsOutcome(old(PairOf(a, b)), old(details.Value()), TestAxes(a.normals, b.normals), a, b, detailed)
    {
      var pair := PairOf(a, b);
      var rs := arrays;
      assert rs[|rs| - 1] != rs[|rs| - 2] && rs[|rs| - 1].Length == 2 && rs[|rs| - 2].Length == 2;
      SwapTopKeepsRanges(rs);
      var rs';
      hit, rs' := ScanPolygons(pair, a.normals, b.normals, vectors, rs);
      arrays := rs';
      if hit && detailed {
        details.Conclude(PolygonRef(a), PolygonRef(b));
      }
    }

    /** The two loops of testPolygonPolygon, from clearing the record to the answer. */
    method ScanPolygons(pair: Pair, aNormals: seq<Vec>, bNormals: seq<Vec>, vs: seq<Vector>, rs: seq<array<real>>)
      returns (hit: bool, rs': seq<array<real>>)
      requires |vs| >= 1 && |rs| >= 2
      requires rs[|rs| - 1] != rs[|rs| - 2] && rs[|rs| - 1].Length == 2 && rs[|rs| - 2].Length == 2
      requires details.overlapN != details.overlapV
      requires vs[|vs| - 1] != details.overlapN && vs[|vs| - 1] != details.overlapV
      modifies details, details.overlapN, vs[|vs| - 1], rs[|rs| - 1], rs[|rs| - 2]
      ensures rs' == rs || rs' == SwapTop(rs)
      ensures hit == PolygonsHit(pair, TestAxes(aNormals, bNormals))
      ensures details.Value() == PolygonsScan(pair, old(details.Value()), TestAxes(aNormals, bNormals))
    {
      ghost var d0 := details.Value();
      details.Clear();
      SwapTopTwice(rs);
      var k;
      k, rs' := ScanAxes(pair, aNormals, vs, rs);
      if k < |aNormals| {
        PolygonsScanStopsInA(pair, d0, aNormals, bNormals);
        return false, rs';
      }
      PolygonsScanGoesOn(pair, d0, aNormals, bNormals);
      assert aNormals[..k] == aNormals;
      SameTopTwo(rs', rs);
      k, rs' := ScanAxes(pair, bNormals, vs, rs');
      hit := k == |bNormals|;
    }

    /**
     * One edge of testPolygonCircle's loop, on the three scratch vectors the
     * test took and, for the vertex check of the left region, a fourth one
     * (the source takes it off the stack there and puts it back).  Answers
     * whether the edge proves the shapes apart and whether the point lay in
     * the left region of the edge, which decides how the early return
     * refills the stack.
     */
    method EdgeTest(c: Probe, i: nat, detailed: bool, circlePos: Vector, edge: Vector, point: Vector,
                    point2: Vector)
      returns (apart: bool, leftCase: bool)
      requires c.WellFormed() && i < |c.points|
      requires circlePos.Value() == c.centre
      requires details.overlapN != details.overlapV
      requires edge != details.overlapN && point != details.overlapN && point2 != details.overlapN
      requires edge != details.overlapV && point != details.overlapV && point2 != details.overlapV
      requires circlePos != edge && circlePos != point && circlePos != point2
      requires edge != point && edge != point2 && point != point2
      modifies details, details.overlapN, edge, point, point2
      ensures var s := EdgeStep(c, i, detailed, old(details.Value()), math);
        apart == s.Apart? && details.Value() == s.d
      ensures leftCase == (VoronoiRegion(c.edges[i], Sub(c.centre, c.points[i])) == LeftRegion)
    {
      var radius := c.radius;
      var radius2 := radius * radius;
      edge.Copy(c.edges[i]);
      point.Copy(circlePos.Value());
      point.SubVec(c.points[i]);
      if detailed && Len2(point.Value()) > radius2 {
        details.aInB := false;
      }
      var region := VoronoiRegion(edge.Value(), point.Value());
      leftCase := region == LeftRegion;
      if region == LeftRegion {
        apart := LeftTest(c, i, detailed, circlePos, edge, point, point2);
      } else if region == RightRegion {
        apart := RightTest(c, i, detailed, circlePos, edge, point);
      } else {
        var overlapN, overlap;
        apart, overlapN, overlap := MiddleTest(edge, point, radius, detailed);
        if !apart {
          TakeOverlap(overlapN, overlap, detailed);
        }
      }
    }

    /** The left-region case of an edge of testPolygonCircle, on a fourth scratch vector. */
    method LeftTest(c: Probe, i: nat, detailed: bool, circlePos: Vector, edge: Vector, point: Vector,
                    point2: Vector)
      returns (apart: bool)
      requires c.WellFormed() && i < |c.points|
      requires circlePos.Value() == c.centre && point.Value() == Sub(c.centre, c.points[i])
      requires details.overlapN != details.overlapV
      requires edge != details.overlapN && point != details.overlapN && point2 != details.overlapN
      requires edge != details.overlapV && point != details.overlapV && point2 != details.overlapV
      requires circlePos != edge && circlePos != point && circlePos != point2
      requires edge != point && edge != point2 && point != point2
      modifies details, details.overlapN, edge, point, point2
      ensures var s := LeftStep(c, i, detailed, old(details.Value()), math);
        apart == s.Apart? && details.Value() == s.d
    {
      var prev := if i == 0 then |c.points| - 1 else i - 1;
      edge.Copy(c.edges[prev]);
      point2.Copy(circlePos.Value());
      point2.SubVec(c.points[prev]);
      var region := VoronoiRegion(edge.Value(), point2.Value());
      apart := false;
      if region == RightRegion {
        var overlapN, overlap;
        apart, overlapN, overlap := VertexTest(point, c.radius, detailed);
        if !apart {
          TakeOverlap(overlapN, overlap, detailed);
        }
      }
    }

    /** The right-region case of an edge of testPolygonCircle. */
    method RightTest(c: Probe, i: nat, detailed: bool, circlePos: Vector, edge: Vector, point: Vector)
      returns (apart: bool)
      requires c.WellFormed() && i < |c.points|
      requires circlePos.Value() == c.centre
      requires details.overlapN != details.overlapV
      requires edge != details.overlapN && point != details.overlapN
      requires edge != details.overlapV && point != details.overlapV
      requires circlePos != edge && circlePos != point && edge != point
      modifies details, details.overlapN, edge, point
      ensures var s := RightStep(c, i, detailed, old(details.Value()), math);
        apart == s.Apart? && details.Value() == s.d
    {
      var next := if i == |c.points| - 1 then 0 else i + 1;
      edge.Copy(c.edges[next]);
      point.Copy(circlePos.Value());
      point.SubVec(c.points[next]);
      var region := VoronoiRegion(edge.Value(), point.Value());
      apart := false;
      if region == LeftRegion {
        var overlapN, overlap;
        apart, overlapN, overlap := VertexTest(point, c.radius, detailed);
        if !apart {
          TakeOverlap(overlapN, overlap, detailed);
        }
      }
    }

    /**
     * The vertex check of testPolygonCircle: the circle centre seen from the
     * vertex.  Too far means the shapes are apart; otherwise a detailed test
     * offers the unit vertex-to-centre vector and the overlap as a candidate.
     */
    method VertexTest(toCentre: Vector, radius: real, detailed: bool)
      returns (apart: bool, overlapN: Vector?, overlap: real)
      requires details.overlapN != details.overlapV
      requires toCentre != details.overlapN && toCentre != details.overlapV
      modifies details, toCentre
      ensures overlapN == null || (overlapN == toCentre && detailed)
      ensures var s := VertexStep(old(details.Value()), old(toCentre.Value()), radius, detailed, math);
        && apart == s.Apart?
        && (if apart then details.Value() == s.d else Offer(details.Value(), overlapN, overlap) == s)
    {
      var dist := Len(toCentre.Value(), math);
      overlapN, overlap := null, 0.0;
      if dist > radius {
        return true, overlapN, overlap;
      } else if detailed {
        details.bInA := false;
        toCentre.NormalizeInPlace(math);
        overlapN := toCentre;
        overlap := radius - dist;
      }
      apart := false;
    }

    /**
     * The edge check of testPolygonCircle: the distance of the circle centre
     * along the edge's unit normal.
     */
    method MiddleTest(edge: Vector, point: Vector, radius: real, detailed: bool)
      returns (apart: bool, overlapN: Vector?, overlap: real)
      requires details.overlapN != details.overlapV && edge != point
      requires edge != details.overlapN && edge != details.overlapV
      modifies details, edge
      ensures overlapN == null || (overlapN == edge && detailed)
      ensures var s := MiddleStep(old(details.Value()), old(edge.Value()), point.Value(), radius, detailed, math);
        && apart == s.Apart?
        && (if apart then details.Value() == s.d else Offer(details.Value(), overlapN, overlap) == s)
    {
      edge.PerpInPlace();
      edge.NormalizeInPlace(math);
      var normal := edge;
      var dist := Dot(point.Value(), normal.Value());
      var distAbs := Abs(dist);
      overlapN, overlap := null, 0.0;
      if dist > 0.0 && distAbs > radius {
        return true, overlapN, overlap;
      } else if detailed {
        overlapN := normal;
        overlap := radius - dist;
        if dist >= 0.0 || overlap < 2.0 * radius {
          details.bInA := false;
        }
      }
      apart := false;
    }

    /** The end of an edge of testPolygonCircle: a candidate smaller in magnitude replaces the record's. */
    method TakeOverlap(overlapN: Vector?, overlap: real, detailed: bool)
      requires details.overlapN != details.overlapV
      requires overlapN != null ==> overlapN != details.overlapN && detailed
      modifies details, details.overlapN
      ensures Going(details.Value()) == old(Offer(details.Value(), overlapN, overlap))
    {
      if overlapN != null && detailed && Abs(overlap) < Abs(details.overlap) {
        details.overlap := overlap;
        details.overlapN.Copy(overlapN.Value());
      }
    }

    /**
     * testPolygonCircle: the edges in order, stopping at the first that
     * proves the shapes apart.  The three (or, after a vertex check, four)
     * scratch vectors go back on the stack on every path, early returns
     * included, in the order the source pushes them.
     */
    method TestPolygonCircle(polygon: Polygon, circle: Circle, detailed: bool) returns (hit: bool)
      requires Valid() && polygon.Valid() && |vectors| >= 4
      modifies this, details, details.overlapN, details.overlapV
      modifies vectors[|vectors| - 1], vectors[|vectors| - 2], vectors[|vectors| - 3], vectors[|vectors| - 4]
      ensures Valid() && arrays == old(arrays)
      ensures |vectors| == |old(vectors)| && multiset(vectors) == multiset(old(vectors))
      ensures var scan := CircleScan(old(ProbeOf(polygon, circle)), |polygon.calcPoints|, detailed,
                                     Cleared(old(details.Value())), math);
        && hit == scan.Going?
        && details.Value() == CircleOutcome(scan, polygon, circle, detailed)
    {
      var c := ProbeOf(polygon, circle);
      details.Clear();
      var apart := ProbeOnStack(c, detailed);
      if !apart && detailed {
        details.Conclude(PolygonRef(polygon), CircleRef(circle));
      }
      hit := !apart;
    }

    /** The part of testPolygonCircle that takes scratch vectors, runs the edges and pushes them back. */
    method ProbeOnStack(c: Probe, detailed: bool) returns (apart: bool)
      requires Valid() && c.WellFormed() && |vectors| >= 4
      modifies this, details, details.overlapN
      modifies vectors[|vectors| - 1], vectors[|vectors| - 2], vectors[|vectors| - 3], vectors[|vectors| - 4]
      ensures Valid() && arrays == old(arrays)
      ensures |vectors| == |old(vectors)| && multiset(vectors) == multiset(old(vectors))
      ensures var scan := CircleScan(c, |c.points|, detailed, old(details.Value()), math);
        apart == scan.Apart? && details.Value() == scan.d
    {
      // the fourth is taken only in a left region
      var low, spare, point, edge, circlePos := TopFour();
      var leftCase;
      apart, leftCase := CircleEdges(c, detailed, circlePos, edge, point, spare);
      Restock(low, spare, point, edge, circlePos, apart && leftCase);
    }

    /** The four vectors on top of the stack, distinct from each other and from the record's. */
    method TopFour() returns (low: seq<Vector>, d: Vector, c: Vector, b: Vector, a: Vector)
      requires Valid() && |vectors| >= 4
      ensures vectors == low + [d, c, b, a]
      ensures a != b && a != c && a != d && b != c && b != d && c != d
      ensures a != details.overlapN && b != details.overlapN && c != details.overlapN && d != details.overlapN
      ensures a != details.overlapV && b != details.overlapV && c != details.overlapV && d != details.overlapV
    {
      var vs := vectors;
      TopFourDistinct(vs);
      a, b, c, d := vs[|vs| - 1], vs[|vs| - 2], vs[|vs| - 3], vs[|vs| - 4];
      low := vs[..|vs| - 4];
      assert vs == low + [d, c, b, a];
      assert a in vs && b in vs && c in vs && d in vs;
    }

    /** The pushes at the end of testPolygonCircle: the four vectors it took go back in its order. */
    method Restock(low: seq<Vector>, spare: Vector, point: Vector, edge: Vector, circlePos: Vector, leftCase: bool)
      requires Valid() && vectors == low + [spare, point, edge, circlePos]
      modifies this
      ensures Valid() && arrays == old(arrays)
      ensures vectors == Restack(low, spare, point, edge, circlePos, leftCase)
      ensures multiset(vectors) == multiset(old(vectors))
    {
      RestackPermutes(low, spare, point, edge, circlePos, leftCase);
      Refill(Restack(low, spare, point, edge, circlePos, leftCase));
    }

    /**
     * The loop of testPolygonCircle over the polygon's edges, on the scratch
     * vectors the test took.  Answers whether an edge proved the shapes apart
     * and, if so, whether the point lay in that edge's left region.
     */
    method CircleEdges(c: Probe, detailed: bool, circlePos: Vector, edge: Vector, point: Vector, spare: Vector)
      returns (apart: bool, leftCase: bool)
      requires c.WellFormed()
      requires details.overlapN != details.overlapV
      requires edge != details.overlapN && point != details.overlapN && spare != details.overlapN
      requires edge != details.overlapV && point != details.overlapV && spare != details.overlapV
      requires circlePos != details.overlapN && circlePos != details.overlapV
      requires circlePos != edge && circlePos != point && circlePos != spare
      requires edge != point && edge != spare && point != spare
      modifies details, details.overlapN, circlePos, edge, point, spare
      ensures var scan := CircleScan(c, |c.points|, detailed, old(details.Value()), math);
        apart == scan.Apart? && details.Value() == scan.d
    {
      ghost var d0 := details.Value();
      circlePos.Copy(c.centre);
      var len := |c.points|;
      var i := 0;
      apart, leftCase := false, false;
      while i < len
        invariant 0 <= i <= len
        invariant circlePos.Value() == c.centre
        invariant CircleScan(c, i, detailed, d0, math) == Going(details.Value())
      {
        apart, leftCase := EdgeTest(c, i, detailed, circlePos, edge, point, spare);
        if apart {
          CircleScanApartStays(c, i + 1, len, detailed, d0, math);
          return;
        }
        i := i + 1;
      }
    }

    /** The stack given back its scratch vectors, in a new order. */
    method Refill(vs: seq<Vector>)
      requires Valid() && multiset(vs) == multiset(vectors)
      modifies this
      ensures Valid() && vectors == vs && arrays == old(arrays)
    {
      UniquePermutation(vectors, vs);
      assert forall v :: v in vs <==> v in multiset(vectors);
      vectors := vs;
    }

    /** testCirclePolygon: the polygon-circle test with the detailed result mirrored. */
    method TestCirclePolygon(circle: Circle, polygon: Polygon, detailed: bool) returns (hit: bool)
      requires Valid() && polygon.Valid() && |vectors| >= 4
      modifies this, details, details.overlapN, details.overlapV
      modifies vectors[|vectors| - 1], vectors[|vectors| - 2], vectors[|vectors| - 3], vectors[|vectors| - 4]
      ensures Valid() && arrays == old(arrays)
      ensures |vectors| == |old(vectors)| && multiset(vectors) == multiset(old(vectors))
      ensures var scan := CircleScan(old(ProbeOf(polygon, circle)), |polygon.calcPoints|, detailed,
                                     Cleared(old(details.Value())), math);
        && hit == scan.Going?
        && details.Value() ==
             if hit && detailed then Mirror(CircleOutcome(scan, polygon, circle, detailed))
             else CircleOutcome(scan, polygon, circle, detailed)
    {
      hit := TestPolygonCircle(polygon, circle, detailed);
      if hit && detailed {
        var a := details.a;
        var aInB := details.aInB;
        details.overlapN.Reverse();
        details.overlapV.Reverse();
        details.a := details.b;
        details.b := a;
        details.aInB := details.bInA;
        details.bInA := aInB;
      }
    }

    /**
     * testCircleCircle with the scratch vector given back on every path.  The
     * source returns on the detailed path without giving it back; see
     * TestCircleCircleAsWritten.
     */
    method TestCircleCircle(a: Circle, b: Circle, detailed: bool) returns (hit: bool)
      requires Valid() && |vectors| >= 1
      modifies this, details, details.overlapN, details.overlapV, vectors[|vectors| - 1]
      ensures Valid() && vectors == old(vectors) && arrays == old(arrays)
      ensures hit == CirclesHit(a, b)
      ensures details.Value() ==
        if hit && detailed then CirclesDetails(old(details.Value()), a, b, math) else old(details.Value())
    {
      var vs := vectors;
      var differenceV := vs[|vs| - 1];
      vs := vs[..|vs| - 1];
      hit := CircleCircleBody(a, b, detailed, differenceV);
      vectors := vs + [differenceV];
    }

    /** testCircleCircle as written: the detailed path keeps the scratch vector. */
    method TestCircleCircleAsWritten(a: Circle, b: Circle, detailed: bool) returns (hit: bool)
      requires Valid() && |vectors| >= 1
      modifies this, details, details.overlapN, details.overlapV, vectors[|vectors| - 1]
      ensures Valid() && arrays == old(arrays)
      ensures |vectors| == if hit && detailed then |old(vectors)| - 1 else |old(vectors)|
      ensures hit == CirclesHit(a, b)
      ensures details.Value() ==
        if hit && detailed then CirclesDetails(old(details.Value()), a, b, math) else old(details.Value())
    {
      var vs := vectors;
      var differenceV := vs[|vs| - 1];
      vs := vs[..|vs| - 1];
      PopUnique(vectors);
      hit := CircleCircleBody(a, b, detailed, differenceV);
      if hit && detailed {
        vectors := vs;
      } else {
        vectors := vs + [differenceV];
      }
    }

    /** The part of testCircleCircle between taking the scratch vector and the return. */
    method CircleCircleBody(a: Circle, b: Circle, detailed: bool, differenceV: Vector) returns (hit: bool)
      requires details.overlapN != details.overlapV
      requires differenceV != details.overlapN && differenceV != details.overlapV
      modifies details, details.overlapN, details.overlapV, differenceV
      ensures hit == CirclesHit(a, b)
      ensures details.Value() ==
        if hit && detailed then CirclesDetails(old(details.Value()), a, b, math) else old(details.Value())
    {
      differenceV.Copy(b.position);
      differenceV.AddVec(b.offset);
      differenceV.SubVec(a.position);
      differenceV.SubVec(a.offset);
      assert differenceV.Value() == CentreOffset(a, b);
      var totalRadius := a.radius + b.radius;
      var totalRadiusSq := totalRadius * totalRadius;
      var distanceSq := Len2(differenceV.Value());
      if distanceSq > totalRadiusSq {
        return false;
      }
      if detailed {
        RecordCircles(a, b, differenceV);
      }
      hit := true;
    }

    /** The detailed part of testCircleCircle, for two circles found to collide. */
    method RecordCircles(a: Circle, b: Circle, differenceV: Vector)
      requires details.overlapN != details.overlapV
      requires differenceV != details.overlapN && differenceV != details.overlapV
      requires differenceV.Value() == CentreOffset(a, b)
      modifies details, details.overlapN, details.overlapV, differenceV
      ensures details.Value() == CirclesDetails(old(details.Value()), a, b, math)
    {
      ghost var d0 := details.Value();
      var totalRadius := a.radius + b.radius;
      details.Clear();
      var dist := math.sqrt(Len2(differenceV.Value()));
      details.a := CircleRef(a);
      details.b := CircleRef(b);
      details.overlap := totalRadius - dist;
      differenceV.NormalizeInPlace(math);
      ghost var n := Normalize(CentreOffset(a, b), math);
      assert differenceV.Value() == n;
      details.overlapN.Copy(differenceV.Value());
      details.overlapV.Copy(differenceV.Value());
      details.overlapV.ScaleInPlace(details.overlap);
      details.aInB := a.radius <= b.radius && dist <= b.radius - a.radius;
      details.bInA := b.radius <= a.radius && dist <= a.radius - b.radius;
      assert details.overlapN.Value() == n;
      assert details.overlapV.Value() == Scale(n, totalRadius - dist);
    }

    /** pointInCircle, on a scratch vector that goes back where it came from. */
    method PointInCircle(point: Vec, circle: Circle) returns (inside: bool)
      requires Valid() && |vectors| >= 1
      modifies this, vectors[|vectors| - 1]
      ensures Valid() && vectors == old(vectors) && arrays == old(arrays)
      ensures inside == Sat.PointInCircle(point, circle)
    {
      var vs := vectors;
      var differenceV := vs[|vs| - 1];
      vs := vs[..|vs| - 1];
      differenceV.Copy(point);
      differenceV.SubVec(circle.position);
      differenceV.SubVec(circle.offset);
      var radiusSq := circle.radius * circle.radius;
      var distanceSq := Len2(differenceV.Value());
      vectors := vs + [differenceV];
      inside := distanceSq <= radiusSq;
    }

    /**
     * pointInPolygon: the tiny test box moved to the point, a detailed
     * polygon-polygon test against the polygon, and the box reported inside
     * only when it also lies within the polygon on every axis.
     */
    method PointInPolygon(point: Vec, polygon: Polygon) returns (inside: bool)
      requires Valid() && polygon.Valid() && |vectors| >= 1 && |arrays| >= 2
      requires polygon.position != testPoint.position
      modifies this, details, details.overlapN, details.overlapV, testPoint.position
      modifies vectors[|vectors| - 1], arrays[|arrays| - 1], arrays[|arrays| - 2]
      ensures Valid() && vectors == old(vectors)
      ensures var pair := Pair(point, TestCorners, old(polygon.position.Value()), polygon.calcPoints);
        var axes := TestAxes(testPoint.normals, polygon.normals);
        inside == (PolygonsHit(pair, axes) && PolygonsScan(pair, old(details.Value()), axes).aInB)
    {
      testPoint.position.Copy(point);
      details.Clear();
      inside := TestPolygonPolygon(testPoint, polygon, true);
      if inside {
        inside := details.aInB;
      }
    }
  }

  /**
   * The leak, exhibited: on a fresh collider, one detailed test of two
   * overlapping circles as written leaves one scratch vector fewer; each such
   * test takes another, so ten of them empty the stack and the next test of
   * any kind pops from an empty stack.
   */
  method LeakShrinksPool(m: MathLib, a: Circle, b: Circle) returns (left: nat)
    requires CirclesHit(a, b)
    ensures left == VectorSlots - 1
  {
    var collider := new Collider(m);
    assert collider.vectors[|collider.vectors| - 1] in collider.vectors;
    var hit := collider.TestCircleCircleAsWritten(a, b, true);
    left := |collider.vectors|;
  }

  /** With the scratch vector given back, the same test leaves the stack full. */
  method BalancedKeepsPool(m: MathLib) returns (left: nat)
    ensures left == VectorSlots
  {
    var collider := new Collider(m);
    var unit := Circle(Zero, Zero, 1.0);
    assert collider.vectors[|collider.vectors| - 1] in collider.vectors;
    var hit := collider.TestCircleCircle(unit, unit, true);
    left := |collider.vectors|;
  }
}
