/**
 * Shape model: convex polygons whose world-space vertices, edges and edge
 * normals are derived from local vertices, an offset and an angle; circles;
 * and boxes that convert to four-vertex polygons.
 */
module Shapes {
  import opened Geometry

  /** A vertex as setPoints sees it: the vector object and its coordinates. */
  datatype Vertex = Vertex(obj: Vector, at: Vec)

  /** The coordinates of a ring of vertex objects, read at one moment. */
  function Snap(ps: seq<Vector>): (s: seq<Vertex>)
    reads ps
    ensures |s| == |ps|
    ensures forall k :: 0 <= k < |ps| ==> s[k] == Vertex(ps[k], ps[k].Value())
  {
    seq(|ps|, k requires 0 <= k < |ps| reads ps => Vertex(ps[k], ps[k].Value()))
  }

  function Coords(vs: seq<Vertex>): (s: seq<Vec>)
    ensures |s| == |vs| && forall k :: 0 <= k < |vs| ==> s[k] == vs[k].at
  {
    seq(|vs|, k requires 0 <= k < |vs| => vs[k].at)
  }

  /** The vertex after position i, going round the ring. */
  function Succ<T>(s: seq<T>, i: nat): T
    requires i < |s|
  {
    if i < |s| - 1 then s[i + 1] else s[0]
  }

  /**
   * The vertex-dropping pass of setPoints, from position i on: a vertex whose
   * successor round the ring is a different object with the same coordinates
   * is removed, and the same position is examined again.
   */
  function DedupFrom(vs: seq<Vertex>, i: nat): seq<Vertex>
    requires i <= |vs|
    decreases 2 * |vs| - i
  {
    if i == |vs| then vs
    else
      var p1 := vs[i];
      var p2 := Succ(vs, i);
      if p1.obj != p2.obj && p1.at == p2.at then DedupFrom(vs[..i] + vs[i + 1..], i)
      else DedupFrom(vs, i + 1)
  }

  function Dedup(vs: seq<Vertex>): seq<Vertex>
  {
    DedupFrom(vs, 0)
  }

  /** Two neighbours that setPoints would not separate: the same object, or different coordinates. */
  predicate Settled(p: Vertex, q: Vertex)
  {
    p.obj == q.obj || p.at != q.at
  }

  /** No vertex has a distinct twin with its coordinates right after it, round the ring. */
  predicate SettledRing(vs: seq<Vertex>)
  {
    forall k :: 0 <= k < |vs| ==> Settled(vs[k], Succ(vs, k))
  }

  predicate DistinctObjects(vs: seq<Vertex>)
  {
    forall j, k :: 0 <= j < k < |vs| ==> vs[j].obj != vs[k].obj
  }

  /** Dropping vertices never empties a non-empty ring and only ever removes. */
  lemma {:induction false} DedupFromShrinks(vs: seq<Vertex>, i: nat)
    requires i <= |vs|
    ensures |DedupFrom(vs, i)| <= |vs|
    ensures |vs| > 0 ==> |DedupFrom(vs, i)| > 0
    ensures forall v :: v in DedupFrom(vs, i) ==> v in vs
    decreases 2 * |vs| - i
  {
    if i < |vs| {
      var p2 := Succ(vs, i);
      if vs[i].obj != p2.obj && vs[i].at == p2.at {
        assert |vs| >= 2;
        var ws := vs[..i] + vs[i + 1..];
        DedupFromShrinks(ws, i);
        forall v | v in ws ensures v in vs {
          var k :| 0 <= k < |ws| && ws[k] == v;
          assert v == if k < i then vs[k] else vs[k + 1];
        }
      } else {
        DedupFromShrinks(vs, i + 1);
      }
    }
  }

  lemma DedupShrinks(vs: seq<Vertex>)
    ensures |Dedup(vs)| <= |vs|
    ensures |vs| > 0 ==> |Dedup(vs)| > 0
    ensures forall v :: v in Dedup(vs) ==> v in vs
  {
    DedupFromShrinks(vs, 0);
  }

  /**
   * The loop invariant of the pass: every neighbour pair before position i is
   * settled, and once the pass is over the pair closing the ring is too.
   */
  ghost predicate SettledBefore(vs: seq<Vertex>, i: nat)
    requires i <= |vs|
  {
    && (forall j :: 0 <= j < i && j + 1 < |vs| ==> Settled(vs[j], vs[j + 1]))
    && (i == |vs| && |vs| > 0 ==> Settled(vs[|vs| - 1], vs[0]))
  }

  lemma {:induction false} DedupFromSettles(vs: seq<Vertex>, i: nat)
    requires i <= |vs|
    requires DistinctObjects(vs)
    requires SettledBefore(vs, i)
    ensures SettledRing(DedupFrom(vs, i))
    decreases 2 * |vs| - i
  {
    if i == |vs| {
      forall k | 0 <= k < |vs| ensures Settled(vs[k], Succ(vs, k)) {
        if k < |vs| - 1 {
          assert Settled(vs[k], vs[k + 1]);
        }
      }
    } else {
      var p2 := Succ(vs, i);
      if vs[i].obj != p2.obj && vs[i].at == p2.at {
        var ws := vs[..i] + vs[i + 1..];
        assert |ws| == |vs| - 1;
        forall j, k | 0 <= j < k < |ws| ensures ws[j].obj != ws[k].obj {
          assert ws[j] == if j < i then vs[j] else vs[j + 1];
          assert ws[k] == if k < i then vs[k] else vs[k + 1];
        }
        forall j | 0 <= j < i && j + 1 < |ws| ensures Settled(ws[j], ws[j + 1]) {
          if j + 1 < i {
            assert ws[j] == vs[j] && ws[j + 1] == vs[j + 1];
          } else {
            // the pair closing the gap: vs[i - 1] differs from vs[i], which matches vs[i + 1]
            assert j == i - 1;
            assert Settled(vs[i - 1], vs[i]);
            assert ws[j] == vs[i - 1] && ws[j + 1] == vs[i + 1];
          }
        }
        if i == |ws| && |ws| > 0 {
          // vs[i] was the last vertex and matched the first one
          assert Settled(vs[i - 1], vs[i]);
          assert ws[|ws| - 1] == vs[i - 1] && ws[0] == vs[0];
        }
        assert SettledBefore(ws, i);
        DedupFromSettles(ws, i);
      } else {
        if i + 1 == |vs| {
          assert Settled(vs[i], vs[0]);
        } else {
          assert Settled(vs[i], vs[i + 1]);
        }
        assert SettledBefore(vs, i + 1);
        DedupFromSettles(vs, i + 1);
      }
    }
  }

  /** With distinct vertex objects, no twin survives the pass. */
  lemma DedupSettles(vs: seq<Vertex>)
    requires DistinctObjects(vs)
    ensures SettledRing(Dedup(vs))
  {
    DedupFromSettles(vs, 0);
  }

  lemma {:induction false} DedupFromKeepsSettled(vs: seq<Vertex>, i: nat)
    requires i <= |vs|
    requires SettledRing(vs)
    ensures DedupFrom(vs, i) == vs
    decreases |vs| - i
  {
    if i < |vs| {
      assert Settled(vs[i], Succ(vs, i));
      DedupFromKeepsSettled(vs, i + 1);
    }
  }

  /** A ring without twins passes through unchanged. */
  lemma DedupKeepsSettled(vs: seq<Vertex>)
    requires SettledRing(vs)
    ensures Dedup(vs) == vs
  {
    DedupFromKeepsSettled(vs, 0);
  }

  /**
   * The same pass on coordinates alone, for a ring of distinct vertex
   * objects: then a vertex's successor is another object exactly when the
   * ring has more than one vertex.
   */
  function DedupCoordsFrom(cs: seq<Vec>, i: nat): seq<Vec>
    requires i <= |cs|
    decreases 2 * |cs| - i
  {
    if i == |cs| then cs
    else if |cs| > 1 && cs[i] == Succ(cs, i) then DedupCoordsFrom(cs[..i] + cs[i + 1..], i)
    else DedupCoordsFrom(cs, i + 1)
  }

  function DedupCoords(cs: seq<Vec>): seq<Vec>
  {
    DedupCoordsFrom(cs, 0)
  }

  /** For distinct vertex objects, the pass on vertices and the pass on coordinates agree. */
  lemma {:induction false} DedupFromCoords(vs: seq<Vertex>, i: nat)
    requires i <= |vs|
    requires DistinctObjects(vs)
    ensures Coords(DedupFrom(vs, i)) == DedupCoordsFrom(Coords(vs), i)
    decreases 2 * |vs| - i
  {
    if i < |vs| {
      var cs := Coords(vs);
      var p2 := Succ(vs, i);
      assert Succ(cs, i) == p2.at;
      if |vs| > 1 {
        if i < |vs| - 1 {
          assert vs[i].obj != vs[i + 1].obj;
        } else {
          assert vs[0].obj != vs[i].obj;
        }
      }
      if vs[i].obj != p2.obj && vs[i].at == p2.at {
        var ws := vs[..i] + vs[i + 1..];
        forall j, k | 0 <= j < k < |ws| ensures ws[j].obj != ws[k].obj {
          assert ws[j] == if j < i then vs[j] else vs[j + 1];
          assert ws[k] == if k < i then vs[k] else vs[k + 1];
        }
        assert Coords(ws) == cs[..i] + cs[i + 1..];
        DedupFromCoords(ws, i);
      } else {
        DedupFromCoords(vs, i + 1);
      }
    }
  }

  lemma {:induction false} DedupCoordsFromKeeps(cs: seq<Vec>, i: nat)
    requires i <= |cs|
    requires |cs| > 1 ==> forall k :: 0 <= k < |cs| ==> cs[k] != Succ(cs, k)
    ensures DedupCoordsFrom(cs, i) == cs
    decreases |cs| - i
  {
    if i < |cs| {
      DedupCoordsFromKeeps(cs, i + 1);
    }
  }

  /** A ring in which no vertex equals the next one round the ring is kept as it is. */
  lemma DedupCoordsKeeps(cs: seq<Vec>)
    requires |cs| > 1 ==> forall k :: 0 <= k < |cs| ==> cs[k] != Succ(cs, k)
    ensures DedupCoords(cs) == cs
  {
    DedupCoordsFromKeeps(cs, 0);
  }

  /** A local vertex in world space: offset added, then rotated when the angle is not zero. */
  function WorldPoint(p: Vec, offset: Vec, angle: real, m: MathLib): Vec
  {
    var q := Add(p, offset);
    if angle != 0.0 then Rotate(q, angle, m) else q
  }

  function WorldPoints(ps: seq<Vec>, offset: Vec, angle: real, m: MathLib): (r: seq<Vec>)
    ensures |r| == |ps|
    ensures forall k :: 0 <= k < |ps| ==> r[k] == WorldPoint(ps[k], offset, angle, m)
  {
    seq(|ps|, k requires 0 <= k < |ps| => WorldPoint(ps[k], offset, angle, m))
  }

  /** Edge i runs from world vertex i to the next one round the ring. */
  function EdgesOf(cs: seq<Vec>): (es: seq<Vec>)
    ensures |es| == |cs|
    ensures forall k :: 0 <= k < |cs| ==> es[k] == Sub(Succ(cs, k), cs[k])
  {
    seq(|cs|, k requires 0 <= k < |cs| => Sub(Succ(cs, k), cs[k]))
  }

  /** Normal i is the perpendicular of edge i, normalized. */
  function NormalsOf(es: seq<Vec>, m: MathLib): (ns: seq<Vec>)
    ensures |ns| == |es|
    ensures forall k :: 0 <= k < |es| ==> ns[k] == Normalize(Perp(es[k]), m)
  {
    seq(|es|, k requires 0 <= k < |es| => Normalize(Perp(es[k]), m))
  }

  /** With no offset and no angle, world space is local space. */
  lemma WorldPointsUnmoved(ps: seq<Vec>, m: MathLib)
    ensures WorldPoints(ps, Zero, 0.0, m) == ps
  {
  }

  /** Every edge normal is orthogonal to its edge, whatever the square root returns. */
  lemma NormalsOrthogonal(es: seq<Vec>, m: MathLib, k: nat)
    requires k < |es|
    ensures Dot(NormalsOf(es, m)[k], es[k]) == 0.0
  {
    var e := es[k];
    var d := Len(Perp(e), m);
    if d > 0.0 {
      calc {
        Dot(NormalsOf(es, m)[k], e);
        (e.y / d) * e.x + (-e.x / d) * e.y;
        (e.y * e.x - e.x * e.y) / d;
        0.0;
      }
    } else {
      PerpOrthogonal(e);
    }
  }

  function Sum(vs: seq<Vec>): Vec
  {
    if vs == [] then Zero else Add(Sum(vs[..|vs| - 1]), vs[|vs| - 1])
  }

  lemma {:induction false} SumAppend(a: seq<Vec>, b: seq<Vec>)
    ensures Sum(a + b) == Add(Sum(a), Sum(b))
    decreases |b|
  {
    if b == [] {
      assert a + b == a;
    } else {
      assert (a + b)[..|a + b| - 1] == a + b[..|b| - 1];
      SumAppend(a, b[..|b| - 1]);
    }
  }

  function PairwiseSub(a: seq<Vec>, b: seq<Vec>): (r: seq<Vec>)
    requires |a| == |b|
    ensures |r| == |a| && forall k :: 0 <= k < |a| ==> r[k] == Sub(a[k], b[k])
  {
    seq(|a|, k requires 0 <= k < |a| => Sub(a[k], b[k]))
  }

  lemma {:induction false} SumPairwiseSub(a: seq<Vec>, b: seq<Vec>)
    requires |a| == |b|
    ensures Sum(PairwiseSub(a, b)) == Sub(Sum(a), Sum(b))
    decreases |a|
  {
    if a != [] {
      var n := |a| - 1;
      assert PairwiseSub(a, b)[..n] == PairwiseSub(a[..n], b[..n]);
      SumPairwiseSub(a[..n], b[..n]);
    }
  }

  /** The edges of a ring close it: they add up to the zero vector. */
  lemma EdgesCloseRing(cs: seq<Vec>)
    ensures Sum(EdgesOf(cs)) == Zero
  {
    if cs != [] {
      var turned := cs[1..] + [cs[0]];
      assert EdgesOf(cs) == PairwiseSub(turned, cs);
      SumPairwiseSub(turned, cs);
      SumAppend(cs[1..], [cs[0]]);
      SumAppend([cs[0]], cs[1..]);
      assert [cs[0]] + cs[1..] == cs;
      assert Sum([cs[0]]) == cs[0] by {
        assert [cs[0]][..0] == [];
      }
    }
  }

  /** A circle: a centre, an offset added to it, and a radius. */
  datatype Circle = Circle(position: Vec, offset: Vec, radius: real)
  {
    function Centre(): Vec { Add(position, offset) }
  }

  /**
   * A convex polygon.  `points` are the caller's vertex objects in local
   * space; `calcPoints`, `edges` and `normals` are derived from them by
   * `Recalc`.  The position is a vector object that callers may move.
   */
  class Polygon {
    const position: Vector
    const math: MathLib
    var points: seq<Vector>
    var angle: real
    var offset: Vec
    var calcPoints: seq<Vec>
    var edges: seq<Vec>
    var normals: seq<Vec>

    /** The derived arrays have one entry per vertex. */
    ghost predicate Valid()
      reads this
    {
      |calcPoints| == |points| && |edges| == |points| && |normals| == |points|
    }

    function PointValues(): (s: seq<Vec>)
      reads this, points
      ensures s == Coords(Snap(points))
    {
      Coords(Snap(points))
    }

    /** The derived arrays match the current vertices, offset and angle. */
    ghost predicate Current()
      reads this, points
    {
      && Valid()
      && calcPoints == WorldPoints(PointValues(), offset, angle, math)
      && edges == EdgesOf(calcPoints)
      && normals == NormalsOf(edges, math)
    }

    constructor (pos: Vector, pts: seq<Vector>, m: MathLib)
      ensures position == pos && math == m && angle == 0.0 && offset == Zero
      ensures Valid() && Current()
      ensures Snap(points) == Dedup(Snap(pts))
    {
      position := pos;
      math := m;
      points := [];
      angle := 0.0;
      offset := Zero;
      calcPoints, edges, normals := [], [], [];
      new;
      SetPoints(pts);
    }

    /**
     * Replaces the vertices.  When their number changes, the derived arrays
     * are rebuilt with one slot per surviving vertex and vertices with a
     * distinct twin after them are dropped in the same pass; otherwise the
     * new vertices are taken as they are.
     */
    method SetPoints(input: seq<Vector>)
      requires Valid()
      modifies this
      ensures Valid() && Current()
      ensures angle == old(angle) && offset == old(offset)
      ensures |input| != |old(points)| ==> Snap(points) == Dedup(Snap(input))
      ensures |input| == |old(points)| ==> points == input
    {
      var pts := input;
      if |input| != |points| {
        // the fresh derived arrays, filled in below and then stored
        var cps: seq<Vec>, es: seq<Vec>, ns: seq<Vec> := [], [], [];
        var i := 0;
        while i < |pts|
          invariant i <= |pts|
          invariant DedupFrom(Snap(pts), i) == Dedup(Snap(input))
          invariant |cps| == i && |es| == i && |ns| == i
          decreases 2 * |pts| - i
        {
          ghost var before := Snap(pts);
          var p1 := pts[i];
          var p2 := if i < |pts| - 1 then pts[i + 1] else pts[0];
          assert before[i].obj == p1 && Succ(before, i).obj == p2;
          if p1 != p2 && p1.x == p2.x && p1.y == p2.y {
            assert DedupFrom(before, i) == DedupFrom(before[..i] + before[i + 1..], i);
            pts := pts[..i] + pts[i + 1..];
            assert Snap(pts) == before[..i] + before[i + 1..];
            continue;
          }
          assert DedupFrom(before, i) == DedupFrom(before, i + 1);
          cps, es, ns := cps + [Zero], es + [Zero], ns + [Zero];
          i := i + 1;
        }
        calcPoints, edges, normals := cps, es, ns;
      }
      points := pts;
      Recalc();
    }

    method SetAngle(a: real)
      requires Valid()
      modifies this
      ensures Valid() && Current()
      ensures angle == a && points == old(points) && offset == old(offset)
    {
      angle := a;
      Recalc();
    }

    method SetOffset(o: Vec)
      requires Valid()
      modifies this
      ensures Valid() && Current()
      ensures offset == o && points == old(points) && angle == old(angle)
    {
      offset := o;
      Recalc();
    }

    /**
     * Recomputes the world-space vertices, then each edge and its normal.
     * The result depends only on the vertices, offset and angle, so a second
     * call in a row changes nothing.
     */
    method Recalc()
      requires Valid()
      modifies this
      ensures Valid() && Current()
      ensures points == old(points) && angle == old(angle) && offset == old(offset)
    {
      var len := |points|;
      var i := 0;
      while i < len
        invariant i <= len && Valid()
        invariant points == old(points) && angle == old(angle) && offset == old(offset)
        invariant forall k :: 0 <= k < i ==> calcPoints[k] == WorldPoint(points[k].Value(), offset, angle, math)
      {
        var calcPoint := Add(points[i].Value(), offset);
        if angle != 0.0 {
          calcPoint := Rotate(calcPoint, angle, math);
        }
        calcPoints := calcPoints[i := calcPoint];
        i := i + 1;
      }
      assert calcPoints == WorldPoints(PointValues(), offset, angle, math);
      i := 0;
      while i < len
        invariant i <= len && Valid()
        invariant points == old(points) && angle == old(angle) && offset == old(offset)
        invariant calcPoints == WorldPoints(PointValues(), offset, angle, math)
        invariant forall k :: 0 <= k < i ==> edges[k] == Sub(Succ(calcPoints, k), calcPoints[k])
        invariant forall k :: 0 <= k < i ==> normals[k] == Normalize(Perp(edges[k]), math)
      {
        var p1 := calcPoints[i];
        var p2 := if i < len - 1 then calcPoints[i + 1] else calcPoints[0];
        var e := Sub(p2, p1);
        edges := edges[i := e];
        normals := normals[i := Normalize(Perp(e), math)];
        i := i + 1;
      }
    }
  }

  /** Four new vector objects holding the given coordinates, in order. */
  method NewRing(a: Vec, b: Vec, c: Vec, d: Vec) returns (vs: seq<Vector>)
    ensures |vs| == 4 && fresh(vs[0]) && fresh(vs[1]) && fresh(vs[2]) && fresh(vs[3])
    ensures DistinctObjects(Snap(vs))
    ensures Coords(Snap(vs)) == [a, b, c, d]
  {
    var va := new Vector(a.x, a.y);
    var vb := new Vector(b.x, b.y);
    var vc := new Vector(c.x, c.y);
    var vd := new Vector(d.x, d.y);
    vs := [va, vb, vc, vd];
    SnapDistinct(vs);
  }

  /** Distinct vector objects give distinct vertex objects. */
  lemma SnapDistinct(ps: seq<Vector>)
    requires forall j, k :: 0 <= j < k < |ps| ==> ps[j] != ps[k]
    ensures DistinctObjects(Snap(ps))
  {
  }

  /** A box's four corners, all different when its sides are, pass setPoints unchanged. */
  lemma BoxRingKept(ring: seq<Vertex>, width: real, height: real)
    requires width != 0.0 && height != 0.0 && |ring| == 4
    requires ring[0].at == Zero && ring[1].at == Vec(width, 0.0)
    requires ring[2].at == Vec(width, height) && ring[3].at == Vec(0.0, height)
    ensures Dedup(ring) == ring
    ensures Coords(ring) == [Zero, Vec(width, 0.0), Vec(width, height), Vec(0.0, height)]
  {
    assert Settled(ring[0], ring[1]) && Settled(ring[1], ring[2]);
    assert Settled(ring[2], ring[3]) && Settled(ring[3], ring[0]);
    assert SettledRing(ring);
    DedupKeepsSettled(ring);
  }

  /** An axis-aligned box: a corner position and a width and height. */
  datatype Box = Box(position: Vec, width: real, height: real)
  {
    /** The four-vertex polygon of the box, its corners in local space. */
    method ToPolygon(m: MathLib) returns (p: Polygon)
      ensures fresh(p) && fresh(p.position) && p.Valid() && p.Current()
      ensures p.position.Value() == position && p.angle == 0.0 && p.offset == Zero
      ensures width != 0.0 && height != 0.0 ==>
                p.PointValues() == [Zero, Vec(width, 0.0), Vec(width, height), Vec(0.0, height)]
    {
      var pos := new Vector(position.x, position.y);
      var corners := NewRing(Zero, Vec(width, 0.0), Vec(width, height), Vec(0.0, height));
      ghost var ring := Snap(corners);
      p := new Polygon(pos, corners, m);
      if width != 0.0 && height != 0.0 {
        BoxRingKept(ring, width, height);
      }
    }
  }
}
