/**
 * The obstacle registry: every solid thing in the arena is an obstacle
 * with an id and a four-corner payload, listed in one shared registry.
 * Two obstacles collide when the polygons built from their payloads pass a
 * detailed polygon-polygon test.
 */
module Obstacles {
  import opened Geometry
  import opened Shapes
  import opened Sat
  import opened Collision
  import opened Util

  /**
   * The world-space vertices of the polygon built at the origin from a
   * payload's corners: the corners, less each one that equals the next.
   */
  function QuadRing(q: Quad): seq<Vec>
  {
    DedupCoords(Corners(q))
  }

  /** A non-degenerate axis-aligned square keeps all four corners. */
  lemma SquareRing(p: Vec, size: real)
    requires size != 0.0
    ensures QuadRing(Square(p, size)) == Corners(Square(p, size))
  {
    var cs := Corners(Square(p, size));
    assert forall k :: 0 <= k < |cs| ==> cs[k] != Succ(cs, k);
    DedupCoordsKeeps(cs);
  }

  /** The two payload polygons, both positioned at the origin. */
  function QuadPair(q: Quad, r: Quad): Pair
  {
    Pair(Zero, QuadRing(q), Zero, QuadRing(r))
  }

  /** The axes a polygon-polygon test of the two payloads tries: q's edge normals, then r's. */
  function QuadAxes(q: Quad, r: Quad, m: MathLib): seq<Vec>
  {
    TestAxes(NormalsOf(EdgesOf(QuadRing(q)), m), NormalsOf(EdgesOf(QuadRing(r)), m))
  }

  /** Two payloads collide when no edge normal of either separates them. */
  predicate QuadsHit(q: Quad, r: Quad, m: MathLib)
  {
    PolygonsHit(QuadPair(q, r), QuadAxes(q, r, m))
  }

  /** The details record a test of the two payloads leaves, up to the shape references. */
  function QuadsScan(q: Quad, r: Quad, d: Details, m: MathLib): Details
  {
    PolygonsScan(QuadPair(q, r), d, QuadAxes(q, r, m))
  }

  /** Whether two payloads collide does not depend on which one asks. */
  lemma QuadsHitSymmetric(q: Quad, r: Quad, m: MathLib)
    ensures QuadsHit(q, r, m) == QuadsHit(r, q, m)
  {
    var nq, nr := NormalsOf(EdgesOf(QuadRing(q)), m), NormalsOf(EdgesOf(QuadRing(r)), m);
    PolygonsHitSymmetric(QuadPair(q, r), nq, nr);
    assert QuadPair(q, r).Swap() == QuadPair(r, q);
  }

  /** Two payloads collide exactly when no normal of either polygon separates them. */
  lemma QuadsHitIff(q: Quad, r: Quad, m: MathLib)
    ensures QuadsHit(q, r, m) <==> forall axis :: axis in QuadAxes(q, r, m) ==> !QuadPair(q, r).SeparatesOn(axis)
  {
    PolygonsHitIff(QuadPair(q, r), QuadAxes(q, r, m));
  }

  /**
   * new Polygon(new Vector(0, 0), [the four corners as new vectors]): a
   * fresh polygon at the origin whose derived arrays describe the payload.
   */
  method QuadPolygon(q: Quad, m: MathLib) returns (p: Polygon)
    ensures fresh(p) && fresh(p.position) && p.Valid() && p.Current() && p.math == m
    ensures p.position.Value() == Zero
    ensures p.calcPoints == QuadRing(q)
    ensures p.normals == NormalsOf(EdgesOf(QuadRing(q)), m)
  {
    var origin := new Vector(0.0, 0.0);
    var ring := NewRing(q.a, q.b, q.c, q.d);
    DedupFromCoords(Snap(ring), 0);
    p := new Polygon(origin, ring, m);
    WorldPointsUnmoved(p.PointValues(), m);
  }

  /** The two polygons collidesWith builds, one per payload. */
  method PayloadPolygons(q: Quad, r: Quad, m: MathLib) returns (a: Polygon, b: Polygon)
    ensures fresh(a) && fresh(a.position) && a.Valid() && a.position.Value() == Zero
    ensures fresh(b) && fresh(b.position) && b.Valid() && b.position.Value() == Zero
    ensures a.calcPoints == QuadRing(q) && a.normals == NormalsOf(EdgesOf(QuadRing(q)), m)
    ensures b.calcPoints == QuadRing(r) && b.normals == NormalsOf(EdgesOf(QuadRing(r)), m)
    ensures PairOf(a, b) == QuadPair(q, r) && TestAxes(a.normals, b.normals) == QuadAxes(q, r, m)
  {
    a := QuadPolygon(q, m);
    b := QuadPolygon(r, m);
  }

  /** The shared list every obstacle registers itself in. */
  class Registry {
    var items: seq<Obstacle>

    constructor (items: seq<Obstacle>)
      ensures this.items == items
    {
      this.items := items;
    }
  }

  /** The obstacles of a list whose id differs from `id`, in their order. */
  function Without(items: seq<Obstacle>, id: string): (r: seq<Obstacle>)
    ensures |r| <= |items|
    ensures forall k :: 0 <= k < |r| ==> r[k] in items && r[k].id != id
    ensures forall k :: 0 <= k < |items| && items[k].id != id ==> items[k] in r
  {
    if items == [] then []
    else
      var rest := Without(items[..|items| - 1], id);
      var last := items[|items| - 1];
      assert items == items[..|items| - 1] + [last];
      if last.id != id then rest + [last] else rest
  }

  /** Filtering a list that has no entry with the id gives the list back. */
  lemma {:induction false} WithoutAbsent(items: seq<Obstacle>, id: string)
    requires forall k :: 0 <= k < |items| ==> items[k].id != id
    ensures Without(items, id) == items
  {
    if items != [] {
      WithoutAbsent(items[..|items| - 1], id);
      assert items == items[..|items| - 1] + [items[|items| - 1]];
    }
  }

  /** A one-entry list keeps its entry exactly when the id differs. */
  lemma WithoutSingle(o: Obstacle, id: string)
    ensures Without([o], id) == if o.id != id then [o] else []
  {
    assert [o][..0] == [];
  }

  /** Filtering distributes over concatenation: the entries kept keep their order and their repeats. */
  lemma {:induction false} WithoutAppend(xs: seq<Obstacle>, ys: seq<Obstacle>, id: string)
    ensures Without(xs + ys, id) == Without(xs, id) + Without(ys, id)
  {
    if ys == [] {
      assert xs + ys == xs;
    } else {
      var front, last := ys[..|ys| - 1], ys[|ys| - 1];
      assert (xs + ys)[..|xs + ys| - 1] == xs + front;
      WithoutAppend(xs, front, id);
    }
  }

  /** Filtering is idempotent. */
  lemma WithoutIdempotent(items: seq<Obstacle>, id: string)
    ensures Without(Without(items, id), id) == Without(items, id)
  {
    WithoutAbsent(Without(items, id), id);
  }

  /** The payloads of a list of obstacles, in order. */
  function Payloads(items: seq<Obstacle>): (qs: seq<Quad>)
    reads set o | o in items
    ensures |qs| == |items| && forall k :: 0 <= k < |items| ==> qs[k] == items[k].payload
  {
    seq(|items|, k requires 0 <= k < |items| reads set o | o in items => items[k].payload)
  }

  /** A list whose entries all keep their payloads keeps its list of payloads. */
  twostate lemma PayloadsKept(items: seq<Obstacle>)
    requires forall k :: 0 <= k < |items| ==> old(items[k].payload) == items[k].payload
    ensures Payloads(items) == old(Payloads(items))
  {
  }

  /** An obstacle: an id and a four-corner payload, registered in a shared list. */
  class Obstacle {
    const collider: Collider
    var obstacles: Registry
    const id: string
    var payload: Quad

    /** The new obstacle appends itself to the shared list it is given. */
    constructor (collider: Collider, obstacles: Registry, id: string, payload: Quad)
      modifies obstacles
      ensures this.collider == collider && this.obstacles == obstacles
      ensures this.id == id && this.payload == payload
      ensures obstacles.items == old(obstacles.items) + [this]
    {
      this.collider := collider;
      this.obstacles := obstacles;
      this.id := id;
      this.payload := payload;
      new;
      obstacles.items := obstacles.items + [this];
    }

    /** editObstacle: the payload is replaced; the id and the list stay. */
    method EditObstacle(q: Quad)
      modifies this
      ensures payload == q && obstacles == old(obstacles)
    {
      payload := q;
    }

    /**
     * removeObstacle: the obstacle's own reference is rebound to a new,
     * filtered list; the shared list it was registered in is not changed.
     */
    method RemoveObstacle()
      modifies this
      ensures fresh(obstacles) && obstacles.items == Without(old(obstacles.items), id)
      ensures old(obstacles).items == old(obstacles.items) && payload == old(payload)
    {
      obstacles := new Registry(Without(obstacles.items, id));
    }

    /**
     * collidesWith: a detailed polygon-polygon test of this payload against
     * the other's.  The answer is whether they collide; the collider's shared
     * record then holds the scan's bookkeeping and, on a collision, the
     * overlap vector and references to the two new polygons.
     */
    method CollidesWith(other: Obstacle) returns (hit: bool)
      requires collider.Valid() && |collider.vectors| >= 1 && |collider.arrays| >= 2
      modifies collider, collider.details, collider.details.overlapN, collider.details.overlapV
      modifies collider.arrays[|collider.arrays| - 1], collider.arrays[|collider.arrays| - 2]
      modifies collider.vectors[|collider.vectors| - 1]
      ensures collider.Valid() && collider.vectors == old(collider.vectors)
      ensures collider.arrays == old(collider.arrays) || collider.arrays == SwapTop(old(collider.arrays))
      ensures hit == QuadsHit(payload, other.payload, collider.math)
      ensures var scan := QuadsScan(payload, other.payload, old(collider.details.Value()), collider.math);
        collider.details.Value() ==
          (if hit then Concluded(scan, collider.details.a, collider.details.b) else scan)
      ensures hit ==> collider.details.a.PolygonRef? && collider.details.b.PolygonRef?
    {
      hide PolygonsHit, PolygonsScan, QuadRing, NormalsOf, EdgesOf;
      var mine, theirs := PayloadPolygons(payload, other.payload, collider.math);
      hit := collider.TestPolygonPolygon(mine, theirs, true);
    }
  }
}
