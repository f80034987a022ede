/**
 * Helpers shared by the actors: clamping a number into a range, the
 * four-corner payload of an obstacle and its rotation about its centre.
 */
module Util {
  import opened Geometry

  /** Math.min(Math.max(num, lo), hi): the point of [lo, hi] nearest to num. */
  function Clamp(num: real, lo: real, hi: real): (r: real)
    ensures lo <= hi ==> lo <= r <= hi
    ensures lo <= num <= hi ==> r == num
    ensures num < lo && lo <= hi ==> r == lo
    ensures hi < num || hi < lo ==> r == hi
  {
    var atLeast := if num > lo then num else lo;
    if atLeast < hi then atLeast else hi
  }

  /** Clamping twice into the same non-empty range changes nothing the second time. */
  lemma ClampIdempotent(num: real, lo: real, hi: real)
    requires lo <= hi
    ensures Clamp(Clamp(num, lo, hi), lo, hi) == Clamp(num, lo, hi)
  {
  }

  /** An obstacle payload: four corner points, in order around the quadrilateral. */
  datatype Quad = Quad(a: Vec, b: Vec, c: Vec, d: Vec)

  function Corners(q: Quad): (s: seq<Vec>)
    ensures |s| == 4 && s[0] == q.a && s[1] == q.b && s[2] == q.c && s[3] == q.d
  {
    [q.a, q.b, q.c, q.d]
  }

  /** The axis-aligned square of side `size` whose top-left corner is `p`. */
  function Square(p: Vec, size: real): (q: Quad)
    ensures q.a == p && q.c == Add(p, Vec(size, size))
    ensures q.b.y == p.y && q.d.x == p.x && q.b.x == q.c.x && q.d.y == q.c.y
  {
    Quad(p, Vec(p.x + size, p.y), Vec(p.x + size, p.y + size), Vec(p.x, p.y + size))
  }

  /** The arithmetic mean of the corners. */
  function Centroid(q: Quad): Vec
  {
    Vec((q.a.x + q.b.x + q.c.x + q.d.x) / 4.0, (q.a.y + q.b.y + q.c.y + q.d.y) / 4.0)
  }

  /**
   * The centre the rotation turns about: the centroid moved left by the
   * offset's x component (the offset's y component is not used).
   */
  function RotationCentre(q: Quad, offset: Vec): (c: Vec)
    ensures c == Vec(Centroid(q).x - offset.x, Centroid(q).y)
  {
    Vec((q.a.x + q.b.x + q.c.x + q.d.x) / 4.0 - offset.x, (q.a.y + q.b.y + q.c.y + q.d.y) / 4.0)
  }

  function RotateAbout(p: Vec, centre: Vec, angle: real, m: MathLib): Vec
  {
    Add(Rotate(Sub(p, centre), angle, m), centre)
  }

  /** rotate(object, angle, offset): each corner turned by `angle` about the rotation centre. */
  function RotateQuad(q: Quad, angle: real, offset: Vec, m: MathLib): Quad
  {
    var centre := RotationCentre(q, offset);
    Quad(RotateAbout(q.a, centre, angle, m), RotateAbout(q.b, centre, angle, m),
         RotateAbout(q.c, centre, angle, m), RotateAbout(q.d, centre, angle, m))
  }

  /** Rotation through any cosine and sine values is linear. */
  lemma RotateAdditive(u: Vec, v: Vec, angle: real, m: MathLib)
    ensures Add(Rotate(u, angle, m), Rotate(v, angle, m)) == Rotate(Add(u, v), angle, m)
  {
    var cs, sn := m.cos(angle), m.sin(angle);
    assert u.x * cs + v.x * cs == (u.x + v.x) * cs;
    assert u.y * sn + v.y * sn == (u.y + v.y) * sn;
    assert u.x * sn + v.x * sn == (u.x + v.x) * sn;
    assert u.y * cs + v.y * cs == (u.y + v.y) * cs;
  }

  /**
   * Whatever the cosine and sine return, rotating without an offset keeps the
   * centroid of the quadrilateral where it was.
   */
  lemma RotateKeepsCentroid(q: Quad, angle: real, m: MathLib)
    ensures Centroid(RotateQuad(q, angle, Zero, m)) == Centroid(q)
  {
    var c := Centroid(q);
    assert RotationCentre(q, Zero) == c;
    var da, db, dc, dd := Sub(q.a, c), Sub(q.b, c), Sub(q.c, c), Sub(q.d, c);
    assert Add(Add(da, db), Add(dc, dd)) == Zero;
    RotateAdditive(da, db, angle, m);
    RotateAdditive(dc, dd, angle, m);
    RotateAdditive(Add(da, db), Add(dc, dd), angle, m);
    var r := RotateQuad(q, angle, Zero, m);
    assert r.a == Add(Rotate(da, angle, m), c);
    assert r.b == Add(Rotate(db, angle, m), c);
    assert r.c == Add(Rotate(dc, angle, m), c);
    assert r.d == Add(Rotate(dd, angle, m), c);
    assert Rotate(Zero, angle, m) == Zero;
  }
}
