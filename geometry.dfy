/**
 * 2D vector primitive of the collision engine.
 *
 * `Vec` is the value of a vector; `Vector` is the mutable object whose
 * operations update its coordinates in place (the source's mutators return
 * `this` for chaining; here they return nothing).  Square roots and the
 * trigonometric functions are floating-point library calls: they stay
 * abstract, as the fields of a `MathLib` value, and nothing is assumed about
 * the numbers they return.
 */
module Geometry {

  /** The host's math library, kept abstract. */
  datatype MathLib = MathLib(
    sqrt: real -> real,
    cos: real -> real,
    sin: real -> real,
    atan2: (real, real) -> real)

  /** The largest finite double, Number.MAX_VALUE, written out exactly. */
  const MaxValue: real := 179769313486231570814527423731704356798070567525844996598917476803157260780028538760589558632766878171540458953514382464234321326889464182768467546703537516986049910576551282076245490090389328944075868508455133942304583236903222948165808559332123348274797826204144723168738177180919299881250404026184124858368 as real

  datatype Vec = Vec(x: real, y: real)

  const Zero := Vec(0.0, 0.0)

  function Add(u: Vec, v: Vec): Vec { Vec(u.x + v.x, u.y + v.y) }

  function Sub(u: Vec, v: Vec): Vec { Vec(u.x - v.x, u.y - v.y) }

  function Scale(v: Vec, s: real): Vec { Vec(v.x * s, v.y * s) }

  function Neg(v: Vec): Vec { Vec(-v.x, -v.y) }

  function Dot(u: Vec, v: Vec): real { u.x * v.x + u.y * v.y }

  function Len2(v: Vec): real { Dot(v, v) }

  /** Clockwise perpendicular in screen coordinates: (x, y) becomes (y, -x). */
  function Perp(v: Vec): Vec { Vec(v.y, -v.x) }

  /** Length through the abstract square root. */
  function Len(v: Vec, m: MathLib): real { m.sqrt(Len2(v)) }

  /** Division by the length when it is positive; otherwise the vector is left as it is. */
  function Normalize(v: Vec, m: MathLib): (r: Vec)
    ensures Len(v, m) <= 0.0 ==> r == v
  {
    var d := Len(v, m);
    if d > 0.0 then Vec(v.x / d, v.y / d) else v
  }

  /** Rotation about the origin by an angle, through the abstract cosine and sine. */
  function Rotate(v: Vec, angle: real, m: MathLib): Vec
  {
    Vec(v.x * m.cos(angle) - v.y * m.sin(angle), v.x * m.sin(angle) + v.y * m.cos(angle))
  }

  /** Projection onto an axis of non-zero length. */
  function Project(v: Vec, axis: Vec): Vec
    requires Len2(axis) != 0.0
  {
    Scale(axis, Dot(v, axis) / Len2(axis))
  }

  /** Projection onto an axis taken to be of unit length. */
  function ProjectN(v: Vec, axis: Vec): Vec
  {
    Scale(axis, Dot(v, axis))
  }

  /** Mirror image across an axis of non-zero length. */
  function Reflect(v: Vec, axis: Vec): Vec
    requires Len2(axis) != 0.0
  {
    Sub(Scale(Project(v, axis), 2.0), v)
  }

  /** Mirror image across an axis taken to be of unit length. */
  function ReflectN(v: Vec, axis: Vec): Vec
  {
    Sub(Scale(ProjectN(v, axis), 2.0), v)
  }

  lemma PerpOrthogonal(v: Vec)
    ensures Dot(Perp(v), v) == 0.0
    ensures Len2(Perp(v)) == Len2(v)
    ensures Perp(Perp(v)) == Neg(v)
  {
  }

  /** A projection lies along its axis and keeps its component along the axis. */
  lemma ProjectAlongAxis(v: Vec, axis: Vec)
    requires Len2(axis) != 0.0
    ensures Dot(Project(v, axis), axis) == Dot(v, axis)
    ensures Project(Project(v, axis), axis) == Project(v, axis)
  {
    var k := Dot(v, axis) / Len2(axis);
    calc {
      Dot(Project(v, axis), axis);
      k * axis.x * axis.x + k * axis.y * axis.y;
      k * Len2(axis);
      Dot(v, axis);
    }
  }

  /** Reflection keeps the component along the axis and flips the rest. */
  lemma ReflectKeepsAxisComponent(v: Vec, axis: Vec)
    requires Len2(axis) != 0.0
    ensures Dot(Reflect(v, axis), axis) == Dot(v, axis)
  {
    ProjectAlongAxis(v, axis);
  }

  /** Reflecting twice across the same axis gives the vector back. */
  lemma ReflectInvolutive(v: Vec, axis: Vec)
    requires Len2(axis) != 0.0
    ensures Reflect(Reflect(v, axis), axis) == v
  {
    ReflectKeepsAxisComponent(v, axis);
    assert Project(Reflect(v, axis), axis) == Project(v, axis);
  }

  /** With a unit axis the two reflections agree, so ReflectN is an involution too. */
  lemma ReflectNInvolutive(v: Vec, axis: Vec)
    requires Len2(axis) == 1.0
    ensures ReflectN(v, axis) == Reflect(v, axis)
    ensures ReflectN(ReflectN(v, axis), axis) == v
  {
    assert Project(v, axis) == ProjectN(v, axis);
    ReflectInvolutive(v, axis);
    assert Project(Reflect(v, axis), axis) == ProjectN(Reflect(v, axis), axis);
  }

  /**
   * The mutable 2D vector.  Every mutator reads its operand before it writes,
   * in the source's order, so an operand that is `this` itself behaves as it
   * does there.
   */
  class Vector {
    var x: real
    var y: real

    constructor (x0: real, y0: real)
      ensures Value() == Vec(x0, y0)
    {
      x, y := x0, y0;
    }

    function Value(): (v: Vec)
      reads this
      ensures v.x == x && v.y == y
    {
      Vec(x, y)
    }

    method Copy(other: Vec)
      modifies this
      ensures Value() == other
    {
      x := other.x;
      y := other.y;
    }

    method Clone() returns (c: Vector)
      ensures fresh(c) && c.Value() == Value()
    {
      c := new Vector(x, y);
    }

    method PerpInPlace()
      modifies this
      ensures Value() == Perp(old(Value()))
    {
      var x0 := x;
      x := y;
      y := -x0;
    }

    method RotateInPlace(angle: real, m: MathLib)
      modifies this
      ensures Value() == Rotate(old(Value()), angle, m)
    {
      var x0, y0 := x, y;
      x := x0 * m.cos(angle) - y0 * m.sin(angle);
      y := x0 * m.sin(angle) + y0 * m.cos(angle);
    }

    method Reverse()
      modifies this
      ensures Value() == Neg(old(Value()))
    {
      x := -x;
      y := -y;
    }

    method NormalizeInPlace(m: MathLib)
      modifies this
      ensures Value() == Normalize(old(Value()), m)
    {
      var d := Len(Value(), m);
      if d > 0.0 {
        x := x / d;
        y := y / d;
      }
    }

    method AddInPlace(other: Vector)
      modifies this
      ensures Value() == Add(old(Value()), old(other.Value()))
    {
      x := x + other.x;
      y := y + other.y;
    }

    method SubInPlace(other: Vector)
      modifies this
      ensures Value() == Sub(old(Value()), old(other.Value()))
    {
      x := x - other.x;
      y := y - other.y;
    }

    /** Adds a vector value (an operand that is not an object of the pool). */
    method AddVec(other: Vec)
      modifies this
      ensures Value() == Add(old(Value()), other)
    {
      x := x + other.x;
      y := y + other.y;
    }

    /** Subtracts a vector value (an operand that is not an object of the pool). */
    method SubVec(other: Vec)
      modifies this
      ensures Value() == Sub(old(Value()), other)
    {
      x := x - other.x;
      y := y - other.y;
    }

    /** scale(s): both coordinates by the same factor. */
    method ScaleInPlace(s: real)
      modifies this
      ensures Value() == Scale(old(Value()), s)
    {
      x := x * s;
      y := y * s;
    }

    method ProjectInPlace(axis: Vector)
      requires Len2(axis.Value()) != 0.0
      modifies this
      ensures Value() == Project(old(Value()), old(axis.Value()))
    {
      var a := axis.Value();
      var amt := Dot(Value(), a) / Len2(a);
      x := amt * a.x;
      y := amt * a.y;
    }

    method ProjectNInPlace(axis: Vector)
      modifies this
      ensures Value() == ProjectN(old(Value()), old(axis.Value()))
    {
      var a := axis.Value();
      var amt := Dot(Value(), a);
      x := amt * a.x;
      y := amt * a.y;
    }

    method ReflectInPlace(axis: Vector)
      requires Len2(axis.Value()) != 0.0
      modifies this
      ensures Value() == Reflect(old(Value()), old(axis.Value()))
    {
      var x0, y0 := x, y;
      ProjectInPlace(axis);
      ScaleInPlace(2.0);
      x := x - x0;
      y := y - y0;
    }

    method ReflectNInPlace(axis: Vector)
      modifies this
      ensures Value() == ReflectN(old(Value()), old(axis.Value()))
    {
      var x0, y0 := x, y;
      ProjectNInPlace(axis);
      ScaleInPlace(2.0);
      x := x - x0;
      y := y - y0;
    }
  }
}
