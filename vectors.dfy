/**
 * Three-component vectors over the reals, standing for the THREE.Vector3 values
 * the flight engine updates. Square roots and trigonometry are not computed here:
 * they come from a `Geometry` record whose functions are only assumed to satisfy
 * `Sound`, i.e. `sqrt` is the exact non-negative square root and `sin`/`cos`
 * satisfy sin^2 + cos^2 = 1. Length, normalisation and rotation about the
 * vertical axis are defined from them.
 */
module Vectors {

  datatype Vec3 = Vec3(x: real, y: real, z: real)

  const Zero := Vec3(0.0, 0.0, 0.0)

  function Add(a: Vec3, b: Vec3): Vec3 {
    Vec3(a.x + b.x, a.y + b.y, a.z + b.z)
  }

  function Scale(v: Vec3, k: real): Vec3 {
    Vec3(v.x * k, v.y * k, v.z * k)
  }

  function LengthSq(v: Vec3): real {
    v.x * v.x + v.y * v.y + v.z * v.z
  }

  /** Squared length of the horizontal (x, z) part of a vector. */
  function HorizontalSq(v: Vec3): real {
    v.x * v.x + v.z * v.z
  }

  /** The operations of the host's floating-point library that are left abstract. */
  datatype Geometry = Geometry(sqrt: real -> real, sin: real -> real, cos: real -> real)

  ghost predicate Sound(g: Geometry) {
    && (forall a :: 0.0 <= a ==> 0.0 <= g.sqrt(a) && g.sqrt(a) * g.sqrt(a) == a)
    && (forall t :: g.sin(t) * g.sin(t) + g.cos(t) * g.cos(t) == 1.0)
  }

  /** `Vector3.length()`. */
  function Length(g: Geometry, v: Vec3): real {
    g.sqrt(LengthSq(v))
  }

  /** `Vector3.normalize()`: divides by the length, or by 1 when the length is 0. */
  function Normalize(g: Geometry, v: Vec3): Vec3 {
    var l := Length(g, v);
    Scale(v, 1.0 / (if l == 0.0 then 1.0 else l))
  }

  /** `Vector3.applyAxisAngle((0, 1, 0), angle)`: rotation about the vertical axis. */
  function RotateY(g: Geometry, v: Vec3, angle: real): Vec3 {
    var c, s := g.cos(angle), g.sin(angle);
    Vec3(v.x * c + v.z * s, v.y, -v.x * s + v.z * c)
  }

  lemma LengthSqNonNegative(v: Vec3)
    ensures 0.0 <= LengthSq(v)
    ensures 0.0 <= HorizontalSq(v) <= LengthSq(v)
  {
  }

  /** Two non-negative reals with the same square are equal. */
  lemma {:induction false} NonNegativeRootUnique(a: real, b: real)
    requires 0.0 <= a && 0.0 <= b && a * a == b * b
    ensures a == b
  {
    assert (a - b) * (a + b) == a * a - b * b;
    if a != b {
      assert 0.0 < a + b;
      ProductZero(a - b, a + b);
    }
  }

  lemma ProductZero(p: real, q: real)
    requires p * q == 0.0
    ensures p == 0.0 || q == 0.0
  {
  }

  lemma SquareZero(p: real)
    requires p * p == 0.0
    ensures p == 0.0
  {
    ProductZero(p, p);
  }

  lemma LengthFacts(g: Geometry, v: Vec3)
    requires Sound(g)
    ensures 0.0 <= Length(g, v)
    ensures Length(g, v) * Length(g, v) == LengthSq(v)
    ensures Length(g, v) == 0.0 <==> v == Zero
  {
    LengthSqNonNegative(v);
    var l := Length(g, v);
    if l == 0.0 {
      assert LengthSq(v) == 0.0;
      assert 0.0 <= v.x * v.x && 0.0 <= v.y * v.y && 0.0 <= v.z * v.z;
      SquareZero(v.x);
      SquareZero(v.y);
      SquareZero(v.z);
    }
    if v == Zero {
      assert l * l == 0.0;
      SquareZero(l);
    }
  }

  /** Scaling by a non-negative factor scales the length by that factor. */
  lemma LengthOfScale(g: Geometry, v: Vec3, k: real)
    requires Sound(g) && 0.0 <= k
    ensures Length(g, Scale(v, k)) == k * Length(g, v)
  {
    var w := Scale(v, k);
    LengthSqOfScale(v, k);
    LengthFacts(g, v);
    LengthFacts(g, w);
    var l := Length(g, v);
    SquareOfProduct(k, l);
    ProductNonNegativeReal(k, l);
    NonNegativeRootUnique(Length(g, w), k * l);
  }

  lemma LengthSqOfScale(v: Vec3, k: real)
    ensures LengthSq(Scale(v, k)) == k * k * LengthSq(v)
  {
  }

  lemma SquareOfProduct(k: real, l: real)
    ensures (k * l) * (k * l) == k * k * (l * l)
  {
  }

  lemma ProductNonNegativeReal(k: real, l: real)
    requires 0.0 <= k && 0.0 <= l
    ensures 0.0 <= k * l
  {
  }

  /** A non-zero vector normalises to unit length, and the normalised vector scaled by m has length m. */
  lemma NormalizeUnit(g: Geometry, v: Vec3)
    requires Sound(g) && v != Zero
    ensures Length(g, Normalize(g, v)) == 1.0
  {
    LengthFacts(g, v);
    var l := Length(g, v);
    assert 0.0 < l;
    LengthOfScale(g, v, 1.0 / l);
  }

  lemma SqrtOfOne(g: Geometry)
    requires Sound(g)
    ensures g.sqrt(1.0) == 1.0
  {
    NonNegativeRootUnique(g.sqrt(1.0), 1.0);
  }

  /** Rotating about the vertical axis keeps the height and the horizontal length. */
  lemma RotateKeepsHorizontal(g: Geometry, v: Vec3, angle: real)
    requires Sound(g)
    ensures RotateY(g, v, angle).y == v.y
    ensures HorizontalSq(RotateY(g, v, angle)) == HorizontalSq(v)
  {
    var c, s := g.cos(angle), g.sin(angle);
    var r := RotateY(g, v, angle);
    assert s * s + c * c == 1.0;
    calc {
      HorizontalSq(r);
      (v.x * c + v.z * s) * (v.x * c + v.z * s) + (-v.x * s + v.z * c) * (-v.x * s + v.z * c);
      (v.x * v.x + v.z * v.z) * (c * c + s * s);
      HorizontalSq(v);
    }
  }

  /** The square root is monotone on the non-negative reals. */
  lemma {:induction false} SqrtMonotone(g: Geometry, a: real, b: real)
    requires Sound(g) && 0.0 <= a <= b
    ensures g.sqrt(a) <= g.sqrt(b)
  {
    var ra, rb := g.sqrt(a), g.sqrt(b);
    assert ra * ra == a && rb * rb == b && 0.0 <= ra && 0.0 <= rb;
    assert (rb - ra) * (rb + ra) == b - a;
    if ra + rb != 0.0 {
      FactorSign(rb - ra, rb + ra);
    }
  }

  lemma FactorSign(p: real, q: real)
    requires 0.0 <= p * q && 0.0 < q
    ensures 0.0 <= p
  {
  }

  /** A vector no longer than another (in squared length) is no longer in length. */
  lemma LengthMonotone(g: Geometry, v: Vec3, w: Vec3)
    requires Sound(g) && LengthSq(v) <= LengthSq(w)
    ensures Length(g, v) <= Length(g, w)
  {
    LengthSqNonNegative(v);
    SqrtMonotone(g, LengthSq(v), LengthSq(w));
  }

  /** Scaling by k multiplies the horizontal squared length by k^2. */
  lemma HorizontalOfScale(v: Vec3, k: real)
    ensures HorizontalSq(Scale(v, k)) == k * k * HorizontalSq(v)
  {
  }
}
