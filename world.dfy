/**
 * World-boundary enforcement shared by both generations of the game engine
 * (`applyBoundaries`): each axis is clamped independently, upper bound first,
 * and the velocity component of an axis is zeroed exactly when that axis was clamped.
 * The floor of the vertical axis is the fixed ground level 10.
 */
module World {
  import opened Vectors

  /** `worldBounds`: half-extents on x and z, ceiling on y. */
  datatype Bounds = Bounds(x: real, y: real, z: real)

  const Ground: real := 10.0

  /** The engines' configured world: 10 000 x 10 000 wide, 700 high. */
  const GameBounds := Bounds(5000.0, 700.0, 5000.0)

  /** The start positions both engines' `setupPlayers` use, one per player. */
  const StartPositions: seq<Vec3> := [
    Vec3(-500.0, 100.0, -500.0), Vec3(500.0, 100.0, -500.0),
    Vec3(-500.0, 100.0, 500.0), Vec3(500.0, 100.0, 500.0)]

  /** Every start position lies strictly inside the game world. */
  lemma StartPositionsStrictlyInside()
    ensures forall i :: 0 <= i < |StartPositions| ==>
      var p := StartPositions[i];
      -GameBounds.x < p.x < GameBounds.x && Ground < p.y < GameBounds.y && -GameBounds.z < p.z < GameBounds.z
  {
  }

  /** Position and velocity together, as the boundary check sees them. */
  datatype Kinematics = Kinematics(position: Vec3, velocity: Vec3)

  /** One axis: `if (p > hi) { p = hi; v = 0 } if (p < lo) { p = lo; v = 0 }`. */
  function ClampAxis(p: real, v: real, lo: real, hi: real): (r: (real, real))
    ensures lo <= hi ==> lo <= r.0 <= hi
    ensures lo <= hi ==> (r.0 == p <==> lo <= p <= hi)
    ensures lo <= hi ==> r.1 == if lo <= p <= hi then v else 0.0
  {
    var (p1, v1) := if p > hi then (hi, 0.0) else (p, v);
    if p1 < lo then (lo, 0.0) else (p1, v1)
  }

  predicate WellFormed(b: Bounds) {
    0.0 <= b.x && 0.0 <= b.z && Ground <= b.y
  }

  predicate Inside(b: Bounds, p: Vec3) {
    -b.x <= p.x <= b.x && Ground <= p.y <= b.y && -b.z <= p.z <= b.z
  }

  /** `applyBoundaries` on one aircraft. */
  function Enforce(b: Bounds, k: Kinematics): Kinematics {
    var (px, vx) := ClampAxis(k.position.x, k.velocity.x, -b.x, b.x);
    var (pz, vz) := ClampAxis(k.position.z, k.velocity.z, -b.z, b.z);
    var (py, vy) := ClampAxis(k.position.y, k.velocity.y, Ground, b.y);
    Kinematics(Vec3(px, py, pz), Vec3(vx, vy, vz))
  }

  /** After enforcement every position lies inside the world. */
  lemma EnforceInside(b: Bounds, k: Kinematics)
    requires WellFormed(b)
    ensures Inside(b, Enforce(b, k).position)
  {
  }

  /**
   * Axis decoupling: a position component changes, and its velocity component
   * becomes 0, exactly on an axis whose position was out of range; every other
   * component is left as it was.
   */
  lemma EnforceAxisDecoupled(b: Bounds, k: Kinematics)
    requires WellFormed(b)
    ensures var r := Enforce(b, k);
      && (-b.x <= k.position.x <= b.x ==> r.position.x == k.position.x && r.velocity.x == k.velocity.x)
      && (!(-b.x <= k.position.x <= b.x) ==> r.velocity.x == 0.0)
      && (Ground <= k.position.y <= b.y ==> r.position.y == k.position.y && r.velocity.y == k.velocity.y)
      && (!(Ground <= k.position.y <= b.y) ==> r.velocity.y == 0.0)
      && (-b.z <= k.position.z <= b.z ==> r.position.z == k.position.z && r.velocity.z == k.velocity.z)
      && (!(-b.z <= k.position.z <= b.z) ==> r.velocity.z == 0.0)
  {
  }

  /** A state already inside the world is left untouched. */
  lemma EnforceInsideIsIdentity(b: Bounds, k: Kinematics)
    requires WellFormed(b) && Inside(b, k.position)
    ensures Enforce(b, k) == k
  {
  }

  /** Enforcing twice is the same as enforcing once. */
  lemma {:induction false} EnforceIdempotent(b: Bounds, k: Kinematics)
    requires WellFormed(b)
    ensures Enforce(b, Enforce(b, k)) == Enforce(b, k)
  {
    EnforceInside(b, k);
    EnforceInsideIsIdentity(b, Enforce(b, k));
  }
}
