/** The scene's collision volumes: axis-aligned boxes whose two corners may be given in
    either order along each axis, and the linear scan over all of them that gates
    the player's movement. */
module Collision {
  import opened Vectors

  /** std::min on floats: yields `a` unless `b < a`. */
  function Min(a: real, b: real): real {
    if b < a then b else a
  }

  /** std::max on floats: yields `a` unless `a < b`. */
  function Max(a: real, b: real): real {
    if a < b then b else a
  }

  /** `v` lies between `a` and `b`, inclusively, whichever of the two is smaller. */
  predicate Between(v: real, a: real, b: real) {
    (a <= v <= b) || (b <= v <= a)
  }

  datatype AABB = AABB(min: Vec3, max: Vec3)

  /** AABB::contains: an inclusive box test that normalises each axis with min/max,
      so the point is inside exactly when every coordinate lies between the two
      corners' coordinates, whatever their order. */
  function Contains(box: AABB, p: Vec3): (r: bool)
    ensures r <==> (Between(p.x, box.min.x, box.max.x) &&
                    Between(p.y, box.min.y, box.max.y) &&
                    Between(p.z, box.min.z, box.max.z))
  {
    p.x >= Min(box.min.x, box.max.x) && p.x <= Max(box.min.x, box.max.x) &&
    p.y >= Min(box.min.y, box.max.y) && p.y <= Max(box.min.y, box.max.y) &&
    p.z >= Min(box.min.z, box.max.z) && p.z <= Max(box.min.z, box.max.z)
  }

  /** The box with its two corners exchanged along the chosen axes. */
  function SwapCorners(box: AABB, onX: bool, onY: bool, onZ: bool): AABB {
    var lo := Vec3(if onX then box.max.x else box.min.x,
                   if onY then box.max.y else box.min.y,
                   if onZ then box.max.z else box.min.z);
    var hi := Vec3(if onX then box.min.x else box.max.x,
                   if onY then box.min.y else box.max.y,
                   if onZ then box.min.z else box.max.z);
    AABB(lo, hi)
  }

  /** The order in which the corners are supplied does not matter, on any axis. */
  lemma CornerOrderIrrelevant(box: AABB, p: Vec3, onX: bool, onY: bool, onZ: bool)
    ensures Contains(SwapCorners(box, onX, onY, onZ), p) == Contains(box, p)
  {
  }

  /** The test is inclusive: both corners, and so every boundary point, are inside. */
  lemma CornersAreInside(box: AABB)
    ensures Contains(box, box.min) && Contains(box, box.max)
  {
  }

  /** Some collider contains `p`. */
  predicate Blocked(colliders: seq<AABB>, p: Vec3) {
    exists i :: 0 <= i < |colliders| && Contains(colliders[i], p)
  }

  /** How far below the camera the collision-relevant body point (the feet) sits. */
  const FEET_OFFSET: real := 0.4

  /** The point tested against the colliders for a camera at `pos`. */
  function Feet(pos: Vec3): Vec3 {
    Sub(pos, Vec3(0.0, FEET_OFFSET, 0.0))
  }

  /** The scan over sceneColliders in processInput, stopping at the first box that
      contains the point. */
  method IsColliding(colliders: seq<AABB>, p: Vec3) returns (isColliding: bool)
    ensures isColliding == Blocked(colliders, p)
  {
    isColliding := false;
    var i := 0;
    while i < |colliders|
      invariant 0 <= i <= |colliders|
      invariant forall j :: 0 <= j < i ==> !Contains(colliders[j], p)
    {
      if Contains(colliders[i], p) {
        isColliding := true;
        break;
      }
      i := i + 1;
    }
  }
}
