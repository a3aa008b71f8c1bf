/** getDrinkableInFocus: which drinkable, if any, the player is looking at. Each
    drinkable's centre is projected onto the view ray; it qualifies when the projection
    lies in [0, maxDistance] and its squared distance from the ray point at that
    projection is strictly below radius². The scan returns the FIRST qualifying index
    in registration order, not the nearest one, and -1 when none qualifies. */
module Focus {
  import opened Vectors

  /** The default arguments of getDrinkableInFocus. */
  const MAX_DISTANCE: real := 0.5
  const RADIUS: real := 0.15

  /** "No drinkable", both as a focus result and as heldDrinkableIndex. */
  const NONE: int := -1

  /** A drinkable bottle: its rest position and scale (its renderable is left out). */
  datatype Drinkable = Drinkable(position: Vec3, scale: Vec3)

  /** Signed distance along the ray from `origin` in direction `dir` to the foot of the
      perpendicular from `target`. */
  function Projection(target: Vec3, origin: Vec3, dir: Vec3): real {
    Dot(Sub(target, origin), dir)
  }

  /** The two tests of the scan's loop body, for a given projection: the projection
      lies in [0, maxDistance] and the target's squared distance from the ray point at
      that projection is strictly below radius². */
  predicate CloseToRay(target: Vec3, origin: Vec3, dir: Vec3, maxDistance: real, radius: real, projection: real) {
    if projection < 0.0 || projection > maxDistance then false
    else
      var closestPoint := Add(origin, Scale(dir, projection));
      LengthSq(Sub(target, closestPoint)) < radius * radius
  }

  /** Whether the scan accepts a drinkable centred at `target`. */
  predicate InFocus(target: Vec3, origin: Vec3, dir: Vec3, maxDistance: real, radius: real) {
    CloseToRay(target, origin, dir, maxDistance, radius, Projection(target, origin, dir))
  }

  /** The first index at or after `from` whose drinkable is in focus, or NONE. */
  function FirstInFocus(ds: seq<Drinkable>, origin: Vec3, dir: Vec3, maxDistance: real, radius: real,
                        from: nat): (r: int)
    requires from <= |ds|
    ensures r == NONE || from <= r < |ds|
    ensures r == NONE <==> forall i :: from <= i < |ds| ==> !InFocus(ds[i].position, origin, dir, maxDistance, radius)
    ensures r != NONE ==> InFocus(ds[r].position, origin, dir, maxDistance, radius)
    ensures r != NONE ==> forall i :: from <= i < r ==> !InFocus(ds[i].position, origin, dir, maxDistance, radius)
    decreases |ds| - from
  {
    if from == |ds| then NONE
    else if InFocus(ds[from].position, origin, dir, maxDistance, radius) then from
    else FirstInFocus(ds, origin, dir, maxDistance, radius, from + 1)
  }

  /** getDrinkableInFocus, with the camera position and the normalised camera front
      passed in. */
  method GetDrinkableInFocus(ds: seq<Drinkable>, rayOrigin: Vec3, rayDir: Vec3, maxDistance: real, radius: real)
    returns (index: int)
    requires Dot(rayDir, rayDir) == 1.0
    ensures index == FirstInFocus(ds, rayOrigin, rayDir, maxDistance, radius, 0)
  {
    var i := 0;
    while i < |ds|
      invariant 0 <= i <= |ds|
      invariant FirstInFocus(ds, rayOrigin, rayDir, maxDistance, radius, i)
                == FirstInFocus(ds, rayOrigin, rayDir, maxDistance, radius, 0)
    {
      var toCenter := Sub(ds[i].position, rayOrigin);
      var projection := Dot(toCenter, rayDir);
      if projection < 0.0 || projection > maxDistance {
        i := i + 1;
        continue;
      }
      var closestPoint := Add(rayOrigin, Scale(rayDir, projection));
      var distSq := Dot(Sub(ds[i].position, closestPoint), Sub(ds[i].position, closestPoint));
      if distSq < radius * radius {
        return i;
      }
      i := i + 1;
    }
    return NONE;
  }

  /** Moving `d` along a unit ray and then sideways by an offset perpendicular to it
      projects back to exactly `d`. */
  lemma ProjectionOfRayPoint(origin: Vec3, dir: Vec3, d: real, offset: Vec3)
    requires Dot(dir, dir) == 1.0
    requires Dot(offset, dir) == 0.0
    ensures Projection(Add(Add(origin, Scale(dir, d)), offset), origin, dir) == d
  {
    var t := Add(Add(origin, Scale(dir, d)), offset);
    assert Sub(t, origin) == Add(Scale(dir, d), offset);
    calc {
      Dot(Add(Scale(dir, d), offset), dir);
      (dir.x * d) * dir.x + (dir.y * d) * dir.y + (dir.z * d) * dir.z + Dot(offset, dir);
      { assert (dir.x * d) * dir.x + (dir.y * d) * dir.y + (dir.z * d) * dir.z == d * Dot(dir, dir); }
      d;
    }
  }

  /** A target lying on the ray at its own projection is in focus for any nonzero
      radius. */
  lemma InFocusIntro(target: Vec3, origin: Vec3, dir: Vec3, maxDistance: real, radius: real, projection: real)
    requires projection == Projection(target, origin, dir)
    requires 0.0 <= projection <= maxDistance
    requires target == Add(origin, Scale(dir, projection))
    requires radius != 0.0
    ensures InFocus(target, origin, dir, maxDistance, radius)
  {
    var distSq := LengthSq(Sub(target, Add(origin, Scale(dir, projection))));
    assert Sub(target, target) == Vec3(0.0, 0.0, 0.0);
    ZeroBelowSquare(distSq, radius);
    assert CloseToRay(target, origin, dir, maxDistance, radius, projection);
  }

  /** Zero is strictly below the square of any nonzero real. */
  lemma ZeroBelowSquare(q: real, r: real)
    requires q == 0.0
    requires r != 0.0
    ensures q < r * r
  {
    if r < 0.0 {
      calc {
        q;
      ==
        0.0;
      <  { assert 0.0 < -r; }
        (-r) * (-r);
      ==
        r * r;
      }
    } else {
      calc {
        q;
      ==
        0.0;
      <
        r * r;
      }
    }
  }

  /** A drinkable exactly on the view ray, in front of the camera and within reach, is
      in focus for any nonzero radius. */
  lemma OnRayWithinReachIsInFocus(origin: Vec3, dir: Vec3, d: real, maxDistance: real, radius: real)
    requires Dot(dir, dir) == 1.0
    requires 0.0 <= d <= maxDistance
    requires radius != 0.0
    ensures InFocus(Add(origin, Scale(dir, d)), origin, dir, maxDistance, radius)
  {
    var target := Add(origin, Scale(dir, d));
    ProjectionOfRayPoint(origin, dir, d, Zero3);
    assert Add(target, Zero3) == target;
    assert Sub(target, Add(origin, Scale(dir, d))) == Zero3;
    InFocusIntro(target, origin, dir, maxDistance, radius, d);
  }

  /** A drinkable whose projection on the ray is beyond maxDistance is never in focus,
      however close to the ray it lies. */
  lemma BeyondReachIsNotInFocus(origin: Vec3, dir: Vec3, d: real, offset: Vec3, maxDistance: real, radius: real)
    requires Dot(dir, dir) == 1.0
    requires Dot(offset, dir) == 0.0
    requires d > maxDistance
    ensures !InFocus(Add(Add(origin, Scale(dir, d)), offset), origin, dir, maxDistance, radius)
  {
    ProjectionOfRayPoint(origin, dir, d, offset);
  }

  /** The distance test is strict, so with radius 0 nothing is ever focused, not even a
      drinkable lying exactly on the ray. */
  lemma ZeroRadiusFocusesNothing(ds: seq<Drinkable>, origin: Vec3, dir: Vec3, maxDistance: real)
    ensures FirstInFocus(ds, origin, dir, maxDistance, 0.0, 0) == NONE
  {
    forall i | 0 <= i < |ds|
      ensures !InFocus(ds[i].position, origin, dir, maxDistance, 0.0)
    {
    }
  }

  /** First match, not nearest: of two drinkables lying on the ray within reach, the one
      registered first is chosen even when the second is closer to the camera. */
  lemma FirstMatchIsNotNearest(origin: Vec3, dir: Vec3, far: real, near: real, maxDistance: real, radius: real,
                               scale: Vec3)
    requires Dot(dir, dir) == 1.0
    requires 0.0 <= near < far <= maxDistance
    requires radius != 0.0
    ensures InFocus(Add(origin, Scale(dir, near)), origin, dir, maxDistance, radius)
    ensures FirstInFocus([Drinkable(Add(origin, Scale(dir, far)), scale), Drinkable(Add(origin, Scale(dir, near)), scale)],
                         origin, dir, maxDistance, radius, 0) == 0
  {
    OnRayWithinReachIsInFocus(origin, dir, far, maxDistance, radius);
    OnRayWithinReachIsInFocus(origin, dir, near, maxDistance, radius);
  }
}
