/** The scene initOpenGLProgram registers: four bottles on the desk and four box
    colliders (desk, left wall, right wall, back wall with the door), and what they
    imply for the player at the start. */
module SceneData {
  import opened Vectors
  import opened Collision
  import opened Focus
  import opened Interaction

  /** sceneColliders, in registration order; some boxes list their corners swapped on
      an axis, which Contains tolerates. */
  const ROOM_COLLIDERS: seq<AABB> :=
    [ AABB(Vec3(0.03, 0.01, -1.79), Vec3(2.43, 0.31, -1.13)),
      AABB(Vec3(0.07, 0.01, -1.25), Vec3(-0.03, 0.74, -0.05)),
      AABB(Vec3(2.54, 0.04, -1.72), Vec3(2.38, 0.87, 0.02)),
      AABB(Vec3(2.56, -0.06, -0.15), Vec3(-0.07, 1.03, 0.14)) ]

  /** drinkables, in registration order (their renderables are left out). */
  const BOTTLES: seq<Drinkable> :=
    [ Drinkable(Vec3(0.4, 0.35, -1.3), Vec3(1.0, 1.0, 1.0)),
      Drinkable(Vec3(0.8, 0.35, -1.3), Vec3(0.8, 0.8, 0.8)),
      Drinkable(Vec3(1.2, 0.35, -1.3), Vec3(0.035, 0.035, 0.035)),
      Drinkable(Vec3(1.6, 0.35, -1.3), Vec3(0.85, 0.85, 0.85)) ]

  const ROOM: Scene := Scene(ROOM_COLLIDERS, BOTTLES)

  /** The camera's initial front vector. */
  const INITIAL_FRONT: Vec3 := Vec3(0.0, 0.0, -1.0)

  /** Where the camera starts, and the point below it that the collider test uses. */
  const START: Vec3 := Vec3(1.0, 0.5, -0.4)
  const START_FEET: Vec3 := Vec3(1.0, 0.1, -0.4)

  lemma StartFeet()
    ensures InitialState().cameraPos == START
    ensures Feet(START) == START_FEET
  {
  }

  /** The starting feet point lies in none of the four boxes. */
  lemma StartFeetAreFree()
    ensures !Blocked(ROOM_COLLIDERS, START_FEET)
  {
    assert !Contains(ROOM_COLLIDERS[0], START_FEET);
    assert !Contains(ROOM_COLLIDERS[1], START_FEET);
    assert !Contains(ROOM_COLLIDERS[2], START_FEET);
    assert !Contains(ROOM_COLLIDERS[3], START_FEET);
  }

  /** The player starts with their feet in no collider. */
  lemma StartIsFree()
    ensures !Blocked(ROOM_COLLIDERS, Feet(InitialState().cameraPos))
  {
    StartFeet();
    StartFeetAreFree();
  }

  /** Every bottle projects 0.9 along the starting view ray. */
  lemma BottlesProjectBeyondReach(i: nat)
    requires i < |BOTTLES|
    ensures Projection(BOTTLES[i].position, START, INITIAL_FRONT) == 0.9
  {
  }

  /** A projection past the reach fails the first test of the scan. */
  lemma ProjectionPastReach(target: Vec3, origin: Vec3, dir: Vec3)
    requires Projection(target, origin, dir) > MAX_DISTANCE
    ensures !InFocus(target, origin, dir, MAX_DISTANCE, RADIUS)
  {
  }

  /** Seen from `origin` along INITIAL_FRONT, no bottle passes the scan's tests. */
  lemma NoBottleInFocusFrom(origin: Vec3)
    requires origin == START
    ensures FirstInFocus(BOTTLES, origin, INITIAL_FRONT, MAX_DISTANCE, RADIUS, 0) == NONE
  {
    forall i | 0 <= i < |BOTTLES|
      ensures !InFocus(BOTTLES[i].position, origin, INITIAL_FRONT, MAX_DISTANCE, RADIUS)
    {
      BottlesProjectBeyondReach(i);
      ProjectionPastReach(BOTTLES[i].position, origin, INITIAL_FRONT);
    }
  }

  /** The bottles stand 0.9 in front of the starting camera, beyond the 0.5 reach, so
      pressing E before walking picks nothing up. */
  lemma NothingInFocusAtStart()
    ensures FirstInFocus(BOTTLES, InitialState().cameraPos, INITIAL_FRONT, MAX_DISTANCE, RADIUS, 0) == NONE
  {
    StartFeet();
    NoBottleInFocusFrom(InitialState().cameraPos);
  }

  /** Walking straight ahead from the start for 0.8 seconds proposes a point whose feet
      are inside the desk box. */
  lemma WalkIntoDesk(c: Controls)
    requires c.keys == Keys(true, false, false, false, false, false)
    requires c.frontNoY == INITIAL_FRONT
    ensures Feet(ProposedPosition(START, CAMERA_SPEED * 0.8, c.keys, c.frontNoY, c.right)) == Vec3(1.0, 0.1, -1.2)
  {
  }

  lemma DeskContains()
    ensures Contains(ROOM_COLLIDERS[0], Vec3(1.0, 0.1, -1.2))
  {
  }

  /** The desk stops the player: from the start, walking straight ahead for 0.8 seconds
      would put the feet inside the desk box, so the camera does not move at all. */
  lemma DeskStopsPlayer(c: Controls)
    requires c.keys == Keys(true, false, false, false, false, false)
    requires c.frontNoY == INITIAL_FRONT
    ensures AfterInput(InitialState(), ROOM, 0.8, c).cameraPos == InitialState().cameraPos
  {
    StartFeet();
    WalkIntoDesk(c);
    DeskContains();
    MovementAllOrNothing(InitialState(), ROOM, 0.8, c);
  }
}
