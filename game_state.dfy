/** The frame loop's globals as one object, updated in place as main_file.cpp updates
    them. Every method is proved to leave the object in the state the matching function
    of Interaction computes from the state before, and to keep the invariant. */
module GameLoop {
  import opened Vectors
  import opened Collision
  import opened Focus
  import opened Interaction

  class GameState {
    const sceneColliders: seq<AABB>
    const drinkables: seq<Drinkable>

    var cameraPos: Vec3
    var heldDrinkableIndex: int
    var isDrinking: bool
    var drinkingTimer: real
    var intoxicationLevel: int
    var intoxicationTimer: real
    var yaw: real
    var pitch: real
    var ePressedLastFrame: bool
    var fPressedLastFrame: bool
    var lastX: real
    var lastY: real
    var firstMouse: bool

    /** The current values of the mutable globals. */
    function Snapshot(): State
      reads this
    {
      State(cameraPos, heldDrinkableIndex, isDrinking, drinkingTimer, intoxicationLevel, intoxicationTimer,
            yaw, pitch, ePressedLastFrame, fPressedLastFrame, lastX, lastY, firstMouse)
    }

    function World(): Scene {
      Scene(sceneColliders, drinkables)
    }

    ghost predicate Valid()
      reads this
    {
      Inv(Snapshot(), World())
    }

    /** The globals as initialised, with the scene filled in by initOpenGLProgram. */
    constructor (colliders: seq<AABB>, bottles: seq<Drinkable>)
      ensures sceneColliders == colliders && drinkables == bottles
      ensures Snapshot() == InitialState()
      ensures Valid()
    {
      sceneColliders := colliders;
      drinkables := bottles;
      cameraPos := Vec3(1.0, 0.5, -0.4);
      heldDrinkableIndex := NONE;
      isDrinking := false;
      drinkingTimer := 0.0;
      intoxicationLevel := 0;
      intoxicationTimer := 0.0;
      yaw := -90.0;
      pitch := 0.0;
      ePressedLastFrame := false;
      fPressedLastFrame := false;
      lastX := 250.0;
      lastY := 250.0;
      firstMouse := true;
      new;
      InitialStateValid(World());
    }

    /** The intoxication countdown at the top of the frame loop. */
    method DecayIntoxication(deltaTime: real)
      requires Valid()
      modifies this
      ensures Valid()
      ensures Snapshot() == AfterIntoxicationDecay(old(Snapshot()), deltaTime)
    {
      DecayPreservesInv(Snapshot(), World(), deltaTime);
      if intoxicationTimer > 0.0 {
        intoxicationTimer := intoxicationTimer - deltaTime;
        if intoxicationTimer <= 0.0 {
          intoxicationLevel := 0;
        }
      }
    }

    /** The camera shake, given the sine and cosine of the shake phase. */
    method ShakeCamera(shakeSin: real, shakeCos: real)
      requires Valid()
      modifies this
      ensures Valid()
      ensures Snapshot() == AfterCameraShake(old(Snapshot()), shakeSin, shakeCos)
    {
      ShakePreservesInv(Snapshot(), World(), shakeSin, shakeCos);
      if intoxicationLevel >= 1 {
        var amp := 0.15 + 0.05 * intoxicationLevel as real;
        yaw := yaw + shakeSin * amp;
        pitch := pitch + shakeCos * amp;
        if pitch > 89.0 {
          pitch := 89.0;
        }
        if pitch < -89.0 {
          pitch := -89.0;
        }
      }
    }

    /** The drinking countdown; a finished drink puts the bottle down and raises the
        level. */
    method UpdateDrinking(deltaTime: real)
      requires Valid()
      modifies this
      ensures Valid()
      ensures Snapshot() == AfterDrinkTimer(old(Snapshot()), deltaTime)
    {
      DrinkTimerPreservesInv(Snapshot(), World(), deltaTime);
      if isDrinking {
        drinkingTimer := drinkingTimer - deltaTime;
        if drinkingTimer <= 0.0 {
          isDrinking := false;
          heldDrinkableIndex := NONE;
          intoxicationLevel := if 4 < intoxicationLevel + 1 then 4 else intoxicationLevel + 1;
          intoxicationTimer := INTOXICATION_DURATION;
        }
      }
    }

    /** processInput: the collision-gated move, then the E and F keys with their
        edge detectors. */
    method ProcessInput(deltaTime: real, c: Controls)
      requires Valid()
      requires Dot(c.rayDir, c.rayDir) == 1.0
      modifies this
      ensures Valid()
      ensures Snapshot() == AfterInput(old(Snapshot()), World(), deltaTime, c)
    {
      InputPreservesInv(Snapshot(), World(), deltaTime, c);
      MoveCamera(deltaTime, c.keys, c.frontNoY, c.right);
      HandlePickUpKey(c.keys.e, c.rayDir);
      HandleDrinkKey(c.keys.f);
    }

    /** The first block of processInput: every pressed direction key adds its
        displacement to proposedPos, and the camera takes the whole proposal when the
        feet point below it is in no collider. */
    method MoveCamera(deltaTime: real, keys: Keys, frontNoY: Vec3, right: Vec3)
      requires Valid()
      modifies this
      ensures Snapshot() == AfterMovement(old(Snapshot()), sceneColliders, deltaTime, keys, frontNoY, right)
      ensures Valid()
    {
      var cameraSpeed := CAMERA_SPEED * deltaTime;
      var proposedPos := cameraPos;
      if keys.w {
        proposedPos := Add(proposedPos, Scale(frontNoY, cameraSpeed));
      }
      if keys.s {
        proposedPos := Sub(proposedPos, Scale(frontNoY, cameraSpeed));
      }
      if keys.a {
        proposedPos := Sub(proposedPos, Scale(right, cameraSpeed));
      }
      if keys.d {
        proposedPos := Add(proposedPos, Scale(right, cameraSpeed));
      }
      var collisionCheckPos := Sub(proposedPos, Vec3(0.0, FEET_OFFSET, 0.0));
      var isColliding := IsColliding(sceneColliders, collisionCheckPos);
      if !isColliding {
        cameraPos := proposedPos;
      }
    }

    /** The E block of processInput: on a rising edge while not drinking, drop the held
        bottle or pick up the one in focus; the edge flag always records E. */
    method HandlePickUpKey(ePressed: bool, rayDir: Vec3)
      requires Valid()
      requires Dot(rayDir, rayDir) == 1.0
      modifies this
      ensures Snapshot() == AfterPickUpKey(old(Snapshot()), drinkables, ePressed, rayDir)
      ensures Valid()
    {
      if ePressed && !ePressedLastFrame && !isDrinking {
        if heldDrinkableIndex == NONE {
          var index := GetDrinkableInFocus(drinkables, cameraPos, rayDir, MAX_DISTANCE, RADIUS);
          if index != NONE {
            heldDrinkableIndex := index;
          }
        } else {
          heldDrinkableIndex := NONE;
        }
      }
      ePressedLastFrame := ePressed;
    }

    /** The F block of processInput: on a rising edge, start a drink when a bottle is held
        and no drink is under way; the edge flag always records F. */
    method HandleDrinkKey(fPressed: bool)
      requires Valid()
      modifies this
      ensures Snapshot() == AfterDrinkKey(old(Snapshot()), fPressed)
      ensures Valid()
    {
      if fPressed && !fPressedLastFrame {
        if heldDrinkableIndex != NONE && !isDrinking {
          isDrinking := true;
          drinkingTimer := DRINK_DURATION;
        }
      }
      fPressedLastFrame := fPressed;
    }

    /** One pass of the frame loop, minus the wall clock and the drawing. */
    method RunFrame(inp: FrameInput)
      requires Valid()
      requires Dot(inp.controls.rayDir, inp.controls.rayDir) == 1.0
      modifies this
      ensures Valid()
      ensures Snapshot() == AfterFrame(old(Snapshot()), World(), inp)
    {
      DecayIntoxication(inp.dt);
      ShakeCamera(inp.shakeSin, inp.shakeCos);
      UpdateDrinking(inp.dt);
      ProcessInput(inp.dt, inp.controls);
    }

    /** mouse_callback, with the cursor position as reals. */
    method MouseCallback(xpos: real, ypos: real)
      requires Valid()
      modifies this
      ensures Valid()
      ensures Snapshot() == AfterMouse(old(Snapshot()), xpos, ypos)
    {
      MousePreservesInv(Snapshot(), World(), xpos, ypos);
      if firstMouse {
        lastX := xpos;
        lastY := ypos;
        firstMouse := false;
      }
      var xoffset := xpos - lastX;
      var yoffset := lastY - ypos;
      lastX := xpos;
      lastY := ypos;
      xoffset := xoffset * MOUSE_SENSITIVITY;
      yoffset := yoffset * MOUSE_SENSITIVITY;
      yaw := yaw + xoffset;
      pitch := pitch + yoffset;
      if pitch > 89.0 {
        pitch := 89.0;
      }
      if pitch < -89.0 {
        pitch := -89.0;
      }
    }
  }
}
