/** The first-person interaction layer as a pure specification: the state the frame
    loop keeps in globals, one function per block of code that changes it, and the
    properties those blocks promise. Each frame runs, in this order, the intoxication
    countdown, the camera shake, the drinking countdown and then processInput
    (movement gated by the colliders, the E pick-up/drop toggle and the F drink start).
    The class in GameLoop performs the same steps in place and is proved against these
    functions. */
module Interaction {
  import opened Vectors
  import opened Collision
  import opened Focus

  const DRINK_DURATION: real := 3.0
  const INTOXICATION_DURATION: real := 10.0
  const MAX_INTOXICATION: int := 4
  const PITCH_LIMIT: real := 89.0
  const MOUSE_SENSITIVITY: real := 0.05
  /** processInput moves the camera by 1.0 * deltaTime per pressed direction key. */
  const CAMERA_SPEED: real := 1.0

  /** The keys polled by processInput: W, S, A, D move; E picks up or drops; F drinks. */
  datatype Keys = Keys(w: bool, s: bool, a: bool, d: bool, e: bool, f: bool)

  /** What processInput reads besides the elapsed time: the keys held down, and the
      camera basis that the source derives with normalize/cross (the flattened front,
      the right vector, and the normalised front used as the focus ray). */
  datatype Controls = Controls(keys: Keys, frontNoY: Vec3, right: Vec3, rayDir: Vec3)

  /** What one frame receives from outside: the elapsed time, the sine and cosine of the
      shake phase, and the controls. */
  datatype FrameInput = FrameInput(dt: real, shakeSin: real, shakeCos: real, controls: Controls)

  /** The fixed scene data: sceneColliders and drinkables. */
  datatype Scene = Scene(colliders: seq<AABB>, drinkables: seq<Drinkable>)

  /** The mutable globals of the interaction layer, including processInput's static
      edge-detector flags and mouse_callback's last cursor position. */
  datatype State = State(
    cameraPos: Vec3,
    heldDrinkableIndex: int,
    isDrinking: bool,
    drinkingTimer: real,
    intoxicationLevel: int,
    intoxicationTimer: real,
    yaw: real,
    pitch: real,
    ePressedLastFrame: bool,
    fPressedLastFrame: bool,
    lastX: real,
    lastY: real,
    firstMouse: bool)

  /** The globals' initial values. */
  function InitialState(): State {
    State(Vec3(1.0, 0.5, -0.4), NONE, false, 0.0, 0, 0.0, -90.0, 0.0, false, false, 250.0, 250.0, true)
  }

  /** The invariant the interaction layer keeps: the level stays within 0..4, the held
      index is NONE or a valid drinkable, drinking implies holding with time left, an
      expired intoxication timer means level 0, and the pitch is within ±89°. */
  predicate Inv(s: State, scene: Scene) {
    && 0 <= s.intoxicationLevel <= MAX_INTOXICATION
    && NONE <= s.heldDrinkableIndex < |scene.drinkables|
    && (s.isDrinking ==> s.heldDrinkableIndex != NONE && s.drinkingTimer > 0.0)
    && (s.intoxicationTimer <= 0.0 ==> s.intoxicationLevel == 0)
    && -PITCH_LIMIT <= s.pitch <= PITCH_LIMIT
  }

  // ---------------------------------------------------------------------------
  // The steps of one frame

  /** The pitch clamp applied after every mouse move and every shake. */
  function ClampPitch(p: real): (r: real)
    ensures -PITCH_LIMIT <= r <= PITCH_LIMIT
    ensures -PITCH_LIMIT <= p <= PITCH_LIMIT ==> r == p
    ensures p > PITCH_LIMIT ==> r == PITCH_LIMIT
    ensures p < -PITCH_LIMIT ==> r == -PITCH_LIMIT
  {
    var q := if p > PITCH_LIMIT then PITCH_LIMIT else p;
    if q < -PITCH_LIMIT then -PITCH_LIMIT else q
  }

  /** The intoxication countdown at the top of the frame loop. */
  function AfterIntoxicationDecay(s: State, dt: real): State {
    if s.intoxicationTimer > 0.0 then
      var timer := s.intoxicationTimer - dt;
      s.(intoxicationTimer := timer,
         intoxicationLevel := if timer <= 0.0 then 0 else s.intoxicationLevel)
    else s
  }

  /** The shake amplitude, which grows with the intoxication level. */
  function ShakeAmplitude(level: int): (amp: real)
    requires 0 <= level <= MAX_INTOXICATION
    ensures 0.15 <= amp <= 0.35
  {
    0.15 + 0.05 * level as real
  }

  /** The camera shake: while intoxicated, yaw and pitch are offset by the sine and
      cosine of the shake phase scaled by the amplitude, and the pitch is re-clamped. */
  function AfterCameraShake(s: State, shakeSin: real, shakeCos: real): State
    requires 0 <= s.intoxicationLevel <= MAX_INTOXICATION
  {
    if s.intoxicationLevel >= 1 then
      var amp := ShakeAmplitude(s.intoxicationLevel);
      s.(yaw := s.yaw + shakeSin * amp, pitch := ClampPitch(s.pitch + shakeCos * amp))
    else s
  }

  /** The drinking countdown: when it runs out, the bottle is put down, the level rises
      by one up to 4 and the intoxication timer restarts. */
  function AfterDrinkTimer(s: State, dt: real): State {
    if s.isDrinking then
      var timer := s.drinkingTimer - dt;
      if timer <= 0.0 then
        s.(drinkingTimer := timer, isDrinking := false, heldDrinkableIndex := NONE,
           intoxicationLevel := if 4 < s.intoxicationLevel + 1 then 4 else s.intoxicationLevel + 1,
           intoxicationTimer := INTOXICATION_DURATION)
      else s.(drinkingTimer := timer)
    else s
  }

  /** The net displacement along one movement axis from its two opposing keys: the
      step forwards, the step backwards, or nothing when both or neither are held. */
  function AxisStep(step: Vec3, plus: bool, minus: bool): Vec3 {
    if plus && !minus then step
    else if minus && !plus then Sub(Zero3, step)
    else Zero3
  }

  /** proposedPos: every pressed direction key adds its displacement, unnormalised, so
      two perpendicular keys together move further than one. */
  function ProposedPosition(pos: Vec3, speed: real, keys: Keys, frontNoY: Vec3, right: Vec3): Vec3 {
    var p0 := pos;
    var p1 := if keys.w then Add(p0, Scale(frontNoY, speed)) else p0;
    var p2 := if keys.s then Sub(p1, Scale(frontNoY, speed)) else p1;
    var p3 := if keys.a then Sub(p2, Scale(right, speed)) else p2;
    if keys.d then Add(p3, Scale(right, speed)) else p3
  }

  /** The movement gate: the whole proposed move is taken when the feet point is in no
      collider, and none of it otherwise. */
  function AfterMovement(s: State, colliders: seq<AABB>, dt: real, keys: Keys, frontNoY: Vec3, right: Vec3): State {
    var proposedPos := ProposedPosition(s.cameraPos, CAMERA_SPEED * dt, keys, frontNoY, right);
    if Blocked(colliders, Feet(proposedPos)) then s else s.(cameraPos := proposedPos)
  }

  /** The E key: on a rising edge while not drinking, pick up the focused drinkable if
      nothing is held, or drop the held one; the edge flag always records E. */
  function AfterPickUpKey(s: State, drinkables: seq<Drinkable>, ePressed: bool, rayDir: Vec3): State {
    var s1 :=
      if ePressed && !s.ePressedLastFrame && !s.isDrinking then
        if s.heldDrinkableIndex == NONE then
          var index := FirstInFocus(drinkables, s.cameraPos, rayDir, MAX_DISTANCE, RADIUS, 0);
          if index != NONE then s.(heldDrinkableIndex := index) else s
        else s.(heldDrinkableIndex := NONE)
      else s;
    s1.(ePressedLastFrame := ePressed)
  }

  /** The F key: on a rising edge, start drinking if something is held and no drink is
      under way; the edge flag always records F. */
  function AfterDrinkKey(s: State, fPressed: bool): State {
    var s1 :=
      if fPressed && !s.fPressedLastFrame && s.heldDrinkableIndex != NONE && !s.isDrinking then
        s.(isDrinking := true, drinkingTimer := DRINK_DURATION)
      else s;
    s1.(fPressedLastFrame := fPressed)
  }

  /** processInput: movement, then E, then F. */
  function AfterInput(s: State, scene: Scene, dt: real, c: Controls): State {
    var moved := AfterMovement(s, scene.colliders, dt, c.keys, c.frontNoY, c.right);
    var picked := AfterPickUpKey(moved, scene.drinkables, c.keys.e, c.rayDir);
    AfterDrinkKey(picked, c.keys.f)
  }

  /** One pass of the frame loop's state update. */
  function AfterFrame(s: State, scene: Scene, inp: FrameInput): State
    requires 0 <= s.intoxicationLevel <= MAX_INTOXICATION
  {
    var decayed := AfterIntoxicationDecay(s, inp.dt);
    var shaken := AfterCameraShake(decayed, inp.shakeSin, inp.shakeCos);
    var drunk := AfterDrinkTimer(shaken, inp.dt);
    AfterInput(drunk, scene, inp.dt, inp.controls)
  }

  /** mouse_callback: the first event only records the cursor; every event turns by
      the scaled cursor delta and clamps the pitch. */
  function AfterMouse(s: State, xpos: real, ypos: real): State {
    var lastX := if s.firstMouse then xpos else s.lastX;
    var lastY := if s.firstMouse then ypos else s.lastY;
    var xoffset := (xpos - lastX) * MOUSE_SENSITIVITY;
    var yoffset := (lastY - ypos) * MOUSE_SENSITIVITY;
    s.(firstMouse := false, lastX := xpos, lastY := ypos,
       yaw := s.yaw + xoffset, pitch := ClampPitch(s.pitch + yoffset))
  }

  /** A run of frames, each with its own input. */
  function AfterFrames(s: State, scene: Scene, inputs: seq<FrameInput>): State
    requires Inv(s, scene)
    decreases |inputs|
  {
    if inputs == [] then s
    else
      FramePreservesInv(s, scene, inputs[0]);
      AfterFrames(AfterFrame(s, scene, inputs[0]), scene, inputs[1..])
  }

  /** Total elapsed time of a run of frames. */
  function TotalTime(inputs: seq<FrameInput>): real {
    if inputs == [] then 0.0 else inputs[0].dt + TotalTime(inputs[1..])
  }

  // ---------------------------------------------------------------------------
  // The invariant

  lemma InitialStateValid(scene: Scene)
    ensures Inv(InitialState(), scene)
  {
  }

  lemma DecayPreservesInv(s: State, scene: Scene, dt: real)
    requires Inv(s, scene)
    ensures Inv(AfterIntoxicationDecay(s, dt), scene)
  {
  }

  lemma ShakePreservesInv(s: State, scene: Scene, shakeSin: real, shakeCos: real)
    requires Inv(s, scene)
    ensures Inv(AfterCameraShake(s, shakeSin, shakeCos), scene)
  {
  }

  lemma DrinkTimerPreservesInv(s: State, scene: Scene, dt: real)
    requires Inv(s, scene)
    ensures Inv(AfterDrinkTimer(s, dt), scene)
  {
  }

  lemma InputPreservesInv(s: State, scene: Scene, dt: real, c: Controls)
    requires Inv(s, scene)
    ensures Inv(AfterInput(s, scene, dt, c), scene)
  {
    var moved := AfterMovement(s, scene.colliders, dt, c.keys, c.frontNoY, c.right);
    MovementOnlyMoves(s, scene.colliders, dt, c.keys, c.frontNoY, c.right);
    assert Inv(moved, scene);
    var picked := AfterPickUpKey(moved, scene.drinkables, c.keys.e, c.rayDir);
    assert Inv(picked, scene);
  }

  /** The movement step changes the camera position and nothing else. */
  lemma MovementOnlyMoves(s: State, colliders: seq<AABB>, dt: real, keys: Keys, frontNoY: Vec3, right: Vec3)
    ensures var r := AfterMovement(s, colliders, dt, keys, frontNoY, right);
            r == s.(cameraPos := r.cameraPos)
  {
  }

  /** processInput leaves both intoxication fields alone. */
  lemma InputKeepsIntoxication(s: State, scene: Scene, dt: real, c: Controls)
    ensures AfterInput(s, scene, dt, c).intoxicationLevel == s.intoxicationLevel
    ensures AfterInput(s, scene, dt, c).intoxicationTimer == s.intoxicationTimer
  {
    MovementOnlyMoves(s, scene.colliders, dt, c.keys, c.frontNoY, c.right);
  }

  /** A whole frame keeps the invariant: in particular the level never leaves 0..4 and
      drinking always implies holding a bottle. */
  lemma FramePreservesInv(s: State, scene: Scene, inp: FrameInput)
    requires Inv(s, scene)
    ensures Inv(AfterFrame(s, scene, inp), scene)
  {
    var decayed := AfterIntoxicationDecay(s, inp.dt);
    DecayPreservesInv(s, scene, inp.dt);
    var shaken := AfterCameraShake(decayed, inp.shakeSin, inp.shakeCos);
    ShakePreservesInv(decayed, scene, inp.shakeSin, inp.shakeCos);
    var drunk := AfterDrinkTimer(shaken, inp.dt);
    DrinkTimerPreservesInv(shaken, scene, inp.dt);
    InputPreservesInv(drunk, scene, inp.dt, inp.controls);
  }

  /** Mouse events keep the invariant: the pitch stays within ±89°. */
  lemma MousePreservesInv(s: State, scene: Scene, xpos: real, ypos: real)
    requires Inv(s, scene)
    ensures Inv(AfterMouse(s, xpos, ypos), scene)
  {
  }

  // ---------------------------------------------------------------------------
  // Properties of single steps

  /** The intoxication countdown, seen across a whole frame in which no drink finishes:
      while the timer is positive it drops by dt, and when it reaches zero or below
      the level is reset to 0 outright, not decremented; an expired timer leaves both
      timer and level alone. */
  lemma IntoxicationCountdown(s: State, scene: Scene, inp: FrameInput)
    requires Inv(s, scene)
    requires !(s.isDrinking && s.drinkingTimer <= inp.dt)
    ensures var r := AfterFrame(s, scene, inp);
            && r.intoxicationTimer == (if s.intoxicationTimer > 0.0 then s.intoxicationTimer - inp.dt else s.intoxicationTimer)
            && r.intoxicationLevel == (if 0.0 < s.intoxicationTimer <= inp.dt then 0 else s.intoxicationLevel)
  {
    var drunk := AfterDrinkTimer(AfterCameraShake(AfterIntoxicationDecay(s, inp.dt), inp.shakeSin, inp.shakeCos), inp.dt);
    InputKeepsIntoxication(drunk, scene, inp.dt, inp.controls);
  }

  /** The drinking countdown on its own: a drink whose timer runs out within dt ends,
      the bottle is put down, the level rises by one (never beyond 4) and the
      intoxication timer restarts at 10 seconds; a drink with time left only counts
      down, and with no drink under way nothing changes. */
  lemma DrinkTimerRunsOut(s: State, dt: real)
    ensures var r := AfterDrinkTimer(s, dt);
            && (s.isDrinking && s.drinkingTimer <= dt ==>
                  && !r.isDrinking
                  && r.heldDrinkableIndex == NONE
                  && r.intoxicationLevel == (if s.intoxicationLevel >= MAX_INTOXICATION then MAX_INTOXICATION else s.intoxicationLevel + 1)
                  && r.intoxicationTimer == INTOXICATION_DURATION)
            && (s.isDrinking && s.drinkingTimer > dt ==> r == s.(drinkingTimer := s.drinkingTimer - dt))
            && (!s.isDrinking ==> r == s)
  {
  }

  /** Finishing a drink within a frame: the bottle is put down, the level rises by one
      from its value after the countdown (never beyond 4) and the intoxication timer
      restarts at 10 seconds. */
  lemma DrinkFinishes(s: State, scene: Scene, inp: FrameInput)
    requires Inv(s, scene)
    requires s.isDrinking && s.drinkingTimer <= inp.dt
    requires !inp.controls.keys.e && !inp.controls.keys.f
    ensures var levelBefore := AfterIntoxicationDecay(s, inp.dt).intoxicationLevel;
            var r := AfterFrame(s, scene, inp);
            && !r.isDrinking
            && r.heldDrinkableIndex == NONE
            && r.intoxicationLevel == (if levelBefore == MAX_INTOXICATION then MAX_INTOXICATION else levelBefore + 1)
            && r.intoxicationTimer == INTOXICATION_DURATION
  {
  }

  /** No partial or sliding moves: after processInput the camera is at the proposed
      position exactly when the feet point there is in no collider, and has not moved
      otherwise. */
  lemma MovementAllOrNothing(s: State, scene: Scene, dt: real, c: Controls)
    ensures var proposedPos := ProposedPosition(s.cameraPos, CAMERA_SPEED * dt, c.keys, c.frontNoY, c.right);
            var r := AfterInput(s, scene, dt, c);
            && (!Blocked(scene.colliders, Feet(proposedPos)) ==> r.cameraPos == proposedPos)
            && (Blocked(scene.colliders, Feet(proposedPos)) ==> r.cameraPos == s.cameraPos)
  {
  }

  /** The four sequential key tests add up to one step along each axis: forward or back
      along frontNoY when exactly one of W and S is down, right or left along `right`
      when exactly one of D and A is down, nothing on an axis otherwise. */
  lemma ProposedPositionIsSumOfSteps(pos: Vec3, speed: real, keys: Keys, frontNoY: Vec3, right: Vec3)
    ensures ProposedPosition(pos, speed, keys, frontNoY, right)
            == Add(pos, Add(AxisStep(Scale(frontNoY, speed), keys.w, keys.s), AxisStep(Scale(right, speed), keys.d, keys.a)))
  {
  }

  /** Opposite keys cancel, and with no direction key the proposal is the current
      position. */
  lemma OpposingKeysCancel(pos: Vec3, speed: real, keys: Keys, frontNoY: Vec3, right: Vec3)
    requires keys.w == keys.s && keys.a == keys.d
    ensures ProposedPosition(pos, speed, keys, frontNoY, right) == pos
  {
  }

  /** The E key after the move: a rising edge while not drinking drops a held bottle or
      takes the focused one (staying empty-handed when nothing is focused); E held down
      from the previous frame, or any E while drinking, leaves the held index alone. */
  lemma PickUpToggles(s: State, scene: Scene, dt: real, c: Controls)
    ensures var moved := AfterMovement(s, scene.colliders, dt, c.keys, c.frontNoY, c.right);
            var focus := FirstInFocus(scene.drinkables, moved.cameraPos, c.rayDir, MAX_DISTANCE, RADIUS, 0);
            var r := AfterInput(s, scene, dt, c);
            && (c.keys.e && !s.ePressedLastFrame && !s.isDrinking ==>
                  r.heldDrinkableIndex == (if s.heldDrinkableIndex == NONE then focus else NONE))
            && (!c.keys.e || s.ePressedLastFrame || s.isDrinking ==>
                  r.heldDrinkableIndex == s.heldDrinkableIndex)
            && r.ePressedLastFrame == c.keys.e
  {
  }

  /** The F key: drinking starts, with the timer at 3 seconds, exactly on a rising edge
      of F while a bottle is held (after the E step) and no drink is under way. */
  lemma DrinkStarts(s: State, scene: Scene, dt: real, c: Controls)
    ensures var moved := AfterMovement(s, scene.colliders, dt, c.keys, c.frontNoY, c.right);
            var picked := AfterPickUpKey(moved, scene.drinkables, c.keys.e, c.rayDir);
            var start := c.keys.f && !s.fPressedLastFrame && picked.heldDrinkableIndex != NONE && !s.isDrinking;
            var r := AfterInput(s, scene, dt, c);
            && r.isDrinking == (s.isDrinking || start)
            && (start ==> r.drinkingTimer == DRINK_DURATION)
            && (!start ==> r.drinkingTimer == s.drinkingTimer)
            && r.fPressedLastFrame == c.keys.f
  {
  }

  /** Press, release, press: the first press picks up the focused bottle and the
      second drops it again. */
  lemma PressReleasePressDrops(s: State, scene: Scene, press: FrameInput, release: FrameInput, pressAgain: FrameInput)
    requires Inv(s, scene)
    requires !s.isDrinking && s.heldDrinkableIndex == NONE && !s.ePressedLastFrame
    requires press.controls.keys.e && !release.controls.keys.e && pressAgain.controls.keys.e
    requires !press.controls.keys.f && !release.controls.keys.f && !pressAgain.controls.keys.f
    requires FirstInFocus(scene.drinkables, AfterMovement(s, scene.colliders, press.dt, press.controls.keys, press.controls.frontNoY, press.controls.right).cameraPos,
                          press.controls.rayDir, MAX_DISTANCE, RADIUS, 0) != NONE
    ensures AfterInput(s, scene, press.dt, press.controls).heldDrinkableIndex != NONE
    ensures AfterInput(AfterInput(s, scene, press.dt, press.controls), scene, release.dt, release.controls).heldDrinkableIndex
            == AfterInput(s, scene, press.dt, press.controls).heldDrinkableIndex
    ensures AfterInput(AfterInput(AfterInput(s, scene, press.dt, press.controls), scene, release.dt, release.controls), scene, pressAgain.dt, pressAgain.controls).heldDrinkableIndex == NONE
  {
    PickUpToggles(s, scene, press.dt, press.controls);
    var s1 := AfterInput(s, scene, press.dt, press.controls);
    PickUpToggles(s1, scene, release.dt, release.controls);
    var s2 := AfterInput(s1, scene, release.dt, release.controls);
    PickUpToggles(s2, scene, pressAgain.dt, pressAgain.controls);
  }

  /** The first mouse event only records the cursor position: yaw and pitch stay. */
  lemma FirstMouseEventDoesNotTurn(s: State, scene: Scene, xpos: real, ypos: real)
    requires Inv(s, scene)
    requires s.firstMouse
    ensures AfterMouse(s, xpos, ypos).yaw == s.yaw
    ensures AfterMouse(s, xpos, ypos).pitch == s.pitch
  {
  }

  /** A shake step never turns the camera by more than the amplitude of the current
      level, which itself grows with the level and never exceeds 0.35. */
  lemma ShakeIsBounded(s: State, scene: Scene, shakeSin: real, shakeCos: real)
    requires Inv(s, scene)
    requires -1.0 <= shakeSin <= 1.0
    ensures var r := AfterCameraShake(s, shakeSin, shakeCos);
            && (s.intoxicationLevel == 0 ==> r == s)
            && (s.intoxicationLevel >= 1 ==>
                  -ShakeAmplitude(s.intoxicationLevel) <= r.yaw - s.yaw <= ShakeAmplitude(s.intoxicationLevel))
  {
    if s.intoxicationLevel >= 1 {
      var amp := ShakeAmplitude(s.intoxicationLevel);
      assert amp > 0.0;
      ProductNonNegative(1.0 - shakeSin, amp);
      ProductNonNegative(1.0 + shakeSin, amp);
      assert AfterCameraShake(s, shakeSin, shakeCos).yaw - s.yaw == shakeSin * amp;
    }
  }

  /** The product of two non-negative reals is non-negative. */
  lemma ProductNonNegative(a: real, b: real)
    requires a >= 0.0 && b >= 0.0
    ensures a * b >= 0.0
  {
  }

  // ---------------------------------------------------------------------------
  // A whole drink

  /** A drink started with the full 3 seconds, followed by frames of positive length
      totalling exactly 3 seconds with E and F released, ends in the last of them: the
      bottle is put down, the intoxication timer restarts at 10 and the level is one
      above the starting level (at most 4) if the intoxication timer outlasts the drink,
      and 1 otherwise, because an expiring timer resets the level to 0 first. */
  lemma {:induction false} DrinkCompletesAfterDuration(s: State, scene: Scene, inputs: seq<FrameInput>)
    requires Inv(s, scene)
    requires s.isDrinking && s.drinkingTimer == TotalTime(inputs)
    requires forall k :: 0 <= k < |inputs| ==> inputs[k].dt > 0.0 && !inputs[k].controls.keys.e && !inputs[k].controls.keys.f
    ensures var r := AfterFrames(s, scene, inputs);
            && !r.isDrinking
            && r.heldDrinkableIndex == NONE
            && r.intoxicationTimer == INTOXICATION_DURATION
            && r.intoxicationLevel == (if s.intoxicationTimer > TotalTime(inputs)
                                       then (if s.intoxicationLevel == MAX_INTOXICATION then MAX_INTOXICATION else s.intoxicationLevel + 1)
                                       else 1)
    decreases |inputs|
  {
    if inputs == [] {
      assert false;
    } else {
      var inp := inputs[0];
      var rest := inputs[1..];
      FramePreservesInv(s, scene, inp);
      var s1 := AfterFrame(s, scene, inp);
      assert TotalTime(inputs) == inp.dt + TotalTime(rest);
      if rest == [] {
        DrinkFinishes(s, scene, inp);
        assert AfterFrames(s1, scene, rest) == s1;
      } else {
        TotalTimePositive(rest);
        assert s1.isDrinking && s1.drinkingTimer == TotalTime(rest);
        assert s1.intoxicationLevel == AfterIntoxicationDecay(s, inp.dt).intoxicationLevel;
        assert s1.intoxicationTimer == AfterIntoxicationDecay(s, inp.dt).intoxicationTimer;
        DrinkCompletesAfterDuration(s1, scene, rest);
      }
    }
  }

  /** A non-empty run of frames of positive length takes positive time. */
  lemma {:induction false} TotalTimePositive(inputs: seq<FrameInput>)
    requires inputs != []
    requires forall k :: 0 <= k < |inputs| ==> inputs[k].dt > 0.0
    ensures TotalTime(inputs) > 0.0
    decreases |inputs|
  {
    if inputs[1..] != [] {
      TotalTimePositive(inputs[1..]);
    }
  }
}
