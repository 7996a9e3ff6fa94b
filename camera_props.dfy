/** Properties of the camera model that relate several calls or tie the
    handlers to the constants. */
module CameraProps {
  import opened Vec
  import opened CameraControl

  /** The room box is non-empty: its corners are ordered on every axis and
      both corners belong to it. */
  lemma RoomBoxNonEmpty()
    ensures ROOM_MIN.x < ROOM_MAX.x && ROOM_MIN.y < ROOM_MAX.y && ROOM_MIN.z < ROOM_MAX.z
    ensures InsideRoom(ROOM_MIN) && InsideRoom(ROOM_MAX)
  {
  }

  /** A camera built with the default pitch starts in bounded mode, with pitch
      and zoom inside their clamp ranges, moving at the default speed. */
  lemma DefaultsInRange(position: Vec3, worldUp: Vec3, yaw: real, orient: Orientation)
    ensures var c := NewCamera(position, worldUp, yaw, CAM_PITCH, orient);
      -PITCH_MAX <= c.pitch <= PITCH_MAX && ZOOM_MIN <= c.zoom <= ZOOM_MAX && !c.freeCamMode
      && c.movementSpeed == CAM_SPEED
  {
  }

  /** The acceptance rule of a keyboard step: only the position changes; free-fly
      mode takes every candidate; in bounded mode a candidate inside the room is
      taken and one outside it on any axis leaves the camera exactly as it was,
      with no clamping of the other axes; so a bounded camera in the room stays
      in the room. */
  lemma KeyboardAcceptance(c: CameraState, direction: Movement, deltaTime: real)
    ensures var r := Keyboard(c, direction, deltaTime);
      var candidate := Candidate(c, direction, deltaTime);
      && r.(position := c.position) == c
      && (c.freeCamMode ==> r.position == candidate)
      && (!c.freeCamMode && InsideRoom(candidate) ==> r.position == candidate)
      && (!c.freeCamMode && !InsideRoom(candidate) ==> r == c)
      && (!c.freeCamMode && InsideRoom(c.position) ==> InsideRoom(r.position))
  {
  }

  /** Adding a reversed vector scaled by `k` is subtracting the vector scaled by `k`. */
  lemma PlusReversed(p: Vec3, a: Vec3, k: real)
    ensures p.Plus(a.Times(-1.0).Times(k)) == p.Minus(a.Times(k))
  {
    assert (a.x * -1.0) * k == -(a.x * k);
    assert (a.y * -1.0) * k == -(a.y * k);
    assert (a.z * -1.0) * k == -(a.z * k);
  }

  /** In free-fly mode a step moves the camera by speed times time along the
      heading of the command. */
  lemma FreeStepAlongHeading(c: CameraState, direction: Movement, deltaTime: real)
    requires c.freeCamMode
    ensures Keyboard(c, direction, deltaTime).position
         == c.position.Plus(Heading(c, direction).Times(c.movementSpeed * deltaTime))
  {
    var v := c.movementSpeed * deltaTime;
    assert Keyboard(c, direction, deltaTime).position == Candidate(c, direction, deltaTime);
    match direction
    case Forward =>
    case Right =>
    case Up =>
    case Backward =>
      assert Candidate(c, Backward, deltaTime) == c.position.Minus(c.front.Times(v));
      PlusReversed(c.position, c.front, v);
    case Left =>
      assert Candidate(c, Left, deltaTime) == c.position.Minus(c.right.Times(v));
      PlusReversed(c.position, c.right, v);
    case Down =>
      assert Candidate(c, Down, deltaTime) == c.position.Minus(c.worldUp.Times(v));
      PlusReversed(c.position, c.worldUp, v);
  }

  /** With no time elapsed a step changes nothing, in either mode, even when the
      camera is outside the room. */
  lemma ZeroTimeStepIsIdentity(c: CameraState, direction: Movement)
    ensures Keyboard(c, direction, 0.0) == c
  {
    assert Candidate(c, direction, 0.0) == c.position;
  }

  /** Moving by `a * k` and then back by the same amount returns to `p`. */
  lemma BackAndForth(p: Vec3, a: Vec3, k: real)
    ensures p.Plus(a.Times(k)).Minus(a.Times(k)) == p
    ensures p.Minus(a.Times(k)).Plus(a.Times(k)) == p
  {
  }

  /** The opposite command proposes, from the candidate, the old position:
      one lemma per command keeps each proof small. */
  lemma UndoForward(c: CameraState, deltaTime: real)
    ensures Candidate(c.(position := Candidate(c, Forward, deltaTime)), Backward, deltaTime) == c.position
  {
    BackAndForth(c.position, c.front, c.movementSpeed * deltaTime);
  }

  lemma UndoBackward(c: CameraState, deltaTime: real)
    ensures Candidate(c.(position := Candidate(c, Backward, deltaTime)), Forward, deltaTime) == c.position
  {
    BackAndForth(c.position, c.front, c.movementSpeed * deltaTime);
  }

  lemma UndoLeft(c: CameraState, deltaTime: real)
    ensures Candidate(c.(position := Candidate(c, Left, deltaTime)), Right, deltaTime) == c.position
  {
    BackAndForth(c.position, c.right, c.movementSpeed * deltaTime);
  }

  lemma UndoRight(c: CameraState, deltaTime: real)
    ensures Candidate(c.(position := Candidate(c, Right, deltaTime)), Left, deltaTime) == c.position
  {
    BackAndForth(c.position, c.right, c.movementSpeed * deltaTime);
  }

  lemma UndoUp(c: CameraState, deltaTime: real)
    ensures Candidate(c.(position := Candidate(c, Up, deltaTime)), Down, deltaTime) == c.position
  {
    BackAndForth(c.position, c.worldUp, c.movementSpeed * deltaTime);
  }

  lemma UndoDown(c: CameraState, deltaTime: real)
    ensures Candidate(c.(position := Candidate(c, Down, deltaTime)), Up, deltaTime) == c.position
  {
    BackAndForth(c.position, c.worldUp, c.movementSpeed * deltaTime);
  }

  lemma OppositeCandidate(c: CameraState, direction: Movement, deltaTime: real)
    ensures Candidate(c.(position := Candidate(c, direction, deltaTime)), Opposite(direction), deltaTime) == c.position
  {
    match direction
    case Forward => UndoForward(c, deltaTime);
    case Backward => UndoBackward(c, deltaTime);
    case Left => UndoLeft(c, deltaTime);
    case Right => UndoRight(c, deltaTime);
    case Up => UndoUp(c, deltaTime);
    case Down => UndoDown(c, deltaTime);
  }

  /** An accepted step is undone by the opposite command taken for the same time. */
  lemma OppositeStepUndoes(c: CameraState, direction: Movement, deltaTime: real)
    requires c.freeCamMode || (InsideRoom(c.position) && InsideRoom(Candidate(c, direction, deltaTime)))
    ensures Keyboard(Keyboard(c, direction, deltaTime), Opposite(direction), deltaTime) == c
  {
    OppositeCandidate(c, direction, deltaTime);
  }

  /** The hand anchor moves with the camera: a step displaces it by exactly the
      displacement of the position. */
  lemma HandFollowsStep(c: CameraState, direction: Movement, deltaTime: real)
    ensures var r := Keyboard(c, direction, deltaTime);
      HandAnchor(r) == HandAnchor(c).Plus(r.position.Minus(c.position))
  {
  }

  /** Flipping free-fly mode twice restores the camera. */
  lemma ToggleTwiceRestores(c: CameraState)
    ensures ToggleFree(ToggleFree(c)) == c
  {
  }
}
