/** Properties of the progression rules: what one keyboard poll does to the
    flags, what the cursor callback passes on, and what holds after any
    sequence of events from start-up. */
module RenderProps {
  import opened Vec
  import opened CameraControl
  import opened CameraProps
  import opened Render

  /** The start-up state: night, no cards, cards shown, door shut, bounded
      camera inside the room. */
  lemma InitialWorldState(orient: Orientation)
    ensures var w := InitialWorld(orient);
      && w.progress == Progress(false, false, false, false, true, false, true)
      && !w.camera.freeCamMode
      && InsideRoom(w.camera.position)
      && w.mouse.firstMouse
  {
  }

  // ---------------------------------------------------------------------
  // Movement inside a poll

  lemma StepIfAcceptance(held: bool, c: CameraState, direction: Movement, deltaTime: real)
    ensures var r := StepIf(held, c, direction, deltaTime);
      r.(position := c.position) == c && (!c.freeCamMode && InsideRoom(c.position) ==> InsideRoom(r.position))
  {
    KeyboardAcceptance(c, direction, deltaTime);
  }

  lemma MoveLettersKeepsInside(c: CameraState, keys: Keys, deltaTime: real)
    ensures var r := MoveLetters(c, keys, deltaTime);
      r.(position := c.position) == c && (!c.freeCamMode && InsideRoom(c.position) ==> InsideRoom(r.position))
  {
    var c1 := StepIf(keys.w, c, Forward, deltaTime);
    StepIfAcceptance(keys.w, c, Forward, deltaTime);
    var c2 := StepIf(keys.s, c1, Backward, deltaTime);
    StepIfAcceptance(keys.s, c1, Backward, deltaTime);
    var c3 := StepIf(keys.a, c2, Left, deltaTime);
    StepIfAcceptance(keys.a, c2, Left, deltaTime);
    var c4 := StepIf(keys.d, c3, Right, deltaTime);
    StepIfAcceptance(keys.d, c3, Right, deltaTime);
    var c5 := StepIf(keys.x, c4, Up, deltaTime);
    StepIfAcceptance(keys.x, c4, Up, deltaTime);
    StepIfAcceptance(keys.z, c5, Down, deltaTime);
  }

  /** The movement keys of a poll change only the position, and a bounded
      camera inside the room is still inside afterwards. */
  lemma MoveHeldKeepsInside(c: CameraState, keys: Keys, deltaTime: real)
    ensures var r := MoveHeld(c, keys, deltaTime);
      r.(position := c.position) == c && (!c.freeCamMode && InsideRoom(c.position) ==> InsideRoom(r.position))
  {
    MoveLettersKeepsInside(c, keys, deltaTime);
    var c6 := MoveLetters(c, keys, deltaTime);
    StepIfAcceptance(keys.down, c6, Backward, deltaTime);
    StepIfAcceptance(keys.up, StepIf(keys.down, c6, Backward, deltaTime), Forward, deltaTime);
  }

  /** A poll with no time elapsed does not move the camera. */
  lemma MoveHeldZeroTime(c: CameraState, keys: Keys)
    ensures MoveHeld(c, keys, 0.0) == c
  {
    ZeroTimeStepIsIdentity(c, Forward);
    ZeroTimeStepIsIdentity(c, Backward);
    ZeroTimeStepIsIdentity(c, Left);
    ZeroTimeStepIsIdentity(c, Right);
    ZeroTimeStepIsIdentity(c, Up);
    ZeroTimeStepIsIdentity(c, Down);
    assert MoveLetters(c, keys, 0.0) == c;
  }

  // ---------------------------------------------------------------------
  // SPACE pressed: the pickup test

  /** The four pickup boxes are pairwise disjoint. */
  lemma PickupBoxesDisjoint(p: Vec3, c1: Card, c2: Card)
    requires c1 != c2
    ensures !(InPickup(c1, p) && InPickup(c2, p))
  {
  }

  /** With SPACE pressed, each card flag becomes true exactly when it was
      already true or the candle, taken after this poll's movement, is in that
      card's box; lights, card display and free-fly mode are untouched, and the
      door follows the O key. */
  lemma PickupPoll(w: World, keys: Keys, deltaTime: real)
    requires keys.space
    ensures var r := AfterInput(w, keys, deltaTime);
      var candle := CandlePos(MoveHeld(w.camera, keys, deltaTime));
      && (forall card :: Found(r.progress, card) <==> Found(w.progress, card) || InPickup(card, candle))
      && r.progress.nightmode == w.progress.nightmode
      && r.progress.displaycard == w.progress.displaycard
      && r.progress.opendoor == keys.o
      && r.camera.freeCamMode == w.camera.freeCamMode
  {
    MoveHeldKeepsInside(w.camera, keys, deltaTime);
  }

  /** The blue card, spelled out: a SPACE press finds it exactly when the
      candle lies strictly inside x in (-3.9, -3.2), lowered height in
      (0.01, 0.10) and z in (-3.56, -3.0). */
  lemma BlueCardPickup(w: World, keys: Keys, deltaTime: real)
    requires keys.space && !w.progress.bluecard
    ensures var candle := CandlePos(MoveHeld(w.camera, keys, deltaTime));
      AfterInput(w, keys, deltaTime).progress.bluecard
      <==> (-3.9 < candle.x < -3.2 && 0.01 < candle.y - 0.02 < 0.10 && -3.56 < candle.z < -3.0)
  {
  }

  /** One SPACE press newly finds at most one card. */
  lemma AtMostOneNewCard(w: World, keys: Keys, deltaTime: real, c1: Card, c2: Card)
    requires keys.space
    requires !Found(w.progress, c1) && Found(AfterInput(w, keys, deltaTime).progress, c1)
    requires !Found(w.progress, c2) && Found(AfterInput(w, keys, deltaTime).progress, c2)
    ensures c1 == c2
  {
    var candle := CandlePos(MoveHeld(w.camera, keys, deltaTime));
    PickupPoll(w, keys, deltaTime);
    if c1 != c2 {
      PickupBoxesDisjoint(candle, c1, c2);
    }
  }

  // ---------------------------------------------------------------------
  // SPACE released: the win check

  /** With SPACE released and all four cards found, the poll turns the lights
      on, opens the door, hides the cards and frees the camera. */
  lemma EscapePoll(w: World, keys: Keys, deltaTime: real)
    requires !keys.space && AllFound(w.progress)
    ensures var r := AfterInput(w, keys, deltaTime);
      && r.progress == Progress(true, true, true, true, false, true, false)
      && r.camera.freeCamMode
  {
  }

  /** The win check runs on every poll in which SPACE reads released; once the
      escape has happened, repeating such a poll changes no flag and no mode. */
  lemma EscapeRepeatChangesNothing(w: World, keys: Keys, deltaTime: real)
    requires !keys.space && AllFound(w.progress)
    ensures var r := AfterInput(w, keys, deltaTime);
      var r2 := AfterInput(r, keys, deltaTime);
      r2.progress == r.progress && r2.camera.freeCamMode == r.camera.freeCamMode
  {
    MoveHeldKeepsInside(AfterInput(w, keys, deltaTime).camera, keys, deltaTime);
  }

  /** With no time elapsed the repeated poll leaves the whole world as it was. */
  lemma EscapeRepeatStill(w: World, keys: Keys)
    requires !keys.space && AllFound(w.progress)
    ensures var r := AfterInput(w, keys, 0.0);
      AfterInput(r, keys, 0.0) == r
  {
    MoveHeldZeroTime(w.camera, keys);
    MoveHeldZeroTime(AfterInput(w, keys, 0.0).camera, keys);
  }

  /** With SPACE released and a card still missing, lights, card display and
      free-fly mode stay as they were and the door follows the O key. */
  lemma NoEscapeYet(w: World, keys: Keys, deltaTime: real)
    requires !keys.space && !AllFound(w.progress)
    ensures var r := AfterInput(w, keys, deltaTime);
      && r.progress == w.progress.(opendoor := keys.o)
      && r.camera.freeCamMode == w.camera.freeCamMode
  {
    MoveHeldKeepsInside(w.camera, keys, deltaTime);
  }

  /** The door after a poll is open exactly when O reads pressed or the win
      check fires in the same poll; with SPACE held it can therefore be shut
      again after the escape. */
  lemma DoorRule(w: World, keys: Keys, deltaTime: real)
    ensures AfterInput(w, keys, deltaTime).progress.opendoor
        <==> keys.o || (!keys.space && AllFound(w.progress))
  {
  }

  // ---------------------------------------------------------------------
  // The cursor callback

  /** The first cursor sample only seeds the reference point: the rotation it
      applies has zero offsets, so yaw is unchanged and a pitch in range stays. */
  lemma FirstCursorOnlySeeds(w: World, orient: Orientation, xpos: real, ypos: real)
    requires w.mouse.firstMouse
    ensures var r := AfterCursor(w, orient, xpos, ypos);
      && r.camera == MouseMovement(w.camera, 0.0, 0.0, true, orient)
      && r.camera.yaw == w.camera.yaw
      && (-PITCH_MAX <= w.camera.pitch <= PITCH_MAX ==> r.camera.pitch == w.camera.pitch)
      && r.camera.position == w.camera.position
      && r.mouse == Mouse(xpos, ypos, false)
  {
  }

  /** Later samples rotate by the motion since the stored reference, with the
      vertical axis reversed, and store the new sample. */
  lemma LaterCursorOffsets(w: World, orient: Orientation, xpos: real, ypos: real)
    requires !w.mouse.firstMouse
    ensures var r := AfterCursor(w, orient, xpos, ypos);
      && r.camera == MouseMovement(w.camera, xpos - w.mouse.lastX, w.mouse.lastY - ypos, true, orient)
      && r.camera.yaw == w.camera.yaw + (xpos - w.mouse.lastX) * w.camera.mouseSensitivity
      && r.mouse == Mouse(xpos, ypos, false)
  {
  }

  // ---------------------------------------------------------------------
  // Whole runs

  /** What holds of the world at every point of a run from start-up: pitch and
      zoom in their ranges, the basis matching the angles, a bounded camera
      inside the room, and lights, card display and free-fly mode switched
      together and only after all four cards were found. */
  ghost predicate Playable(w: World, orient: Orientation) {
    && -PITCH_MAX <= w.camera.pitch <= PITCH_MAX
    && ZOOM_MIN <= w.camera.zoom <= ZOOM_MAX
    && BasisFresh(w.camera, orient)
    && (!w.camera.freeCamMode ==> InsideRoom(w.camera.position))
    && w.camera.freeCamMode == !w.progress.nightmode
    && w.progress.displaycard == w.progress.nightmode
    && (!w.progress.nightmode ==> AllFound(w.progress))
  }

  lemma InitialPlayable(orient: Orientation)
    ensures Playable(InitialWorld(orient), orient)
  {
  }

  lemma StepKeepsPlayable(w: World, orient: Orientation, e: Event)
    requires Playable(w, orient)
    ensures Playable(Step(w, orient, e), orient)
  {
    match e
    case InputPoll(keys, deltaTime) => MoveHeldKeepsInside(w.camera, keys, deltaTime);
    case CursorMoved(xpos, ypos) =>
    case Scrolled(yoffset) =>
  }

  /** Every world reached from a playable one is playable, whatever the
      events: in particular pitch stays in [-89, 89], zoom in [1, 90], and a
      camera not in free-fly mode never leaves the room. */
  lemma {:induction false} RunKeepsPlayable(w: World, orient: Orientation, events: seq<Event>)
    requires Playable(w, orient)
    ensures Playable(Run(w, orient, events), orient)
    decreases |events|
  {
    if events != [] {
      StepKeepsPlayable(w, orient, events[0]);
      RunKeepsPlayable(Step(w, orient, events[0]), orient, events[1..]);
    }
  }

  lemma StepKeepsCards(w: World, orient: Orientation, e: Event, card: Card)
    requires Found(w.progress, card)
    ensures Found(Step(w, orient, e).progress, card)
  {
  }

  /** A found card is never lost, whatever the events. */
  lemma {:induction false} CardsNeverLost(w: World, orient: Orientation, events: seq<Event>, card: Card)
    requires Found(w.progress, card)
    ensures Found(Run(w, orient, events).progress, card)
    decreases |events|
  {
    if events != [] {
      StepKeepsCards(w, orient, events[0], card);
      CardsNeverLost(Step(w, orient, events[0]), orient, events[1..], card);
    }
  }

  // ---------------------------------------------------------------------
  // The low cards are out of reach

  /** The one fact about the basis recomputation this part relies on: the front
      vector's height is at least -1, as for any normalised vector. */
  ghost predicate FrontNotBelowUnit(orient: Orientation) {
    forall yaw: real, pitch: real, worldUp: Vec3 :: -1.0 <= orient(yaw, pitch, worldUp).front.y
  }

  /** A camera inside the room, looking no more than straight down, holds the
      candle at height at least 1.4, above the blue, red and yellow boxes. */
  lemma LowCardsOutOfReach(c: CameraState)
    requires InsideRoom(c.position) && -1.0 <= c.front.y
    ensures !InPickup(Blue, CandlePos(c)) && !InPickup(Red, CandlePos(c)) && !InPickup(Yellow, CandlePos(c))
  {
  }

  /** The world before the escape, with the blue, red and yellow cards still
      missing. */
  ghost predicate Stuck(w: World, orient: Orientation) {
    && FrontNotBelowUnit(orient)
    && !w.camera.freeCamMode
    && InsideRoom(w.camera.position)
    && -1.0 <= w.camera.front.y
    && !w.progress.bluecard && !w.progress.redcard && !w.progress.yellowcard
    && w.progress.nightmode && w.progress.displaycard
  }

  lemma StepKeepsStuck(w: World, orient: Orientation, e: Event)
    requires Stuck(w, orient)
    ensures Stuck(Step(w, orient, e), orient)
  {
    match e
    case InputPoll(keys, deltaTime) =>
      var cam := MoveHeld(w.camera, keys, deltaTime);
      MoveHeldKeepsInside(w.camera, keys, deltaTime);
      LowCardsOutOfReach(cam);
    case CursorMoved(xpos, ypos) =>
      var r := AfterCursor(w, orient, xpos, ypos);
      assert Basis(r.camera.front, r.camera.right, r.camera.up) == orient(r.camera.yaw, r.camera.pitch, r.camera.worldUp);
    case Scrolled(yoffset) =>
  }

  lemma {:induction false} RunKeepsStuck(w: World, orient: Orientation, events: seq<Event>)
    requires Stuck(w, orient)
    ensures Stuck(Run(w, orient, events), orient)
    decreases |events|
  {
    if events != [] {
      StepKeepsStuck(w, orient, events[0]);
      RunKeepsStuck(Step(w, orient, events[0]), orient, events[1..]);
    }
  }

  /** From start-up, whatever keys, cursor motion and scrolling follow, the blue,
      red and yellow cards are never found, so the lights never come on, the
      cards stay shown and the camera never leaves bounded mode: the pickup
      boxes of those three cards lie below the lowest candle height the room
      box allows, and only the escape enables free-fly mode. */
  lemma EscapeUnreachable(orient: Orientation, events: seq<Event>)
    requires FrontNotBelowUnit(orient)
    ensures var w := Run(InitialWorld(orient), orient, events);
      && !w.progress.bluecard && !w.progress.redcard && !w.progress.yellowcard
      && w.progress.nightmode && w.progress.displaycard && !w.camera.freeCamMode
  {
    var w0 := InitialWorld(orient);
    assert Basis(w0.camera.front, w0.camera.right, w0.camera.up) == orient(CAM_YAW, CAM_PITCH, DEFAULT_WORLD_UP);
    RunKeepsStuck(w0, orient, events);
  }

  // ---------------------------------------------------------------------
  // Card placement

  /** Each card's model name maps back to that card. */
  lemma CardNamesRoundTrip(card: Card)
    ensures CardNamed(CardName(card)) == Some(card)
  {
  }

  /** After the escape every card is parked at the hidden slot, turned. */
  lemma EscapeHidesCards(card: Card, p: Progress, pos: Vec3, angle: real)
    requires AllFound(p)
    ensures Placement(CardName(card), Escaped(p), pos, angle) == (HIDDEN_SLOT, CARD_DISPLAY_ANGLE)
  {
  }

  /** Models that are not cards, the door included, keep their position and angle. */
  lemma NonCardsStay(name: string, p: Progress, pos: Vec3, angle: real)
    requires CardNamed(name).None?
    ensures Placement(name, p, pos, angle) == (pos, angle)
  {
  }
}
