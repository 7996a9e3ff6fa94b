/** The program's globals as one object: the game camera, the progression
    flags and the cursor reference, updated in place by the keyboard poll and
    the two callbacks. Each method is proved against the function on `World`
    that specifies it, and keeps the game invariant `Playable`. */
module Globals {
  import opened Vec
  import opened CameraControl
  import opened Render
  import opened RenderProps

  class Game {
    const camera: Camera
    var bluecard: bool
    var redcard: bool
    var greencard: bool
    var yellowcard: bool
    var nightmode: bool
    var opendoor: bool
    var displaycard: bool
    var lastX: real
    var lastY: real
    var firstMouse: bool

    function State(): World
      reads this, camera
    {
      World(camera.State(), Flags(), Mouse(lastX, lastY, firstMouse))
    }

    function Flags(): Progress
      reads this
    {
      Progress(bluecard, redcard, greencard, yellowcard, nightmode, opendoor, displaycard)
    }

    /** The camera keeps its own invariant, and the whole game is playable:
        pitch and zoom in range, a bounded camera in the room, and lights,
        card display and free-fly mode switched together after all cards. */
    ghost predicate Valid()
      reads this, camera
    {
      camera.Valid() && Playable(State(), camera.orient)
    }

    constructor (orient: Orientation)
      ensures fresh(camera) && camera.orient == orient
      ensures State() == InitialWorld(orient)
      ensures Valid()
    {
      camera := new Camera(orient, START_POSITION);
      bluecard, redcard, greencard, yellowcard := false, false, false, false;
      nightmode, opendoor, displaycard := true, false, true;
      lastX, lastY, firstMouse := SCR_WIDTH / 2.0, SCR_HEIGHT / 2.0, true;
      new;
      InitialPlayable(orient);
    }

    /** One poll of the keyboard. */
    method ProcessInput(keys: Keys, deltaTime: real)
      requires Valid()
      modifies this, camera
      ensures State() == AfterInput(old(State()), keys, deltaTime)
      ensures Valid()
    {
      ghost var w := State();
      Poll(keys, deltaTime);
      StepKeepsPlayable(w, camera.orient, InputPoll(keys, deltaTime));
    }

    /** The key tests of one poll, in the program's order. */
    method Poll(keys: Keys, deltaTime: real)
      requires camera.Valid()
      modifies this, camera
      ensures State() == AfterInput(old(State()), keys, deltaTime)
    {
      ghost var mouse := Mouse(lastX, lastY, firstMouse);
      PollLetters(keys, deltaTime);
      PollDoor(keys.o);
      PollArrows(keys, deltaTime);
      PollSpace(keys.space);
      assert Mouse(lastX, lastY, firstMouse) == mouse;
    }

    /** The movement keys read before O. */
    method PollLetters(keys: Keys, deltaTime: real)
      requires camera.Valid()
      modifies camera`position
      ensures camera.State() == MoveLetters(old(camera.State()), keys, deltaTime)
      ensures camera.Valid()
    {
      PollMove(keys.w, Forward, deltaTime);
      PollMove(keys.s, Backward, deltaTime);
      PollMove(keys.a, Left, deltaTime);
      PollMove(keys.d, Right, deltaTime);
      PollMove(keys.x, Up, deltaTime);
      PollMove(keys.z, Down, deltaTime);
    }

    /** The movement keys read after O. */
    method PollArrows(keys: Keys, deltaTime: real)
      requires camera.Valid()
      modifies camera`position
      ensures camera.State() == MoveArrows(old(camera.State()), keys, deltaTime)
      ensures camera.Valid()
    {
      PollMove(keys.down, Backward, deltaTime);
      PollMove(keys.up, Forward, deltaTime);
    }

    /** The O key: the door is open exactly while it reads pressed. */
    method PollDoor(pressed: bool)
      modifies this`opendoor
      ensures opendoor == pressed
    {
      if pressed { opendoor := true; }
      if !pressed { opendoor := false; }
    }

    /** The SPACE key: the pickup test while it reads pressed, the win check
        while it reads released. */
    method PollSpace(pressed: bool)
      modifies this`bluecard, this`redcard, this`greencard, this`yellowcard,
        this`nightmode, this`opendoor, this`displaycard, camera`freeCamMode
      ensures (camera.State(), Flags()) == AfterSpace(old(camera.State()), old(Flags()), pressed)
    {
      if pressed {
        var candlePos := camera.position.Plus(camera.front.Times(CANDLE_REACH));
        if InPickup(Blue, candlePos) { bluecard := true; }
        if InPickup(Red, candlePos) { redcard := true; }
        if InPickup(Green, candlePos) { greencard := true; }
        if InPickup(Yellow, candlePos) { yellowcard := true; }
      }
      if !pressed {
        if bluecard && redcard && greencard && yellowcard {
          nightmode := false;
          camera.freeCamMode := true;
          opendoor := true;
          displaycard := false;
        }
      }
    }

    /** One movement key of the poll: the camera steps when the key is held. */
    method PollMove(held: bool, direction: Movement, deltaTime: real)
      requires camera.Valid()
      modifies camera`position
      ensures camera.State() == StepIf(held, old(camera.State()), direction, deltaTime)
      ensures camera.Valid()
    {
      if held { camera.ProcessKeyboard(direction, deltaTime); }
    }

    /** The cursor callback. */
    method MouseCallback(xpos: real, ypos: real)
      requires Valid()
      modifies this, camera
      ensures State() == AfterCursor(old(State()), camera.orient, xpos, ypos)
      ensures Valid()
    {
      ghost var w := State();
      if firstMouse {
        lastX := xpos;
        lastY := ypos;
        firstMouse := false;
      }
      var xoffset := xpos - lastX;
      var yoffset := lastY - ypos;
      lastX := xpos;
      lastY := ypos;
      camera.ProcessMouseMovement(xoffset, yoffset);
      StepKeepsPlayable(w, camera.orient, CursorMoved(xpos, ypos));
    }

    /** The scroll callback. */
    method ScrollCallback(yoffset: real)
      requires Valid()
      modifies camera
      ensures State() == AfterScroll(old(State()), yoffset)
      ensures Valid()
    {
      ghost var w := State();
      camera.ProcessMouseScroll(yoffset);
      StepKeepsPlayable(w, camera.orient, Scrolled(yoffset));
    }
  }
}
