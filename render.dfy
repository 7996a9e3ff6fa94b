/** The escape-room progression that sits on the camera: the card flags, the
    lighting and door switches, the per-frame keyboard poll, the cursor and
    scroll callbacks, and where collected cards are drawn. The program keeps
    these as process-wide globals; here they are the value `World`, and the
    functions on it specify the methods of the object `Globals.Game`. */
module Render {
  import opened Vec
  import opened CameraControl

  /** Window size in pixels; the cursor reference starts at its centre. */
  const SCR_WIDTH: real := 1280.0
  const SCR_HEIGHT: real := 720.0

  /** Where the game's camera is constructed. */
  const START_POSITION: Vec3 := Vec3(4.0, 6.0, 4.0)

  /** The candle is drawn this far along the view direction from the eye, and
      this much lower; the pickup test uses the drawn height. */
  const CANDLE_REACH: real := 0.1
  const CANDLE_OFFSET_Y: real := -0.02

  /** Where collected cards are shown, how they are turned, and where they are
      parked once hidden. */
  const CARD_DISPLAY_ANGLE: real := 90.0
  const CARD_DISPLAY_OFFSET: real := 100.0
  const HIDDEN_SLOT: Vec3 := Vec3(CARD_DISPLAY_OFFSET, CARD_DISPLAY_OFFSET, CARD_DISPLAY_OFFSET)

  /** Whether each key reads as pressed in one poll. A key reads either
      pressed or released, so one boolean per key. */
  datatype Keys = Keys(w: bool, s: bool, a: bool, d: bool, x: bool, z: bool,
                       o: bool, down: bool, up: bool, space: bool)

  datatype Card = Blue | Red | Green | Yellow

  /** An open axis-aligned box. */
  datatype Box = Box(lo: Vec3, hi: Vec3)

  /** The table of pickup boxes, one per card, in candle coordinates with the
      height already lowered by the candle offset. */
  function PickupBox(card: Card): Box {
    match card
    case Blue => Box(Vec3(-3.9, 0.01, -3.56), Vec3(-3.2, 0.10, -3.0))
    case Red => Box(Vec3(3.3, 0.9, -4.4), Vec3(3.9, 1.2, -3.9))
    case Green => Box(Vec3(-3.6, 4.4, -5.2), Vec3(-3.0, 5.2, -4.4))
    case Yellow => Box(Vec3(2.0, 0.4, 2.5), Vec3(2.6, 1.2, 3.2))
  }

  /** The candle position `p` finds `card`: strict bounds on every axis, on the
      height lowered by the candle offset. */
  predicate InPickup(card: Card, p: Vec3) {
    var b := PickupBox(card);
    var y := p.y + CANDLE_OFFSET_Y;
    b.lo.x < p.x < b.hi.x && b.lo.y < y < b.hi.y && b.lo.z < p.z < b.hi.z
  }

  /** The candle position the pickup test uses. */
  function CandlePos(c: CameraState): Vec3 {
    c.position.Plus(c.front.Times(CANDLE_REACH))
  }

  /** The progression globals. */
  datatype Progress = Progress(
    bluecard: bool, redcard: bool, greencard: bool, yellowcard: bool,
    nightmode: bool, opendoor: bool, displaycard: bool)

  const INITIAL_PROGRESS: Progress := Progress(false, false, false, false, true, false, true)

  function Found(p: Progress, card: Card): bool {
    match card
    case Blue => p.bluecard
    case Red => p.redcard
    case Green => p.greencard
    case Yellow => p.yellowcard
  }

  predicate AllFound(p: Progress) {
    p.bluecard && p.redcard && p.greencard && p.yellowcard
  }

  /** The cursor reference of the mouse callback. */
  datatype Mouse = Mouse(lastX: real, lastY: real, firstMouse: bool)

  const INITIAL_MOUSE: Mouse := Mouse(SCR_WIDTH / 2.0, SCR_HEIGHT / 2.0, true)

  /** Everything the input handlers read or write. */
  datatype World = World(camera: CameraState, progress: Progress, mouse: Mouse)

  /** The world at start-up, for a given basis recomputation. */
  function InitialWorld(orient: Orientation): World {
    World(NewCamera(START_POSITION, DEFAULT_WORLD_UP, CAM_YAW, CAM_PITCH, orient),
          INITIAL_PROGRESS, INITIAL_MOUSE)
  }

  /** A keyboard step taken only when its key is held. */
  function StepIf(held: bool, c: CameraState, direction: Movement, deltaTime: real): CameraState {
    if held then Keyboard(c, direction, deltaTime) else c
  }

  /** The letter keys of one poll, in the order they are read: W, S, A, D, X,
      Z. Each step starts from where the previous one left the camera. */
  function MoveLetters(c: CameraState, keys: Keys, deltaTime: real): CameraState {
    var c1 := StepIf(keys.w, c, Forward, deltaTime);
    var c2 := StepIf(keys.s, c1, Backward, deltaTime);
    var c3 := StepIf(keys.a, c2, Left, deltaTime);
    var c4 := StepIf(keys.d, c3, Right, deltaTime);
    var c5 := StepIf(keys.x, c4, Up, deltaTime);
    StepIf(keys.z, c5, Down, deltaTime)
  }

  /** The arrow keys, read after the letters: down, then up. */
  function MoveArrows(c: CameraState, keys: Keys, deltaTime: real): CameraState {
    StepIf(keys.up, StepIf(keys.down, c, Backward, deltaTime), Forward, deltaTime)
  }

  /** The movement part of one poll. */
  function MoveHeld(c: CameraState, keys: Keys, deltaTime: real): CameraState {
    MoveArrows(MoveLetters(c, keys, deltaTime), keys, deltaTime)
  }

  /** The pickup test of a SPACE press: each flag is raised when the candle is
      in its box; no flag is ever lowered. */
  function Pickup(p: Progress, candle: Vec3): (r: Progress)
    ensures forall card :: Found(r, card) == (Found(p, card) || InPickup(card, candle))
    ensures r.(bluecard := p.bluecard, redcard := p.redcard, greencard := p.greencard, yellowcard := p.yellowcard) == p
  {
    p.(bluecard := p.bluecard || InPickup(Blue, candle),
       redcard := p.redcard || InPickup(Red, candle),
       greencard := p.greencard || InPickup(Green, candle),
       yellowcard := p.yellowcard || InPickup(Yellow, candle))
  }

  /** The escape: lights on, door open, cards hidden. */
  function Escaped(p: Progress): Progress {
    p.(nightmode := false, opendoor := true, displaycard := false)
  }

  /** The SPACE part of a poll: the pickup test while it reads pressed, the win
      check while it reads released. */
  function AfterSpace(cam: CameraState, p: Progress, pressed: bool): (CameraState, Progress) {
    if pressed then (cam, Pickup(p, CandlePos(cam)))
    else if AllFound(p) then (cam.(freeCamMode := true), Escaped(p))
    else (cam, p)
  }

  /** One keyboard poll: movement, the O key driving the door, then SPACE. */
  function AfterInput(w: World, keys: Keys, deltaTime: real): World {
    var (cam, p) := AfterSpace(MoveHeld(w.camera, keys, deltaTime), w.progress.(opendoor := keys.o), keys.space);
    World(cam, p, w.mouse)
  }

  /** The cursor callback: the first sample only seeds the reference point;
      the offsets are the motion since the reference, y reversed; the pitch is
      always constrained. */
  function AfterCursor(w: World, orient: Orientation, xpos: real, ypos: real): World {
    var lastX := if w.mouse.firstMouse then xpos else w.mouse.lastX;
    var lastY := if w.mouse.firstMouse then ypos else w.mouse.lastY;
    World(MouseMovement(w.camera, xpos - lastX, lastY - ypos, true, orient),
          w.progress, Mouse(xpos, ypos, false))
  }

  /** The scroll callback. */
  function AfterScroll(w: World, yoffset: real): World {
    w.(camera := Scroll(w.camera, yoffset))
  }

  /** The events the program delivers to this core. */
  datatype Event =
    | InputPoll(keys: Keys, deltaTime: real)
    | CursorMoved(xpos: real, ypos: real)
    | Scrolled(yoffset: real)

  function Step(w: World, orient: Orientation, e: Event): World {
    match e
    case InputPoll(keys, deltaTime) => AfterInput(w, keys, deltaTime)
    case CursorMoved(xpos, ypos) => AfterCursor(w, orient, xpos, ypos)
    case Scrolled(yoffset) => AfterScroll(w, yoffset)
  }

  /** The world after a sequence of events, in order. */
  function Run(w: World, orient: Orientation, events: seq<Event>): World
    decreases |events|
  {
    if events == [] then w else Run(Step(w, orient, events[0]), orient, events[1..])
  }

  /** The model name under which a card is drawn. */
  function CardName(card: Card): string {
    match card
    case Blue => "blueCard"
    case Red => "redCard"
    case Green => "greenCard"
    case Yellow => "yellowCard"
  }

  /** The shelf slot where a collected card is shown. */
  function DisplaySlot(card: Card): Vec3 {
    match card
    case Red => Vec3(-4.32, 3.66, 3.29)
    case Yellow => Vec3(-4.32, 3.11, 3.29)
    case Blue => Vec3(-4.32, 3.70, 4.42)
    case Green => Vec3(-4.32, 3.09, 4.40)
  }

  /** The card a model name belongs to, if any. */
  function CardNamed(name: string): Option<Card> {
    if name == "blueCard" then Some(Blue)
    else if name == "redCard" then Some(Red)
    else if name == "greenCard" then Some(Green)
    else if name == "yellowCard" then Some(Yellow)
    else None
  }

  datatype Option<T> = None | Some(value: T)

  /** Position and angle a model is drawn with in one frame: a collected card
      goes to its shelf slot, turned, or far away once cards are hidden; other
      models keep theirs. An open door takes another branch that leaves them
      untouched. */
  function Placement(name: string, p: Progress, pos: Vec3, angle: real): (r: (Vec3, real))
    ensures CardNamed(name).Some? && Found(p, CardNamed(name).value) ==>
      r == (if p.displaycard then DisplaySlot(CardNamed(name).value) else HIDDEN_SLOT, CARD_DISPLAY_ANGLE)
    ensures !(CardNamed(name).Some? && Found(p, CardNamed(name).value)) ==> r == (pos, angle)
  {
    if name == "door" && p.opendoor then (pos, angle)
    else
      var (pos1, angle1) := if name == "redCard" && p.redcard
        then (if !p.displaycard then HIDDEN_SLOT else Vec3(-4.32, 3.66, 3.29), CARD_DISPLAY_ANGLE)
        else (pos, angle);
      var (pos2, angle2) := if name == "yellowCard" && p.yellowcard
        then (if !p.displaycard then HIDDEN_SLOT else Vec3(-4.32, 3.11, 3.29), CARD_DISPLAY_ANGLE)
        else (pos1, angle1);
      var (pos3, angle3) := if name == "blueCard" && p.bluecard
        then (if !p.displaycard then HIDDEN_SLOT else Vec3(-4.32, 3.70, 4.42), CARD_DISPLAY_ANGLE)
        else (pos2, angle2);
      if name == "greenCard" && p.greencard
        then (if !p.displaycard then HIDDEN_SLOT else Vec3(-4.32, 3.09, 4.40), CARD_DISPLAY_ANGLE)
        else (pos3, angle3)
  }

  /** The render loop's pass over the models, updating the positions and angles
      they are drawn with in place. */
  method PlaceModels(names: seq<string>, positions: array<Vec3>, angles: array<real>, p: Progress)
    requires |names| == positions.Length == angles.Length
    modifies positions, angles
    ensures forall i :: 0 <= i < |names| ==>
      (positions[i], angles[i]) == Placement(names[i], p, old(positions[i]), old(angles[i]))
  {
    var i := 0;
    while i < |names|
      invariant 0 <= i <= |names|
      invariant forall k :: 0 <= k < i ==>
        (positions[k], angles[k]) == Placement(names[k], p, old(positions[k]), old(angles[k]))
      invariant forall k :: i <= k < |names| ==> positions[k] == old(positions[k]) && angles[k] == old(angles[k])
    {
      var r := Placement(names[i], p, positions[i], angles[i]);
      positions[i] := r.0;
      angles[i] := r.1;
      i := i + 1;
    }
  }
}
