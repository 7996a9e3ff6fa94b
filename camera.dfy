/** The first-person camera: its state, the three input handlers that update it,
    the room box that bounds it while not in free-fly mode, and the hand anchor.
    Each handler is specified by a function on `CameraState`; the class `Camera`
    holds the same fields and updates them in place. */
module CameraControl {
  import opened Vec

  /** The six movement commands a key can issue. */
  datatype Movement = Forward | Backward | Left | Right | Up | Down

  const CAM_YAW: real := -90.0
  const CAM_PITCH: real := 0.0
  const CAM_SPEED: real := 5.0
  const CAM_SENSITIVITY: real := 0.1
  const CAM_ZOOM: real := 45.0

  /** Corners of the playable room, both inclusive. */
  const ROOM_MIN: Vec3 := Vec3(-4.0, 1.5, -4.9)
  const ROOM_MAX: Vec3 := Vec3(4.4, 7.0, 5.2)

  const PITCH_MAX: real := 89.0
  const ZOOM_MIN: real := 1.0
  const ZOOM_MAX: real := 90.0

  /** Defaults of the constructor's position and world-up arguments. */
  const DEFAULT_POSITION: Vec3 := Vec3(0.0, 2.0, 5.0)
  const DEFAULT_WORLD_UP: Vec3 := Vec3(0.0, 1.0, 0.0)

  /** The orientation vectors derived from yaw and pitch. */
  datatype Basis = Basis(front: Vec3, right: Vec3, up: Vec3)

  /** What the trigonometric basis recomputation does: yaw and pitch (degrees)
      and the world-up vector to front, right and up. It is a parameter of the
      model, since its body is floating-point trigonometry over a vector library
      that is not part of this model. */
  type Orientation = (real, real, Vec3) -> Basis

  /** Every field of a camera object. */
  datatype CameraState = CameraState(
    position: Vec3,
    front: Vec3,
    up: Vec3,
    right: Vec3,
    worldUp: Vec3,
    yaw: real,
    pitch: real,
    movementSpeed: real,
    mouseSensitivity: real,
    zoom: real,
    freeCamMode: bool)

  /** Distance between two reals on the line. */
  function Dist(a: real, b: real): real {
    if a >= b then a - b else b - a
  }

  /** `r` is the point of `[lo, hi]` closest to `v`: what a clamp computes. */
  ghost predicate NearestIn(r: real, v: real, lo: real, hi: real) {
    lo <= r <= hi && forall q :: lo <= q <= hi ==> Dist(r, v) <= Dist(q, v)
  }

  /** The inclusive room-box test on all three axes at once. */
  predicate InsideRoom(p: Vec3) {
    ROOM_MIN.x <= p.x <= ROOM_MAX.x &&
    ROOM_MIN.y <= p.y <= ROOM_MAX.y &&
    ROOM_MIN.z <= p.z <= ROOM_MAX.z
  }

  /** The orientation vectors stored in `c` are the ones its angles give. */
  predicate BasisFresh(c: CameraState, orient: Orientation) {
    Basis(c.front, c.right, c.up) == orient(c.yaw, c.pitch, c.worldUp)
  }

  /** The state the constructor leaves: the stored front is overwritten at once
      by the basis recomputation. */
  function NewCamera(position: Vec3, worldUp: Vec3, yaw: real, pitch: real, orient: Orientation): (c: CameraState)
    ensures BasisFresh(c, orient)
    ensures c.position == position && c.worldUp == worldUp && c.yaw == yaw && c.pitch == pitch
    ensures c.zoom == CAM_ZOOM && !c.freeCamMode
    ensures c.movementSpeed == CAM_SPEED && c.mouseSensitivity == CAM_SENSITIVITY
  {
    var b := orient(yaw, pitch, worldUp);
    CameraState(position, b.front, b.up, b.right, worldUp, yaw, pitch,
                CAM_SPEED, CAM_SENSITIVITY, CAM_ZOOM, false)
  }

  /** The unit direction a movement command travels along, as the sign and the
      basis vector it uses. */
  function Heading(c: CameraState, direction: Movement): Vec3 {
    match direction
    case Forward => c.front
    case Backward => c.front.Times(-1.0)
    case Left => c.right.Times(-1.0)
    case Right => c.right
    case Up => c.worldUp
    case Down => c.worldUp.Times(-1.0)
  }

  /** The command that undoes `direction`. */
  function Opposite(direction: Movement): Movement {
    match direction
    case Forward => Backward
    case Backward => Forward
    case Left => Right
    case Right => Left
    case Up => Down
    case Down => Up
  }

  /** The position a keyboard step proposes, before the room test. */
  function Candidate(c: CameraState, direction: Movement, deltaTime: real): Vec3 {
    var velocity := c.movementSpeed * deltaTime;
    match direction
    case Forward => c.position.Plus(c.front.Times(velocity))
    case Backward => c.position.Minus(c.front.Times(velocity))
    case Left => c.position.Minus(c.right.Times(velocity))
    case Right => c.position.Plus(c.right.Times(velocity))
    case Up => c.position.Plus(c.worldUp.Times(velocity))
    case Down => c.position.Minus(c.worldUp.Times(velocity))
  }

  /** A keyboard step: the candidate is taken in free-fly mode or when it lies
      in the room box; otherwise the whole step is dropped. */
  function Keyboard(c: CameraState, direction: Movement, deltaTime: real): CameraState {
    var candidate := Candidate(c, direction, deltaTime);
    if c.freeCamMode || InsideRoom(candidate) then c.(position := candidate) else c
  }

  /** The pitch clamp of the mouse handler. */
  function ClampPitch(pitch: real): (r: real)
    ensures NearestIn(r, pitch, -PITCH_MAX, PITCH_MAX)
    ensures -PITCH_MAX <= pitch <= PITCH_MAX ==> r == pitch
  {
    var p := if pitch > PITCH_MAX then PITCH_MAX else pitch;
    if p < -PITCH_MAX then -PITCH_MAX else p
  }

  /** A mouse movement: yaw accumulates unclamped, pitch accumulates and is
      clamped when asked, and the basis is recomputed from the new angles. */
  function MouseMovement(c: CameraState, xoffset: real, yoffset: real, constrainPitch: bool, orient: Orientation): (r: CameraState)
    ensures r.(yaw := c.yaw, pitch := c.pitch, front := c.front, right := c.right, up := c.up) == c
    ensures r.yaw == c.yaw + xoffset * c.mouseSensitivity
    ensures constrainPitch ==> -PITCH_MAX <= r.pitch <= PITCH_MAX
    ensures constrainPitch ==> NearestIn(r.pitch, c.pitch + yoffset * c.mouseSensitivity, -PITCH_MAX, PITCH_MAX)
    ensures !constrainPitch ==> r.pitch == c.pitch + yoffset * c.mouseSensitivity
    ensures BasisFresh(r, orient)
  {
    var yaw := c.yaw + xoffset * c.mouseSensitivity;
    var raw := c.pitch + yoffset * c.mouseSensitivity;
    var pitch := if constrainPitch then ClampPitch(raw) else raw;
    var b := orient(yaw, pitch, c.worldUp);
    c.(yaw := yaw, pitch := pitch, front := b.front, right := b.right, up := b.up)
  }

  /** The zoom after a scroll of `yoffset`: `zoom - yoffset` clamped to [1, 90]. */
  function ScrolledZoom(zoom: real, yoffset: real): (r: real)
    ensures NearestIn(r, zoom - yoffset, ZOOM_MIN, ZOOM_MAX)
    ensures ZOOM_MIN <= zoom - yoffset <= ZOOM_MAX ==> r == zoom - yoffset
  {
    var z := zoom - yoffset;
    var z1 := if z < ZOOM_MIN then ZOOM_MIN else z;
    if z1 > ZOOM_MAX then ZOOM_MAX else z1
  }

  /** A scroll changes the zoom and nothing else. */
  function Scroll(c: CameraState, yoffset: real): (r: CameraState)
    ensures r.(zoom := c.zoom) == c
    ensures ZOOM_MIN <= r.zoom <= ZOOM_MAX
  {
    c.(zoom := ScrolledZoom(c.zoom, yoffset))
  }

  /** Flipping the free-fly switch. */
  function ToggleFree(c: CameraState): (r: CameraState)
    ensures r.freeCamMode != c.freeCamMode
    ensures r.(freeCamMode := c.freeCamMode) == c
  {
    c.(freeCamMode := !c.freeCamMode)
  }

  /** Where the held light sits: ahead, to the right of and below the eye. */
  function HandAnchor(c: CameraState): Vec3 {
    c.position.Plus(c.front.Times(0.6)).Plus(c.right.Times(0.35)).Plus(c.up.Times(-0.4))
  }

  /** The camera object. `orient` is the basis recomputation it was built with. */
  class Camera {
    var position: Vec3
    var front: Vec3
    var up: Vec3
    var right: Vec3
    var worldUp: Vec3
    var yaw: real
    var pitch: real
    var movementSpeed: real
    var mouseSensitivity: real
    var zoom: real
    var freeCamMode: bool
    const orient: Orientation

    /** All fields, as a value. */
    function State(): CameraState
      reads this
    {
      CameraState(position, front, up, right, worldUp, yaw, pitch,
                  movementSpeed, mouseSensitivity, zoom, freeCamMode)
    }

    /** The basis always reflects the angles, and the zoom is in range. */
    ghost predicate Valid()
      reads this
    {
      BasisFresh(State(), orient) && ZOOM_MIN <= zoom <= ZOOM_MAX
    }

    /** The position, world-up and angles default as in the program's
        declaration; `orient0` comes first since it has no default. */
    constructor (orient0: Orientation, position0: Vec3 := DEFAULT_POSITION, up0: Vec3 := DEFAULT_WORLD_UP,
                 yaw0: real := CAM_YAW, pitch0: real := CAM_PITCH)
      ensures orient == orient0
      ensures State() == NewCamera(position0, up0, yaw0, pitch0, orient0)
      ensures Valid()
    {
      position := position0;
      worldUp := up0;
      front := Vec3(0.0, 0.0, -1.0);
      yaw := yaw0;
      pitch := pitch0;
      movementSpeed := CAM_SPEED;
      mouseSensitivity := CAM_SENSITIVITY;
      zoom := CAM_ZOOM;
      freeCamMode := false;
      orient := orient0;
      new;
      UpdateCameraVectors();
    }

    method ProcessKeyboard(direction: Movement, deltaTime: real)
      requires Valid()
      modifies this`position
      ensures State() == Keyboard(old(State()), direction, deltaTime)
      ensures Valid()
    {
      var velocity := movementSpeed * deltaTime;
      var newPos := position;
      // the six tests of the source are mutually exclusive: exactly one applies
      match direction {
        case Forward => newPos := newPos.Plus(front.Times(velocity));
        case Backward => newPos := newPos.Minus(front.Times(velocity));
        case Left => newPos := newPos.Minus(right.Times(velocity));
        case Right => newPos := newPos.Plus(right.Times(velocity));
        case Up => newPos := newPos.Plus(worldUp.Times(velocity));
        case Down => newPos := newPos.Minus(worldUp.Times(velocity));
      }
      assert newPos == Candidate(State(), direction, deltaTime);
      if freeCamMode || InsideRoom(newPos) {
        position := newPos;
      }
    }

    method ProcessMouseMovement(xoffset: real, yoffset: real, constrainPitch: bool := true)
      requires Valid()
      modifies this`yaw, this`pitch, this`front, this`right, this`up
      ensures State() == MouseMovement(old(State()), xoffset, yoffset, constrainPitch, orient)
      ensures Valid()
    {
      ghost var r := MouseMovement(State(), xoffset, yoffset, constrainPitch, orient);
      var xo := xoffset * mouseSensitivity;
      var yo := yoffset * mouseSensitivity;
      yaw := yaw + xo;
      pitch := pitch + yo;
      if constrainPitch {
        if pitch > PITCH_MAX { pitch := PITCH_MAX; }
        if pitch < -PITCH_MAX { pitch := -PITCH_MAX; }
      }
      assert yaw == r.yaw && pitch == r.pitch;
      UpdateCameraVectors();
      assert Basis(front, right, up) == Basis(r.front, r.right, r.up);
    }

    method ProcessMouseScroll(yoffset: real)
      requires Valid()
      modifies this`zoom
      ensures State() == Scroll(old(State()), yoffset)
      ensures Valid()
    {
      zoom := zoom - yoffset;
      if zoom < ZOOM_MIN { zoom := ZOOM_MIN; }
      if zoom > ZOOM_MAX { zoom := ZOOM_MAX; }
    }

    method ToggleFreeMode()
      requires Valid()
      modifies this`freeCamMode
      ensures State() == ToggleFree(old(State()))
      ensures Valid()
    {
      freeCamMode := !freeCamMode;
    }

    /** Overwrites front, right and up from the current angles. */
    method UpdateCameraVectors()
      modifies this`front, this`right, this`up
      ensures BasisFresh(State(), orient)
      ensures State().(front := old(front), right := old(right), up := old(up)) == old(State())
    {
      var b := orient(yaw, pitch, worldUp);
      front := b.front;
      right := b.right;
      up := b.up;
    }
  }
}
