# DarkRoom camera and progression model

DarkRoom is a first-person escape-room game. The player starts in a dark room
carrying a candle and moves a camera with the keyboard and mouse. Holding
SPACE with the candle inside one of four hidden boxes picks up a coloured
card. Once all four cards are found, releasing SPACE turns the lights on,
opens the door, hides the displayed cards and lets the camera fly freely. Until
then the camera is bounded: a move that would leave the room box is refused.

This project models that core in Dafny:

- `vec.dfy` (`Vec`) holds a three-component vector of reals with sum,
  difference and scaling.
- `camera.dfy` (`CameraControl`) models the camera controller. It has the
  `CameraState` value, one specification function per operation (`NewCamera`,
  `Keyboard`, `MouseMovement`, `Scroll`, `ToggleFree`, `HandAnchor`) and the
  class `CameraControl.Camera`.
  - The four handlers `ProcessKeyboard`, `ProcessMouseMovement`,
    `ProcessMouseScroll` and `ToggleFreeMode` are each proved to move the
    object's fields exactly as their specification function moves the state.
  - They also keep the object invariant `Valid()`: the basis matches the
    angles and the zoom lies in [1, 90].
  - The private `UpdateCameraVectors` only promises that the basis matches the
    angles; callers re-establish `Valid()` after it.
  - The constructor's arguments, and the `constrainPitch` argument of the
    mouse handler, default as in the program's declaration.
- `camera_props.dfy` (`CameraProps`) proves properties of the camera:
  - the acceptance rule of a move;
  - a free step goes along the heading;
  - a zero-time step does nothing;
  - the opposite key undoes an accepted step;
  - the hand anchor follows the camera;
  - toggling free mode twice gives back the original state.
- `render.dfy` (`Render`) models the game state of the renderer: the
  progression flags, the cursor bookkeeping and the camera. It has:
  - the keyboard poll (`AfterInput`), the cursor callback (`AfterCursor`), the
    scroll callback (`AfterScroll`);
  - `Run`, a run over any sequence of such events;
  - the card placement done while drawing (`Placement`, `PlaceModels`).
- `render_props.dfy` (`RenderProps`) proves properties of the progression:
  - the pickup rule of a SPACE press;
  - the escape rule of a SPACE release;
  - what the door and the cursor do;
  - the invariants of every run from start-up;
  - where the cards are drawn.
- `game.dfy` (`Globals`) holds the class `Globals.Game`: the program's globals
  as one object, updated in place.
  - The three event methods `ProcessInput`, `MouseCallback` and
    `ScrollCallback` are proved to move the whole state exactly as
    `AfterInput`, `AfterCursor` and `AfterScroll` move the `World` value.
  - They also keep the object invariant `Valid()`: the camera's own invariant
    plus the game invariant `Playable` of `RenderProps`. So a caller learns
    from the contracts alone that pitch, zoom, the room bound and the
    progression flags stay consistent after every poll and callback.
  - The helpers of one poll carry smaller contracts:
    - `Poll` moves the whole state as `AfterInput`, needing only the camera's
      invariant;
    - `PollLetters`, `PollArrows` and `PollMove` move the camera as
      `MoveLetters`, `MoveArrows` and `StepIf` on `CameraState`, and keep the
      camera's invariant;
    - `PollSpace` moves the camera and the flags as `AfterSpace`;
    - `PollDoor` sets the door flag to the O key.

Camera orientation (`updateCameraVectors`, which uses sine, cosine,
normalisation and cross products) is a parameter of type `Orientation`. It maps
yaw, pitch and world-up to a front/right/up basis. Each camera carries its
`orient` function, and every operation that recomputes the basis is proved to
leave the basis equal to `orient` of the new angles.

Each GLFW key reads as pressed or released, so a poll is a `Keys` record of
booleans. There are three consequences:
- the two O-key tests set the door flag to "O is pressed";
- the SPACE-pressed branch (pickup) and the SPACE-released branch (escape)
  never both run in one poll;
- within a poll the movement keys run in source order W, S, A, D, X, Z, DOWN,
  UP, each through the acceptance test.

The model follows the code in these places:
- The pickup boxes use strict inequalities on all six faces.
- The pickup tests the candle point `Position + Front*0.1`, with its height
  lowered by 0.02: the point where the candle is drawn and lit. The pickup
  does not use `GetHandPosition` (`HandAnchor`), which the input and drawing
  code never calls.
- The escape test runs on every poll in which SPACE is released and all four
  cards are found. It is level-triggered, not a one-time event, and repeating
  it changes nothing.
- The door flag is set from the O key at every poll, before the escape test.
  So after the escape, a poll with O released and SPACE held shuts the door
  again.

One consequence was not evident from the source, and the model proves it
(`RenderProps.EscapeUnreachable`). The bounded camera's height is at least 1.5,
and the candle is held 0.1 along a front vector whose height is at least -1.
So the candle is never lower than 1.4. The blue, red and yellow pickup boxes
all lie below a lowered candle height of 1.2, so none of them can be reached
from start-up. Since free mode is only enabled by the escape, and
`ToggleFreeMode` is never called by the input code, the escape cannot happen:
the lights stay off and the cards stay displayed.

## Model

| member | source | states |
|---|---|---|
| CameraControl.NewCamera | src/Features/camera.cpp:5-17 | a new camera has the given position, world-up and angles, speed 5, sensitivity 0.1, zoom 45, bounded mode, and a basis computed from its angles |
| CameraControl.Camera.constructor | src/Features/camera.cpp:5-17 | the object's fields equal `NewCamera` of the arguments, which default to position (0, 2, 5), world-up (0, 1, 0), yaw -90 and pitch 0 as declared at includes/Features/camera.hpp:43-46, and the camera is valid: its basis matches its angles and its zoom is in range |
| CameraControl.InsideRoom | src/Features/camera.cpp:79-83 | the room test: a point is inside when each coordinate lies between the corners, both ends included (characterised by `RoomBoxNonEmpty` and `KeyboardAcceptance`) |
| CameraControl.Candidate | src/Features/camera.cpp:32-40 | the position a step proposes: speed times time along front, back, left, right, world-up or down (characterised by `FreeStepAlongHeading`) |
| CameraControl.Keyboard | src/Features/camera.cpp:31-45 | a keyboard step takes the candidate in free mode or when it is inside the room, and otherwise changes nothing (characterised by `KeyboardAcceptance`, `OppositeStepUndoes`, `ZeroTimeStepIsIdentity`) |
| CameraControl.Camera.ProcessKeyboard | src/Features/camera.cpp:31-45 | only the position changes, and it becomes exactly the position of the `Keyboard` step; `Valid()` is kept |
| CameraProps.KeyboardAcceptance | src/Features/camera.cpp:31-45 | a step changes only the position. In free mode the candidate is taken. In bounded mode it is taken exactly when it lies inside the room box and otherwise nothing changes. A bounded camera inside the room stays inside |
| CameraProps.RoomBoxNonEmpty | includes/Features/camera.hpp:23-24 | the room box is non-empty on every axis, so the inclusive inside test can succeed |
| CameraProps.DefaultsInRange | includes/Features/camera.hpp:16-20 | the default camera has zoom and pitch in their clamp ranges, is bounded and has speed 5 |
| CameraProps.FreeStepAlongHeading | src/Features/camera.cpp:32-43 | in free mode a step moves the camera by speed times time along the key's heading: front, back, left, right, up or down |
| CameraProps.ZeroTimeStepIsIdentity | src/Features/camera.cpp:32-44 | a step with zero elapsed time leaves the camera unchanged |
| CameraProps.OppositeStepUndoes | src/Features/camera.cpp:31-45 | when a step is accepted and its reverse is too (free mode, or both positions inside the room), the opposite key restores the camera exactly |
| CameraControl.HandAnchor | src/Features/camera.cpp:23-29 | the hand point: 0.6 along front, 0.35 along right and 0.4 down along up from the eye (characterised by `HandFollowsStep`) |
| CameraProps.HandFollowsStep | src/Features/camera.cpp:23-29 | a step moves the hand anchor by exactly the camera's displacement |
| CameraControl.ClampPitch | src/Features/camera.cpp:54-57 | the clamped pitch is the point of [-89, 89] nearest the raw pitch, and is the raw pitch when already in range |
| CameraControl.MouseMovement | src/Features/camera.cpp:47-60 | yaw grows by the x offset times sensitivity. Pitch grows by the y offset times sensitivity, clamped to the nearest value of [-89, 89] when constrained and raw otherwise. The basis is recomputed from the new angles, and no other field changes |
| CameraControl.Camera.ProcessMouseMovement | src/Features/camera.cpp:47-60 | the fields move exactly as `MouseMovement` says, and position, zoom and mode are untouched; `Valid()` is kept |
| CameraControl.ScrolledZoom | src/Features/camera.cpp:62-66 | the new zoom is the point of [1, 90] nearest the old zoom minus the offset, and is exactly that difference when it is in range |
| CameraControl.Scroll | src/Features/camera.cpp:62-66 | scrolling changes only the zoom, which ends in [1, 90] |
| CameraControl.Camera.ProcessMouseScroll | src/Features/camera.cpp:62-66 | the fields move exactly as `Scroll` says; `Valid()` is kept |
| CameraControl.Camera.UpdateCameraVectors | src/Features/camera.cpp:68-77 | the basis becomes `orient` of the current angles and world-up, and no other field changes |
| CameraControl.ToggleFree | includes/Features/camera.hpp:55 | the free-mode flag flips and nothing else changes |
| CameraControl.Camera.ToggleFreeMode | includes/Features/camera.hpp:55 | the object's flag flips as `ToggleFree` says; `Valid()` is kept |
| CameraProps.ToggleTwiceRestores | includes/Features/camera.hpp:55 | toggling twice gives back the original camera |
| Globals.Game.constructor | includes/Features/render.hpp:79-85 | the new game is the start-up world: camera at (4, 6, 4) with default angles, cursor reference at the screen centre awaiting its first sample, and the start-up flags; `Valid()` holds |
| RenderProps.InitialWorldState | includes/Features/render.hpp:212-217 | at start-up it is night, no card is found, cards are displayed, the door is shut, and the bounded camera is inside the room |
| Render.InitialWorld | includes/Features/render.hpp:79-85 | the start-up world: the camera built at (4, 6, 4) with the default angles, the start-up flags of includes/Features/render.hpp:212-217 and the unseeded cursor at the screen centre (characterised by `InitialWorldState`, `InitialPlayable`) |
| Render.StepIf | includes/Features/render.hpp:584-587 | one movement test: a held key applies one `Keyboard` step and a released one nothing (characterised by `StepIfAcceptance`) |
| Render.MoveLetters | includes/Features/render.hpp:584-603 | the W, S, A, D, X and Z tests chained in that order (characterised by `MoveHeldKeepsInside`, `MoveHeldZeroTime`) |
| Render.MoveArrows | includes/Features/render.hpp:608-611 | the DOWN test steps backward, then the UP test forward (characterised by `MoveHeldKeepsInside`, `MoveHeldZeroTime`) |
| Render.AfterInput | includes/Features/render.hpp:579-658 | one keyboard poll as a function of the world: the movement keys, then the door from O, then the SPACE branch, with the cursor bookkeeping untouched (characterised by `PickupPoll`, `EscapePoll`, `NoEscapeYet`, `DoorRule`, `StepKeepsPlayable`) |
| Render.MoveHeld | includes/Features/render.hpp:584-611 | the eight movement tests of a poll, W, S, A, D, X, Z, DOWN, UP in that order (characterised by `MoveHeldKeepsInside`, `MoveHeldZeroTime`) |
| Render.AfterSpace | includes/Features/render.hpp:613-657 | pressed runs the pickup test; released with all four cards runs the escape; otherwise nothing changes (characterised by `PickupPoll`, `EscapePoll`, `NoEscapeYet`) |
| Render.Escaped | includes/Features/render.hpp:650-653 | the escape: lights on, door open, cards hidden (characterised by `EscapePoll`, `EscapeHidesCards`) |
| Globals.Game.ProcessInput | includes/Features/render.hpp:579-658 | one keyboard poll moves the game's whole state exactly as `AfterInput` says, and keeps `Valid()`, so the game invariant holds after the poll |
| Globals.Game.Poll | includes/Features/render.hpp:584-657 | the key tests in the program's order move the whole state as `AfterInput` says, and leave the cursor bookkeeping alone |
| Globals.Game.PollMove | includes/Features/render.hpp:584-587 | a held key applies one camera step and a released key does nothing |
| Globals.Game.PollLetters | includes/Features/render.hpp:584-603 | the W, S, A, D, X and Z tests move the camera as the step chain in source order |
| Globals.Game.PollArrows | includes/Features/render.hpp:608-611 | the DOWN and UP arrows step backward, then forward |
| Globals.Game.PollDoor | includes/Features/render.hpp:604-607 | the door flag becomes whether O is pressed |
| Globals.Game.PollSpace | includes/Features/render.hpp:613-657 | the flags and free mode move as `AfterSpace` says, for SPACE pressed or released |
| RenderProps.StepIfAcceptance | includes/Features/render.hpp:584-587 | one movement test changes only the position, and a bounded camera inside the room stays inside |
| RenderProps.MoveLettersKeepsInside | includes/Features/render.hpp:584-603 | the six letter tests change only the position, and a bounded camera inside the room stays inside |
| RenderProps.MoveHeldKeepsInside | includes/Features/render.hpp:584-611 | the movement keys of a poll change only the position, and a bounded camera inside the room stays inside |
| RenderProps.MoveHeldZeroTime | includes/Features/render.hpp:584-611 | a poll with zero elapsed time does not move the camera |
| Render.CandlePos | includes/Features/render.hpp:617 | the point the pickup tests: 0.1 along front from the eye (characterised by `LowCardsOutOfReach`) |
| Render.PickupBox | includes/Features/render.hpp:619-637 | the four boxes of the pickup test, corners as written (characterised by `PickupBoxesDisjoint`, `BlueCardPickup`) |
| Render.InPickup | includes/Features/render.hpp:619-637 | a candle is in a card's box when x, the height lowered by 0.02, and z lie strictly between the corners (characterised by `BlueCardPickup`, `PickupBoxesDisjoint`) |
| Render.Pickup | includes/Features/render.hpp:617-638 | a card is found afterwards exactly when it was found before or the candle is strictly inside its box, and the other flags are unchanged |
| RenderProps.PickupBoxesDisjoint | includes/Features/render.hpp:619-637 | no candle position lies in two pickup boxes |
| RenderProps.PickupPoll | includes/Features/render.hpp:613-638 | with SPACE pressed, each card is found exactly when it was already found or the candle, after this poll's movement, is in its box. The lights, the card display and the mode are kept, and the door follows O |
| RenderProps.BlueCardPickup | includes/Features/render.hpp:619-623 | the blue card is found by a SPACE press exactly when the candle satisfies the six strict bounds written out |
| RenderProps.AtMostOneNewCard | includes/Features/render.hpp:619-637 | one SPACE press finds at most one new card |
| RenderProps.EscapePoll | includes/Features/render.hpp:646-656 | with SPACE released and all four cards found, the lights go on, the door opens, the cards are hidden and the camera becomes free |
| RenderProps.NoEscapeYet | includes/Features/render.hpp:646-647 | with SPACE released and some card missing, the lights, the display, the cards and the mode are unchanged |
| RenderProps.EscapeRepeatChangesNothing | includes/Features/render.hpp:646-656 | once escaped, another release poll leaves the flags and the mode as they are |
| RenderProps.EscapeRepeatStill | includes/Features/render.hpp:646-656 | once escaped, repeating a release poll with no elapsed time leaves the whole world unchanged |
| RenderProps.DoorRule | includes/Features/render.hpp:604-607 | after a poll, the door is open exactly when O was pressed or the escape happened in this poll |
| Render.AfterCursor | includes/Features/render.hpp:672-688 | the cursor callback as a function of the world: the first sample seeds the reference, then a constrained turn by (x - lastX, lastY - y) and the sample is stored (characterised by `FirstCursorOnlySeeds`, `LaterCursorOffsets`) |
| Globals.Game.MouseCallback | includes/Features/render.hpp:672-688 | the cursor callback moves the game's state exactly as `AfterCursor` says, and keeps `Valid()` |
| RenderProps.FirstCursorOnlySeeds | includes/Features/render.hpp:674-687 | the first cursor sample only records the reference point: the rotation has zero offsets, so yaw and position are kept and a pitch in range is kept |
| RenderProps.LaterCursorOffsets | includes/Features/render.hpp:681-687 | later samples turn the camera by the offsets from the previous sample, with y reversed, and record the new sample |
| Render.AfterScroll | includes/Features/render.hpp:692-695 | the scroll callback as a function of the world: the camera's `Scroll` by the y offset (characterised by `CameraControl.Scroll`) |
| Globals.Game.ScrollCallback | includes/Features/render.hpp:692-695 | the scroll callback moves the state as `AfterScroll` says, and keeps `Valid()` |
| RenderProps.Playable | includes/Features/render.hpp:579-695 | the game invariant: pitch in [-89, 89], zoom in [1, 90], the basis matching the angles, a bounded camera inside the room, free mode exactly when the lights are on, cards displayed exactly at night, lights on only after all four cards |
| RenderProps.InitialPlayable | includes/Features/render.hpp:212-217 | the start-up world satisfies the game invariant |
| RenderProps.StepKeepsPlayable | includes/Features/render.hpp:579-695 | every event keeps the invariant: pitch and zoom in range, basis matching the angles, a bounded camera inside the room, free mode exactly when the lights are on, cards displayed exactly at night, lights only after all cards |
| Render.Step | includes/Features/render.hpp:579-695 | one event applied to the world: a keyboard poll, a cursor sample or a scroll (characterised by `StepKeepsPlayable`, `StepKeepsCards`, `StepKeepsStuck`) |
| Render.Run | includes/Features/render.hpp:351-366 | the world after a sequence of keyboard polls, cursor samples and scrolls, applied in order (characterised by `RunKeepsPlayable`, `CardsNeverLost`, `EscapeUnreachable`) |
| RenderProps.RunKeepsPlayable | includes/Features/render.hpp:351-366 | every sequence of polls and callbacks keeps the invariant |
| RenderProps.StepKeepsCards | includes/Features/render.hpp:613-657 | no single event clears a found card |
| RenderProps.CardsNeverLost | includes/Features/render.hpp:613-657 | a found card stays found through any sequence of events |
| RenderProps.LowCardsOutOfReach | includes/Features/render.hpp:617-637 | a camera inside the room that looks no further down than straight down cannot have its candle in the blue, red or yellow box |
| RenderProps.Stuck | includes/Features/render.hpp:613-657 | the world before the escape: bounded, inside the room, looking no further down than straight down, with blue, red and yellow missing, at night with the cards displayed |
| RenderProps.StepKeepsStuck | includes/Features/render.hpp:579-695 | every event from a stuck world leads to a stuck world |
| RenderProps.RunKeepsStuck | includes/Features/render.hpp:351-366 | every sequence of events from a stuck world ends in a stuck world |
| RenderProps.EscapeUnreachable | includes/Features/render.hpp:613-656 | from start-up, through any events, the blue, red and yellow cards are never found: it stays night, the cards stay displayed and the camera stays bounded |
| Render.Placement | includes/Features/render.hpp:442-481 | an open door keeps its stored placement. A found card is moved to its display slot and turned 90 degrees, or to the hidden slot once the display is off. Everything else keeps its position and angle |
| Render.CardName | includes/Features/render.hpp:450-481 | the model names the placement tests: "redCard", "yellowCard", "blueCard", "greenCard" (characterised by `CardNamesRoundTrip`) |
| Render.CardNamed | includes/Features/render.hpp:450-481 | which card, if any, a model name denotes (characterised by `CardNamesRoundTrip`, `NonCardsStay`) |
| Render.DisplaySlot | includes/Features/render.hpp:452-479 | the display position of each found card, as written in the four card branches (characterised by `Placement`) |
| Render.PlaceModels | includes/Features/render.hpp:439-481 | every model's position and angle become its `Placement` under the current flags |
| RenderProps.CardNamesRoundTrip | includes/Features/render.hpp:450-481 | each card's model name is recognised as that card |
| RenderProps.EscapeHidesCards | includes/Features/render.hpp:450-481 | after the escape, every card model is placed at the hidden slot and turned 90 degrees |
| RenderProps.NonCardsStay | includes/Features/render.hpp:442-481 | models that are not cards keep their position and angle |

## Left out

- Window, OpenGL, shader, texture and model loading, and drawing are graphics plumbing with no state the progression depends on.
- `GetViewMatrix` and the `lookAt`/`translate`/`rotate`/`scale` matrix arithmetic are left out, because the model has no matrices.
- `updateCameraVectors` trigonometry is the `Orientation` parameter. That the basis is orthonormal and has unit length is not modelled, except for the one bound stated as `FrontNotBelowUnit`, which `EscapeUnreachable` assumes of `orient`.
- Point lights, the flicker and the time-of-day colour are left out: they only affect rendering.
- The frame clock is not modelled: `deltaTime` is a parameter of each poll, because it is read from the system timer.
- The ESC key and `framebuffer_size_callback` are left out: they close the window or resize the viewport.
- `mouse_button_callback` is left out: on a left click it reads the cursor and computes a normalised-device-coordinate ray that nothing uses, so no state the game keeps changes.
- The console messages printed on discovery and escape are output only.
- Every quantity is a `real`. Single-precision rounding and the conversions between double and float in the callbacks are not modelled.
- The door model's open transform is not modelled, only the choice of branch: a door with the door flag set keeps its stored position and angle in `Placement`.
- `main.cpp` and the room object loader are not part of this model.
