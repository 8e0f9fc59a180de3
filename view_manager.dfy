// The input state machine of the view manager.
//
// ViewManager.cpp keeps its input state in file-level variables (the last
// mouse position and whether a mouse event has been seen, the frame clock,
// the projection toggle) and assigns a few camera fields directly. Here those
// variables are fields of the single ViewManager object and the camera is an
// object of its own. Coordinates and times are reals (an idealisation of the
// source's float and double); the camera's own movement, orientation and
// matrix code is not part of this model, and key states, the clock and the
// camera's reaction to W/A/S/D reach the operations as parameters.
module View {
  import opened Values

  const WindowWidth: int := 1000
  const WindowHeight: int := 800

  /** Camera placement set by the constructor and restored by the O key. */
  const DefaultPosition := Vec3(0.0, 5.0, 12.0)
  const DefaultFront := Vec3(0.0, -0.5, -2.0)
  const DefaultUp := Vec3(0.0, 1.0, 0.0)
  /** Field of view, in degrees, set by the constructor. */
  const DefaultZoom: real := 80.0

  /** Camera speed per second of frame time. */
  const SpeedMultiplier: real := 5.0

  /** Half-extent of the orthographic view volume and the clip planes of both modes. */
  const OrthoSize: real := 10.0
  const NearPlane: real := 0.1
  const FarPlane: real := 100.0

  /** Which keys are held during one frame. */
  datatype Keys = Keys(o: bool, p: bool, escape: bool, w: bool, s: bool, a: bool, d: bool, q: bool, e: bool)

  datatype Direction = Forward | Backward | Left | Right

  /** One call the keyboard handler makes to the camera's own keyboard movement. */
  datatype Move = Move(direction: Direction, distance: real)

  /** The projection chosen for a frame: the view volume's parameters, not the matrix. */
  datatype Projection =
    | Orthographic(left: real, right: real, bottom: real, top: real, near: real, far: real)
    | Perspective(fovDegrees: real, aspect: real, near: real, far: real)

  /** The mouse bookkeeping: whether no mouse event has been seen yet, and
      the position of the last one. */
  datatype MouseTracker = MouseTracker(firstMouse: bool, lastX: real, lastY: real)

  /** The bookkeeping after a mouse event and the offsets passed to the camera. */
  datatype MouseUpdate = MouseUpdate(tracker: MouseTracker, xOffset: real, yOffset: real)

  /** Before any mouse event the last position is the window centre. */
  const InitialMouse := MouseTracker(true, WindowWidth as real / 2.0, WindowHeight as real / 2.0)

  /** One mouse event at (x, y). The first event is its own reference point
      and yields zero offsets; every later one yields the motion since the
      previous event, with y reversed (screen y grows downwards). Afterwards
      the event is the new reference and the first-event flag is down. */
  function MouseMoved(t: MouseTracker, x: real, y: real): (u: MouseUpdate)
    ensures u.tracker == MouseTracker(false, x, y)
    ensures t.firstMouse ==> u.xOffset == 0.0 && u.yOffset == 0.0
    ensures !t.firstMouse ==> u.xOffset == x - t.lastX && u.yOffset == t.lastY - y
  {
    var refX := if t.firstMouse then x else t.lastX;
    var refY := if t.firstMouse then y else t.lastY;
    MouseUpdate(MouseTracker(false, x, y), x - refX, refY - y)
  }

  /** A run of mouse events: the bookkeeping after the last one and the sum
      of all offsets handed to the camera. */
  function MouseRun(t: MouseTracker, events: seq<(real, real)>): MouseUpdate
    decreases |events|
  {
    if events == [] then MouseUpdate(t, 0.0, 0.0)
    else
      var u := MouseMoved(t, events[0].0, events[0].1);
      var rest := MouseRun(u.tracker, events[1..]);
      MouseUpdate(rest.tracker, u.xOffset + rest.xOffset, u.yOffset + rest.yOffset)
  }

  /** Over any non-empty run of mouse events the offsets add up to the motion
      from the reference point to the last event: the first event's position
      when no event had been seen, else the previously recorded one. So the
      first event never produces a jump, and the flag stays down afterwards. */
  lemma {:induction false} MouseRunTelescopes(t: MouseTracker, events: seq<(real, real)>)
    requires |events| > 0
    ensures var r := MouseRun(t, events);
      var last := events[|events| - 1];
      var refX := if t.firstMouse then events[0].0 else t.lastX;
      var refY := if t.firstMouse then events[0].1 else t.lastY;
      r.tracker == MouseTracker(false, last.0, last.1) &&
      r.xOffset == last.0 - refX && r.yOffset == refY - last.1
    decreases |events|
  {
    var u := MouseMoved(t, events[0].0, events[0].1);
    if |events| > 1 {
      MouseRunTelescopes(u.tracker, events[1..]);
      assert events[1..][|events[1..]| - 1] == events[|events| - 1];
    }
  }

  /** The frame clock over a run of frames read at `times`: the last frame
      time and the sum of the per-frame deltas. */
  function FrameRun(lastFrame: real, times: seq<real>): (real, real)
    decreases |times|
  {
    if times == [] then (lastFrame, 0.0)
    else
      var rest := FrameRun(times[0], times[1..]);
      (rest.0, (times[0] - lastFrame) + rest.1)
  }

  /** The per-frame deltas of a run of frames add up to the time elapsed
      since the frame before the run: no frame time is lost or clamped. */
  lemma {:induction false} FrameDeltasSumToElapsed(lastFrame: real, times: seq<real>)
    requires |times| > 0
    ensures FrameRun(lastFrame, times) == (times[|times| - 1], times[|times| - 1] - lastFrame)
    decreases |times|
  {
    if |times| > 1 {
      FrameDeltasSumToElapsed(times[0], times[1..]);
      assert times[1..][|times[1..]| - 1] == times[|times| - 1];
    }
  }

  /** Whether the key that moves the camera in direction `d` is held:
      W forward, S backward, A left, D right. */
  predicate Held(keys: Keys, d: Direction)
  {
    match d
    case Forward => keys.w
    case Backward => keys.s
    case Left => keys.a
    case Right => keys.d
  }

  /** The order in which the keyboard handler tests the movement keys. */
  function Rank(d: Direction): int
  {
    match d
    case Forward => 0
    case Backward => 1
    case Left => 2
    case Right => 3
  }

  /** How many of W, S, A and D are held. */
  function HeldCount(keys: Keys): nat
  {
    (if keys.w then 1 else 0) + (if keys.s then 1 else 0) +
    (if keys.a then 1 else 0) + (if keys.d then 1 else 0)
  }

  /** The camera movement calls made for the held W, S, A and D keys: one per
      held key, in that order, each over `speed`. */
  function HeldMoves(keys: Keys, speed: real): (moves: seq<Move>)
    ensures |moves| == HeldCount(keys)
    ensures forall i :: 0 <= i < |moves| ==> moves[i].distance == speed
  {
    MoveIfHeld(keys, Forward, speed) + MoveIfHeld(keys, Backward, speed) +
    MoveIfHeld(keys, Left, speed) + MoveIfHeld(keys, Right, speed)
  }

  /** The one movement call for direction `d`, if its key is held. */
  function MoveIfHeld(keys: Keys, d: Direction, speed: real): seq<Move>
  {
    if Held(keys, d) then [Move(d, speed)] else []
  }

  /** The movement calls follow the handler's order W, S, A, D, so no
      direction is moved twice, and a direction is moved exactly when its
      key is held. */
  lemma HeldMovesFollowKeys(keys: Keys, speed: real)
    ensures var moves := HeldMoves(keys, speed);
      forall i, j :: 0 <= i < j < |moves| ==> Rank(moves[i].direction) < Rank(moves[j].direction)
    ensures forall d :: Held(keys, d) <==> Move(d, speed) in HeldMoves(keys, speed)
  {
  }

  /** The camera position after the keyboard handler. `start` is the position
      before it; `moved` is where the camera's own W/A/S/D movement leaves it
      (used only when one of those keys is held). O first restores the
      default; Q then raises and E lowers the camera by `speed`, leaving x
      and z alone. */
  function PositionAfterKeys(start: Vec3, keys: Keys, moved: Vec3, speed: real): (r: Vec3)
    ensures var base := if keys.w || keys.s || keys.a || keys.d then moved
                        else if keys.o then DefaultPosition else start;
      r.x == base.x && r.z == base.z &&
      r.y == base.y + (if keys.q then speed else 0.0) - (if keys.e then speed else 0.0)
  {
    var reset := if keys.o then DefaultPosition else start;
    var base := if keys.w || keys.s || keys.a || keys.d then moved else reset;
    var up := if keys.q then base.(y := base.y + speed) else base;
    if keys.e then up.(y := up.y - speed) else up
  }

  /** The projection for a frame: orthographic over a fixed 20 x 20 volume
      exactly when the toggle is set, perspective at the camera's zoom and the
      window's aspect otherwise; both clip at the same planes. */
  function SelectProjection(orthographic: bool, zoom: real): (p: Projection)
    ensures p.Orthographic? <==> orthographic
    ensures p.near == NearPlane && p.far == FarPlane
    ensures p.Orthographic? ==> p.right == -p.left == p.top == -p.bottom == OrthoSize
    ensures p.Perspective? ==> p.fovDegrees == zoom && p.aspect == WindowWidth as real / WindowHeight as real
  {
    if orthographic then Orthographic(-OrthoSize, OrthoSize, -OrthoSize, OrthoSize, NearPlane, FarPlane)
    else Perspective(zoom, WindowWidth as real / WindowHeight as real, NearPlane, FarPlane)
  }

  /** The camera fields the view manager assigns directly. */
  class Camera {
    var Position: Vec3
    var Front: Vec3
    var Up: Vec3
    var Zoom: real

    constructor ()
    {
    }
  }

  class ViewManager {
    const camera: Camera
    var firstMouse: bool
    var lastX: real
    var lastY: real
    var deltaTime: real
    var lastFrame: real
    var orthographicProjection: bool

    function Mouse(): MouseTracker
      reads this
    {
      MouseTracker(firstMouse, lastX, lastY)
    }

    /** A view manager with the camera at its default placement and zoom,
        no mouse event seen (last position at the window centre), the clock at
        zero and perspective projection selected. */
    constructor ()
      ensures fresh(camera)
      ensures camera.Position == DefaultPosition && camera.Front == DefaultFront
      ensures camera.Up == DefaultUp && camera.Zoom == DefaultZoom
      ensures Mouse() == InitialMouse
      ensures deltaTime == 0.0 && lastFrame == 0.0 && !orthographicProjection
    {
      var c := new Camera();
      c.Position := DefaultPosition;
      c.Front := DefaultFront;
      c.Up := DefaultUp;
      c.Zoom := DefaultZoom;
      camera := c;
      firstMouse := InitialMouse.firstMouse;
      lastX := InitialMouse.lastX;
      lastY := InitialMouse.lastY;
      deltaTime := 0.0;
      lastFrame := 0.0;
      orthographicProjection := false;
    }

    /** A mouse event at (xMousePos, yMousePos); returns the offsets handed
        to the camera's mouse movement. */
    method MousePositionCallback(xMousePos: real, yMousePos: real) returns (xOffset: real, yOffset: real)
      modifies this`firstMouse, this`lastX, this`lastY
      ensures MouseUpdate(Mouse(), xOffset, yOffset) == MouseMoved(old(Mouse()), xMousePos, yMousePos)
      ensures !firstMouse
    {
      if firstMouse {
        lastX := xMousePos;
        lastY := yMousePos;
        firstMouse := false;
      }
      xOffset := xMousePos - lastX;
      yOffset := lastY - yMousePos;
      lastX := xMousePos;
      lastY := yMousePos;
    }

    /** One frame's keyboard handling with the keys in `keys`. O restores the
        default position, front and up (not the zoom); P flips the projection
        toggle; Escape asks for the window to close; W/S/A/D become camera
        movement calls over deltaTime * 5, whose resulting position is
        `movedPosition`; Q and E then move the camera up and down by the same
        distance. Returns the movement calls made and the close request. */
    method ProcessKeyboardEvents(keys: Keys, movedPosition: Vec3) returns (moves: seq<Move>, closeWindow: bool)
      modifies this`orthographicProjection, camera
      ensures orthographicProjection == (old(orthographicProjection) != keys.p)
      ensures closeWindow == keys.escape
      ensures moves == HeldMoves(keys, deltaTime * SpeedMultiplier)
      ensures camera.Position == PositionAfterKeys(old(camera.Position), keys, movedPosition, deltaTime * SpeedMultiplier)
      ensures camera.Front == (if keys.o then DefaultFront else old(camera.Front))
      ensures camera.Up == (if keys.o then DefaultUp else old(camera.Up))
      ensures camera.Zoom == old(camera.Zoom)
    {
      if keys.o {
        camera.Position := DefaultPosition;
        camera.Front := DefaultFront;
        camera.Up := DefaultUp;
      }
      if keys.p {
        orthographicProjection := !orthographicProjection;
      }
      closeWindow := keys.escape;

      var cameraSpeed := deltaTime * SpeedMultiplier;
      moves := [];
      if keys.w {
        moves := moves + [Move(Forward, cameraSpeed)];
      }
      if keys.s {
        moves := moves + [Move(Backward, cameraSpeed)];
      }
      if keys.a {
        moves := moves + [Move(Left, cameraSpeed)];
      }
      if keys.d {
        moves := moves + [Move(Right, cameraSpeed)];
      }
      if moves != [] {
        camera.Position := movedPosition;
      }
      if keys.q {
        camera.Position := camera.Position.(y := camera.Position.y + cameraSpeed);
      }
      if keys.e {
        camera.Position := camera.Position.(y := camera.Position.y - cameraSpeed);
      }
    }

    /** One frame's view preparation at clock reading `currentFrame`: the
        delta since the previous frame is recorded, the keyboard is handled at
        the speed that delta gives, and the projection is chosen by the
        (possibly just flipped) toggle. Returns the projection, the camera
        position uploaded as the view position, and the keyboard results. */
    method PrepareSceneView(currentFrame: real, keys: Keys, movedPosition: Vec3)
      returns (projection: Projection, viewPosition: Vec3, moves: seq<Move>, closeWindow: bool)
      modifies this`deltaTime, this`lastFrame, this`orthographicProjection, camera
      ensures deltaTime == currentFrame - old(lastFrame) && lastFrame == currentFrame
      ensures orthographicProjection == (old(orthographicProjection) != keys.p)
      ensures projection == SelectProjection(orthographicProjection, camera.Zoom)
      ensures moves == HeldMoves(keys, deltaTime * SpeedMultiplier)
      ensures camera.Position == PositionAfterKeys(old(camera.Position), keys, movedPosition, deltaTime * SpeedMultiplier)
      ensures viewPosition == camera.Position
      ensures camera.Front == (if keys.o then DefaultFront else old(camera.Front))
      ensures camera.Up == (if keys.o then DefaultUp else old(camera.Up))
      ensures camera.Zoom == old(camera.Zoom)
      ensures closeWindow == keys.escape
    {
      deltaTime := currentFrame - lastFrame;
      lastFrame := currentFrame;

      moves, closeWindow := ProcessKeyboardEvents(keys, movedPosition);

      if orthographicProjection {
        projection := Orthographic(-OrthoSize, OrthoSize, -OrthoSize, OrthoSize, NearPlane, FarPlane);
      } else {
        projection := Perspective(camera.Zoom, WindowWidth as real / WindowHeight as real, NearPlane, FarPlane);
      }
      viewPosition := camera.Position;
    }
  }
}
