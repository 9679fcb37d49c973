/** The view manager's input handling: mouse movement and scroll
    callbacks, keyboard polling, and the per-frame timing and projection
    choice.

    The camera's own arithmetic is not visible, so each call into it is
    recorded as an event; the keys held down and the clock reading are
    inputs of the model. */
module ViewInput {
  import opened Wrappers
  import opened Geometry

  const WindowWidth := 1000
  const WindowHeight := 800

  datatype Direction = Forward | Backward | Left | Right | Up | Down

  datatype CameraCall =
    | ProcessKeyboard(direction: Direction, deltaTime: real)
    | ProcessMouseMovement(xOffset: real, yOffset: real)

  datatype Camera = Camera(movementSpeed: real, mouseSensitivity: real, zoom: real, calls: seq<CameraCall>)

  datatype ViewState = ViewState(
    lastX: real,
    lastY: real,
    firstMouse: bool,
    deltaTime: real,
    lastFrame: real,
    orthographic: bool,
    camera: Option<Camera>,
    shouldClose: bool,
    hasShader: bool)

  datatype Key = Escape | W | S | A | D | Q | E | P | O

  const MinSpeed := 0.1
  const MaxSpeed := 10.0

  /** The state after construction: cursor at the window centre, first
      mouse event pending, perspective view, and a camera with zoom 80
      and sensitivity 0.1 that has been told about a zero movement once.
      The camera's default movement speed is not visible and is passed in,
      as is whether a shader manager was handed to the constructor. */
  function NewView(defaultSpeed: real, hasShader: bool): (s: ViewState)
    ensures s.lastX == WindowWidth as real / 2.0 && s.lastY == WindowHeight as real / 2.0
    ensures s.firstMouse && !s.orthographic && !s.shouldClose
    ensures s.deltaTime == 0.0 && s.lastFrame == 0.0
    ensures s.camera == Some(Camera(defaultSpeed, 0.1, 80.0, [ProcessMouseMovement(0.0, 0.0)]))
    ensures s.hasShader == hasShader
  {
    ViewState(500.0, 400.0, true, 0.0, 0.0, false,
              Some(Camera(defaultSpeed, 0.1, 80.0, [ProcessMouseMovement(0.0, 0.0)])), false, hasShader)
  }

  /** The camera call for a cursor event at `(x, y)`. On the first event
      the remembered position is first moved to the cursor; the offsets
      are then the distance from the remembered position (y reversed),
      scaled by the camera's sensitivity. */
  function MouseCall(s: ViewState, x: real, y: real): (call: CameraCall)
    requires s.camera.Some?
    ensures call.ProcessMouseMovement?
    ensures s.firstMouse ==> call == ProcessMouseMovement(0.0, 0.0)
    ensures x == s.lastX && y == s.lastY ==> call == ProcessMouseMovement(0.0, 0.0)
    ensures !s.firstMouse ==>
              && call.xOffset == s.camera.value.mouseSensitivity * (x - s.lastX)
              && call.yOffset == s.camera.value.mouseSensitivity * (s.lastY - y)
  {
    var lastX := if s.firstMouse then x else s.lastX;
    var lastY := if s.firstMouse then y else s.lastY;
    var k := s.camera.value.mouseSensitivity;
    ProcessMouseMovement((x - lastX) * k, (lastY - y) * k)
  }

  /** The cursor moved to `(x, y)`. The very first event only records the
      position (both offsets are zero); afterwards the offsets are the
      distance moved, with y reversed, scaled by the camera's
      sensitivity. The position is remembered even without a camera. */
  function MousePosition(s: ViewState, x: real, y: real): (s': ViewState)
    ensures s'.lastX == x && s'.lastY == y && !s'.firstMouse
    ensures s'.deltaTime == s.deltaTime && s'.lastFrame == s.lastFrame && s'.hasShader == s.hasShader
    ensures s'.orthographic == s.orthographic && s'.shouldClose == s.shouldClose
    ensures s'.camera.Some? == s.camera.Some?
    ensures s.camera.Some? ==> s'.camera.value == s.camera.value.(calls := s.camera.value.calls + [MouseCall(s, x, y)])
  {
    var camera :=
      match s.camera
      case None => None
      case Some(c) => Some(c.(calls := c.calls + [MouseCall(s, x, y)]));
    s.(lastX := x, lastY := y, firstMouse := false, camera := camera)
  }

  /** Clamping as the vector library does it: max with the lower bound,
      then min with the upper bound. */
  function Clamp(v: real, lo: real, hi: real): real
  {
    var up := if v < lo then lo else v;
    if up > hi then hi else up
  }

  /** The scroll wheel changes the camera's movement speed, kept within
      `[0.1, 10]`; without a camera nothing happens. */
  function MouseScroll(s: ViewState, yOffset: real): (s': ViewState)
    ensures s.camera.None? ==> s' == s
    ensures s.camera.Some? ==>
              && s'.camera.Some?
              && MinSpeed <= s'.camera.value.movementSpeed <= MaxSpeed
              && (MinSpeed <= s.camera.value.movementSpeed + yOffset <= MaxSpeed ==>
                    s'.camera.value.movementSpeed == s.camera.value.movementSpeed + yOffset)
              && (s.camera.value.movementSpeed + yOffset < MinSpeed ==> s'.camera.value.movementSpeed == MinSpeed)
              && (s.camera.value.movementSpeed + yOffset > MaxSpeed ==> s'.camera.value.movementSpeed == MaxSpeed)
              && s' == s.(camera := Some(s.camera.value.(movementSpeed := s'.camera.value.movementSpeed)))
  {
    match s.camera
    case None => s
    case Some(c) => s.(camera := Some(c.(movementSpeed := Clamp(c.movementSpeed + yOffset, MinSpeed, MaxSpeed))))
  }

  /** More scrolling never gives a lower speed. */
  lemma ScrollMonotone(s: ViewState, y1: real, y2: real)
    requires s.camera.Some? && y1 <= y2
    ensures MouseScroll(s, y1).camera.value.movementSpeed <= MouseScroll(s, y2).camera.value.movementSpeed
  {
  }

  /** The movement key for each direction. */
  function KeyFor(d: Direction): Key
  {
    match d
    case Forward => W
    case Backward => S
    case Left => A
    case Right => D
    case Up => Q
    case Down => E
  }

  /** The directions in the order the keys are polled. */
  const PollOrder: seq<Direction> := [Forward, Backward, Left, Right, Up, Down]

  /** One keyboard call per held movement key, in polling order, each
      with the frame's time step. */
  function MovementCalls(order: seq<Direction>, pressed: set<Key>, deltaTime: real): (calls: seq<CameraCall>)
    ensures |calls| <= |order|
    ensures forall i :: 0 <= i < |calls| ==> calls[i].ProcessKeyboard? && calls[i].deltaTime == deltaTime
    ensures forall d :: ProcessKeyboard(d, deltaTime) in calls <==> d in order && KeyFor(d) in pressed
  {
    if |order| == 0 then []
    else
      var rest := MovementCalls(order[1..], pressed, deltaTime);
      assert forall d :: d in order <==> d == order[0] || d in order[1..];
      if KeyFor(order[0]) in pressed then [ProcessKeyboard(order[0], deltaTime)] + rest else rest
  }

  /** Keyboard polling. Escape asks the window to close even without a
      camera; without a camera nothing else is looked at. Otherwise every
      held movement key moves the camera once, P selects the perspective
      view and O the orthographic one, and O wins when both are held. */
  function ProcessKeyboardEvents(s: ViewState, pressed: set<Key>): (s': ViewState)
    ensures s'.shouldClose <==> s.shouldClose || Escape in pressed
    ensures s'.lastX == s.lastX && s'.lastY == s.lastY && s'.firstMouse == s.firstMouse
    ensures s'.deltaTime == s.deltaTime && s'.lastFrame == s.lastFrame && s'.hasShader == s.hasShader
    ensures s.camera.None? ==> s' == s.(shouldClose := s'.shouldClose)
    ensures s.camera.Some? ==>
              && s'.camera.Some?
              && s'.camera.value == s.camera.value.(calls := s.camera.value.calls + MovementCalls(PollOrder, pressed, s.deltaTime))
              && (O in pressed ==> s'.orthographic)
              && (P in pressed && O !in pressed ==> !s'.orthographic)
              && (P !in pressed && O !in pressed ==> s'.orthographic == s.orthographic)
  {
    var closing := if Escape in pressed then true else s.shouldClose;
    match s.camera
    case None => s.(shouldClose := closing)
    case Some(c) =>
      var moved := c.(calls := c.calls + MovementCalls(PollOrder, pressed, s.deltaTime));
      var ortho1 := if P in pressed then false else s.orthographic;
      var ortho2 := if O in pressed then true else ortho1;
      s.(shouldClose := closing, camera := Some(moved), orthographic := ortho2)
  }

  /** Every movement key maps to its own direction: a held key yields
      exactly one call, in that direction, and nothing else moves. */
  lemma MovementKeysMapToDirections(pressed: set<Key>, deltaTime: real, d: Direction)
    ensures ProcessKeyboard(d, deltaTime) in MovementCalls(PollOrder, pressed, deltaTime) <==> KeyFor(d) in pressed
    ensures KeyFor(d) in {W, S, A, D, Q, E}
    ensures |MovementCalls(PollOrder, pressed, deltaTime)| == |set d' | d' in PollOrder && KeyFor(d') in pressed|
  {
    assert d in PollOrder by {
      match d
      case Forward => assert PollOrder[0] == d;
      case Backward => assert PollOrder[1] == d;
      case Left => assert PollOrder[2] == d;
      case Right => assert PollOrder[3] == d;
      case Up => assert PollOrder[4] == d;
      case Down => assert PollOrder[5] == d;
    }
    MovementCallsCount(PollOrder, pressed, deltaTime);
  }

  /** With no repeated direction in the polling order, the number of
      calls is the number of directions whose key is held. */
  lemma {:induction false} MovementCallsCount(order: seq<Direction>, pressed: set<Key>, deltaTime: real)
    requires forall i, j :: 0 <= i < j < |order| ==> order[i] != order[j]
    ensures |MovementCalls(order, pressed, deltaTime)| == |set d | d in order && KeyFor(d) in pressed|
    decreases |order|
  {
    if |order| > 0 {
      MovementCallsCount(order[1..], pressed, deltaTime);
      var all := set d | d in order && KeyFor(d) in pressed;
      var tail := set d | d in order[1..] && KeyFor(d) in pressed;
      assert order[0] !in order[1..];
      if KeyFor(order[0]) in pressed {
        assert all == {order[0]} + tail;
      } else {
        assert all == tail;
      }
    }
  }

  /** The fixed box of the orthographic view. */
  const OrthoView := Ortho(-10.0, 10.0, -10.0, 10.0, 0.1, 100.0)

  /** One prepared frame: the state after it, the projection chosen, and
      the projection handed to the shader manager, if there is one. */
  datatype Frame = Frame(state: ViewState, projection: Projection, upload: Option<Projection>)

  /** Per-frame preparation at clock reading `now`: the time step since
      the previous frame, then keyboard polling, then the projection for
      the (possibly just toggled) mode, which is uploaded only when a
      shader manager is present. The camera is used without a null check
      here. */
  function PrepareSceneView(s: ViewState, now: real, pressed: set<Key>): (f: Frame)
    requires s.camera.Some?
    ensures f.state.deltaTime == now - s.lastFrame && f.state.lastFrame == now
    ensures f.state.camera.Some?
    ensures f.state.camera.value.calls == s.camera.value.calls + MovementCalls(PollOrder, pressed, now - s.lastFrame)
    ensures f.state.orthographic ==> f.projection == OrthoView
    ensures !f.state.orthographic ==>
              f.projection == Perspective(s.camera.value.zoom, WindowWidth as real / WindowHeight as real, 0.1, 100.0)
    ensures O in pressed ==> f.projection == OrthoView
    ensures P in pressed && O !in pressed ==> f.projection.Perspective?
    ensures f.state.hasShader == s.hasShader
    ensures f.upload.Some? <==> s.hasShader
    ensures f.upload.Some? ==> f.upload.value == f.projection
  {
    var timed := s.(deltaTime := now - s.lastFrame, lastFrame := now);
    var polled := ProcessKeyboardEvents(timed, pressed);
    var projection :=
      if polled.orthographic then OrthoView
      else Perspective(polled.camera.value.zoom, WindowWidth as real / WindowHeight as real, 0.1, 100.0);
    Frame(polled, projection, if s.hasShader then Some(projection) else None)
  }

  /** Runs one frame per clock reading, with no keys held. */
  function Frames(s: ViewState, times: seq<real>): (s': ViewState)
    requires s.camera.Some?
    ensures s'.camera.Some?
    decreases |times|
  {
    if |times| == 0 then s else Frames(PrepareSceneView(s, times[0], {}).state, times[1..])
  }

  function SumDeltas(s: ViewState, times: seq<real>): real
    requires s.camera.Some?
    decreases |times|
  {
    if |times| == 0 then 0.0
    else
      var next := PrepareSceneView(s, times[0], {}).state;
      next.deltaTime + SumDeltas(next, times[1..])
  }

  /** The frame time steps add up to the clock time elapsed since the
      last frame before them. */
  lemma {:induction false} FrameDeltasTelescope(s: ViewState, times: seq<real>)
    requires s.camera.Some? && |times| > 0
    ensures SumDeltas(s, times) == times[|times| - 1] - s.lastFrame
    ensures Frames(s, times).lastFrame == times[|times| - 1]
    decreases |times|
  {
    if |times| > 1 {
      var next := PrepareSceneView(s, times[0], {}).state;
      FrameDeltasTelescope(next, times[1..]);
    }
  }

  /** Runs mouse events for a list of cursor positions. */
  function MouseTrail(s: ViewState, xs: seq<real>, ys: seq<real>): (s': ViewState)
    requires |xs| == |ys|
    ensures s'.camera.Some? == s.camera.Some?
    ensures s.camera.Some? ==> s'.camera.value.mouseSensitivity == s.camera.value.mouseSensitivity
    ensures s.camera.Some? ==> |s'.camera.value.calls| == |s.camera.value.calls| + |xs|
    ensures s.camera.Some? ==> s'.camera.value.calls[..|s.camera.value.calls|] == s.camera.value.calls
    decreases |xs|
  {
    if |xs| == 0 then s else MouseTrail(MousePosition(s, xs[0], ys[0]), xs[1..], ys[1..])
  }

  /** The total of the x offsets handed to the camera, over some calls. */
  function SumX(calls: seq<CameraCall>): real
  {
    if |calls| == 0 then 0.0
    else (if calls[0].ProcessMouseMovement? then calls[0].xOffset else 0.0) + SumX(calls[1..])
  }

  lemma {:induction false} SumXAppend(a: seq<CameraCall>, b: seq<CameraCall>)
    ensures SumX(a + b) == SumX(a) + SumX(b)
    decreases |a|
  {
    if |a| == 0 {
      assert a + b == b;
    } else {
      assert (a + b)[1..] == a[1..] + b;
      SumXAppend(a[1..], b);
    }
  }

  /** Once the first event is past, the x offsets of a run of mouse
      events add up to the sensitivity times the distance from the last
      remembered position to the final one: no motion is lost or counted
      twice, and the cursor ends where the last event put it. */
  lemma {:induction false} MouseOffsetsTelescope(s: ViewState, xs: seq<real>, ys: seq<real>)
    requires s.camera.Some? && !s.firstMouse && |xs| == |ys| && |xs| > 0
    ensures var s' := MouseTrail(s, xs, ys);
            var before := |s.camera.value.calls|;
            && s'.lastX == xs[|xs| - 1] && s'.lastY == ys[|ys| - 1]
            && SumX(s'.camera.value.calls[before..])
                 == s.camera.value.mouseSensitivity * (xs[|xs| - 1] - s.lastX)
    decreases |xs|
  {
    var c := s.camera.value;
    var s1 := MousePosition(s, xs[0], ys[0]);
    var first := MouseCall(s, xs[0], ys[0]);
    var s' := MouseTrail(s, xs, ys);
    var before := |c.calls|;
    if |xs| == 1 {
      assert s' == MouseTrail(s1, xs[1..], ys[1..]) == s1 by { assert |xs[1..]| == 0; }
      assert s'.camera.value.calls[before..] == [first];
      assert SumX([first]) == first.xOffset + SumX([]);
    } else {
      MouseOffsetsTelescope(s1, xs[1..], ys[1..]);
      var later := s'.camera.value.calls[before + 1..];
      assert s'.camera.value.calls[before..] == [first] + later by {
        assert s'.camera.value.calls[..before + 1] == s1.camera.value.calls;
      }
      SumXAppend([first], later);
      assert SumX([first]) == first.xOffset + SumX([]);
    }
  }

  /** The first mouse event moves nothing, and the first-event flag is
      never raised again. */
  lemma FirstMouseEventIsStill(s: ViewState, x: real, y: real, x2: real, y2: real)
    requires s.firstMouse && s.camera.Some?
    ensures var s1 := MousePosition(s, x, y);
            && s1.camera.value.calls == s.camera.value.calls + [ProcessMouseMovement(0.0, 0.0)]
            && !MousePosition(s1, x2, y2).firstMouse
            && !MouseScroll(s1, y2).firstMouse
            && !ProcessKeyboardEvents(s1, {}).firstMouse
  {
  }

  /** The window size the view manager reports. */
  function GetWindowWidth(): (w: int)
    ensures w == WindowWidth
  {
    1000
  }

  function GetWindowHeight(): (h: int)
    ensures h == WindowHeight
  {
    800
  }

  /** The reported window size is the one the perspective view uses. */
  lemma PerspectiveUsesWindowAspect(s: ViewState, now: real)
    requires s.camera.Some? && !s.orthographic
    ensures PrepareSceneView(s, now, {}).projection
              == Perspective(s.camera.value.zoom, GetWindowWidth() as real / GetWindowHeight() as real, 0.1, 100.0)
    ensures GetWindowWidth() as real / GetWindowHeight() as real == 1.25
  {
  }
}
