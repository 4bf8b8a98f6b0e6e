/** Camera of project/src/Camera.cpp: a first-person camera with an origin, accumulated yaw and
    pitch, a forward direction, a perspective projection and a view matrix rebuilt once per
    frame from the keyboard and mouse.

    The per-frame input (the elapsed time, the SDL keyboard snapshot and the relative mouse
    state) is a parameter, and so are the trigonometric builders and PI (MathEnv). */
module Cameras {
  import opened Vectors
  import opened Matrices

  // ---------------------------------------------------------------- input

  /** The keys Update looks at, true when held. */
  datatype Keyboard = Keyboard(lshift: bool, w: bool, s: bool, d: bool, a: bool,
                               up: bool, down: bool, right: bool, left: bool,
                               space: bool, c: bool)

  /** SDL_GetRelativeMouseState: the button mask and the motion since the last call. */
  datatype Mouse = Mouse(buttons: bv32, dx: int, dy: int)

  datatype Input = Input(deltaTime: real, keys: Keyboard, mouse: Mouse)

  /** SDL_BUTTON_LMASK and SDL_BUTTON_RMASK: bits 0 and 2 of the button mask. */
  const LMask: bv32 := 1
  const RMask: bv32 := 4

  const Sensitivity: real := 0.25

  /** 1 / 180 * PI: degrees to radians. */
  function RadianConstant(env: MathEnv): real
  {
    1.0 / 180.0 * env.pi
  }

  // ---------------------------------------------------------------- state

  datatype CameraState = CameraState(
    origin: Vector3,
    forward: Vector3,
    fovAngle: real,
    fov: real,
    totalPitch: real,
    totalYaw: real,
    aspectRatio: real,
    near: real,
    far: real,
    view: Matrix)

  /** Move: the origin is displaced by `change`. */
  function MoveSpec(s: CameraState, change: Vector3): CameraState
  {
    s.(origin := Add(s.origin, change))
  }

  /** The forward direction for given totals: UnitZ pitched about X, then yawed about Y. */
  function ForwardFor(env: MathEnv, yaw: real, pitch: real): Vector3
  {
    TransformVector(env.rotationY(yaw), TransformVector(env.rotationX(pitch), UnitZ))
  }

  /** Rotate: both totals grow, and forward is recomputed from the new totals. */
  function RotateSpec(env: MathEnv, s: CameraState, yaw: real, pitch: real): CameraState
  {
    var p := s.totalPitch + pitch;
    var y := s.totalYaw + yaw;
    s.(totalPitch := p, totalYaw := y, forward := ForwardFor(env, y, p))
  }

  /** degrees / 180 * PI. */
  function DegreesToRadians(env: MathEnv, degrees: real): real
  {
    degrees / 180.0 * env.pi
  }

  /** SetFovAngleDegrees: the angle in radians and the tangent of its half. */
  function FovSpec(env: MathEnv, s: CameraState, degrees: real): CameraState
  {
    var angle := DegreesToRadians(env, degrees);
    s.(fovAngle := angle, fov := env.tan(angle * 0.5))
  }

  /** What Camera(origin, fovAngle, aspectRatio, near, far) leaves behind: the member
      initializers store the arguments (the tangent is first taken of the raw argument),
      then SetFovAngleDegrees reads the argument as degrees. No rotation yet, and the view
      matrix is still the default-constructed one. */
  function NewCameraState(env: MathEnv, origin: Vector3, fovAngle: real, aspectRatio: real,
                          near: real, far: real): CameraState
  {
    FovSpec(env, CameraState(origin, UnitZ, fovAngle, env.tan(fovAngle * 0.5), 0.0, 0.0,
                             aspectRatio, near, far, env.defaultMatrix), fovAngle)
  }

  /** CalculateViewMatrix as the final step of Update. */
  function ViewSpec(env: MathEnv, s: CameraState): CameraState
  {
    s.(view := env.lookAtLH(s.origin, s.forward))
  }

  // ---------------------------------------------------------------- keyboard

  /** A key-driven step: direction * deltaTime * speedMultiplier. */
  function Step(u: Vector3, deltaTime: real, multiplier: real): Vector3
  {
    Scale(Scale(u, deltaTime), multiplier)
  }

  function SpeedMultiplier(keys: Keyboard): real
  {
    if keys.lshift then 1.0 * 5.0 else 1.0
  }

  /** A direction in view space: yawed about Y, then pitched about X. */
  function AlongView(env: MathEnv, pitch: real, yaw: real, v: Vector3): Vector3
  {
    TransformVector(env.rotationX(pitch), TransformVector(env.rotationY(yaw), v))
  }

  /** A direction turned by the yaw alone. */
  function AlongYaw(env: MathEnv, yaw: real, v: Vector3): Vector3
  {
    TransformVector(env.rotationY(yaw), v)
  }

  function MoveIf(pressed: bool, v: Vector3): seq<Vector3>
  {
    if pressed then [v] else []
  }

  /** The six key groups Update reads, in the order it reads them. */
  datatype KeyGroup = Forward | Back | Right | Left | Up | Down

  /** Whether a group is held: W or UP, S or DOWN, D or RIGHT, A or LEFT, SPACE, C. */
  predicate Held(keys: Keyboard, g: KeyGroup)
  {
    match g
    case Forward => keys.w || keys.up
    case Back => keys.s || keys.down
    case Right => keys.d || keys.right
    case Left => keys.a || keys.left
    case Up => keys.space
    case Down => keys.c
  }

  function Direction(g: KeyGroup): Vector3
  {
    match g
    case Forward => UnitZ
    case Back => Neg(UnitZ)
    case Right => UnitX
    case Left => Neg(UnitX)
    case Up => UnitY
    case Down => Neg(UnitY)
  }

  /** The move of one group: forward and back follow the view, right and left the yaw, and up
      and down stay in world space. */
  function GroupMove(env: MathEnv, pitch: real, yaw: real, g: KeyGroup, dt: real, m: real): Vector3
  {
    var v := Step(Direction(g), dt, m);
    match g
    case Forward => AlongView(env, pitch, yaw, v)
    case Back => AlongView(env, pitch, yaw, v)
    case Right => AlongYaw(env, yaw, v)
    case Left => AlongYaw(env, yaw, v)
    case Up => v
    case Down => v
  }

  function GroupMoves(env: MathEnv, pitch: real, yaw: real, held: bool, g: KeyGroup, dt: real, m: real): seq<Vector3>
  {
    MoveIf(held, GroupMove(env, pitch, yaw, g, dt, m))
  }

  /** The Move calls the keyboard part of Update issues, one per held group, in group order.
      Keyboard moves do not rotate, so all of them use the totals from the start of the frame. */
  function KeyMoves(env: MathEnv, pitch: real, yaw: real, keys: Keyboard, dt: real): seq<Vector3>
  {
    KeyMovesAt(env, pitch, yaw, keys, dt, SpeedMultiplier(keys))
  }

  /** The same moves for a given speed multiplier. */
  function KeyMovesAt(env: MathEnv, pitch: real, yaw: real, keys: Keyboard, dt: real, m: real): seq<Vector3>
  {
    GroupMoves(env, pitch, yaw, Held(keys, Forward), Forward, dt, m)
    + GroupMoves(env, pitch, yaw, Held(keys, Back), Back, dt, m)
    + GroupMoves(env, pitch, yaw, Held(keys, Right), Right, dt, m)
    + GroupMoves(env, pitch, yaw, Held(keys, Left), Left, dt, m)
    + GroupMoves(env, pitch, yaw, Held(keys, Up), Up, dt, m)
    + GroupMoves(env, pitch, yaw, Held(keys, Down), Down, dt, m)
  }

  /** The origin after a run of moves, applied in order. */
  function ApplyMoves(origin: Vector3, moves: seq<Vector3>): Vector3
  {
    if moves == [] then origin
    else Add(ApplyMoves(origin, moves[..|moves| - 1]), moves[|moves| - 1])
  }

  /** The origin after an optional move. */
  function MoveIfHeld(origin: Vector3, held: bool, v: Vector3): Vector3
  {
    if held then Add(origin, v) else origin
  }

  /** The keyboard half of Update: the six optional moves, in group order, all computed from
      the totals the frame starts with. */
  function KeyboardStep(env: MathEnv, s: CameraState, keys: Keyboard, dt: real): CameraState
  {
    var p, y, m := s.totalPitch, s.totalYaw, SpeedMultiplier(keys);
    var o1 := MoveIfHeld(s.origin, Held(keys, Forward), GroupMove(env, p, y, Forward, dt, m));
    var o2 := MoveIfHeld(o1, Held(keys, Back), GroupMove(env, p, y, Back, dt, m));
    var o3 := MoveIfHeld(o2, Held(keys, Right), GroupMove(env, p, y, Right, dt, m));
    var o4 := MoveIfHeld(o3, Held(keys, Left), GroupMove(env, p, y, Left, dt, m));
    var o5 := MoveIfHeld(o4, Held(keys, Up), GroupMove(env, p, y, Up, dt, m));
    s.(origin := MoveIfHeld(o5, Held(keys, Down), GroupMove(env, p, y, Down, dt, m)))
  }

  // ---------------------------------------------------------------- mouse

  /** The mouse part of Update, in the source's order: right button alone rotates; left
      button alone turns and dollies; both buttons (with any others) pan vertically. */
  function MouseStep(env: MathEnv, s: CameraState, mouse: Mouse): CameraState
  {
    BothDrag(env, LeftDrag(env, RightDrag(env, s, mouse), mouse), mouse)
  }

  /** The yaw a horizontal mouse motion asks for. */
  function MouseYaw(env: MathEnv, mouse: Mouse): real
  {
    (mouse.dx as real * RadianConstant(env)) * Sensitivity
  }

  /** The pitch a vertical mouse motion asks for (screen Y grows downwards). */
  function MousePitch(env: MathEnv, mouse: Mouse): real
  {
    ((-mouse.dy) as real * RadianConstant(env)) * Sensitivity
  }

  function RightDrag(env: MathEnv, s: CameraState, mouse: Mouse): CameraState
  {
    if mouse.buttons == RMask then RotateSpec(env, s, MouseYaw(env, mouse), MousePitch(env, mouse)) else s
  }

  function LeftDrag(env: MathEnv, s: CameraState, mouse: Mouse): CameraState
  {
    if mouse.buttons == LMask
    then var r := RotateSpec(env, s, MouseYaw(env, mouse), 0.0);
         MoveSpec(r, AlongView(env, r.totalPitch, r.totalYaw, Dolly(mouse.dy)))
    else s
  }

  /** Both the left and the right button are down, whatever the other buttons do. */
  predicate BothButtons(buttons: bv32)
  {
    buttons & (LMask | RMask) == LMask | RMask
  }

  function BothDrag(env: MathEnv, s: CameraState, mouse: Mouse): CameraState
  {
    if BothButtons(mouse.buttons)
    then MoveSpec(s, AlongYaw(env, s.totalYaw, Pan(mouse.dy)))
    else s
  }

  /** UnitZ * -mouseY * sensitivity * 0.5. */
  function Dolly(dy: int): Vector3
  {
    Scale(Scale(Scale(UnitZ, (-dy) as real), Sensitivity), 0.5)
  }

  /** UnitY * mouseY * sensitivity. */
  function Pan(dy: int): Vector3
  {
    Scale(Scale(UnitY, dy as real), Sensitivity)
  }

  /** One frame: keyboard, then mouse, then the view matrix. */
  function UpdateSpec(env: MathEnv, s: CameraState, input: Input): CameraState
  {
    ViewSpec(env, MouseStep(env, KeyboardStep(env, s, input.keys, input.deltaTime), input.mouse))
  }

  // ---------------------------------------------------------------- projection

  /** GetProjectionMatrix, the left-handed perspective projection. The source divides
      unguarded; over the reals the divisors must be non-zero. */
  function Perspective(aspect: real, fov: real, near: real, far: real): Matrix
    requires far != near && aspect != 0.0 && fov != 0.0
  {
    var a := far / (far - near);
    var b := -(far * near) / (far - near);
    Matrix(Vector4(1.0 / (aspect * fov), 0.0, 0.0, 0.0),
           Vector4(0.0, 1.0 / fov, 0.0, 0.0),
           Vector4(0.0, 0.0, a, 1.0),
           Vector4(0.0, 0.0, b, 0.0))
  }

  // ---------------------------------------------------------------- camera object

  class Camera {
    var origin: Vector3
    var forward: Vector3
    var fovAngle: real
    var fov: real
    var totalPitch: real
    var totalYaw: real
    var aspectRatio: real
    var near: real
    var far: real
    var view: Matrix

    function State(): CameraState
      reads this
    {
      CameraState(origin, forward, fovAngle, fov, totalPitch, totalYaw, aspectRatio, near, far, view)
    }

    /** Camera() = default: at the world origin looking along +Z with a 60 degree field of view;
        aspect ratio, near and far are zero. */
    constructor Default(env: MathEnv)
      ensures State() == CameraState(Zero3, UnitZ, 60.0 / 180.0 * env.pi, env.tan(60.0 / 180.0 * env.pi * 0.5),
                                     0.0, 0.0, 0.0, 0.0, 0.0, env.defaultMatrix)
    {
      origin := Zero3;
      forward := UnitZ;
      var angle := 60.0 / 180.0 * env.pi;
      fovAngle := angle;
      fov := env.tan(angle * 0.5);
      totalPitch, totalYaw := 0.0, 0.0;
      aspectRatio, near, far := 0.0, 0.0, 0.0;
      view := env.defaultMatrix;
    }

    /** Camera(origin, fovAngle, aspectRatio = 4/3, near = 0.1, far = 100): stores the four
        values, then sets the field of view from the angle in degrees; no rotation yet. */
    constructor (env: MathEnv, origin: Vector3, fovAngle: real, aspectRatio: real := 4.0 / 3.0,
                 near: real := 0.1, far: real := 100.0)
      ensures State() == NewCameraState(env, origin, fovAngle, aspectRatio, near, far)
    {
      this.origin := origin;
      forward := UnitZ;
      this.fovAngle := fovAngle;
      fov := env.tan(fovAngle * 0.5);
      totalPitch, totalYaw := 0.0, 0.0;
      this.aspectRatio := aspectRatio;
      this.near := near;
      this.far := far;
      view := env.defaultMatrix;
      new;
      SetFovAngleDegrees(env, fovAngle);
    }

    function GetProjectionMatrix(): Matrix
      reads this
      requires far != near && aspectRatio != 0.0 && fov != 0.0
    {
      Perspective(aspectRatio, fov, near, far)
    }

    function GetViewMatrix(): Matrix
      reads this
    {
      view
    }

    function CalculateViewMatrix(env: MathEnv): Matrix
      reads this
    {
      env.lookAtLH(origin, forward)
    }

    method SetPos(newPos: Vector3)
      modifies this
      ensures State() == old(State()).(origin := newPos)
    {
      origin := newPos;
    }

    method SetFovAngleDegrees(env: MathEnv, newFovAngle: real)
      modifies this
      ensures State() == FovSpec(env, old(State()), newFovAngle)
    {
      var angle := DegreesToRadians(env, newFovAngle);
      fovAngle, fov := angle, env.tan(angle * 0.5);
    }

    method Move(change: Vector3)
      modifies this
      ensures State() == MoveSpec(old(State()), change)
    {
      origin := Add(origin, change);
    }

    method Rotate(env: MathEnv, yaw: real, pitch: real)
      modifies this
      ensures State() == RotateSpec(env, old(State()), yaw, pitch)
    {
      totalPitch := totalPitch + pitch;
      totalYaw := totalYaw + yaw;
      forward := TransformVector(env.rotationY(totalYaw), TransformVector(env.rotationX(totalPitch), UnitZ));
    }

    /** Update: the keyboard moves, the mouse rotations and moves, then the view matrix. */
    method Update(env: MathEnv, input: Input)
      modifies this
      ensures State() == UpdateSpec(env, old(State()), input)
    {
      UpdateFromKeyboard(env, input.keys, input.deltaTime);
      UpdateFromMouse(env, input.mouse);
      view := CalculateViewMatrix(env);
    }

    /** The keyboard half of Update: the speed multiplier, then one optional move per key
        group, in group order. */
    method UpdateFromKeyboard(env: MathEnv, keys: Keyboard, deltaTime: real)
      modifies this
      ensures State() == KeyboardStep(env, old(State()), keys, deltaTime)
    {
      var speedMultiplier := 1.0;
      if keys.lshift {
        speedMultiplier := speedMultiplier * 5.0;
      }
      MoveGroup(env, keys, Forward, deltaTime, speedMultiplier);
      MoveGroup(env, keys, Back, deltaTime, speedMultiplier);
      MoveGroup(env, keys, Right, deltaTime, speedMultiplier);
      MoveGroup(env, keys, Left, deltaTime, speedMultiplier);
      MoveGroup(env, keys, Up, deltaTime, speedMultiplier);
      MoveGroup(env, keys, Down, deltaTime, speedMultiplier);
    }

    /** One branch of the keyboard half: when the group is held, Move by the group's
        direction scaled by the frame time and the multiplier and turned by the current
        rotations. */
    method MoveGroup(env: MathEnv, keys: Keyboard, g: KeyGroup, deltaTime: real, speedMultiplier: real)
      modifies this
      ensures State() == old(State()).(origin := MoveIfHeld(old(origin), Held(keys, g), GroupMove(env, old(totalPitch), old(totalYaw), g, deltaTime, speedMultiplier)))
    {
      if Held(keys, g) {
        Move(GroupMove(env, totalPitch, totalYaw, g, deltaTime, speedMultiplier));
      }
    }

    /** The mouse half of Update: rotate on a right drag, turn and dolly on a left drag, pan
        when both buttons are down. */
    method UpdateFromMouse(env: MathEnv, mouse: Mouse)
      modifies this
      ensures State() == MouseStep(env, old(State()), mouse)
    {
      if mouse.buttons == RMask {
        Rotate(env, MouseYaw(env, mouse), MousePitch(env, mouse));
      }
      assert State() == RightDrag(env, old(State()), mouse);
      if mouse.buttons == LMask {
        Rotate(env, MouseYaw(env, mouse), 0.0);
        Move(AlongView(env, totalPitch, totalYaw, Dolly(mouse.dy)));
      }
      assert State() == LeftDrag(env, RightDrag(env, old(State()), mouse), mouse);
      if BothButtons(mouse.buttons) {
        Move(AlongYaw(env, totalYaw, Pan(mouse.dy)));
      }
    }
  }

  /** Applying one more optional move: the origin moves by it exactly when it is there. */
  lemma ApplyMovesSnoc(origin: Vector3, moves: seq<Vector3>, pressed: bool, v: Vector3)
    ensures ApplyMoves(origin, moves + MoveIf(pressed, v)) == MoveIfHeld(ApplyMoves(origin, moves), pressed, v)
  {
    var all := moves + MoveIf(pressed, v);
    if pressed {
      assert all[..|all| - 1] == moves;
    } else {
      assert all == moves;
    }
  }

  /** Six optional moves one after another land where the list of the moves that happen,
      applied in order, lands. */
  lemma ApplySixMoves(o: Vector3, h1: bool, v1: Vector3, h2: bool, v2: Vector3, h3: bool, v3: Vector3,
                      h4: bool, v4: Vector3, h5: bool, v5: Vector3, h6: bool, v6: Vector3)
    ensures MoveIfHeld(MoveIfHeld(MoveIfHeld(MoveIfHeld(MoveIfHeld(MoveIfHeld(o, h1, v1), h2, v2), h3, v3),
                                             h4, v4), h5, v5), h6, v6)
            == ApplyMoves(o, MoveIf(h1, v1) + MoveIf(h2, v2) + MoveIf(h3, v3) + MoveIf(h4, v4)
                             + MoveIf(h5, v5) + MoveIf(h6, v6))
  {
    var g1, g2, g3, g4, g5 := MoveIf(h1, v1), MoveIf(h2, v2), MoveIf(h3, v3), MoveIf(h4, v4), MoveIf(h5, v5);
    assert g1 == [] + g1;
    ApplyMovesSnoc(o, [], h1, v1);
    ApplyMovesSnoc(o, g1, h2, v2);
    ApplyMovesSnoc(o, g1 + g2, h3, v3);
    ApplyMovesSnoc(o, g1 + g2 + g3, h4, v4);
    ApplyMovesSnoc(o, g1 + g2 + g3 + g4, h5, v5);
    ApplyMovesSnoc(o, g1 + g2 + g3 + g4 + g5, h6, v6);
  }

  /** The keyboard half of Update moves the camera by exactly the list of key moves, applied
      in order. */
  lemma KeyboardAppliesKeyMoves(env: MathEnv, s: CameraState, keys: Keyboard, dt: real)
    ensures KeyboardStep(env, s, keys, dt)
            == s.(origin := ApplyMoves(s.origin, KeyMoves(env, s.totalPitch, s.totalYaw, keys, dt)))
  {
    var p, y, m := s.totalPitch, s.totalYaw, SpeedMultiplier(keys);
    ApplySixMoves(s.origin,
                  Held(keys, Forward), GroupMove(env, p, y, Forward, dt, m),
                  Held(keys, Back), GroupMove(env, p, y, Back, dt, m),
                  Held(keys, Right), GroupMove(env, p, y, Right, dt, m),
                  Held(keys, Left), GroupMove(env, p, y, Left, dt, m),
                  Held(keys, Up), GroupMove(env, p, y, Up, dt, m),
                  Held(keys, Down), GroupMove(env, p, y, Down, dt, m));
  }

  // ---------------------------------------------------------------- lemmas: construction

  /** The constructor keeps origin, aspect ratio, near and far as given, converts the angle
      from degrees to radians, and derives fov from the converted angle, not the raw one. */
  lemma ConstructorStoresLens(env: MathEnv, origin: Vector3, degrees: real, aspectRatio: real,
                              near: real, far: real)
    ensures var s := NewCameraState(env, origin, degrees, aspectRatio, near, far);
            && s.origin == origin && s.aspectRatio == aspectRatio && s.near == near && s.far == far
            && s.fovAngle == degrees / 180.0 * env.pi && s.fov == env.tan(degrees / 180.0 * env.pi * 0.5)
            && s.forward == UnitZ && s.totalYaw == 0.0 && s.totalPitch == 0.0
            && s.view == env.defaultMatrix
  {
  }

  // ---------------------------------------------------------------- lemmas: projection

  /** The projection's layout: 1/(aspect*fov) and 1/fov on the diagonal, far/(far-near) and 1
      in the depth column, -far*near/(far-near) below it, and zero everywhere else. */
  lemma PerspectiveLayout(aspect: real, fov: real, near: real, far: real)
    requires far != near && aspect != 0.0 && fov != 0.0
    ensures var p := Perspective(aspect, fov, near, far);
            && Entry(p, 0, 0) == 1.0 / (aspect * fov)
            && Entry(p, 1, 1) == 1.0 / fov
            && Entry(p, 2, 2) == far / (far - near)
            && Entry(p, 2, 3) == 1.0
            && Entry(p, 3, 2) == -(far * near) / (far - near)
    ensures forall i, j ::
              (0 <= i <= 3 && 0 <= j <= 3 && !((i == j && i <= 2) || (i == 2 && j == 3) || (i == 3 && j == 2)))
              ==> Entry(Perspective(aspect, fov, near, far), i, j) == 0.0
  {
  }

  /** Scaling the aspect ratio by k divides entry (0,0) by k and leaves every other entry as
      it was; doubling the aspect ratio halves the horizontal scale. */
  lemma AspectScalesOnlyHorizontal(aspect: real, fov: real, near: real, far: real, k: real)
    requires far != near && aspect != 0.0 && fov != 0.0 && k != 0.0
    ensures var p := Perspective(aspect, fov, near, far);
            var q := Perspective(k * aspect, fov, near, far);
            && Entry(q, 0, 0) == Entry(p, 0, 0) / k
            && q == p.(r0 := p.r0.(x := p.r0.x / k))
  {
    var af := aspect * fov;
    assert (k * aspect) * fov == k * af;
    assert 1.0 / (k * af) == (1.0 / af) / k;
  }

  /** With a = far/(far-near) and b = -far*near/(far-near), a view-space depth z becomes
      (a*z + b)/z: the near plane maps to 0 and the far plane to 1. */
  lemma DepthRange(near: real, far: real)
    requires far != near
    ensures var a := far / (far - near);
            var b := -(far * near) / (far - near);
            && a * near + b == 0.0
            && a * far + b == far
            && (far != 0.0 ==> (a * far + b) / far == 1.0)
  {
    var d := far - near;
    var a := far / d;
    var b := -(far * near) / d;
    assert a * near == (far * near) / d;
    assert a * far + b == (far * far - far * near) / d;
    assert far * far - far * near == far * d;
  }

  // ---------------------------------------------------------------- lemmas: moves and rotations

  /** Moves accumulate: two moves are one move by their sum, and a move is undone by its
      negation. */
  lemma MovesAccumulate(s: CameraState, a: Vector3, b: Vector3)
    ensures MoveSpec(MoveSpec(s, a), b) == MoveSpec(s, Add(a, b))
    ensures MoveSpec(MoveSpec(s, a), Neg(a)) == s
  {
  }

  /** Rotations accumulate: two rotations are one rotation by the summed angles. */
  lemma RotationsAccumulate(env: MathEnv, s: CameraState, y1: real, p1: real, y2: real, p2: real)
    ensures RotateSpec(env, RotateSpec(env, s, y1, p1), y2, p2) == RotateSpec(env, s, y1 + y2, p1 + p2)
  {
    assert (s.totalPitch + p1) + p2 == s.totalPitch + (p1 + p2);
    assert (s.totalYaw + y1) + y2 == s.totalYaw + (y1 + y2);
  }

  /** Rotate forgets the previous forward direction: it depends on the totals alone, and
      nothing but the totals and forward changes. */
  lemma RotateUsesTotalsOnly(env: MathEnv, s: CameraState, t: CameraState, yaw: real, pitch: real)
    requires s.totalYaw == t.totalYaw && s.totalPitch == t.totalPitch
    ensures RotateSpec(env, s, yaw, pitch).forward == RotateSpec(env, t, yaw, pitch).forward
    ensures RotateSpec(env, s, yaw, pitch).(forward := s.forward, totalYaw := s.totalYaw, totalPitch := s.totalPitch) == s
  {
  }

  // ---------------------------------------------------------------- lemmas: keyboard

  function Pressed(b: bool): nat
  {
    if b then 1 else 0
  }

  /** Each pressed key group issues exactly one move of its own. */
  lemma OneMovePerKeyGroup(env: MathEnv, pitch: real, yaw: real, keys: Keyboard, dt: real)
    ensures |KeyMoves(env, pitch, yaw, keys, dt)| ==
            Pressed(keys.w || keys.up) + Pressed(keys.s || keys.down) + Pressed(keys.d || keys.right)
            + Pressed(keys.a || keys.left) + Pressed(keys.space) + Pressed(keys.c)
  {
  }

  function ScaleAll(moves: seq<Vector3>, k: real): (r: seq<Vector3>)
    ensures |r| == |moves|
  {
    if moves == [] then [] else [Scale(moves[0], k)] + ScaleAll(moves[1..], k)
  }

  lemma {:induction false} ScaleAllConcat(a: seq<Vector3>, b: seq<Vector3>, k: real)
    ensures ScaleAll(a + b, k) == ScaleAll(a, k) + ScaleAll(b, k)
  {
    if a == [] {
      assert a + b == b;
    } else {
      assert (a + b)[0] == a[0];
      assert (a + b)[1..] == a[1..] + b;
      ScaleAllConcat(a[1..], b, k);
    }
  }

  lemma ScaleAllMoveIf(pressed: bool, slow: Vector3, fast: Vector3, k: real)
    requires fast == Scale(slow, k)
    ensures ScaleAll(MoveIf(pressed, slow), k) == MoveIf(pressed, fast)
  {
    if pressed {
      assert ScaleAll([slow], k) == [Scale(slow, k)] + ScaleAll([], k);
    }
  }

  /** A group's move at five times the speed is five times its move, whatever the frame. */
  lemma GroupMoveScales(env: MathEnv, pitch: real, yaw: real, g: KeyGroup, dt: real)
    ensures GroupMove(env, pitch, yaw, g, dt, 5.0) == Scale(GroupMove(env, pitch, yaw, g, dt, 1.0), 5.0)
  {
    var v := Step(Direction(g), dt, 1.0);
    assert Step(Direction(g), dt, 5.0) == Scale(v, 5.0);
    var ry := env.rotationY(yaw);
    TransformScales(ry, v, 5.0);
    TransformScales(env.rotationX(pitch), TransformVector(ry, v), 5.0);
  }

  lemma GroupMovesScale(env: MathEnv, pitch: real, yaw: real, held: bool, g: KeyGroup, dt: real)
    ensures ScaleAll(GroupMoves(env, pitch, yaw, held, g, dt, 1.0), 5.0) == GroupMoves(env, pitch, yaw, held, g, dt, 5.0)
  {
    GroupMoveScales(env, pitch, yaw, g, dt);
    ScaleAllMoveIf(held, GroupMove(env, pitch, yaw, g, dt, 1.0), GroupMove(env, pitch, yaw, g, dt, 5.0), 5.0);
  }

  /** Each keyboard move at multiplier 5 is five times the move at multiplier 1. */
  lemma KeyMovesScale(env: MathEnv, pitch: real, yaw: real, keys: Keyboard, dt: real)
    ensures KeyMovesAt(env, pitch, yaw, keys, dt, 5.0) == ScaleAll(KeyMovesAt(env, pitch, yaw, keys, dt, 1.0), 5.0)
  {
    var p1 := GroupMoves(env, pitch, yaw, Held(keys, Forward), Forward, dt, 1.0);
    var p2 := GroupMoves(env, pitch, yaw, Held(keys, Back), Back, dt, 1.0);
    var p3 := GroupMoves(env, pitch, yaw, Held(keys, Right), Right, dt, 1.0);
    var p4 := GroupMoves(env, pitch, yaw, Held(keys, Left), Left, dt, 1.0);
    var p5 := GroupMoves(env, pitch, yaw, Held(keys, Up), Up, dt, 1.0);
    var p6 := GroupMoves(env, pitch, yaw, Held(keys, Down), Down, dt, 1.0);
    GroupMovesScale(env, pitch, yaw, Held(keys, Forward), Forward, dt);
    GroupMovesScale(env, pitch, yaw, Held(keys, Back), Back, dt);
    GroupMovesScale(env, pitch, yaw, Held(keys, Right), Right, dt);
    GroupMovesScale(env, pitch, yaw, Held(keys, Left), Left, dt);
    GroupMovesScale(env, pitch, yaw, Held(keys, Up), Up, dt);
    GroupMovesScale(env, pitch, yaw, Held(keys, Down), Down, dt);
    ScaleAllConcat(p1, p2, 5.0);
    ScaleAllConcat(p1 + p2, p3, 5.0);
    ScaleAllConcat(p1 + p2 + p3, p4, 5.0);
    ScaleAllConcat(p1 + p2 + p3 + p4, p5, 5.0);
    ScaleAllConcat(p1 + p2 + p3 + p4 + p5, p6, 5.0);
  }

  /** The moves depend on the keyboard only through which groups are held. */
  lemma MovesFollowHeldGroups(env: MathEnv, pitch: real, yaw: real, k1: Keyboard, k2: Keyboard, dt: real, m: real)
    requires SameMovementKeys(k1, k2)
    ensures KeyMovesAt(env, pitch, yaw, k1, dt, m) == KeyMovesAt(env, pitch, yaw, k2, dt, m)
  {
    assert Held(k1, Forward) == Held(k2, Forward) && Held(k1, Back) == Held(k2, Back);
    assert Held(k1, Right) == Held(k2, Right) && Held(k1, Left) == Held(k2, Left);
    assert Held(k1, Up) == Held(k2, Up) && Held(k1, Down) == Held(k2, Down);
  }

  /** Two snapshots agree on every key but left shift. */
  predicate SameMovementKeys(k1: Keyboard, k2: Keyboard)
  {
    && k1.w == k2.w && k1.up == k2.up && k1.s == k2.s && k1.down == k2.down
    && k1.d == k2.d && k1.right == k2.right && k1.a == k2.a && k1.left == k2.left
    && k1.space == k2.space && k1.c == k2.c
  }

  /** Holding left shift, with the same movement keys, makes every keyboard move exactly five
      times as long. */
  lemma ShiftMovesFiveTimesFaster(env: MathEnv, pitch: real, yaw: real, fast: Keyboard, slow: Keyboard, dt: real)
    requires fast.lshift && !slow.lshift && fast == slow.(lshift := true)
    ensures KeyMoves(env, pitch, yaw, fast, dt) == ScaleAll(KeyMoves(env, pitch, yaw, slow, dt), 5.0)
  {
    assert SpeedMultiplier(fast) == 5.0 && SpeedMultiplier(slow) == 1.0;
    KeyMovesScale(env, pitch, yaw, slow, dt);
    MovesFollowHeldGroups(env, pitch, yaw, fast, slow, dt, 5.0);
  }

  /** With no horizontal key held, only the SPACE and C moves remain. */
  lemma OnlyVerticalMoves(env: MathEnv, pitch: real, yaw: real, keys: Keyboard, dt: real)
    requires !(keys.w || keys.up || keys.s || keys.down || keys.d || keys.right || keys.a || keys.left)
    ensures KeyMoves(env, pitch, yaw, keys, dt)
            == MoveIf(keys.space, Step(UnitY, dt, SpeedMultiplier(keys)))
               + MoveIf(keys.c, Step(Neg(UnitY), dt, SpeedMultiplier(keys)))
  {
    assert KeyMoves(env, pitch, yaw, keys, dt)
           == [] + [] + [] + [] + GroupMoves(env, pitch, yaw, keys.space, Up, dt, SpeedMultiplier(keys))
              + GroupMoves(env, pitch, yaw, keys.c, Down, dt, SpeedMultiplier(keys));
  }

  /** A step up or down has no X or Z part, whatever its length. */
  lemma VerticalStepsStayVertical(dt: real, m: real)
    ensures Step(UnitY, dt, m).x == 0.0 && Step(UnitY, dt, m).z == 0.0
    ensures Step(Neg(UnitY), dt, m).x == 0.0 && Step(Neg(UnitY), dt, m).z == 0.0
  {
    assert Neg(UnitY) == Vector3(0.0, -1.0, 0.0);
  }

  /** SPACE and C move along world Y whatever the yaw and pitch: with only those keys held,
      the moves are the same for every orientation and have no X or Z part. */
  lemma VerticalKeysIgnoreOrientation(env: MathEnv, p1: real, y1: real, p2: real, y2: real,
                                      keys: Keyboard, dt: real)
    requires !(keys.w || keys.up || keys.s || keys.down || keys.d || keys.right || keys.a || keys.left)
    ensures KeyMoves(env, p1, y1, keys, dt) == KeyMoves(env, p2, y2, keys, dt)
    ensures forall v :: v in KeyMoves(env, p1, y1, keys, dt) ==> v.x == 0.0 && v.z == 0.0
  {
    OnlyVerticalMoves(env, p1, y1, keys, dt);
    OnlyVerticalMoves(env, p2, y2, keys, dt);
    var m := SpeedMultiplier(keys);
    var up, down := Step(UnitY, dt, m), Step(Neg(UnitY), dt, m);
    VerticalStepsStayVertical(dt, m);
    assert forall v :: v in MoveIf(keys.space, up) + MoveIf(keys.c, down) ==> v == up || v == down;
  }

  /** Holding forward and back together, and nothing else, leaves the camera where it was. */
  lemma ForwardAndBackCancel(env: MathEnv, s: CameraState, keys: Keyboard, dt: real)
    requires (keys.w || keys.up) && (keys.s || keys.down)
    requires !(keys.d || keys.right || keys.a || keys.left || keys.space || keys.c)
    ensures KeyboardStep(env, s, keys, dt) == s
  {
    var m := SpeedMultiplier(keys);
    var ry := env.rotationY(s.totalYaw);
    var v := Step(UnitZ, dt, m);
    assert Step(Neg(UnitZ), dt, m) == Scale(v, -1.0);
    TransformScales(ry, v, -1.0);
    TransformScales(env.rotationX(s.totalPitch), TransformVector(ry, v), -1.0);
    var f := GroupMove(env, s.totalPitch, s.totalYaw, Forward, dt, m);
    assert GroupMove(env, s.totalPitch, s.totalYaw, Back, dt, m) == Scale(f, -1.0);
  }

  // ---------------------------------------------------------------- lemmas: mouse and update

  /** Right button alone: yaw from the horizontal motion, pitch from the negated vertical
      motion, and no move. */
  lemma RightDragRotates(env: MathEnv, s: CameraState, mouse: Mouse)
    requires mouse.buttons == RMask
    ensures MouseStep(env, s, mouse) ==
            RotateSpec(env, s, (mouse.dx as real * RadianConstant(env)) * Sensitivity,
                       ((-mouse.dy) as real * RadianConstant(env)) * Sensitivity)
  {
    var r := RightDrag(env, s, mouse);
    assert r == RotateSpec(env, s, MouseYaw(env, mouse), MousePitch(env, mouse));
    assert MouseYaw(env, mouse) == (mouse.dx as real * RadianConstant(env)) * Sensitivity;
    assert MousePitch(env, mouse) == ((-mouse.dy) as real * RadianConstant(env)) * Sensitivity;
    assert mouse.buttons != LMask;
    assert !BothButtons(RMask);
    assert LeftDrag(env, r, mouse) == r;
    assert BothDrag(env, r, mouse) == r;
  }

  /** Left button alone: yaw only, then a dolly along the new view direction. */
  lemma LeftDragTurnsAndDollies(env: MathEnv, s: CameraState, mouse: Mouse)
    requires mouse.buttons == LMask
    ensures var r := MouseStep(env, s, mouse);
            var yaw := s.totalYaw + (mouse.dx as real * RadianConstant(env)) * Sensitivity;
            && r.totalPitch == s.totalPitch && r.totalYaw == yaw
            && r.forward == ForwardFor(env, yaw, s.totalPitch)
            && r.origin == Add(s.origin, AlongView(env, s.totalPitch, yaw, Dolly(mouse.dy)))
  {
    LeftDragAlone(env, s, mouse);
    var yaw := s.totalYaw + MouseYaw(env, mouse);
    var turned := RotateSpec(env, s, MouseYaw(env, mouse), 0.0);
    assert turned.totalPitch == s.totalPitch && turned.totalYaw == yaw;
    assert LeftDrag(env, s, mouse) == MoveSpec(turned, AlongView(env, s.totalPitch, yaw, Dolly(mouse.dy)));
  }

  /** With the left button alone, only the left-drag branch fires. */
  lemma LeftDragAlone(env: MathEnv, s: CameraState, mouse: Mouse)
    requires mouse.buttons == LMask
    ensures MouseStep(env, s, mouse) == LeftDrag(env, s, mouse)
  {
    assert RightDrag(env, s, mouse) == s;
    assert !BothButtons(mouse.buttons);
  }

  /** Both buttons: neither single-button branch fires; the camera pans along the yawed Y
      direction without turning. */
  lemma BothButtonsPan(env: MathEnv, s: CameraState, mouse: Mouse)
    requires BothButtons(mouse.buttons)
    ensures MouseStep(env, s, mouse) == MoveSpec(s, AlongYaw(env, s.totalYaw, Pan(mouse.dy)))
  {
    assert RightDrag(env, s, mouse) == s;
    assert LeftDrag(env, s, mouse) == s;
  }

  /** Any other button state, including left or right together with a third button, changes
      nothing. */
  lemma OtherButtonsAreIgnored(env: MathEnv, s: CameraState, mouse: Mouse)
    requires mouse.buttons != LMask && mouse.buttons != RMask
    requires !BothButtons(mouse.buttons)
    ensures MouseStep(env, s, mouse) == s
  {
    assert RightDrag(env, s, mouse) == s;
    assert LeftDrag(env, s, mouse) == s;
  }

  /** Update ends with the view matrix rebuilt from the final origin and forward, and never
      touches the lens: the projection matrix is the same before and after. */
  lemma UpdateRebuildsViewOnly(env: MathEnv, s: CameraState, input: Input)
    ensures var r := UpdateSpec(env, s, input);
            && r.view == env.lookAtLH(r.origin, r.forward)
            && r.fov == s.fov && r.fovAngle == s.fovAngle && r.aspectRatio == s.aspectRatio
            && r.near == s.near && r.far == s.far
  {
    var k := KeyboardStep(env, s, input.keys, input.deltaTime);
    var m := MouseStep(env, k, input.mouse);
    assert m.fov == s.fov && m.aspectRatio == s.aspectRatio && m.near == s.near && m.far == s.far;
  }
}
