/** The free camera's input handling: device events set movement flags and the
    pending field-of-view change on a `CameraController`, and `Camera::update`
    applies the pending change to the field of view. */
module Camera {

  datatype Option<T> = None | Some(value: T)

  datatype ElementState = Pressed | Released

  /** The keys the controller reacts to; every other key is `OtherKey`. */
  datatype VirtualKeyCode = Space | LShift | W | S | A | D | OtherKey(code: nat)

  datatype MouseScrollDelta =
    | LineDelta(columns: real, lines: real)
    | PixelDelta(x: real, y: real)     // `PhysicalPosition<f64>`, read as `f32`

  datatype KeyboardInput = KeyboardInput(scancode: nat, state: ElementState, virtualKeycode: Option<VirtualKeyCode>)

  /** `winit::event::DeviceEvent` */
  datatype DeviceEvent =
    | Added
    | Removed
    | MouseMotion(dx: real, dy: real)
    | MouseWheel(delta: MouseScrollDelta)
    | Motion(axis: nat, value: real)
    | Button(button: nat, buttonState: ElementState)
    | Key(input: KeyboardInput)
    | Text(codepoint: char)

  /** Every field of a `CameraController`, as one value. */
  datatype ControllerState = ControllerState(
    speed: real, sensitivity: real,
    forward: real, backward: real, left: real, right: real, up: real, down: real,
    yaw: real, pitch: real, fovDelta: real)

  /** The six movement flags. */
  datatype Direction = Up | Down | Forward | Backward | Left | Right

  /** `CameraController::new` */
  const InitialState: ControllerState :=
    ControllerState(0.08, 0.1, 0.0, 0.0, 0.0, 0.0, 0.0, 0.0, 270.0, 0.0, 0.0)

  /** Which flag a key drives, if any. */
  function Binding(k: VirtualKeyCode): Option<Direction>
  {
    match k
    case Space => Some(Up)
    case LShift => Some(Down)
    case W => Some(Forward)
    case S => Some(Backward)
    case A => Some(Left)
    case D => Some(Right)
    case OtherKey(_) => None
  }

  function Flag(s: ControllerState, d: Direction): real
  {
    match d
    case Up => s.up
    case Down => s.down
    case Forward => s.forward
    case Backward => s.backward
    case Left => s.left
    case Right => s.right
  }

  /** The fields no key event touches are equal in `s` and `s'`. */
  predicate SameSettings(s: ControllerState, s': ControllerState)
  {
    s.speed == s'.speed && s.sensitivity == s'.sensitivity && s.yaw == s'.yaw
      && s.pitch == s'.pitch && s.fovDelta == s'.fovDelta
  }

  /** 1 while a key is held, 0 once released. */
  function KeyValue(state: ElementState): real
  {
    if state == Pressed then 1.0 else 0.0
  }

  /** The vertical scroll of a wheel event, in lines or in pixels. */
  function ScrollAmount(delta: MouseScrollDelta): real
  {
    match delta
    case LineDelta(_, lines) => lines
    case PixelDelta(_, y) => y
  }

  /** `CameraController::process_input` on values: the new controller state,
      or `None` where the source panics. Only a key event without a virtual
      keycode panics. */
  function Process(s: ControllerState, e: DeviceEvent): (r: Option<ControllerState>)
    ensures r.None? <==> e.Key? && e.input.virtualKeycode.None?
  {
    match e
    case MouseWheel(delta) => Some(s.(fovDelta := ScrollAmount(delta)))
    case Key(input) =>
      if input.virtualKeycode.None? then None
      else
        var value := KeyValue(input.state);
        (match input.virtualKeycode.value
         case Space => Some(s.(up := value))
         case LShift => Some(s.(down := value))
         case W => Some(s.(forward := value))
         case S => Some(s.(backward := value))
         case A => Some(s.(left := value))
         case D => Some(s.(right := value))
         case OtherKey(_) => Some(s))
    case _ => Some(s)
  }

  /** The controller starts at rest: no flag set, no pending zoom, looking
      along yaw 270 with pitch 0, moving 0.08 per frame. */
  lemma InitialStateAtRest()
    ensures forall d: Direction :: Flag(InitialState, d) == 0.0
    ensures InitialState.fovDelta == 0.0 && InitialState.yaw == 270.0 && InitialState.pitch == 0.0
    ensures InitialState.speed == 0.08
  {
    forall d: Direction ensures Flag(InitialState, d) == 0.0 {
      match d
      case Up =>
      case Down =>
      case Forward =>
      case Backward =>
      case Left =>
      case Right =>
    }
  }

  /** A bound key sets its flag to 1 when pressed and 0 otherwise, and changes
      nothing else. */
  lemma KeySetsOnlyItsFlag(s: ControllerState, input: KeyboardInput, d: Direction)
    requires input.virtualKeycode.Some? && Binding(input.virtualKeycode.value) == Some(d)
    ensures Process(s, Key(input)).Some?
    ensures var s' := Process(s, Key(input)).value;
      && Flag(s', d) == KeyValue(input.state)
      && (forall d' :: d' != d ==> Flag(s', d') == Flag(s, d'))
      && SameSettings(s, s')
  {
  }

  /** An unbound key leaves the controller as it was. */
  lemma UnboundKeyIgnored(s: ControllerState, input: KeyboardInput)
    requires input.virtualKeycode.Some? && Binding(input.virtualKeycode.value).None?
    ensures Process(s, Key(input)) == Some(s)
  {
  }

  /** A wheel event replaces the pending zoom by its scroll amount, whatever was
      pending before, and changes nothing else. */
  lemma WheelReplacesFovDelta(s: ControllerState, delta: MouseScrollDelta)
    ensures Process(s, MouseWheel(delta)).Some?
    ensures var s' := Process(s, MouseWheel(delta)).value;
      && s'.fovDelta == ScrollAmount(delta)
      && (forall d :: Flag(s', d) == Flag(s, d))
      && s' == s.(fovDelta := s'.fovDelta)
  {
  }

  /** Motion, button and every other event that is neither a key nor the wheel
      leave the controller as it was. */
  lemma OtherEventsIgnored(s: ControllerState, e: DeviceEvent)
    requires !e.Key? && !e.MouseWheel?
    ensures Process(s, e) == Some(s)
  {
  }

  /** Pressing then releasing a bound key returns its flag to 0 and restores
      the state if the flag was 0 before. */
  lemma PressReleaseRestores(s: ControllerState, k: VirtualKeyCode, d: Direction, code: nat)
    requires Binding(k) == Some(d) && Flag(s, d) == 0.0
    ensures var pressed := Process(s, Key(KeyboardInput(code, Pressed, Some(k))));
      && pressed.Some?
      && Flag(pressed.value, d) == 1.0
      && Process(pressed.value, Key(KeyboardInput(code, Released, Some(k)))) == Some(s)
  {
  }

  /** The field-of-view part of `Camera::update` on values: the pending change
      is applied and cleared. */
  function UpdateFov(fov: real, s: ControllerState): (real, ControllerState)
  {
    (fov + s.fovDelta, s.(fovDelta := 0.0))
  }

  /** After one update nothing is pending, so a second update without new input
      keeps the field of view. */
  lemma UpdateFovSettles(fov: real, s: ControllerState)
    ensures var (fov1, s1) := UpdateFov(fov, s);
      && s1.fovDelta == 0.0
      && UpdateFov(fov1, s1) == (fov1, s1)
  {
  }

  class CameraController {
    var speed: real
    var sensitivity: real
    var forward: real
    var backward: real
    var left: real
    var right: real
    var up: real
    var down: real
    var yaw: real
    var pitch: real
    var fovDelta: real

    function State(): ControllerState
      reads this
    {
      ControllerState(speed, sensitivity, forward, backward, left, right, up, down, yaw, pitch, fovDelta)
    }

    /** `CameraController::new` */
    constructor ()
      ensures State() == InitialState
    {
      speed := 0.08;
      sensitivity := 0.1;
      forward := 0.0;
      backward := 0.0;
      left := 0.0;
      right := 0.0;
      up := 0.0;
      down := 0.0;
      yaw := 270.0;
      pitch := 0.0;
      fovDelta := 0.0;
    }

    /** `CameraController::process_input`: `ok` is false where the source
        panics, and then nothing has changed. */
    method ProcessInput(e: DeviceEvent) returns (ok: bool)
      modifies this
      ensures ok <==> Process(old(State()), e).Some?
      ensures ok ==> State() == Process(old(State()), e).value
      ensures !ok ==> State() == old(State())
    {
      match e
      case MouseWheel(delta) =>
        fovDelta := match delta
          case LineDelta(_, scroll) => scroll
          case PixelDelta(_, y) => y;
        ok := true;
      case Motion(_, _) =>
        ok := true;
      case Button(_, _) =>
        ok := true;
      case Key(input) =>
        var value: real;
        if input.state == Pressed {
          value := 1.0;
        } else {
          value := 0.0;
        }
        if input.virtualKeycode.None? {
          return false;
        }
        match input.virtualKeycode.value {
          case Space => up := value;
          case LShift => down := value;
          case W => forward := value;
          case S => backward := value;
          case A => left := value;
          case D => right := value;
          case OtherKey(_) =>
        }
        ok := true;
      case _ =>
        ok := true;
    }
  }

  /** The part of `Camera` this model keeps: the field of view and the
      controller it owns. */
  class Camera {
    var fov: real
    const controller: CameraController

    /** `Camera::new`, for the fields kept here. */
    constructor ()
      ensures fresh(controller)
      ensures fov == 60.0 && controller.State() == InitialState
    {
      fov := 60.0;
      controller := new CameraController();
    }

    /** The field-of-view lines of `Camera::update`: the pending change is
        added to `fov` and then cleared; the rest of the controller is kept. */
    method Update()
      modifies this, controller
      ensures (fov, controller.State()) == UpdateFov(old(fov), old(controller.State()))
      ensures fov == old(fov) + old(controller.fovDelta) && controller.fovDelta == 0.0
    {
      fov := fov + controller.fovDelta;
      controller.fovDelta := 0.0;
    }

    /** `Camera::input`: hands the event to the controller. */
    method Input(e: DeviceEvent) returns (ok: bool)
      modifies controller
      ensures ok <==> Process(old(controller.State()), e).Some?
      ensures ok ==> controller.State() == Process(old(controller.State()), e).value
      ensures !ok ==> controller.State() == old(controller.State())
    {
      ok := controller.ProcessInput(e);
    }
  }
}
