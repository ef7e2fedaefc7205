/** The legacy gamepad controller of robot-arm.py: the same arm driven
    without an `is_running` check, with the elbow and the on/off joints sent
    to fixed target positions, and with encoder soft limits on the shoulder.

    The pure part (functions on the `Controls` record) is the specification;
    the class `Arm` holds the script's globals as fields, and its methods
    update them step by step as the script does. */
module RobotArm {
  import opened Devices
  import MathHelper

  // Speeds, in percent of a motor's maximum.
  const FAST_SPEED: real := 75.0
  const NORMAL_SPEED: real := 50.0

  // Gear ratios: motor degrees per degree of the joint.
  const WAIST_RATIO: real := 7.5
  const SHOULDER_RATIO: real := 7.5
  const ELBOW_RATIO: real := 5.0
  const ROLL_RATIO: real := 7.0
  const PITCH_RATIO: real := 5.0
  const SPIN_RATIO: real := 7.0
  const GRABBER_RATIO: real := 24.0

  // Travel of each joint, in joint degrees.
  const WAIST_MAX: real := 360.0
  const WAIST_MIN: real := -360.0
  const SHOULDER_MAX: real := -60.0
  const SHOULDER_MIN: real := 50.0
  const ELBOW_MAX: real := -175.0
  const ELBOW_MIN: real := 0.0
  const ROLL_MAX: real := 180.0
  const ROLL_MIN: real := -180.0
  const PITCH_MAX: real := 80.0
  const PITCH_MIN: real := -90.0
  const SPIN_MAX: real := -360.0
  const SPIN_MIN: real := 360.0
  const GRABBER_MAX: real := -68.0
  const GRABBER_MIN: real := 0.0

  /** The shoulder's soft limits on its first motor's encoder, 100 motor
      degrees inside each end of its travel. */
  const SHOULDER_FORWARD_LIMIT: real := SHOULDER_MAX * SHOULDER_RATIO + 100.0
  const SHOULDER_BACKWARD_LIMIT: real := SHOULDER_MIN * SHOULDER_RATIO - 100.0

  /** Stick speeds strictly inside this band are cut to 0. */
  const SPEED_CUT: real := 100.0

  /** The script's own scale_stick: the raw axis range 0..255 mapped onto
      -1000..1000, with no deadzone and no inversion. Its `scale` helper is
      the same affine map as MathHelper.Scale. */
  function ScaleStick(value: int): (r: real)
    ensures value == 0 ==> r == -1000.0
    ensures value == 255 ==> r == 1000.0
  {
    MathHelper.Scale(value as real, (0.0, 255.0), (-1000.0, 1000.0))
  }

  /** What the gamepad loop has asked for: four stick speeds (the two side
      speeds are never written), the four on/off pairs, the grabber's
      open/close state, and whether the script is still running. */
  datatype Controls = Controls(
    forwardSpeed: real, forwardSideSpeed: real,
    upwardSpeed: real, upwardSideSpeed: real,
    turningLeft: bool, turningRight: bool,
    rollLeft: bool, rollRight: bool,
    pitchUp: bool, pitchDown: bool,
    spinLeft: bool, spinRight: bool,
    grabberOpen: bool, grabberClose: bool,
    running: bool)

  const Initial := Controls(0.0, 0.0, 0.0, 0.0, false, false, false, false,
                            false, false, false, false, false, false, true)

  /** The flag of each direction, in this script's record. */
  function Get(s: Controls, f: Flag): bool {
    match f
    case WaistLeft => s.turningLeft
    case WaistRight => s.turningRight
    case RollLeft => s.rollLeft
    case RollRight => s.rollRight
    case PitchUp => s.pitchUp
    case PitchDown => s.pitchDown
    case SpinLeft => s.spinLeft
    case SpinRight => s.spinRight
    case GrabberOpen => s.grabberOpen
    case GrabberClose => s.grabberClose
  }

  /** The flag each held button drives. The grabber has no such button:
      R3 toggles it. */
  function ButtonFlag(code: int): Option<Flag> {
    if code == BTN_L1 then Some(WaistLeft)
    else if code == BTN_R1 then Some(WaistRight)
    else if code == BTN_SQUARE then Some(RollLeft)
    else if code == BTN_CIRCLE then Some(RollRight)
    else if code == BTN_TRIANGLE then Some(PitchUp)
    else if code == BTN_CROSS then Some(PitchDown)
    else if code == BTN_L2 then Some(SpinLeft)
    else if code == BTN_R2 then Some(SpinRight)
    else None
  }

  /** Every stick speed is 0 or at least SPEED_CUT in magnitude. */
  predicate SpeedsCut(s: Controls) {
    && (s.forwardSpeed == 0.0 || MathHelper.Abs(s.forwardSpeed) >= SPEED_CUT)
    && (s.forwardSideSpeed == 0.0 || MathHelper.Abs(s.forwardSideSpeed) >= SPEED_CUT)
    && (s.upwardSpeed == 0.0 || MathHelper.Abs(s.upwardSpeed) >= SPEED_CUT)
    && (s.upwardSideSpeed == 0.0 || MathHelper.Abs(s.upwardSideSpeed) >= SPEED_CUT)
  }

  // -----------------------------------------------------------------------
  // The gamepad loop, one event at a time

  /** A speed strictly inside (-SPEED_CUT, SPEED_CUT) becomes 0. */
  function Cut(x: real): (r: real)
    ensures r == 0.0 || MathHelper.Abs(r) >= SPEED_CUT
    ensures r == 0.0 || r == x
    ensures MathHelper.Abs(x) >= SPEED_CUT ==> r == x
  {
    if x < SPEED_CUT && x > -SPEED_CUT then 0.0 else x
  }

  /** An axis event: the left stick sets the forward speed, the right stick
      the negated upward speed; then every one of the four speeds is cut,
      whichever axis moved. */
  function StickEvent(s: Controls, code: int, value: int): (r: Controls)
    ensures SpeedsCut(r)
    ensures r.(forwardSpeed := s.forwardSpeed, forwardSideSpeed := s.forwardSideSpeed,
               upwardSpeed := s.upwardSpeed, upwardSideSpeed := s.upwardSideSpeed) == s
  {
    var forward := if code == LEFT_STICK_X then ScaleStick(value) else s.forwardSpeed;
    var upward := if code == RIGHT_STICK_X then -ScaleStick(value) else s.upwardSpeed;
    s.(forwardSpeed := Cut(forward), forwardSideSpeed := Cut(s.forwardSideSpeed),
       upwardSpeed := Cut(upward), upwardSideSpeed := Cut(s.upwardSideSpeed))
  }

  /** A held button's flag after an event of that button: set on a press
      (1), cleared on a release (0), kept on any other value. */
  function Held(flag: bool, value: int): bool {
    if value == 1 then true else if value == 0 then false else flag
  }

  /** A button event. Each direction button drives its own flag only, so
      both flags of a pair can be set at once. An R3 press toggles the
      grabber between open and closed; a PS press clears `running`. Share
      and Options move no flag. */
  function ButtonEvent(s: Controls, code: int, value: int): (r: Controls)
    ensures r.running == (s.running && !(code == BTN_PS && value == 1))
    ensures r.forwardSpeed == s.forwardSpeed && r.forwardSideSpeed == s.forwardSideSpeed
    ensures r.upwardSpeed == s.upwardSpeed && r.upwardSideSpeed == s.upwardSideSpeed
    ensures !(s.grabberOpen && s.grabberClose) ==> !(r.grabberOpen && r.grabberClose)
  {
    if code == BTN_L1 then s.(turningLeft := Held(s.turningLeft, value))
    else if code == BTN_R1 then s.(turningRight := Held(s.turningRight, value))
    else if code == BTN_SQUARE then s.(rollLeft := Held(s.rollLeft, value))
    else if code == BTN_CIRCLE then s.(rollRight := Held(s.rollRight, value))
    else if code == BTN_TRIANGLE then s.(pitchUp := Held(s.pitchUp, value))
    else if code == BTN_CROSS then s.(pitchDown := Held(s.pitchDown, value))
    else if code == BTN_L2 then s.(spinLeft := Held(s.spinLeft, value))
    else if code == BTN_R2 then s.(spinRight := Held(s.spinRight, value))
    else if code == BTN_R3 && value == 1 then
      if s.grabberOpen then s.(grabberOpen := false, grabberClose := true)
      else s.(grabberOpen := true, grabberClose := false)
    else if code == BTN_PS && value == 1 then s.(running := false)
    else s
  }

  /** One event of the gamepad loop. */
  function Dispatch(s: Controls, e: Event): (r: Controls)
    ensures r.running == (s.running && !EndsLoop(e))
    ensures e.kind == EV_ABS ==> SpeedsCut(r)
  {
    if e.kind == EV_ABS then StickEvent(s, e.code, e.value)
    else if e.kind == EV_KEY then ButtonEvent(s, e.code, e.value)
    else s
  }

  /** The control record after the gamepad loop has read `events`. */
  function Consume(s: Controls, events: seq<Event>): Controls
    decreases |events|
  {
    if events == [] then s
    else if EndsLoop(events[0]) then Dispatch(s, events[0])
    else Consume(Dispatch(s, events[0]), events[1..])
  }

  // -----------------------------------------------------------------------
  // The motor loop's decision for one tick

  /** The shoulder moves forward while the left stick is pushed forward and
      the encoder is above the forward limit, backward while it is pulled
      back and the encoder is below the backward limit, and is stopped
      otherwise. */
  function ShoulderTick(s: Controls, position: int): (r: Command)
    ensures r.joint == Shoulder
  {
    if s.forwardSpeed > 0.0 && position as real > SHOULDER_FORWARD_LIMIT then On(Shoulder, Some(-NORMAL_SPEED))
    else if s.forwardSpeed < 0.0 && position as real < SHOULDER_BACKWARD_LIMIT then On(Shoulder, Some(NORMAL_SPEED))
    else Stop(Shoulder)
  }

  /** A joint sent to a fixed position while one of its flags is set, the
      first flag taking precedence, and stopped otherwise. */
  function Seek(j: Joint, first: bool, second: bool, rate: real, firstTarget: real, secondTarget: real): (r: Command)
    ensures r.joint == j
  {
    if first then OnToPosition(j, rate, firstTarget, true, false)
    else if second then OnToPosition(j, rate, secondTarget, true, false)
    else Stop(j)
  }

  function ElbowTick(s: Controls): (r: Command)
    ensures r.joint == Elbow
  {
    Seek(Elbow, s.upwardSpeed > 0.0, s.upwardSpeed < 0.0, NORMAL_SPEED, ELBOW_MAX * ELBOW_RATIO, ELBOW_MIN * ELBOW_RATIO)
  }

  function WaistTick(s: Controls): (r: Command)
    ensures r.joint == Waist
  {
    Seek(Waist, s.turningLeft, s.turningRight, FAST_SPEED, WAIST_MIN * WAIST_RATIO, WAIST_MAX * WAIST_RATIO)
  }

  function RollTick(s: Controls): (r: Command)
    ensures r.joint == Roll
  {
    Seek(Roll, s.rollLeft, s.rollRight, NORMAL_SPEED, ROLL_MIN * ROLL_RATIO, ROLL_MAX * ROLL_RATIO)
  }

  function PitchTick(s: Controls): (r: Command)
    ensures r.joint == Pitch
  {
    Seek(Pitch, s.pitchUp, s.pitchDown, NORMAL_SPEED, PITCH_MAX * PITCH_RATIO, PITCH_MIN * PITCH_RATIO)
  }

  function SpinTick(s: Controls): (r: Command)
    ensures r.joint == Spin
  {
    Seek(Spin, s.spinLeft, s.spinRight, NORMAL_SPEED, SPIN_MIN * SPIN_RATIO, SPIN_MAX * SPIN_RATIO)
  }

  /** The grabber is driven to its open or closed position, waiting until
      it gets there, and then stopped; with neither flag it is just stopped. */
  function GrabberTick(s: Controls): (r: seq<Command>)
    ensures 1 <= |r| <= 2 && r[|r| - 1] == Stop(Grabber)
    ensures r[0].joint == Grabber
  {
    if s.grabberOpen then [OnToPosition(Grabber, NORMAL_SPEED, GRABBER_MAX * GRABBER_RATIO, true, true), Stop(Grabber)]
    else if s.grabberClose then [OnToPosition(Grabber, NORMAL_SPEED, GRABBER_MIN * GRABBER_RATIO, true, true), Stop(Grabber)]
    else [Stop(Grabber)]
  }

  /** Everything one pass of the motor loop sends, joint by joint in the
      script's order. `position` is the shoulder encoder's reading. */
  function TickCommands(s: Controls, position: int): seq<Command> {
    [ShoulderTick(s, position)] + ([ElbowTick(s)] + ([WaistTick(s)] + ([RollTick(s)]
    + ([PitchTick(s)] + ([SpinTick(s)] + GrabberTick(s))))))
  }

  /** What one tick sends to joint `j`. */
  function JointTick(s: Controls, position: int, j: Joint): seq<Command> {
    match j
    case Shoulder => [ShoulderTick(s, position)]
    case Elbow => [ElbowTick(s)]
    case Waist => [WaistTick(s)]
    case Roll => [RollTick(s)]
    case Pitch => [PitchTick(s)]
    case Spin => [SpinTick(s)]
    case Grabber => GrabberTick(s)
  }

  /** Once the motor loop has ended, every motor is stopped in this order. */
  function FinalOrder(): seq<Joint> {
    [Waist, Shoulder, Elbow, Roll, Pitch, Spin, Grabber]
  }

  function FinalStops(): seq<Command> {
    Stops(FinalOrder())
  }

  // -----------------------------------------------------------------------
  // The script's globals and its two loops

  class Arm {
    /** The globals the gamepad loop writes and the motor loop reads. */
    var controls: Controls

    /** Every motor-driver call made so far. */
    var log: seq<Command>

    constructor ()
      ensures controls == Initial && log == []
    {
      controls := Initial;
      log := [];
    }

    /** One event of the gamepad loop. */
    method HandleEvent(e: Event)
      modifies this`controls
      ensures controls == Dispatch(old(controls), e)
    {
      if e.kind == EV_ABS {
        HandleStick(e.code, e.value);
      } else if e.kind == EV_KEY {
        HandleButton(e.code, e.value);
      }
    }

    method HandleStick(code: int, value: int)
      modifies this`controls
      ensures controls == StickEvent(old(controls), code, value)
    {
      var forward, forwardSide := controls.forwardSpeed, controls.forwardSideSpeed;
      var upward, upwardSide := controls.upwardSpeed, controls.upwardSideSpeed;
      if code == LEFT_STICK_X {
        forward := ScaleStick(value);
      }
      if code == RIGHT_STICK_X {
        upward := -ScaleStick(value);
      }
      forward := CutSpeed(forward);
      upward := CutSpeed(upward);
      forwardSide := CutSpeed(forwardSide);
      upwardSide := CutSpeed(upwardSide);
      controls := controls.(forwardSpeed := forward, forwardSideSpeed := forwardSide,
                            upwardSpeed := upward, upwardSideSpeed := upwardSide);
    }

    /** The script's test on each speed after an axis event. */
    static method CutSpeed(speed: real) returns (r: real)
      ensures r == Cut(speed)
    {
      r := speed;
      if r < SPEED_CUT && r > -SPEED_CUT {
        r := 0.0;
      }
    }

    /** The button tests, one code at a time in the script's order. */
    method HandleButton(code: int, value: int)
      modifies this`controls
      ensures controls == ButtonEvent(old(controls), code, value)
    {
      if code == BTN_L1 {
        if value == 1 { controls := controls.(turningLeft := true); }
        else if value == 0 { controls := controls.(turningLeft := false); }
      } else if code == BTN_R1 {
        if value == 1 { controls := controls.(turningRight := true); }
        else if value == 0 { controls := controls.(turningRight := false); }
      } else if code == BTN_SQUARE {
        if value == 1 { controls := controls.(rollLeft := true); }
        else if value == 0 { controls := controls.(rollLeft := false); }
      } else if code == BTN_CIRCLE {
        if value == 1 { controls := controls.(rollRight := true); }
        else if value == 0 { controls := controls.(rollRight := false); }
      } else if code == BTN_TRIANGLE {
        if value == 1 { controls := controls.(pitchUp := true); }
        else if value == 0 { controls := controls.(pitchUp := false); }
      } else if code == BTN_CROSS {
        if value == 1 { controls := controls.(pitchDown := true); }
        else if value == 0 { controls := controls.(pitchDown := false); }
      } else if code == BTN_L2 {
        if value == 1 { controls := controls.(spinLeft := true); }
        else if value == 0 { controls := controls.(spinLeft := false); }
      } else if code == BTN_R2 {
        if value == 1 { controls := controls.(spinRight := true); }
        else if value == 0 { controls := controls.(spinRight := false); }
      } else if code == BTN_R3 && value == 1 {
        if controls.grabberOpen {
          controls := controls.(grabberOpen := false, grabberClose := true);
        } else {
          controls := controls.(grabberOpen := true, grabberClose := false);
        }
      } else if code == BTN_PS && value == 1 {
        controls := controls.(running := false);
      }
      // Share has an empty body; Options and PS also send position resets,
      // which are not modelled.
    }

    /** The gamepad loop over a finite stream of events: each event is
        handled in turn, and a PS press ends the loop. Returns how many
        events were read. */
    method ReadLoop(events: seq<Event>) returns (consumed: nat)
      modifies this`controls
      ensures consumed == Consumed(events)
      ensures controls == Consume(old(controls), events)
    {
      consumed := 0;
      while consumed < |events|
        invariant consumed <= |events|
        invariant Consumed(events) == consumed + Consumed(events[consumed..])
        invariant Consume(old(controls), events) == Consume(controls, events[consumed..])
      {
        var e := events[consumed];
        assert events[consumed..][1..] == events[consumed + 1..];
        HandleEvent(e);
        consumed := consumed + 1;
        if EndsLoop(e) {
          break;
        }
      }
    }

    /** One pass of the motor loop's body, given the shoulder encoder's
        reading: every joint in turn. */
    method Tick(position: int)
      modifies this`log
      ensures log == old(log) + TickCommands(controls, position)
    {
      var shoulder := ShoulderControl(position);
      var elbow := SeekControl(Elbow, controls.upwardSpeed > 0.0, controls.upwardSpeed < 0.0,
                               NORMAL_SPEED, ELBOW_MAX * ELBOW_RATIO, ELBOW_MIN * ELBOW_RATIO);
      var waist := SeekControl(Waist, controls.turningLeft, controls.turningRight,
                               FAST_SPEED, WAIST_MIN * WAIST_RATIO, WAIST_MAX * WAIST_RATIO);
      var roll := SeekControl(Roll, controls.rollLeft, controls.rollRight,
                              NORMAL_SPEED, ROLL_MIN * ROLL_RATIO, ROLL_MAX * ROLL_RATIO);
      var pitch := SeekControl(Pitch, controls.pitchUp, controls.pitchDown,
                               NORMAL_SPEED, PITCH_MAX * PITCH_RATIO, PITCH_MIN * PITCH_RATIO);
      var spin := SeekControl(Spin, controls.spinLeft, controls.spinRight,
                              NORMAL_SPEED, SPIN_MIN * SPIN_RATIO, SPIN_MAX * SPIN_RATIO);
      var grabber := GrabberControl();
      log := log + ([shoulder] + ([elbow] + ([waist] + ([roll] + ([pitch] + ([spin] + grabber))))));
    }

    method ShoulderControl(position: int) returns (out: Command)
      ensures out == ShoulderTick(controls, position)
    {
      if controls.forwardSpeed > 0.0 && position as real > SHOULDER_FORWARD_LIMIT {
        out := On(Shoulder, Some(-NORMAL_SPEED));
      } else if controls.forwardSpeed < 0.0 && position as real < SHOULDER_BACKWARD_LIMIT {
        out := On(Shoulder, Some(NORMAL_SPEED));
      } else {
        out := Stop(Shoulder);
      }
    }

    static method SeekControl(j: Joint, first: bool, second: bool, rate: real, firstTarget: real, secondTarget: real)
      returns (out: Command)
      ensures out == Seek(j, first, second, rate, firstTarget, secondTarget)
    {
      if first {
        out := OnToPosition(j, rate, firstTarget, true, false);
      } else if second {
        out := OnToPosition(j, rate, secondTarget, true, false);
      } else {
        out := Stop(j);
      }
    }

    method GrabberControl() returns (out: seq<Command>)
      ensures out == GrabberTick(controls)
    {
      if controls.grabberOpen {
        out := [OnToPosition(Grabber, NORMAL_SPEED, GRABBER_MAX * GRABBER_RATIO, true, true)];
      } else if controls.grabberClose {
        out := [OnToPosition(Grabber, NORMAL_SPEED, GRABBER_MIN * GRABBER_RATIO, true, true)];
      } else {
        out := [];
      }
      out := out + [Stop(Grabber)];
    }

    /** After the motor loop: every motor stopped, in the script's order. */
    method StopAll()
      modifies this`log
      ensures log == old(log) + FinalStops()
    {
      log := log + [Stop(Waist), Stop(Shoulder), Stop(Elbow), Stop(Roll), Stop(Pitch), Stop(Spin), Stop(Grabber)];
      assert FinalStops() == [Stop(Waist), Stop(Shoulder), Stop(Elbow), Stop(Roll), Stop(Pitch), Stop(Spin), Stop(Grabber)];
    }

    /** The gamepad loop over `events`, then the motor loop's exit: the
        motors are stopped once `running` has been cleared. */
    method Operate(events: seq<Event>) returns (consumed: nat)
      modifies this`controls, this`log
      ensures consumed == Consumed(events)
      ensures controls == Consume(old(controls), events)
      ensures log == old(log) + if controls.running then [] else FinalStops()
    {
      consumed := ReadLoop(events);
      if !controls.running {
        StopAll();
      }
    }
  }
}
