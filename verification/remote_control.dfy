/** The gamepad controller of remote_control.py: the control record the
    gamepad loop writes, the motor loop's decision for one tick, the waist
    alignment routine and the shutdown sequence.

    The pure part (functions on the `Controls` record) is the specification;
    the class `Controller` holds the script's globals as fields, and its
    methods update them step by step as the script does. */
module RemoteControl {
  import opened Devices
  import MathHelper

  // Speeds, in percent of a motor's maximum.
  const NORMAL_SPEED: real := 50.0
  const SLOW_SPEED: real := 25.0
  const VERY_SLOW_SPEED: real := 10.0

  /** The alignment loop gives up after this many polls. */
  const MAX_ITERATIONS: nat := 100

  /** What the gamepad loop has asked for: the two stick speeds, the five
      on/off pairs, the d-pad's speed modifier and alignment target, and
      whether the script is still running. */
  datatype Controls = Controls(
    shoulderSpeed: real, elbowSpeed: real,
    waistLeft: bool, waistRight: bool,
    rollLeft: bool, rollRight: bool,
    pitchUp: bool, pitchDown: bool,
    spinLeft: bool, spinRight: bool,
    grabberOpen: bool, grabberClose: bool,
    speedModifier: int, waistTargetColor: int,
    running: bool)

  const Initial := Controls(0.0, 0.0, false, false, false, false, false, false,
                            false, false, false, false, 0, 0, true)

  function Get(s: Controls, f: Flag): bool {
    match f
    case WaistLeft => s.waistLeft
    case WaistRight => s.waistRight
    case RollLeft => s.rollLeft
    case RollRight => s.rollRight
    case PitchUp => s.pitchUp
    case PitchDown => s.pitchDown
    case SpinLeft => s.spinLeft
    case SpinRight => s.spinRight
    case GrabberOpen => s.grabberOpen
    case GrabberClose => s.grabberClose
  }

  /** The other flag of the same joint. */
  function Opposite(f: Flag): (g: Flag)
    ensures g != f
  {
    match f
    case WaistLeft => WaistRight
    case WaistRight => WaistLeft
    case RollLeft => RollRight
    case RollRight => RollLeft
    case PitchUp => PitchDown
    case PitchDown => PitchUp
    case SpinLeft => SpinRight
    case SpinRight => SpinLeft
    case GrabberOpen => GrabberClose
    case GrabberClose => GrabberOpen
  }

  /** The flag each direction button drives. */
  function ButtonFlag(code: int): Option<Flag> {
    if code == BTN_L1 then Some(WaistLeft)
    else if code == BTN_R1 then Some(WaistRight)
    else if code == BTN_SQUARE then Some(RollLeft)
    else if code == BTN_CIRCLE then Some(RollRight)
    else if code == BTN_TRIANGLE then Some(PitchUp)
    else if code == BTN_CROSS then Some(PitchDown)
    else if code == BTN_L2 then Some(SpinLeft)
    else if code == BTN_R2 then Some(SpinRight)
    else if code == BTN_L3 then Some(GrabberOpen)
    else if code == BTN_R3 then Some(GrabberClose)
    else None
  }

  /** No on/off pair has both of its flags set. */
  predicate PairsExclusive(s: Controls) {
    && !(s.waistLeft && s.waistRight)
    && !(s.rollLeft && s.rollRight)
    && !(s.pitchUp && s.pitchDown)
    && !(s.spinLeft && s.spinRight)
    && !(s.grabberOpen && s.grabberClose)
  }

  // -----------------------------------------------------------------------
  // The gamepad loop, one event at a time

  /** An axis event: a stick sets its joint's speed, the d-pad sets the
      speed modifier or the alignment target; other axes change nothing. */
  function StickEvent(s: Controls, code: int, value: int): (r: Controls)
    ensures r.(shoulderSpeed := s.shoulderSpeed, elbowSpeed := s.elbowSpeed,
               speedModifier := s.speedModifier, waistTargetColor := s.waistTargetColor) == s
    ensures PairsExclusive(r) == PairsExclusive(s) && r.running == s.running
  {
    if code == LEFT_STICK_X then s.(shoulderSpeed := MathHelper.ScaleStickDefault(value as real, true))
    else if code == RIGHT_STICK_X then s.(elbowSpeed := MathHelper.ScaleStickDefault(value as real, false))
    else if code == DPAD_Y then s.(speedModifier := value)
    else if code == DPAD_X then s.(waistTargetColor := value)
    else s
  }

  /** A button event. A press (1) of a direction button sets its flag and
      clears the opposite one, a release (0) clears its flag, other values
      change nothing; a press of PS clears `running`. Share and Options only
      log. The chain tests the buttons in the script's order, a pair at a
      time. */
  function ButtonEvent(s: Controls, code: int, value: int): (r: Controls)
    ensures PairsExclusive(s) ==> PairsExclusive(r)
    ensures r.running == (s.running && !(code == BTN_PS && value == 1))
    ensures r.shoulderSpeed == s.shoulderSpeed && r.elbowSpeed == s.elbowSpeed
    ensures r.speedModifier == s.speedModifier && r.waistTargetColor == s.waistTargetColor
  {
    if code == BTN_L1 || code == BTN_R1 then WaistButtons(s, code, value)
    else if code == BTN_SQUARE || code == BTN_CIRCLE then RollButtons(s, code, value)
    else if code == BTN_TRIANGLE || code == BTN_CROSS then PitchButtons(s, code, value)
    else if code == BTN_L2 || code == BTN_R2 then SpinButtons(s, code, value)
    else if code == BTN_L3 || code == BTN_R3 then GrabberButtons(s, code, value)
    else if code == BTN_PS && value == 1 then s.(running := false)
    else s
  }

  function WaistButtons(s: Controls, code: int, value: int): Controls
    requires code == BTN_L1 || code == BTN_R1
  {
    if code == BTN_L1 then
      if value == 1 then s.(waistRight := false, waistLeft := true)
      else if value == 0 then s.(waistLeft := false) else s
    else
      if value == 1 then s.(waistLeft := false, waistRight := true)
      else if value == 0 then s.(waistRight := false) else s
  }

  function RollButtons(s: Controls, code: int, value: int): Controls
    requires code == BTN_SQUARE || code == BTN_CIRCLE
  {
    if code == BTN_SQUARE then
      if value == 1 then s.(rollRight := false, rollLeft := true)
      else if value == 0 then s.(rollLeft := false) else s
    else
      if value == 1 then s.(rollLeft := false, rollRight := true)
      else if value == 0 then s.(rollRight := false) else s
  }

  function PitchButtons(s: Controls, code: int, value: int): Controls
    requires code == BTN_TRIANGLE || code == BTN_CROSS
  {
    if code == BTN_TRIANGLE then
      if value == 1 then s.(pitchDown := false, pitchUp := true)
      else if value == 0 then s.(pitchUp := false) else s
    else
      if value == 1 then s.(pitchUp := false, pitchDown := true)
      else if value == 0 then s.(pitchDown := false) else s
  }

  function SpinButtons(s: Controls, code: int, value: int): Controls
    requires code == BTN_L2 || code == BTN_R2
  {
    if code == BTN_L2 then
      if value == 1 then s.(spinRight := false, spinLeft := true)
      else if value == 0 then s.(spinLeft := false) else s
    else
      if value == 1 then s.(spinLeft := false, spinRight := true)
      else if value == 0 then s.(spinRight := false) else s
  }

  function GrabberButtons(s: Controls, code: int, value: int): Controls
    requires code == BTN_L3 || code == BTN_R3
  {
    if code == BTN_L3 then
      if value == 1 then s.(grabberClose := false, grabberOpen := true)
      else if value == 0 then s.(grabberOpen := false) else s
    else
      if value == 1 then s.(grabberOpen := false, grabberClose := true)
      else if value == 0 then s.(grabberClose := false) else s
  }

  /** The effect of one gamepad event on the control record. */
  function Dispatch(s: Controls, e: Event): (r: Controls)
    ensures PairsExclusive(s) ==> PairsExclusive(r)
    ensures r.running == (s.running && !EndsLoop(e))
  {
    if e.kind == EV_ABS then StickEvent(s, e.code, e.value)
    else if e.kind == EV_KEY then ButtonEvent(s, e.code, e.value)
    else s
  }

  /** The control record after the gamepad loop has read `events`. */
  function Consume(s: Controls, events: seq<Event>): Controls
    decreases |events|
  {
    if events == [] then s
    else if EndsLoop(events[0]) then Dispatch(s, events[0])
    else Consume(Dispatch(s, events[0]), events[1..])
  }

  // -----------------------------------------------------------------------
  // The motor loop's decision for one tick

  /** calculate_speed: the speed scaled by the d-pad's modifier; any other
      modifier falls off the end of the Python function, which returns None. */
  function CalculateSpeed(speed: real, modifier: int): (r: Option<real>)
    ensures r.Some? <==> modifier in {-1, 0, 1}
  {
    if modifier == 0 then Some(speed)
    else if modifier == -1 then Some(speed * 1.5)
    else if modifier == 1 then Some(speed / 1.5)
    else None
  }

  /** A joint commanded this tick: driven with `drive` when asked to, else
      stopped if the driver reports it running, else left alone. */
  function DriveOrStop(j: Joint, driven: bool, drive: Command, isRunning: bool): (r: seq<Command>)
    ensures r == [] || r == [drive] || r == [Stop(j)]
    ensures r == [] <==> !driven && !isRunning
  {
    if driven then [drive] else if isRunning then [Stop(j)] else []
  }

  /** An on/off joint: the first flag wins over the second. */
  function OnOff(j: Joint, first: bool, firstCmd: Command, second: bool, secondCmd: Command,
                 isRunning: bool): (r: seq<Command>)
    ensures r == [] || r == [firstCmd] || r == [secondCmd] || r == [Stop(j)]
    ensures r == [] <==> !first && !second && !isRunning
  {
    if first then [firstCmd] else DriveOrStop(j, second, secondCmd, isRunning)
  }

  function ShoulderTick(s: Controls, moving: set<Joint>): (r: seq<Command>)
    ensures OneFor(r, Shoulder)
  {
    DriveOrStop(Shoulder, s.shoulderSpeed != 0.0, On(Shoulder, Some(s.shoulderSpeed)), Shoulder in moving)
  }

  function ElbowTick(s: Controls, moving: set<Joint>): (r: seq<Command>)
    ensures OneFor(r, Elbow)
  {
    DriveOrStop(Elbow, s.elbowSpeed != 0.0, On(Elbow, CalculateSpeed(s.elbowSpeed, s.speedModifier)),
                Elbow in moving)
  }

  function WaistTick(s: Controls, moving: set<Joint>): (r: seq<Command>)
    ensures OneFor(r, Waist)
  {
    OnOff(Waist, s.waistLeft, On(Waist, CalculateSpeed(-SLOW_SPEED, s.speedModifier)),
          s.waistRight, On(Waist, CalculateSpeed(SLOW_SPEED, s.speedModifier)), Waist in moving)
  }

  function RollTick(s: Controls, moving: set<Joint>): (r: seq<Command>)
    ensures OneFor(r, Roll)
  {
    OnOff(Roll, s.rollLeft, On(Roll, CalculateSpeed(-SLOW_SPEED, s.speedModifier)),
          s.rollRight, On(Roll, CalculateSpeed(SLOW_SPEED, s.speedModifier)), Roll in moving)
  }

  function PitchTick(s: Controls, moving: set<Joint>): (r: seq<Command>)
    ensures OneFor(r, Pitch)
  {
    OnOff(Pitch, s.pitchUp, On(Pitch, CalculateSpeed(VERY_SLOW_SPEED, s.speedModifier)),
          s.pitchDown, On(Pitch, CalculateSpeed(-VERY_SLOW_SPEED, s.speedModifier)), Pitch in moving)
  }

  function SpinTick(s: Controls, moving: set<Joint>): (r: seq<Command>)
    ensures OneFor(r, Spin)
  {
    OnOff(Spin, s.spinLeft, On(Spin, CalculateSpeed(-SLOW_SPEED, s.speedModifier)),
          s.spinRight, On(Spin, CalculateSpeed(SLOW_SPEED, s.speedModifier)), Spin in moving)
  }

  function GrabberTick(s: Controls, moving: set<Joint>): (r: seq<Command>)
    ensures OneFor(r, Grabber)
  {
    OnOff(Grabber, s.grabberOpen, OnCoast(Grabber, CalculateSpeed(NORMAL_SPEED, s.speedModifier)),
          s.grabberClose, OnCoast(Grabber, CalculateSpeed(-NORMAL_SPEED, s.speedModifier)), Grabber in moving)
  }

  /** The waist is left to the alignment routine while it runs. */
  function WaistPart(s: Controls, aligning: bool, moving: set<Joint>): (r: seq<Command>)
    ensures OneFor(r, Waist)
  {
    if aligning then [] else WaistTick(s, moving)
  }

  /** An absent grabber is skipped. */
  function GrabberPart(s: Controls, moving: set<Joint>, hasGrabber: bool): (r: seq<Command>)
    ensures OneFor(r, Grabber)
  {
    if hasGrabber then GrabberTick(s, moving) else []
  }

  /** One pass of the motor loop: the commands issued, in the order the
      joints are visited. `moving` is the set of joints whose driver reports
      is_running. */
  function TickCommands(s: Controls, aligning: bool, moving: set<Joint>, hasGrabber: bool): seq<Command> {
    ShoulderTick(s, moving) + (ElbowTick(s, moving) + (WaistPart(s, aligning, moving)
    + (RollTick(s, moving) + (PitchTick(s, moving) + (SpinTick(s, moving) + GrabberPart(s, moving, hasGrabber))))))
  }

  /** What one tick issues to joint `j` on its own. */
  function JointTick(s: Controls, aligning: bool, moving: set<Joint>, hasGrabber: bool, j: Joint): seq<Command> {
    match j
    case Shoulder => ShoulderTick(s, moving)
    case Elbow => ElbowTick(s, moving)
    case Waist => WaistPart(s, aligning, moving)
    case Roll => RollTick(s, moving)
    case Pitch => PitchTick(s, moving)
    case Spin => SpinTick(s, moving)
    case Grabber => GrabberPart(s, moving, hasGrabber)
  }

  // -----------------------------------------------------------------------
  // Waist alignment

  /** The color the d-pad's alignment target asks for: -1 red, 1 blue,
      anything else none. */
  function TargetColor(target: int): (c: Option<Color>)
    ensures c.Some? <==> target == -1 || target == 1
    ensures target == -1 ==> c == Some(Red)
    ensures target == 1 ==> c == Some(Blue)
  {
    if target == -1 then Some(Red)
    else if target == 1 then Some(Blue)
    else None
  }

  /** The number of times the polling loop's body runs, counting from `i`,
      when the loop's check after i runs takes the reading with poll index
      first + i. The loop stops on the target color or after MAX_ITERATIONS
      runs. */
  function Iterations(sensor: nat -> Color, target: Color, first: nat, i: nat): (n: nat)
    requires i < MAX_ITERATIONS
    decreases MAX_ITERATIONS - i
    ensures i <= n <= MAX_ITERATIONS
    ensures n < MAX_ITERATIONS ==> sensor(first + n) == target
  {
    if sensor(first + i) == target then i
    else if i + 1 >= MAX_ITERATIONS then i + 1
    else Iterations(sensor, target, first, i + 1)
  }

  /** One step of Iterations. */
  lemma IterationsUnfold(sensor: nat -> Color, target: Color, first: nat, i: nat)
    requires i < MAX_ITERATIONS
    ensures Iterations(sensor, target, first, i) ==
              if sensor(first + i) == target then i
              else if i + 1 >= MAX_ITERATIONS then i + 1
              else Iterations(sensor, target, first, i + 1)
  {
  }

  /** How many readings the polling loop takes: one per check, and the
      check after the last allowed run is skipped. */
  function LoopPolls(sensor: nat -> Color, target: Color, first: nat): nat {
    var n := Iterations(sensor, target, first, 0);
    if n < MAX_ITERATIONS then n + 1 else n
  }

  /** The observable outcome of one call of the alignment routine: the
      motor commands it issues and how many sensor readings it takes,
      the first of them at poll index `start`. */
  datatype AlignRun = AlignRun(commands: seq<Command>, polls: nat)

  function Align(target: int, sensor: nat -> Color, start: nat): AlignRun {
    match TargetColor(target)
    case None => AlignRun([], 0)
    case Some(c) =>
      if sensor(start) == c then AlignRun([], 1)
      else AlignRun([On(Waist, Some(NORMAL_SPEED)), Stop(Waist)], 1 + LoopPolls(sensor, c, start + 1))
  }

  /** The polling loop's reading count, from the loop's own state: after
      `i` runs with the latest reading on target, or after the last run. */
  lemma LoopPollsAt(sensor: nat -> Color, target: Color, first: nat, i: nat)
    requires i < MAX_ITERATIONS
    requires Iterations(sensor, target, first, 0) == Iterations(sensor, target, first, i)
    ensures sensor(first + i) == target ==> LoopPolls(sensor, target, first) == i + 1
    ensures sensor(first + i) != target && i + 1 >= MAX_ITERATIONS ==>
              LoopPolls(sensor, target, first) == MAX_ITERATIONS
  {
    IterationsUnfold(sensor, target, first, i);
  }

  /** One run of the polling loop's body after a miss at `i`: either the
      loop goes on with the same outcome ahead, or it has timed out. */
  lemma PollStep(sensor: nat -> Color, target: Color, first: nat, i: nat)
    requires i < MAX_ITERATIONS && sensor(first + i) != target
    requires Iterations(sensor, target, first, 0) == Iterations(sensor, target, first, i)
    ensures i + 1 < MAX_ITERATIONS ==>
              Iterations(sensor, target, first, 0) == Iterations(sensor, target, first, i + 1)
    ensures i + 1 >= MAX_ITERATIONS ==> LoopPolls(sensor, target, first) == MAX_ITERATIONS
  {
    IterationsUnfold(sensor, target, first, i);
  }

  /** The polling thread starts an alignment when a target is set and no
      alignment is under way. */
  predicate ShouldAlign(waistTargetColor: int, aligning: bool) {
    waistTargetColor != 0 && !aligning
  }

  // -----------------------------------------------------------------------
  // Start-up and shutdown

  /** The joints reset_motors resets, in its order; the grabber only when present. */
  function ResetOrder(hasGrabber: bool): seq<Joint> {
    if hasGrabber then [Waist, Shoulder, Elbow, Roll, Pitch, Spin, Grabber]
    else [Waist, Shoulder, Elbow, Roll, Pitch, Spin]
  }

  /** The joints clean_shutdown stops, in its order (pitch before roll);
      the grabber only when present. */
  function ShutdownOrder(hasGrabber: bool): seq<Joint> {
    if hasGrabber then [Waist, Shoulder, Elbow, Pitch, Roll, Spin, Grabber]
    else [Waist, Shoulder, Elbow, Pitch, Roll, Spin]
  }

  function ResetCommands(hasGrabber: bool): seq<Command> {
    Resets(ResetOrder(hasGrabber))
  }

  function ShutdownCommands(hasGrabber: bool): seq<Command> {
    Stops(ShutdownOrder(hasGrabber))
  }

  // -----------------------------------------------------------------------
  // The script's state and its steps

  class Controller {
    /** The globals the gamepad loop writes and the motor loop reads. */
    var controls: Controls

    /** Set while the alignment routine owns the waist motor. */
    var aligningWaist: bool

    /** Hardware found at start-up. */
    const hasGrabber: bool
    const hasColorSensor: bool

    /** The color sensor: its n-th reading, and how many have been taken. */
    const sensor: nat -> Color
    var colorReads: nat

    /** Every motor-driver call made so far. */
    var log: seq<Command>

    /** Start-up after the hardware probe: neutral controls, and every
        present motor reset. */
    constructor (hasGrabber: bool, hasColorSensor: bool, sensor: nat -> Color)
      ensures controls == Initial && !aligningWaist
      ensures this.hasGrabber == hasGrabber && this.hasColorSensor == hasColorSensor
      ensures this.sensor == sensor && colorReads == 0
      ensures log == ResetCommands(hasGrabber)
    {
      this.hasGrabber := hasGrabber;
      this.hasColorSensor := hasColorSensor;
      this.sensor := sensor;
      colorReads := 0;
      log := [];
      controls := Initial;
      aligningWaist := false;
      new;
      ResetMotors();
    }

    method ResetMotors()
      modifies this`log
      ensures log == old(log) + ResetCommands(hasGrabber)
    {
      log := log + [Reset(Waist), Reset(Shoulder), Reset(Elbow), Reset(Roll), Reset(Pitch), Reset(Spin)];
      if hasGrabber {
        log := log + [Reset(Grabber)];
        assert ResetCommands(true) == [Reset(Waist), Reset(Shoulder), Reset(Elbow), Reset(Roll), Reset(Pitch), Reset(Spin), Reset(Grabber)];
      } else {
        assert ResetCommands(false) == [Reset(Waist), Reset(Shoulder), Reset(Elbow), Reset(Roll), Reset(Pitch), Reset(Spin)];
      }
    }

    /** One event of the gamepad loop. */
    method HandleEvent(e: Event)
      modifies this`controls
      ensures controls == Dispatch(old(controls), e)
    {
      if e.kind == EV_ABS {
        HandleStick(e.code, e.value);
      } else if e.kind == EV_KEY {
        HandleButton(e.code, e.value);
      }
    }

    method HandleStick(code: int, value: int)
      modifies this`controls
      ensures controls == StickEvent(old(controls), code, value)
    {
      if code == LEFT_STICK_X {
        controls := controls.(shoulderSpeed := MathHelper.ScaleStickDefault(value as real, true));
      } else if code == RIGHT_STICK_X {
        controls := controls.(elbowSpeed := MathHelper.ScaleStickDefault(value as real, false));
      } else if code == DPAD_Y {
        controls := controls.(speedModifier := value);
      } else if code == DPAD_X {
        controls := controls.(waistTargetColor := value);
      }
    }

    /** The button chain, one code at a time in the script's order. */
    method HandleButton(code: int, value: int)
      modifies this`controls
      ensures controls == ButtonEvent(old(controls), code, value)
    {
      if code == BTN_L1 {
        if value == 1 { controls := controls.(waistRight := false, waistLeft := true); }
        else if value == 0 { controls := controls.(waistLeft := false); }
      } else if code == BTN_R1 {
        if value == 1 { controls := controls.(waistLeft := false, waistRight := true); }
        else if value == 0 { controls := controls.(waistRight := false); }
      } else if code == BTN_SQUARE {
        if value == 1 { controls := controls.(rollRight := false, rollLeft := true); }
        else if value == 0 { controls := controls.(rollLeft := false); }
      } else if code == BTN_CIRCLE {
        if value == 1 { controls := controls.(rollLeft := false, rollRight := true); }
        else if value == 0 { controls := controls.(rollRight := false); }
      } else if code == BTN_TRIANGLE {
        if value == 1 { controls := controls.(pitchDown := false, pitchUp := true); }
        else if value == 0 { controls := controls.(pitchUp := false); }
      } else if code == BTN_CROSS {
        if value == 1 { controls := controls.(pitchUp := false, pitchDown := true); }
        else if value == 0 { controls := controls.(pitchDown := false); }
      } else if code == BTN_L2 {
        if value == 1 { controls := controls.(spinRight := false, spinLeft := true); }
        else if value == 0 { controls := controls.(spinLeft := false); }
      } else if code == BTN_R2 {
        if value == 1 { controls := controls.(spinLeft := false, spinRight := true); }
        else if value == 0 { controls := controls.(spinRight := false); }
      } else if code == BTN_L3 {
        if value == 1 { controls := controls.(grabberClose := false, grabberOpen := true); }
        else if value == 0 { controls := controls.(grabberOpen := false); }
      } else if code == BTN_R3 {
        if value == 1 { controls := controls.(grabberOpen := false, grabberClose := true); }
        else if value == 0 { controls := controls.(grabberClose := false); }
      } else if code == BTN_PS && value == 1 {
        controls := controls.(running := false);
      }
      // Share and Options only log battery and motor telemetry.
    }

    /** The gamepad loop over a finite stream of events: each event is
        handled in turn, and a PS press ends the loop. Returns how many
        events were read. */
    method ReadLoop(events: seq<Event>) returns (consumed: nat)
      modifies this`controls
      ensures consumed == Consumed(events)
      ensures controls == Consume(old(controls), events)
    {
      consumed := 0;
      while consumed < |events|
        invariant consumed <= |events|
        invariant Consumed(events) == consumed + Consumed(events[consumed..])
        invariant Consume(old(controls), events) == Consume(controls, events[consumed..])
      {
        var e := events[consumed];
        assert events[consumed..][1..] == events[consumed + 1..];
        HandleEvent(e);
        consumed := consumed + 1;
        if EndsLoop(e) {
          break;
        }
      }
    }

    /** The script's main line from the gamepad loop on: read events until
        a PS press or the end of the stream, then shut down. */
    method Operate(events: seq<Event>) returns (consumed: nat)
      modifies this`controls, this`log
      ensures consumed == Consumed(events)
      ensures controls == Consume(old(controls), events).(running := false)
      ensures log == old(log) + ShutdownCommands(hasGrabber)
    {
      consumed := ReadLoop(events);
      CleanShutdown();
    }

    /** One pass of the motor loop's body: every joint in turn. */
    method Tick(moving: set<Joint>)
      modifies this`log
      ensures log == old(log) + TickCommands(controls, aligningWaist, moving, hasGrabber)
    {
      var shoulder := ShoulderControl(moving);
      var elbow := ElbowControl(moving);
      var waist: seq<Command> := [];
      if !aligningWaist {
        waist := WaistControl(moving);
      }
      var roll := RollControl(moving);
      var pitch := PitchControl(moving);
      var spin := SpinControl(moving);
      var grabber: seq<Command> := [];
      if hasGrabber {
        grabber := GrabberControl(moving);
      }
      log := log + (shoulder + (elbow + (waist + (roll + (pitch + (spin + grabber))))));
    }

    // Proportional control: driven while the stick speed is nonzero,
    // otherwise stopped if the driver reports the motor running.

    method ShoulderControl(moving: set<Joint>) returns (out: seq<Command>)
      ensures out == ShoulderTick(controls, moving)
    {
      out := [];
      if controls.shoulderSpeed != 0.0 {
        out := [On(Shoulder, Some(controls.shoulderSpeed))];
      } else if Shoulder in moving {
        out := [Stop(Shoulder)];
      }
    }

    method ElbowControl(moving: set<Joint>) returns (out: seq<Command>)
      ensures out == ElbowTick(controls, moving)
    {
      out := [];
      if controls.elbowSpeed != 0.0 {
        out := [On(Elbow, CalculateSpeed(controls.elbowSpeed, controls.speedModifier))];
      } else if Elbow in moving {
        out := [Stop(Elbow)];
      }
    }

    // On/off control: the first flag tested wins; with neither flag the
    // motor is stopped if the driver reports it running.

    method WaistControl(moving: set<Joint>) returns (out: seq<Command>)
      ensures out == WaistTick(controls, moving)
    {
      out := [];
      if controls.waistLeft {
        out := [On(Waist, CalculateSpeed(-SLOW_SPEED, controls.speedModifier))];
      } else if controls.waistRight {
        out := [On(Waist, CalculateSpeed(SLOW_SPEED, controls.speedModifier))];
      } else if Waist in moving {
        out := [Stop(Waist)];
      }
    }

    method RollControl(moving: set<Joint>) returns (out: seq<Command>)
      ensures out == RollTick(controls, moving)
    {
      out := [];
      if controls.rollLeft {
        out := [On(Roll, CalculateSpeed(-SLOW_SPEED, controls.speedModifier))];
      } else if controls.rollRight {
        out := [On(Roll, CalculateSpeed(SLOW_SPEED, controls.speedModifier))];
      } else if Roll in moving {
        out := [Stop(Roll)];
      }
    }

    method PitchControl(moving: set<Joint>) returns (out: seq<Command>)
      ensures out == PitchTick(controls, moving)
    {
      out := [];
      if controls.pitchUp {
        out := [On(Pitch, CalculateSpeed(VERY_SLOW_SPEED, controls.speedModifier))];
      } else if controls.pitchDown {
        out := [On(Pitch, CalculateSpeed(-VERY_SLOW_SPEED, controls.speedModifier))];
      } else if Pitch in moving {
        out := [Stop(Pitch)];
      }
    }

    method SpinControl(moving: set<Joint>) returns (out: seq<Command>)
      ensures out == SpinTick(controls, moving)
    {
      out := [];
      if controls.spinLeft {
        out := [On(Spin, CalculateSpeed(-SLOW_SPEED, controls.speedModifier))];
      } else if controls.spinRight {
        out := [On(Spin, CalculateSpeed(SLOW_SPEED, controls.speedModifier))];
      } else if Spin in moving {
        out := [Stop(Spin)];
      }
    }

    method GrabberControl(moving: set<Joint>) returns (out: seq<Command>)
      ensures out == GrabberTick(controls, moving)
    {
      out := [];
      if controls.grabberOpen {
        out := [OnCoast(Grabber, CalculateSpeed(NORMAL_SPEED, controls.speedModifier))];
      } else if controls.grabberClose {
        out := [OnCoast(Grabber, CalculateSpeed(-NORMAL_SPEED, controls.speedModifier))];
      } else if Grabber in moving {
        out := [Stop(Grabber)];
      }
    }

    /** Takes the color sensor's next reading. */
    method ReadColor() returns (c: Color)
      modifies this`colorReads
      ensures c == sensor(old(colorReads)) && colorReads == old(colorReads) + 1
    {
      c := sensor(colorReads);
      colorReads := colorReads + 1;
    }

    /** align_waist_to_color: turn the waist until the sensor sees the
        target color, giving up after MAX_ITERATIONS polls. */
    method AlignWaistToColor(target: int)
      requires hasColorSensor
      modifies this`aligningWaist, this`log, this`colorReads
      ensures var run := Align(target, sensor, old(colorReads));
              log == old(log) + run.commands && colorReads == old(colorReads) + run.polls
      ensures aligningWaist == (old(aligningWaist) && TargetColor(target).None?)
    {
      var wanted: Color;
      if target == -1 {
        wanted := Red;
      } else if target == 1 {
        wanted := Blue;
      } else {
        // an unmapped target is ignored
        return;
      }
      aligningWaist := true;
      var reading := ReadColor();
      if reading != wanted {
        TurnUntilColor(wanted);
      }
      aligningWaist := false;
    }

    /** The driving part of align_waist_to_color: start the waist, poll
        until the color is seen or the loop times out, stop the waist. */
    method TurnUntilColor(wanted: Color)
      modifies this`log, this`colorReads
      ensures log == old(log) + [On(Waist, Some(NORMAL_SPEED)), Stop(Waist)]
      ensures colorReads == old(colorReads) + LoopPolls(sensor, wanted, old(colorReads))
    {
      log := log + [On(Waist, Some(NORMAL_SPEED))];
      var polls := PollForColor(sensor, wanted, colorReads);
      colorReads := colorReads + polls;
      AppendPair(old(log), On(Waist, Some(NORMAL_SPEED)), Stop(Waist));
      log := log + [Stop(Waist)];
    }

    /** The waiting loop of align_waist_to_color: poll the sensor, whose
        next reading has poll index `first`, until it sees `wanted`, for at
        most MAX_ITERATIONS runs of the body. Returns the number of
        readings taken. */
    static method PollForColor(sensor: nat -> Color, wanted: Color, first: nat) returns (polls: nat)
      ensures polls == LoopPolls(sensor, wanted, first)
    {
      var iterations: nat := 0;
      var reading := sensor(first);
      polls := 1;
      while reading != wanted
        invariant iterations < MAX_ITERATIONS && polls == iterations + 1
        invariant reading == sensor(first + iterations)
        invariant Iterations(sensor, wanted, first, 0) == Iterations(sensor, wanted, first, iterations)
        decreases MAX_ITERATIONS - iterations
      {
        PollStep(sensor, wanted, first, iterations);
        iterations := iterations + 1;
        if iterations >= MAX_ITERATIONS {
          // timed out: the routine gives up without reaching the color
          break;
        }
        reading := sensor(first + iterations);
        polls := polls + 1;
      }
      if reading == wanted {
        LoopPollsAt(sensor, wanted, first, iterations);
      }
    }

    /** One poll of the alignment thread. */
    method AlignPoll()
      requires hasColorSensor
      modifies this`aligningWaist, this`log, this`colorReads
      ensures ShouldAlign(controls.waistTargetColor, old(aligningWaist)) ==>
                var run := Align(controls.waistTargetColor, sensor, old(colorReads));
                log == old(log) + run.commands && colorReads == old(colorReads) + run.polls
                && aligningWaist == (old(aligningWaist) && TargetColor(controls.waistTargetColor).None?)
      ensures !ShouldAlign(controls.waistTargetColor, old(aligningWaist)) ==>
                log == old(log) && colorReads == old(colorReads) && aligningWaist == old(aligningWaist)
    {
      if controls.waistTargetColor != 0 && !aligningWaist {
        AlignWaistToColor(controls.waistTargetColor);
      }
    }

    /** clean_shutdown: clear `running`, then stop every present motor. */
    method CleanShutdown()
      modifies this`controls, this`log
      ensures controls == old(controls).(running := false)
      ensures log == old(log) + ShutdownCommands(hasGrabber)
    {
      controls := controls.(running := false);
      log := log + [Stop(Waist), Stop(Shoulder), Stop(Elbow), Stop(Pitch), Stop(Roll), Stop(Spin)];
      if hasGrabber {
        log := log + [Stop(Grabber)];
        assert ShutdownCommands(true) == [Stop(Waist), Stop(Shoulder), Stop(Elbow), Stop(Pitch), Stop(Roll), Stop(Spin), Stop(Grabber)];
      } else {
        assert ShutdownCommands(false) == [Stop(Waist), Stop(Shoulder), Stop(Elbow), Stop(Pitch), Stop(Roll), Stop(Spin)];
      }
    }
  }
}
