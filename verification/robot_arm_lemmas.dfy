/** Properties of the robot-arm.py model: the stick scaling and its dead
    band, what the gamepad loop keeps true of the control record, what one
    tick commands, and what the motor loop's exit leaves behind. */
module RobotArmProperties {
  import opened Devices
  import MathHelper
  import opened RobotArm

  // -----------------------------------------------------------------------
  // Stick scaling

  /** Over the axis' own range the scaled value stays within ±1000. */
  lemma ScaleStickRange(value: int)
    requires 0 <= value <= 255
    ensures -1000.0 <= ScaleStick(value) <= 1000.0
  {
    var src, dst := (0.0, 255.0), (-1000.0, 1000.0);
    MathHelper.ScaleMonotonic(0.0, value as real, src, dst);
    MathHelper.ScaleMonotonic(value as real, 255.0, src, dst);
  }

  /** scale_stick is the line through (0, -1000) and (255, 1000). */
  lemma ScaleStickLine(value: int)
    ensures ScaleStick(value) == value as real * 2000.0 / 255.0 - 1000.0
  {
  }

  /** After the cut, a stick reads as 0 exactly for the raw values 115 to
      140: the dead band around the rest position 127.5. */
  lemma StickDeadBand(value: int)
    ensures Cut(ScaleStick(value)) == 0.0 <==> 115 <= value <= 140
  {
    ScaleStickLine(value);
    var x := ScaleStick(value);
    if 115 <= value <= 140 {
      assert 115.0 <= value as real <= 140.0;
      assert -SPEED_CUT < x < SPEED_CUT;
    } else if value < 115 {
      assert value as real <= 114.0;
      assert x <= -SPEED_CUT;
    } else {
      assert value as real >= 141.0;
      assert x >= SPEED_CUT;
    }
  }

  /** The sticks at their ends: the left stick pushed fully (255) asks for
      forward speed 1000; the right stick is inverted, so raw 0 asks for
      upward speed 1000 and raw 255 for -1000. */
  lemma StickEnds(s: Controls)
    ensures StickEvent(s, LEFT_STICK_X, 255).forwardSpeed == 1000.0
    ensures StickEvent(s, LEFT_STICK_X, 0).forwardSpeed == -1000.0
    ensures StickEvent(s, RIGHT_STICK_X, 0).upwardSpeed == 1000.0
    ensures StickEvent(s, RIGHT_STICK_X, 255).upwardSpeed == -1000.0
  {
  }

  /** The right stick writes the negated scale, and the cut is applied
      after the negation; the forward speed is only re-cut. */
  lemma RightStickInverted(s: Controls, value: int)
    ensures StickEvent(s, RIGHT_STICK_X, value).upwardSpeed == -Cut(ScaleStick(value))
    ensures StickEvent(s, RIGHT_STICK_X, value).forwardSpeed == Cut(s.forwardSpeed)
  {
  }

  /** The left stick writes the scaled value itself, not negated, and it is
      then cut; the upward speed is only re-cut. */
  lemma LeftStickDirect(s: Controls, value: int)
    ensures StickEvent(s, LEFT_STICK_X, value).forwardSpeed == Cut(ScaleStick(value))
    ensures StickEvent(s, LEFT_STICK_X, value).upwardSpeed == Cut(s.upwardSpeed)
  {
  }

  /** Any other axis (the d-pad, the sticks' Y axes) writes no speed: both
      stick speeds are only re-cut. */
  lemma OtherAxesRecut(s: Controls, code: int, value: int)
    requires code != LEFT_STICK_X && code != RIGHT_STICK_X
    ensures StickEvent(s, code, value).forwardSpeed == Cut(s.forwardSpeed)
    ensures StickEvent(s, code, value).upwardSpeed == Cut(s.upwardSpeed)
  {
  }

  // -----------------------------------------------------------------------
  // What the gamepad loop keeps true

  /** Every record the gamepad loop can reach: stick speeds 0 or at least
      100 in magnitude, side speeds 0, and the grabber never both open and
      closed. */
  predicate Consistent(s: Controls) {
    && SpeedsCut(s)
    && s.forwardSideSpeed == 0.0 && s.upwardSideSpeed == 0.0
    && !(s.grabberOpen && s.grabberClose)
  }

  lemma InitialConsistent()
    ensures Consistent(Initial)
  {
  }

  /** An axis event only re-cuts the side speeds. */
  lemma StickSideSpeeds(s: Controls, code: int, value: int)
    ensures StickEvent(s, code, value).forwardSideSpeed == Cut(s.forwardSideSpeed)
    ensures StickEvent(s, code, value).upwardSideSpeed == Cut(s.upwardSideSpeed)
  {
  }

  lemma DispatchConsistent(s: Controls, e: Event)
    requires Consistent(s)
    ensures Consistent(Dispatch(s, e))
  {
    if e.kind == EV_ABS {
      StickSideSpeeds(s, e.code, e.value);
      var r := StickEvent(s, e.code, e.value);
      assert r.grabberOpen == s.grabberOpen && r.grabberClose == s.grabberClose;
    }
  }

  lemma {:induction false} ConsumeConsistent(s: Controls, events: seq<Event>)
    requires Consistent(s)
    ensures Consistent(Consume(s, events))
    decreases |events|
  {
    if events != [] {
      DispatchConsistent(s, events[0]);
      if !EndsLoop(events[0]) {
        ConsumeConsistent(Dispatch(s, events[0]), events[1..]);
      }
    }
  }

  /** The gamepad loop stops with `running` cleared exactly when the stream
      holds a PS press. */
  lemma {:induction false} ConsumeRunning(s: Controls, events: seq<Event>)
    ensures Consume(s, events).running == (s.running && forall i :: 0 <= i < |events| ==> !EndsLoop(events[i]))
    decreases |events|
  {
    if events != [] && !EndsLoop(events[0]) {
      var rest := events[1..];
      ConsumeRunning(Dispatch(s, events[0]), rest);
      assert (forall i :: 0 <= i < |events| ==> !EndsLoop(events[i]))
         <==> (forall i :: 0 <= i < |rest| ==> !EndsLoop(rest[i])) by {
        forall i | 0 <= i < |rest| ensures rest[i] == events[i + 1] { }
        if forall i :: 0 <= i < |rest| ==> !EndsLoop(rest[i]) {
          forall i | 0 <= i < |events| ensures !EndsLoop(events[i]) {
            if i > 0 { assert events[i] == rest[i - 1]; }
          }
        }
      }
    }
  }

  // -----------------------------------------------------------------------
  // Buttons

  /** The record with flag `f` set to `b`. */
  function With(s: Controls, f: Flag, b: bool): (r: Controls)
    ensures Get(r, f) == b
  {
    match f
    case WaistLeft => s.(turningLeft := b)
    case WaistRight => s.(turningRight := b)
    case RollLeft => s.(rollLeft := b)
    case RollRight => s.(rollRight := b)
    case PitchUp => s.(pitchUp := b)
    case PitchDown => s.(pitchDown := b)
    case SpinLeft => s.(spinLeft := b)
    case SpinRight => s.(spinRight := b)
    case GrabberOpen => s.(grabberOpen := b)
    case GrabberClose => s.(grabberClose := b)
  }

  /** A held button drives its own flag and nothing else: set on a press,
      cleared on a release, kept on any other value. The opposite flag is
      left alone. */
  lemma HeldButton(s: Controls, code: int, value: int, f: Flag)
    requires ButtonFlag(code) == Some(f)
    ensures ButtonEvent(s, code, value) == With(s, f, Held(Get(s, f), value))
  {
    match f
    case WaistLeft => assert code == BTN_L1;
    case WaistRight => assert code == BTN_R1;
    case RollLeft => assert code == BTN_SQUARE;
    case RollRight => assert code == BTN_CIRCLE;
    case PitchUp => assert code == BTN_TRIANGLE;
    case PitchDown => assert code == BTN_CROSS;
    case SpinLeft => assert code == BTN_L2;
    case SpinRight => assert code == BTN_R2;
  }

  /** The pairs are not exclusive: holding L1 and then R1 sets both waist
      flags, and the tick then turns the waist left, the first flag
      taking precedence. */
  lemma PairsNotExclusive(position: int)
    ensures var s := ButtonEvent(ButtonEvent(Initial, BTN_L1, 1), BTN_R1, 1);
            s.turningLeft && s.turningRight
            && WaistTick(s) == OnToPosition(Waist, FAST_SPEED, -2700.0, true, false)
  {
  }

  /** An R3 press toggles the grabber: afterwards exactly one of open and
      closed is set, open exactly when it was not open before. Any other
      value of R3 changes nothing. */
  lemma R3Toggles(s: Controls, value: int)
    ensures value == 1 ==> ButtonEvent(s, BTN_R3, value) == s.(grabberOpen := !s.grabberOpen, grabberClose := s.grabberOpen)
    ensures value != 1 ==> ButtonEvent(s, BTN_R3, value) == s
  {
  }

  /** Share, Options, PS releases and unknown buttons move no flag; a PS
      press clears `running` and ends the gamepad loop. */
  lemma OtherButtons(s: Controls, code: int, value: int)
    requires ButtonFlag(code).None? && code != BTN_R3
    ensures ButtonEvent(s, code, value) == if code == BTN_PS && value == 1 then s.(running := false) else s
  {
  }

  // -----------------------------------------------------------------------
  // One event of the gamepad loop

  /** The loop routes axis events to the stick block, button events to the
      button tests, and ignores every other event type. */
  lemma DispatchRoutes(s: Controls, kind: int, code: int, value: int)
    ensures kind == EV_ABS ==> Dispatch(s, Event(kind, code, value)) == StickEvent(s, code, value)
    ensures kind == EV_KEY ==> Dispatch(s, Event(kind, code, value)) == ButtonEvent(s, code, value)
    ensures kind != EV_ABS && kind != EV_KEY ==> Dispatch(s, Event(kind, code, value)) == s
  {
  }

  /** What the loop does with each axis event it reads: the left stick
      writes the cut forward speed, the right stick the cut negated upward
      speed, and other axes only re-cut both. */
  lemma DispatchStickEffects(s: Controls, code: int, value: int)
    ensures Dispatch(s, Event(EV_ABS, LEFT_STICK_X, value)).forwardSpeed == Cut(ScaleStick(value))
    ensures Dispatch(s, Event(EV_ABS, RIGHT_STICK_X, value)).upwardSpeed == -Cut(ScaleStick(value))
    ensures code != LEFT_STICK_X && code != RIGHT_STICK_X ==>
              Dispatch(s, Event(EV_ABS, code, value)).forwardSpeed == Cut(s.forwardSpeed)
              && Dispatch(s, Event(EV_ABS, code, value)).upwardSpeed == Cut(s.upwardSpeed)
  {
    LeftStickDirect(s, value);
    RightStickInverted(s, value);
    if code != LEFT_STICK_X && code != RIGHT_STICK_X {
      OtherAxesRecut(s, code, value);
    }
  }

  /** What the loop does with each button event it reads: a held button
      sets, clears or keeps its own flag; R3 toggles the grabber; a PS
      press clears `running`; and events of types other than button and
      axis change nothing. */
  lemma DispatchButtonEffects(s: Controls, kind: int, code: int, value: int)
    ensures ButtonFlag(code).Some? ==>
              Dispatch(s, Event(EV_KEY, code, value)) == With(s, ButtonFlag(code).value, Held(Get(s, ButtonFlag(code).value), value))
    ensures Dispatch(s, Event(EV_KEY, BTN_R3, 1)) == s.(grabberOpen := !s.grabberOpen, grabberClose := s.grabberOpen)
    ensures Dispatch(s, Event(EV_KEY, BTN_PS, 1)) == s.(running := false)
    ensures kind != EV_ABS && kind != EV_KEY ==> Dispatch(s, Event(kind, code, value)) == s
  {
    if ButtonFlag(code).Some? {
      HeldButton(s, code, value, ButtonFlag(code).value);
    }
    R3Toggles(s, 1);
  }

  // -----------------------------------------------------------------------
  // One tick

  /** The shoulder's soft limits: it is driven forward (at -50) only while
      the stick asks for it and the encoder reads above -350, backward (at
      50) only while the stick asks for it and the encoder reads below 275,
      and it is stopped otherwise. */
  lemma ShoulderSoftLimits(s: Controls, position: int)
    ensures ShoulderTick(s, position) == On(Shoulder, Some(-50.0)) <==> s.forwardSpeed > 0.0 && position > -350
    ensures ShoulderTick(s, position) == On(Shoulder, Some(50.0)) <==> s.forwardSpeed < 0.0 && position < 275
    ensures ShoulderTick(s, position) == Stop(Shoulder)
        <==> !(s.forwardSpeed > 0.0 && position > -350) && !(s.forwardSpeed < 0.0 && position < 275)
  {
    assert SHOULDER_FORWARD_LIMIT == -350.0 && SHOULDER_BACKWARD_LIMIT == 275.0;
  }

  /** The position targets of the on/off joints, in motor degrees, with the
      first flag of each pair taking precedence and the joint stopped when
      neither is set. */
  lemma TickTargets(s: Controls)
    ensures ElbowTick(s) == if s.upwardSpeed > 0.0 then OnToPosition(Elbow, 50.0, -875.0, true, false)
                            else if s.upwardSpeed < 0.0 then OnToPosition(Elbow, 50.0, 0.0, true, false)
                            else Stop(Elbow)
    ensures WaistTick(s) == if s.turningLeft then OnToPosition(Waist, 75.0, -2700.0, true, false)
                            else if s.turningRight then OnToPosition(Waist, 75.0, 2700.0, true, false)
                            else Stop(Waist)
    ensures RollTick(s) == if s.rollLeft then OnToPosition(Roll, 50.0, -1260.0, true, false)
                           else if s.rollRight then OnToPosition(Roll, 50.0, 1260.0, true, false)
                           else Stop(Roll)
    ensures PitchTick(s) == if s.pitchUp then OnToPosition(Pitch, 50.0, 400.0, true, false)
                            else if s.pitchDown then OnToPosition(Pitch, 50.0, -450.0, true, false)
                            else Stop(Pitch)
    ensures SpinTick(s) == if s.spinLeft then OnToPosition(Spin, 50.0, 2520.0, true, false)
                           else if s.spinRight then OnToPosition(Spin, 50.0, -2520.0, true, false)
                           else Stop(Spin)
    ensures GrabberTick(s) == if s.grabberOpen then [OnToPosition(Grabber, 50.0, -1632.0, true, true), Stop(Grabber)]
                              else if s.grabberClose then [OnToPosition(Grabber, 50.0, 0.0, true, true), Stop(Grabber)]
                              else [Stop(Grabber)]
  {
  }

  /** The grabber's commands reach the grabber only. */
  lemma GrabberShare(s: Controls, k: Joint)
    ensures CommandsTo(GrabberTick(s), k) == if k == Grabber then GrabberTick(s) else []
  {
    var g := GrabberTick(s);
    if |g| == 2 {
      assert g == [g[0]] + [g[1]];
      CommandsToAppend([g[0]], [g[1]], k);
      CommandsToOne([g[0]], Grabber, k);
      CommandsToOne([g[1]], Grabber, k);
    } else {
      CommandsToOne(g, Grabber, k);
    }
  }

  /** What a tick sends to one joint is exactly that joint's own decision. */
  lemma TickPerJoint(s: Controls, position: int, k: Joint)
    ensures CommandsTo(TickCommands(s, position), k) == JointTick(s, position, k)
  {
    CommandsToOne([ShoulderTick(s, position)], Shoulder, k);
    CommandsToOne([ElbowTick(s)], Elbow, k);
    CommandsToOne([WaistTick(s)], Waist, k);
    CommandsToOne([RollTick(s)], Roll, k);
    CommandsToOne([PitchTick(s)], Pitch, k);
    CommandsToOne([SpinTick(s)], Spin, k);
    GrabberShare(s, k);
    SevenShares([ShoulderTick(s, position)], [ElbowTick(s)], [WaistTick(s)], [RollTick(s)],
                [PitchTick(s)], [SpinTick(s)], GrabberTick(s), k);
  }

  /** Every tick commands every joint: exactly once for all but the
      grabber, which may be sent to a position and is always stopped last. */
  lemma TickCommandsEveryJoint(s: Controls, position: int, k: Joint)
    ensures var mine := CommandsTo(TickCommands(s, position), k);
            (k != Grabber ==> |mine| == 1) && (k == Grabber ==> 1 <= |mine| <= 2 && mine[|mine| - 1] == Stop(Grabber))
  {
    TickPerJoint(s, position, k);
  }

  /** With no stick deflected and no flag set, a tick stops every motor,
      whether it is moving or not. */
  lemma TickIdle(s: Controls, position: int)
    requires s.forwardSpeed == 0.0 && s.upwardSpeed == 0.0
    requires forall f: Flag :: !Get(s, f)
    ensures TickCommands(s, position)
         == [Stop(Shoulder), Stop(Elbow), Stop(Waist), Stop(Roll), Stop(Pitch), Stop(Spin), Stop(Grabber)]
  {
    assert !Get(s, WaistLeft) && !Get(s, WaistRight) && !Get(s, RollLeft) && !Get(s, RollRight);
    assert !Get(s, PitchUp) && !Get(s, PitchDown) && !Get(s, SpinLeft) && !Get(s, SpinRight);
    assert !Get(s, GrabberOpen) && !Get(s, GrabberClose);
  }

  // -----------------------------------------------------------------------
  // The motor loop's exit

  /** Once the motor loop ends, every one of the seven motors is stopped
      exactly once, and nothing else is sent. */
  lemma FinalStopsEachOnce(j: Joint)
    ensures CommandsTo(FinalStops(), j) == [Stop(j)]
  {
    var order := FinalOrder();
    assert Distinct(order);
    assert j in order by {
      match j
      case Waist => assert order[0] == j;
      case Shoulder => assert order[1] == j;
      case Elbow => assert order[2] == j;
      case Roll => assert order[3] == j;
      case Pitch => assert order[4] == j;
      case Spin => assert order[5] == j;
      case Grabber => assert order[6] == j;
    }
    StopsEachOnce(order, j);
  }
}
