/** Properties of the remote_control.py model: what one gamepad event does
    to the control record, what survives a whole stream of events, what a
    tick of the motor loop may and may not command, how the alignment
    routine ends, and what the shutdown leaves behind. */
module RemoteControlProperties {
  import opened Devices
  import MathHelper
  import opened RemoteControl

  // -----------------------------------------------------------------------
  // One button event

  /** The fields no direction button touches. */
  predicate SameNonFlags(s: Controls, r: Controls) {
    && r.shoulderSpeed == s.shoulderSpeed && r.elbowSpeed == s.elbowSpeed
    && r.speedModifier == s.speedModifier && r.waistTargetColor == s.waistTargetColor
    && r.running == s.running
  }

  /** The record with flag `f` set to `b`. */
  function With(s: Controls, f: Flag, b: bool): (r: Controls)
    ensures Get(r, f) == b
    ensures SameNonFlags(s, r)
  {
    match f
    case WaistLeft => s.(waistLeft := b)
    case WaistRight => s.(waistRight := b)
    case RollLeft => s.(rollLeft := b)
    case RollRight => s.(rollRight := b)
    case PitchUp => s.(pitchUp := b)
    case PitchDown => s.(pitchDown := b)
    case SpinLeft => s.(spinLeft := b)
    case SpinRight => s.(spinRight := b)
    case GrabberOpen => s.(grabberOpen := b)
    case GrabberClose => s.(grabberClose := b)
  }

  /** Setting one flag leaves every other flag as it was. */
  lemma GetWith(s: Controls, f: Flag, b: bool, g: Flag)
    ensures Get(With(s, f, b), g) == if g == f then b else Get(s, g)
  {
  }

  /** A press of a direction button clears the opposite flag and sets its
      own; nothing else changes. */
  lemma PressSetsOwnClearsOpposite(s: Controls, code: int, f: Flag)
    requires ButtonFlag(code) == Some(f)
    ensures ButtonEvent(s, code, 1) == With(With(s, Opposite(f), false), f, true)
  {
    match f
    case WaistLeft => assert code == BTN_L1;
    case WaistRight => assert code == BTN_R1;
    case RollLeft => assert code == BTN_SQUARE;
    case RollRight => assert code == BTN_CIRCLE;
    case PitchUp => assert code == BTN_TRIANGLE;
    case PitchDown => assert code == BTN_CROSS;
    case SpinLeft => assert code == BTN_L2;
    case SpinRight => assert code == BTN_R2;
    case GrabberOpen => assert code == BTN_L3;
    case GrabberClose => assert code == BTN_R3;
  }

  /** A release of a direction button clears only its own flag. */
  lemma ReleaseClearsOwn(s: Controls, code: int, f: Flag)
    requires ButtonFlag(code) == Some(f)
    ensures ButtonEvent(s, code, 0) == With(s, f, false)
  {
    if code == BTN_L1 || code == BTN_R1 {
    } else if code == BTN_SQUARE || code == BTN_CIRCLE {
    } else if code == BTN_TRIANGLE || code == BTN_CROSS {
    } else if code == BTN_L2 || code == BTN_R2 {
    } else {
    }
  }

  /** Any other value of a direction button (a key repeat, 2) changes nothing. */
  lemma OtherValueIgnored(s: Controls, code: int, value: int)
    requires ButtonFlag(code).Some? && value != 0 && value != 1
    ensures ButtonEvent(s, code, value) == s
  {
  }

  /** Share, Options, a PS release and unknown buttons leave the record
      alone; a PS press clears `running` and nothing else. */
  lemma OtherButtons(s: Controls, code: int, value: int)
    requires ButtonFlag(code).None?
    ensures ButtonEvent(s, code, value) == if code == BTN_PS && value == 1 then s.(running := false) else s
  {
  }

  /** The sticks write the shoulder and elbow speeds (the left stick
      inverted), the d-pad the modifier and the alignment target; each
      event changes exactly its own field. */
  lemma StickRouting(s: Controls, value: int)
    ensures StickEvent(s, LEFT_STICK_X, value) == s.(shoulderSpeed := MathHelper.ScaleStickDefault(value as real, true))
    ensures StickEvent(s, RIGHT_STICK_X, value) == s.(elbowSpeed := MathHelper.ScaleStickDefault(value as real, false))
    ensures StickEvent(s, DPAD_Y, value) == s.(speedModifier := value)
    ensures StickEvent(s, DPAD_X, value) == s.(waistTargetColor := value)
    ensures forall code :: code !in {LEFT_STICK_X, RIGHT_STICK_X, DPAD_X, DPAD_Y} ==> StickEvent(s, code, value) == s
  {
  }

  // -----------------------------------------------------------------------
  // One event of the gamepad loop

  /** The loop routes axis events to the stick branch, button events to
      the button chain, and ignores every other event type. */
  lemma DispatchRoutes(s: Controls, kind: int, code: int, value: int)
    ensures kind == EV_ABS ==> Dispatch(s, Event(kind, code, value)) == StickEvent(s, code, value)
    ensures kind == EV_KEY ==> Dispatch(s, Event(kind, code, value)) == ButtonEvent(s, code, value)
    ensures kind != EV_ABS && kind != EV_KEY ==> Dispatch(s, Event(kind, code, value)) == s
  {
  }

  /** What the loop does with each event it reads: the sticks and the d-pad
      write their own field, a direction button's press sets its flag and
      clears the opposite one, its release clears its flag, a PS press
      clears `running`, and events of other types change nothing. */
  lemma DispatchEffects(s: Controls, kind: int, code: int, value: int)
    ensures Dispatch(s, Event(EV_ABS, LEFT_STICK_X, value)) == s.(shoulderSpeed := MathHelper.ScaleStickDefault(value as real, true))
    ensures Dispatch(s, Event(EV_ABS, RIGHT_STICK_X, value)) == s.(elbowSpeed := MathHelper.ScaleStickDefault(value as real, false))
    ensures Dispatch(s, Event(EV_ABS, DPAD_Y, value)) == s.(speedModifier := value)
    ensures Dispatch(s, Event(EV_ABS, DPAD_X, value)) == s.(waistTargetColor := value)
    ensures ButtonFlag(code).Some? ==>
              Dispatch(s, Event(EV_KEY, code, 1)) == With(With(s, Opposite(ButtonFlag(code).value), false), ButtonFlag(code).value, true)
    ensures ButtonFlag(code).Some? ==>
              Dispatch(s, Event(EV_KEY, code, 0)) == With(s, ButtonFlag(code).value, false)
    ensures Dispatch(s, Event(EV_KEY, BTN_PS, 1)) == s.(running := false)
    ensures kind != EV_ABS && kind != EV_KEY ==> Dispatch(s, Event(kind, code, value)) == s
  {
    StickRouting(s, value);
    if ButtonFlag(code).Some? {
      PressSetsOwnClearsOpposite(s, code, ButtonFlag(code).value);
      ReleaseClearsOwn(s, code, ButtonFlag(code).value);
    }
  }

  /** A stick speed is what scale_stick can produce: zero, or between the
      deadzone and the scaling bound in magnitude. */
  predicate StickSpeed(x: real) {
    x == 0.0 || MathHelper.DEFAULT_DEADZONE <= MathHelper.Abs(x) <= MathHelper.DEFAULT_SCALE_TO
  }

  predicate SpeedsInRange(s: Controls) {
    StickSpeed(s.shoulderSpeed) && StickSpeed(s.elbowSpeed)
  }

  /** Stick events carry raw values 0..255. */
  predicate RawInRange(e: Event) {
    e.kind == EV_ABS && (e.code == LEFT_STICK_X || e.code == RIGHT_STICK_X) ==> 0 <= e.value <= 255
  }

  lemma ScaledStickSpeed(value: int, invert: bool)
    requires 0 <= value <= 255
    ensures StickSpeed(MathHelper.ScaleStickDefault(value as real, invert))
  {
    MathHelper.ScaleStickBounded(value as real, MathHelper.DEFAULT_DEADZONE, MathHelper.DEFAULT_SCALE_TO, invert);
  }

  /** One event keeps both stick speeds in range. */
  lemma DispatchSpeedsInRange(s: Controls, e: Event)
    requires SpeedsInRange(s) && RawInRange(e)
    ensures SpeedsInRange(Dispatch(s, e))
  {
    if e.kind == EV_ABS {
      StickRouting(s, e.value);
      if e.code == LEFT_STICK_X {
        ScaledStickSpeed(e.value, true);
      } else if e.code == RIGHT_STICK_X {
        ScaledStickSpeed(e.value, false);
      }
    }
  }

  // -----------------------------------------------------------------------
  // A stream of events

  /** No reachable control record has both flags of a pair set. */
  lemma {:induction false} ConsumeExclusive(s: Controls, events: seq<Event>)
    requires PairsExclusive(s)
    ensures PairsExclusive(Consume(s, events))
    decreases |events|
  {
    if events != [] && !EndsLoop(events[0]) {
      ConsumeExclusive(Dispatch(s, events[0]), events[1..]);
    }
  }

  lemma InitialExclusive(events: seq<Event>)
    ensures PairsExclusive(Consume(Initial, events))
  {
    ConsumeExclusive(Initial, events);
  }

  /** The stick speeds stay in range over any stream of raw values 0..255. */
  lemma {:induction false} ConsumeSpeedsInRange(s: Controls, events: seq<Event>)
    requires SpeedsInRange(s)
    requires forall i :: 0 <= i < |events| ==> RawInRange(events[i])
    ensures SpeedsInRange(Consume(s, events))
    decreases |events|
  {
    if events != [] {
      DispatchSpeedsInRange(s, events[0]);
      if !EndsLoop(events[0]) {
        ConsumeSpeedsInRange(Dispatch(s, events[0]), events[1..]);
      }
    }
  }

  /** After the loop, `running` is false exactly when it already was or a
      PS press was read. */
  lemma {:induction false} ConsumeRunning(s: Controls, events: seq<Event>)
    ensures Consume(s, events).running == (s.running && forall i :: 0 <= i < |events| ==> !EndsLoop(events[i]))
    decreases |events|
  {
    if events != [] {
      if !EndsLoop(events[0]) {
        ConsumeRunning(Dispatch(s, events[0]), events[1..]);
        assert forall i :: 0 <= i < |events[1..]| ==> events[1..][i] == events[i + 1];
        assert (forall i :: 0 <= i < |events| ==> !EndsLoop(events[i])) ==
               (forall i :: 0 <= i < |events[1..]| ==> !EndsLoop(events[1..][i])) by {
          if forall i :: 0 <= i < |events[1..]| ==> !EndsLoop(events[1..][i]) {
            forall i | 0 <= i < |events| ensures !EndsLoop(events[i]) {
              if i > 0 { assert events[i] == events[1..][i - 1]; }
            }
          }
        }
      }
    }
  }

  /** Events after the first PS press are never read: the loop's result
      depends only on the events it consumed. */
  lemma {:induction false} ConsumeStopsAtPress(s: Controls, events: seq<Event>)
    ensures Consume(s, events) == Consume(s, events[..Consumed(events)])
    decreases |events|
  {
    if events != [] {
      var n := Consumed(events);
      assert events[..n][0] == events[0];
      if !EndsLoop(events[0]) {
        ConsumeStopsAtPress(Dispatch(s, events[0]), events[1..]);
        assert events[..n][1..] == events[1..][..Consumed(events[1..])];
      }
    }
  }

  // -----------------------------------------------------------------------
  // calculate_speed

  /** The three d-pad modes: plain (0) keeps the speed, up (-1) makes it
      half as fast again, down (1) two thirds of it. */
  lemma CalculateSpeedModes(x: real)
    ensures CalculateSpeed(x, 0) == Some(x)
    ensures CalculateSpeed(x, -1) == Some(x * 3.0 / 2.0)
    ensures CalculateSpeed(x, 1) == Some(x * 2.0 / 3.0)
  {
  }

  /** D-pad up (-1) and down (1) undo each other. */
  lemma CalculateSpeedInverse(x: real)
    ensures CalculateSpeed(CalculateSpeed(x, -1).value, 1) == Some(x)
    ensures CalculateSpeed(CalculateSpeed(x, 1).value, -1) == Some(x)
  {
  }

  /** Reversing a direction reverses the speed under every modifier. */
  lemma CalculateSpeedOdd(x: real, modifier: int)
    ensures CalculateSpeed(-x, modifier) ==
              if modifier in {-1, 0, 1} then Some(-CalculateSpeed(x, modifier).value) else None
  {
  }

  /** The modifier keeps the direction, makes the motor faster on d-pad up
      and slower on d-pad down. */
  lemma CalculateSpeedOrder(x: real)
    ensures var up, plain, down := CalculateSpeed(x, -1).value, CalculateSpeed(x, 0).value, CalculateSpeed(x, 1).value;
            && (0.0 < x ==> 0.0 < down < plain < up)
            && (x < 0.0 ==> up < plain < down < 0.0)
            && (x == 0.0 ==> up == plain == down == 0.0)
  {
  }

  /** Nothing clamps the result: the right stick (the elbow) at full
      deflection with d-pad up asks for 120 or -120, past the motors' 100. */
  lemma CalculateSpeedUnclamped()
    ensures MathHelper.ScaleStickDefault(255.0, false) == 80.0
    ensures CalculateSpeed(MathHelper.ScaleStickDefault(255.0, false), -1) == Some(120.0)
    ensures CalculateSpeed(-80.0, -1) == Some(-120.0)
  {
    MathHelper.DefaultValues();
  }

  // -----------------------------------------------------------------------
  // One tick of the motor loop

  /** What a tick sends to one joint is exactly that joint's own decision:
      the decisions of the joints do not mix. */
  lemma TickPerJoint(s: Controls, aligning: bool, moving: set<Joint>, hasGrabber: bool, k: Joint)
    ensures CommandsTo(TickCommands(s, aligning, moving, hasGrabber), k) == JointTick(s, aligning, moving, hasGrabber, k)
  {
    var sh, el, wa := ShoulderTick(s, moving), ElbowTick(s, moving), WaistPart(s, aligning, moving);
    var ro, pi, sp, gr := RollTick(s, moving), PitchTick(s, moving), SpinTick(s, moving), GrabberPart(s, moving, hasGrabber);
    CommandsToOne(sh, Shoulder, k);
    CommandsToOne(el, Elbow, k);
    CommandsToOne(wa, Waist, k);
    CommandsToOne(ro, Roll, k);
    CommandsToOne(pi, Pitch, k);
    CommandsToOne(sp, Spin, k);
    CommandsToOne(gr, Grabber, k);
    SevenShares(sh, el, wa, ro, pi, sp, gr, k);
  }

  /** Each joint gets at most one command per tick. */
  lemma TickAtMostOnePerJoint(s: Controls, aligning: bool, moving: set<Joint>, hasGrabber: bool, j: Joint)
    ensures |CommandsTo(TickCommands(s, aligning, moving, hasGrabber), j)| <= 1
  {
    TickPerJoint(s, aligning, moving, hasGrabber, j);
  }

  /** While the alignment routine runs, the tick never touches the waist. */
  lemma TickLeavesAligningWaist(s: Controls, moving: set<Joint>, hasGrabber: bool)
    ensures CommandsTo(TickCommands(s, true, moving, hasGrabber), Waist) == []
  {
    TickPerJoint(s, true, moving, hasGrabber, Waist);
  }

  /** An arm without a grabber gets no grabber command. */
  lemma TickSkipsAbsentGrabber(s: Controls, aligning: bool, moving: set<Joint>)
    ensures CommandsTo(TickCommands(s, aligning, moving, false), Grabber) == []
  {
    TickPerJoint(s, aligning, moving, false, Grabber);
  }

  /** A joint is stopped only if its driver reports it running. */
  lemma TickStopsOnlyRunning(s: Controls, aligning: bool, moving: set<Joint>, hasGrabber: bool, j: Joint)
    requires j !in moving
    ensures Stop(j) !in TickCommands(s, aligning, moving, hasGrabber)
  {
    TickPerJoint(s, aligning, moving, hasGrabber, j);
    CommandsToIn(TickCommands(s, aligning, moving, hasGrabber), j, Stop(j));
  }

  /** Proportional joints: driven at the stick's speed exactly when it is
      nonzero, the shoulder as is and the elbow through calculate_speed;
      otherwise stopped when running. */
  lemma TickProportional(s: Controls, aligning: bool, moving: set<Joint>, hasGrabber: bool)
    ensures var t := TickCommands(s, aligning, moving, hasGrabber);
            && (CommandsTo(t, Shoulder) == [On(Shoulder, Some(s.shoulderSpeed))] <==> s.shoulderSpeed != 0.0)
            && (CommandsTo(t, Shoulder) == [Stop(Shoulder)] <==> s.shoulderSpeed == 0.0 && Shoulder in moving)
            && (CommandsTo(t, Elbow) == [On(Elbow, CalculateSpeed(s.elbowSpeed, s.speedModifier))] <==> s.elbowSpeed != 0.0)
            && (CommandsTo(t, Elbow) == [Stop(Elbow)] <==> s.elbowSpeed == 0.0 && Elbow in moving)
  {
    TickPerJoint(s, aligning, moving, hasGrabber, Shoulder);
    TickPerJoint(s, aligning, moving, hasGrabber, Elbow);
  }

  /** On/off joints: with both flags set, the first one tested wins. */
  lemma TickFirstFlagWins(s: Controls, moving: set<Joint>, hasGrabber: bool)
    ensures var t := TickCommands(s, false, moving, hasGrabber);
            && (s.waistLeft ==> CommandsTo(t, Waist) == [On(Waist, CalculateSpeed(-SLOW_SPEED, s.speedModifier))])
            && (s.rollLeft ==> CommandsTo(t, Roll) == [On(Roll, CalculateSpeed(-SLOW_SPEED, s.speedModifier))])
            && (s.pitchUp ==> CommandsTo(t, Pitch) == [On(Pitch, CalculateSpeed(VERY_SLOW_SPEED, s.speedModifier))])
            && (s.spinLeft ==> CommandsTo(t, Spin) == [On(Spin, CalculateSpeed(-SLOW_SPEED, s.speedModifier))])
            && (hasGrabber && s.grabberOpen ==>
                  CommandsTo(t, Grabber) == [OnCoast(Grabber, CalculateSpeed(NORMAL_SPEED, s.speedModifier))])
  {
    TickPerJoint(s, false, moving, hasGrabber, Waist);
    TickPerJoint(s, false, moving, hasGrabber, Roll);
    TickPerJoint(s, false, moving, hasGrabber, Pitch);
    TickPerJoint(s, false, moving, hasGrabber, Spin);
    TickPerJoint(s, false, moving, hasGrabber, Grabber);
  }

  /** On/off joints: the second flag alone drives the joint its own way
      (right, down, close), and a joint with neither flag is stopped exactly
      when its driver reports it running. The waist is considered while no
      alignment is under way, the grabber when present. */
  lemma TickOnOff(s: Controls, moving: set<Joint>, hasGrabber: bool)
    ensures var t := TickCommands(s, false, moving, hasGrabber);
            && (!s.waistLeft && s.waistRight ==> CommandsTo(t, Waist) == [On(Waist, CalculateSpeed(SLOW_SPEED, s.speedModifier))])
            && (CommandsTo(t, Waist) == [Stop(Waist)] <==> !s.waistLeft && !s.waistRight && Waist in moving)
            && (!s.rollLeft && s.rollRight ==> CommandsTo(t, Roll) == [On(Roll, CalculateSpeed(SLOW_SPEED, s.speedModifier))])
            && (CommandsTo(t, Roll) == [Stop(Roll)] <==> !s.rollLeft && !s.rollRight && Roll in moving)
            && (!s.pitchUp && s.pitchDown ==> CommandsTo(t, Pitch) == [On(Pitch, CalculateSpeed(-VERY_SLOW_SPEED, s.speedModifier))])
            && (CommandsTo(t, Pitch) == [Stop(Pitch)] <==> !s.pitchUp && !s.pitchDown && Pitch in moving)
            && (!s.spinLeft && s.spinRight ==> CommandsTo(t, Spin) == [On(Spin, CalculateSpeed(SLOW_SPEED, s.speedModifier))])
            && (CommandsTo(t, Spin) == [Stop(Spin)] <==> !s.spinLeft && !s.spinRight && Spin in moving)
            && (hasGrabber && !s.grabberOpen && s.grabberClose ==>
                  CommandsTo(t, Grabber) == [OnCoast(Grabber, CalculateSpeed(-NORMAL_SPEED, s.speedModifier))])
            && (hasGrabber ==>
                  (CommandsTo(t, Grabber) == [Stop(Grabber)] <==> !s.grabberOpen && !s.grabberClose && Grabber in moving))
  {
    TickPerJoint(s, false, moving, hasGrabber, Waist);
    TickPerJoint(s, false, moving, hasGrabber, Roll);
    TickPerJoint(s, false, moving, hasGrabber, Pitch);
    TickPerJoint(s, false, moving, hasGrabber, Spin);
    TickPerJoint(s, false, moving, hasGrabber, Grabber);
  }

  /** The grabber is driven without braking, and only with its flags. */
  lemma TickGrabberCoasts(s: Controls, aligning: bool, moving: set<Joint>)
    ensures var g := CommandsTo(TickCommands(s, aligning, moving, true), Grabber);
            forall c :: c in g ==> (c.OnCoast? <==> (s.grabberOpen || s.grabberClose))
  {
    TickPerJoint(s, aligning, moving, true, Grabber);
  }

  // -----------------------------------------------------------------------
  // Waist alignment

  /** Every reading the polling loop took before its last one missed. */
  lemma {:induction false} IterationsMisses(sensor: nat -> Color, target: Color, first: nat, i: nat)
    requires i < MAX_ITERATIONS
    ensures forall p :: first + i <= p < first + Iterations(sensor, target, first, i) ==> sensor(p) != target
    decreases MAX_ITERATIONS - i
  {
    if sensor(first + i) != target && i + 1 < MAX_ITERATIONS {
      IterationsMisses(sensor, target, first, i + 1);
    }
  }

  /** An unmapped target is ignored: no command, no reading. */
  lemma AlignUnmapped(target: int, sensor: nat -> Color, start: nat)
    requires target != -1 && target != 1
    ensures Align(target, sensor, start) == AlignRun([], 0)
  {
  }

  /** The routine only ever drives the waist, and leaves it stopped: it
      issues nothing when the color is already under the sensor, otherwise
      it starts the waist once and stops it once. */
  lemma AlignLeavesWaistStopped(target: int, sensor: nat -> Color, start: nat)
    ensures var cmds := Align(target, sensor, start).commands;
            && (forall c :: c in cmds ==> c.joint == Waist)
            && (cmds == [] || cmds[|cmds| - 1] == Stop(Waist))
            && (cmds == [] <==> TargetColor(target).None? || sensor(start) == TargetColor(target).value)
  {
  }

  /** How a mapped target's alignment ends. It takes between 1 and
      MAX_ITERATIONS + 1 readings, every reading but the last misses the
      color, and the last one hits unless the loop timed out. The color is
      found exactly when it shows within the first MAX_ITERATIONS + 1
      readings. */
  lemma AlignOutcome(target: int, sensor: nat -> Color, start: nat)
    requires TargetColor(target).Some?
    ensures var c, n := TargetColor(target).value, Align(target, sensor, start).polls;
            && 1 <= n <= MAX_ITERATIONS + 1
            && (forall p :: start <= p < start + n - 1 ==> sensor(p) != c)
            && (sensor(start + n - 1) == c || n == MAX_ITERATIONS + 1)
            && (sensor(start + n - 1) == c <==> exists p :: start <= p <= start + MAX_ITERATIONS && sensor(p) == c)
  {
    var c := TargetColor(target).value;
    var n := Align(target, sensor, start).polls;
    if sensor(start) != c {
      IterationsMisses(sensor, c, start + 1, 0);
      var k := Iterations(sensor, c, start + 1, 0);
      assert n == 1 + LoopPolls(sensor, c, start + 1);
      if k < MAX_ITERATIONS {
        assert n == k + 2;
      } else {
        assert n == MAX_ITERATIONS + 1;
      }
    }
  }

  // -----------------------------------------------------------------------
  // Start-up and shutdown

  /** Start-up resets every present motor exactly once. */
  lemma ResetEachOnce(hasGrabber: bool, j: Joint)
    ensures CommandsTo(ResetCommands(hasGrabber), j) == if Present(j, hasGrabber) then [Reset(j)] else []
  {
    var order := ResetOrder(hasGrabber);
    assert Distinct(order);
    assert j in order <==> Present(j, hasGrabber) by {
      if hasGrabber { assert order == [Waist, Shoulder, Elbow, Roll, Pitch, Spin, Grabber]; }
      else { assert order == [Waist, Shoulder, Elbow, Roll, Pitch, Spin]; }
    }
    ResetsEachOnce(order, j);
  }

  /** clean_shutdown stops every present motor exactly once and touches
      nothing else. */
  lemma ShutdownEachOnce(hasGrabber: bool, j: Joint)
    ensures CommandsTo(ShutdownCommands(hasGrabber), j) == if Present(j, hasGrabber) then [Stop(j)] else []
  {
    var order := ShutdownOrder(hasGrabber);
    assert Distinct(order);
    assert j in order <==> Present(j, hasGrabber) by {
      if hasGrabber { assert order == [Waist, Shoulder, Elbow, Pitch, Roll, Spin, Grabber]; }
      else { assert order == [Waist, Shoulder, Elbow, Pitch, Roll, Spin]; }
    }
    StopsEachOnce(order, j);
  }

  /** Whatever was commanded before, the last command each present motor
      receives is a stop. */
  lemma ShutdownLeavesStopped(log: seq<Command>, hasGrabber: bool, j: Joint)
    requires Present(j, hasGrabber)
    ensures var c := CommandsTo(log + ShutdownCommands(hasGrabber), j);
            |c| > 0 && c[|c| - 1] == Stop(j)
  {
    CommandsToAppend(log, ShutdownCommands(hasGrabber), j);
    ShutdownEachOnce(hasGrabber, j);
  }
}
