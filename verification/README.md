# EV3 robot arm gamepad controllers, modelled in Dafny

This project models two Python scripts and their math helper. The scripts drive a two-brick LEGO EV3 robot arm from a PS4 gamepad.

- **Joints.** The arm has seven joints: waist, shoulder (a tank pair of two large motors), elbow, roll, pitch, spin and an optional grabber.
- **Two threads in each script.**
  - A gamepad loop turns evdev input events into a record of global "controls": stick speeds, on/off direction flags and a `running` flag.
  - A motor loop reads those globals on every pass and issues calls on the motor drivers.

The model replaces the hardware with values:

- the gamepad is a finite sequence of `Event(kind, code, value)`;
- the motor drivers are a log of the `Command`s issued to them;
- the motors' `is_running` reports are a set of moving joints;
- the color sensor is a function from poll index to `Color`;
- the shoulder encoder is an integer reading;
- the hardware probe's result is a pair of booleans (grabber present, color sensor present).

There are three parts:

- **math_helper.py** (`math_helper.dfy`, module `MathHelper`).
  - `scale` is the affine map from a source range to a destination range.
  - `scale_stick` maps the raw axis 0..255 onto ±`scale_to`. A nonzero deadzone forces a result strictly inside (-deadzone, deadzone) to exactly 0, and `invert` negates the result.
  - Python floats are exact reals here. The unit tests' expected values are lemmas, and Python's `int()` is truncation toward zero.
- **remote_control.py** (`remote_control.dfy`, module `RemoteControl`, with lemmas in `remote_control_lemmas.dfy`).
  - The control record and the effect of one event on it, as pure functions, and the gamepad loop over a stream of events.
  - `calculate_speed`, and the motor loop's decision for one tick.
  - The waist alignment routine, with its polling loop capped at 100 runs, and the alignment thread's trigger.
  - `reset_motors` at start-up, and `clean_shutdown`.
  - The class `Controller` holds the script's globals as fields. Its methods update them and append to the command log as the script does, and each is proved against the pure specification.
- **robot-arm.py** (`robot_arm.dfy`, module `RobotArm`, with lemmas in `robot_arm_lemmas.dfy`).
  - This legacy controller scales the sticks to ±1000 and cuts speeds under 100 to 0.
  - Its held-button flags are not exclusive, and R3 toggles the grabber.
  - It sends the elbow and the on/off joints to fixed target positions, and guards the shoulder with encoder soft limits.
  - After its motor loop it stops every motor. The class `Arm` plays the role of `Controller`.

`devices.dfy` (module `Devices`) holds what both scripts share:

- the joints, events, gamepad codes, motor-driver commands and sensor colors;
- `CommandsTo`, the sub-log addressed to one joint, and its lemmas;
- `Consumed`, the number of events a gamepad loop reads before a PS press ends it.

Three of the main results:

- In remote_control.py the two flags of an on/off pair are never both set, over any event stream that starts from the initial record.
- Each tick sends each joint exactly that joint's own decision. In remote_control.py that is at most one command per joint; robot-arm.py may send the grabber two (a seek, then a stop).
- For a mapped target color, the alignment routine ends with the waist stopped whenever it moved it, and always clears `aligning_waist`, after between 1 and 101 sensor readings. When the color is already under the sensor it issues no command at all. An unmapped target changes nothing.

## Model

The methods are proved against specification functions that carry no contract of their own, so they have no rows:
- `RemoteControl.Consume` (remote_control.py:353-461) and `RobotArm.Consume` (robot-arm.py:248-350) are covered by the rows of `ReadLoop`;
- `RemoteControl.TickCommands` (remote_control.py:280-331) and `RobotArm.TickCommands` (robot-arm.py:185-234) by the rows of `Tick`;
- `RemoteControl.Align` and `LoopPolls` (remote_control.py:171-210) by the rows of `AlignWaistToColor`, `PollForColor` and `AlignOutcome`;
- `RemoteControl.ShouldAlign` (remote_control.py:254) by the row of `AlignPoll`;
- `RemoteControl.ResetCommands` (remote_control.py:52-62) by the rows of `Controller.constructor`, `ResetMotors` and `ResetEachOnce`;
- `RemoteControl.ShutdownCommands` (remote_control.py:217-237) by the rows of `CleanShutdown` and `ShutdownEachOnce`;
- `RobotArm.FinalStops` (robot-arm.py:236-242) by the rows of `StopAll` and `FinalStopsEachOnce`.

| member | source | states |
|---|---|---|
| MathHelper.Trunc | tests/math_helper.py:40 | Python's `int()` on a float: the result is within 1 of the argument, has its sign and is no farther from 0 |
| MathHelper.Scale | math_helper.py:2-3 | the lower end of the source range maps to the lower end of the destination range, the upper end to the upper end |
| MathHelper.ScaleAffine | math_helper.py:2-3 | `scale` is affine: two outputs differ by the slope times the difference of the inputs |
| MathHelper.ScaleMonotonic | math_helper.py:2-3 | with increasing ranges, `scale` is monotonic |
| MathHelper.ScaleStick | math_helper.py:6-16 | the result is 0 or at least `deadzone` in magnitude |
| MathHelper.DeadzoneZeroes | math_helper.py:10-11 | with a nonzero deadzone, a scaled value strictly inside (-deadzone, deadzone) becomes exactly 0, inverted or not |
| MathHelper.DeadzoneKeeps | math_helper.py:8-14 | a scaled value on or outside the deadzone's edge is kept, negated when inverting |
| MathHelper.NoDeadzone | math_helper.py:10 | with deadzone 0 the zeroing step is skipped: `scale_stick` is `scale` onto ±scale_to |
| MathHelper.InvertNegates | math_helper.py:13-14 | `invert` negates the result for every input |
| MathHelper.ScaleStickBounded | math_helper.py:8-16 | for raw values 0..255 the magnitude never exceeds `scale_to` |
| MathHelper.DefaultValues | tests/math_helper.py:5-10 | with the defaults: 0 gives -80, 255 gives 80, 128 and 136 give 0 |
| MathHelper.DefaultInvertedValues | tests/math_helper.py:32-35 | the same inputs inverted give the negated values |
| MathHelper.DeadzoneValues | tests/math_helper.py:12-22 | the truncated expected values of the deadzone test table, including 140 with deadzone 5 giving 7 and 150 with deadzone 10 giving 14 |
| Devices.Consumed | remote_control.py:447-461 | the gamepad loop reads events up to and including the first PS press: no earlier event is a PS press, and when events are left unread the last one read is a PS press |
| RemoteControl.StickEvent | remote_control.py:354-362 | an axis event changes only the shoulder speed, elbow speed, speed modifier or alignment target; pair exclusivity and `running` are untouched |
| RemoteControl.ButtonEvent | remote_control.py:364-461 | a button event keeps every on/off pair exclusive, clears `running` exactly on a PS press, and leaves the speeds, the modifier and the target alone |
| RemoteControl.Dispatch | remote_control.py:353-364 | one event keeps the pairs exclusive and clears `running` exactly when it is a PS press; its routing is stated by DispatchRoutes and DispatchEffects |
| RemoteControl.CalculateSpeed | remote_control.py:160-166 | a speed comes back exactly for modifiers -1, 0 and 1; any other modifier falls off the end of the function (Python's None) |
| RemoteControl.DriveOrStop | remote_control.py:280-289 | a proportional joint gets its drive command, a stop, or nothing, and nothing exactly when it is neither driven nor reported running |
| RemoteControl.OnOff | remote_control.py:293-298 | an on/off joint gets the first flag's command, the second's, a stop, or nothing, and nothing exactly when neither flag is set and it is not running; which command is given is pinned by TickFirstFlagWins and TickOnOff |
| RemoteControl.ShoulderTick | remote_control.py:280-283 | the shoulder's share of a tick is empty or one command to the shoulder |
| RemoteControl.ElbowTick | remote_control.py:286-289 | the elbow's share is empty or one command to the elbow |
| RemoteControl.WaistTick | remote_control.py:293-298 | the waist's share is empty or one command to the waist; which command is pinned by TickFirstFlagWins and TickOnOff |
| RemoteControl.RollTick | remote_control.py:301-306 | the roll's share is empty or one command to the roll motor; which command is pinned by TickFirstFlagWins and TickOnOff |
| RemoteControl.PitchTick | remote_control.py:309-314 | the pitch's share is empty or one command to the pitch motor; which command is pinned by TickFirstFlagWins and TickOnOff |
| RemoteControl.SpinTick | remote_control.py:317-322 | the spin's share is empty or one command to the spin motor; which command is pinned by TickFirstFlagWins and TickOnOff |
| RemoteControl.GrabberTick | remote_control.py:326-331 | the grabber's share is empty or one command to the grabber; which command is pinned by TickFirstFlagWins and TickOnOff |
| RemoteControl.WaistPart | remote_control.py:292-298 | with the alignment flag honoured, the waist's share is still empty or one waist command |
| RemoteControl.GrabberPart | remote_control.py:325-331 | with grabber presence honoured, the grabber's share is still empty or one grabber command |
| RemoteControl.TargetColor | remote_control.py:172-179 | a color is selected exactly for targets -1 and 1: red for -1, blue for 1 |
| RemoteControl.Iterations | remote_control.py:192-204 | the polling loop's body runs at most 100 times, and if it stops earlier the reading that stopped it is the target color |
| RemoteControl.Controller.constructor | remote_control.py:132-170 | start-up: neutral controls with `running` set, no alignment under way, and every present motor reset in `reset_motors` order |
| RemoteControl.Controller.ResetMotors | remote_control.py:52-62 | the log grows by reset() on waist, shoulder, elbow, roll, pitch and spin, then on the grabber only if present |
| RemoteControl.Controller.HandleEvent | remote_control.py:353-364 | the controls become the specified effect of the event |
| RemoteControl.Controller.HandleStick | remote_control.py:354-362 | the axis branch updates the controls as `StickEvent` specifies |
| RemoteControl.Controller.HandleButton | remote_control.py:364-461 | the button chain updates the controls as `ButtonEvent` specifies |
| RemoteControl.Controller.ReadLoop | remote_control.py:353-461 | the loop reads exactly the events up to the first PS press and leaves the controls as the whole stream specifies |
| RemoteControl.Controller.Operate | remote_control.py:353-463 | after the loop and `clean_shutdown`: the controls as specified with `running` cleared, and the shutdown stops appended to the log |
| RemoteControl.Controller.Tick | remote_control.py:278-331 | one pass of the motor loop appends exactly the specified tick commands |
| RemoteControl.Controller.ShoulderControl | remote_control.py:280-283 | the shoulder's branch issues its specified share |
| RemoteControl.Controller.ElbowControl | remote_control.py:286-289 | the elbow's branch issues its specified share |
| RemoteControl.Controller.WaistControl | remote_control.py:293-298 | the waist's branch issues its specified share |
| RemoteControl.Controller.RollControl | remote_control.py:301-306 | the roll's branch issues its specified share |
| RemoteControl.Controller.PitchControl | remote_control.py:309-314 | the pitch's branch issues its specified share |
| RemoteControl.Controller.SpinControl | remote_control.py:317-322 | the spin's branch issues its specified share |
| RemoteControl.Controller.GrabberControl | remote_control.py:326-331 | the grabber's branch issues its specified share |
| RemoteControl.Controller.ReadColor | remote_control.py:194 | a sensor read returns the next reading and advances the poll count by one |
| RemoteControl.Controller.AlignWaistToColor | remote_control.py:171-210 | the routine issues the specified commands and takes the specified readings; `aligning_waist` ends false for a mapped target and unchanged for an unmapped one |
| RemoteControl.Controller.TurnUntilColor | remote_control.py:188-207 | the waist is started at NORMAL_SPEED and stopped once, around the polling loop's readings |
| RemoteControl.Controller.PollForColor | remote_control.py:192-204 | the polling loop takes as many readings as specified: one per check, and none after the 100th run |
| RemoteControl.Controller.AlignPoll | remote_control.py:253-255 | the alignment thread runs the routine exactly when a target is set and no alignment is under way, and changes nothing otherwise |
| RemoteControl.Controller.CleanShutdown | remote_control.py:213-237 | `running` is cleared and nothing else in the controls changes; the log grows by the stops in shutdown order |
| RemoteControlProperties.PressSetsOwnClearsOpposite | remote_control.py:366-435 | a press of a direction button clears the opposite flag, sets its own, and changes nothing else |
| RemoteControlProperties.ReleaseClearsOwn | remote_control.py:366-435 | a release clears only the button's own flag |
| RemoteControlProperties.OtherValueIgnored | remote_control.py:366-435 | any value other than 0 and 1 on a direction button changes nothing |
| RemoteControlProperties.OtherButtons | remote_control.py:437-461 | Share, Options, PS releases and unknown buttons change nothing; a PS press clears only `running` |
| RemoteControlProperties.StickRouting | remote_control.py:354-362 | code 0 sets the shoulder speed to the inverted scaled value, code 3 the elbow speed, 17 the modifier, 16 the target, each changing only its own field; other codes change nothing |
| RemoteControlProperties.ScaledStickSpeed | remote_control.py:356-358 | a raw value 0..255 scales to 0 or a magnitude between 10 and 80 |
| RemoteControlProperties.DispatchRoutes | remote_control.py:353-364 | an axis event (type 3) has exactly the stick branch's effect, a button event (type 1) exactly the button chain's, and any other event type changes nothing |
| RemoteControlProperties.DispatchEffects | remote_control.py:353-449 | through the loop: the left stick writes the inverted scaled shoulder speed, the right stick the elbow speed, the d-pad the modifier and the target; a direction button's press sets its flag and clears the opposite one, its release clears its flag; a PS press clears `running`; other event types change nothing |
| RemoteControlProperties.DispatchSpeedsInRange | remote_control.py:353-362 | one event with a raw value in 0..255 keeps both stick speeds in that range |
| RemoteControlProperties.ConsumeExclusive | remote_control.py:366-435 | over any event stream, no on/off pair ends with both flags set if none started so |
| RemoteControlProperties.InitialExclusive | remote_control.py:140-149 | from the initial all-false flags, no stream of events sets both flags of a pair |
| RemoteControlProperties.ConsumeSpeedsInRange | remote_control.py:353-362 | over any stream of raw values 0..255 both stick speeds stay 0 or between 10 and 80 in magnitude |
| RemoteControlProperties.ConsumeRunning | remote_control.py:447-461 | after the loop `running` is false exactly when it already was or the stream holds a PS press |
| RemoteControlProperties.ConsumeStopsAtPress | remote_control.py:447-461 | events after the first PS press have no effect |
| RemoteControlProperties.CalculateSpeedModes | remote_control.py:160-166 | for every speed: modifier 0 returns it unchanged, -1 returns 3/2 of it, 1 returns 2/3 of it |
| RemoteControlProperties.CalculateSpeedInverse | remote_control.py:160-166 | d-pad up (×1.5) and d-pad down (÷1.5) undo each other |
| RemoteControlProperties.CalculateSpeedOdd | remote_control.py:160-166 | reversing the direction reverses the result under every modifier that has one |
| RemoteControlProperties.CalculateSpeedOrder | remote_control.py:160-166 | the modifier keeps the sign, with up faster and down slower than plain |
| RemoteControlProperties.CalculateSpeedUnclamped | remote_control.py:160-166 | nothing clamps: a full stick on the elbow with d-pad up asks for ±120 |
| RemoteControlProperties.TickPerJoint | remote_control.py:278-331 | what a tick sends to each joint is exactly that joint's own branch |
| RemoteControlProperties.TickAtMostOnePerJoint | remote_control.py:278-331 | each joint receives at most one command per tick |
| RemoteControlProperties.TickLeavesAligningWaist | remote_control.py:292-298 | while the waist is being aligned, a tick sends the waist nothing |
| RemoteControlProperties.TickSkipsAbsentGrabber | remote_control.py:325 | without a grabber, a tick sends the grabber nothing |
| RemoteControlProperties.TickStopsOnlyRunning | remote_control.py:280-331 | a tick stops a joint only if its driver reports it running |
| RemoteControlProperties.TickProportional | remote_control.py:280-289 | the shoulder is driven at its speed, and the elbow at its modified speed, exactly when that speed is nonzero; each is stopped exactly when its speed is zero and it is running |
| RemoteControlProperties.TickFirstFlagWins | remote_control.py:292-331 | for each on/off joint the first flag tested (left, up, open) wins over the second |
| RemoteControlProperties.TickOnOff | remote_control.py:292-331 | for each on/off joint the second flag alone drives it its own way (waist, roll and spin at +25, pitch at -10, grabber coasting at -50, each through calculate_speed), and with neither flag it is stopped exactly when its driver reports it running |
| RemoteControlProperties.TickGrabberCoasts | remote_control.py:325-331 | the grabber is only driven without braking, and exactly when one of its flags is set |
| RemoteControlProperties.IterationsMisses | remote_control.py:192-204 | every reading the polling loop takes before it stops misses the target |
| RemoteControlProperties.AlignUnmapped | remote_control.py:172-179 | an unmapped target issues no command and takes no reading |
| RemoteControlProperties.AlignLeavesWaistStopped | remote_control.py:184-210 | the routine only commands the waist and ends with the waist stopped whenever it moved it; it issues nothing, and so leaves the waist as the motor loop drives it, exactly when the target is unmapped or already under the sensor |
| RemoteControlProperties.AlignOutcome | remote_control.py:186-207 | a mapped target takes 1 to 101 readings; all but the last miss, and the last hits unless the loop timed out; the color is found exactly when it shows within the first 101 readings |
| RemoteControlProperties.ResetEachOnce | remote_control.py:52-62 | start-up resets each present motor exactly once and nothing else |
| RemoteControlProperties.ShutdownEachOnce | remote_control.py:213-237 | `clean_shutdown` stops each present motor exactly once and nothing else |
| RemoteControlProperties.ShutdownLeavesStopped | remote_control.py:213-237 | whatever came before, the last command each present motor receives is a stop |
| RobotArm.ScaleStick | robot-arm.py:32-36 | raw 0 maps to -1000 and raw 255 to 1000 |
| RobotArm.Cut | robot-arm.py:258-265 | a cut speed is 0 or the speed itself, and 0 or at least 100 in magnitude; a speed of magnitude 100 or more is kept |
| RobotArm.StickEvent | robot-arm.py:249-265 | after an axis event every stick speed is 0 or at least 100 in magnitude, and only the four speeds change; the value written by each stick is pinned by LeftStickDirect and RightStickInverted |
| RobotArm.ButtonEvent | robot-arm.py:267-331 | `running` is cleared exactly on a PS press, the speeds are untouched, and the grabber never becomes both open and closed |
| RobotArm.Dispatch | robot-arm.py:248-331 | `running` is cleared exactly by a PS press, and an axis event leaves every speed cut; its routing is stated by DispatchRoutes, DispatchStickEffects and DispatchButtonEffects |
| RobotArm.ShoulderTick | robot-arm.py:185-190 | the shoulder gets one command, addressed to it |
| RobotArm.Seek | robot-arm.py:192-225 | a position-seeking joint gets one command, addressed to it |
| RobotArm.ElbowTick | robot-arm.py:192-197 | the elbow gets one command, addressed to it |
| RobotArm.WaistTick | robot-arm.py:199-204 | the waist gets one command, addressed to it |
| RobotArm.RollTick | robot-arm.py:206-211 | the roll motor gets one command, addressed to it |
| RobotArm.PitchTick | robot-arm.py:213-218 | the pitch motor gets one command, addressed to it |
| RobotArm.SpinTick | robot-arm.py:220-225 | the spin motor gets one command, addressed to it |
| RobotArm.GrabberTick | robot-arm.py:227-234 | the grabber gets one or two commands, all addressed to it, and the last is a stop |
| RobotArm.Arm.constructor | robot-arm.py:102-123 | the initial globals, with nothing sent yet |
| RobotArm.Arm.HandleEvent | robot-arm.py:248-331 | the controls become the specified effect of the event |
| RobotArm.Arm.HandleStick | robot-arm.py:249-265 | the axis branch updates the controls as `StickEvent` specifies |
| RobotArm.Arm.CutSpeed | robot-arm.py:258-265 | the script's test on one speed computes the cut |
| RobotArm.Arm.HandleButton | robot-arm.py:267-331 | the button tests update the controls as `ButtonEvent` specifies |
| RobotArm.Arm.ReadLoop | robot-arm.py:248-350 | the loop reads exactly the events up to the first PS press and leaves the controls as the whole stream specifies |
| RobotArm.Arm.Tick | robot-arm.py:184-234 | one pass of the motor loop appends exactly the specified tick commands |
| RobotArm.Arm.ShoulderControl | robot-arm.py:185-190 | the shoulder's branch issues its specified command |
| RobotArm.Arm.SeekControl | robot-arm.py:192-225 | a position-seeking branch issues its specified command |
| RobotArm.Arm.GrabberControl | robot-arm.py:227-234 | the grabber's branch issues its specified commands |
| RobotArm.Arm.StopAll | robot-arm.py:236-242 | after the motor loop, all seven motors are stopped in the script's order |
| RobotArm.Arm.Operate | robot-arm.py:236-350 | the gamepad loop over the stream, then the final stops once `running` has been cleared |
| RobotArmProperties.ScaleStickRange | robot-arm.py:32-36 | raw values 0..255 scale into -1000..1000 |
| RobotArmProperties.ScaleStickLine | robot-arm.py:32-36 | `scale_stick` is the line through (0, -1000) and (255, 1000) |
| RobotArmProperties.StickDeadBand | robot-arm.py:249-261 | after the cut a stick reads 0 exactly for raw values 115 to 140 |
| RobotArmProperties.StickEnds | robot-arm.py:249-255 | the left stick at 255 asks for forward speed 1000 and at 0 for -1000; the inverted right stick at 0 asks for upward speed 1000 and at 255 for -1000 |
| RobotArmProperties.RightStickInverted | robot-arm.py:254-260 | the right stick writes the negated scale, which is then cut; the forward speed is only re-cut |
| RobotArmProperties.LeftStickDirect | robot-arm.py:249-261 | the left stick writes the scaled value, not negated, then cut; the upward speed is only re-cut |
| RobotArmProperties.OtherAxesRecut | robot-arm.py:249-261 | any other axis writes no speed: both stick speeds are only re-cut |
| RobotArmProperties.InitialConsistent | robot-arm.py:102-123 | the initial globals are consistent: speeds cut, side speeds 0, grabber not both open and closed |
| RobotArmProperties.StickSideSpeeds | robot-arm.py:262-265 | an axis event only re-cuts the two side speeds |
| RobotArmProperties.DispatchRoutes | robot-arm.py:248-331 | an axis event (type 3) has exactly the stick block's effect, a button event (type 1) exactly the button tests', and any other event type changes nothing |
| RobotArmProperties.DispatchStickEffects | robot-arm.py:249-261 | through the loop: the left stick writes the cut scaled forward speed, the right stick the cut negated upward speed, and other axes only re-cut both |
| RobotArmProperties.DispatchButtonEffects | robot-arm.py:267-331 | through the loop: a held button's event sets, clears or keeps its own flag, an R3 press toggles the grabber, a PS press clears `running`, and other event types change nothing |
| RobotArmProperties.DispatchConsistent | robot-arm.py:248-331 | one event keeps the controls consistent |
| RobotArmProperties.ConsumeConsistent | robot-arm.py:248-350 | over any event stream the controls stay consistent: every speed 0 or at least 100 in magnitude, the side speeds 0, the grabber never both open and closed |
| RobotArmProperties.ConsumeRunning | robot-arm.py:329-350 | after the loop `running` is false exactly when it already was or the stream holds a PS press |
| RobotArmProperties.HeldButton | robot-arm.py:267-305 | a direction button sets its own flag on a press, clears it on a release, keeps it otherwise, and touches nothing else |
| RobotArmProperties.PairsNotExclusive | robot-arm.py:267-275 | pressing L1 then R1 sets both waist flags, and the tick then turns the waist left |
| RobotArmProperties.R3Toggles | robot-arm.py:307-313 | an R3 press leaves exactly one of open and closed set, open exactly when it was not open before; other R3 values change nothing |
| RobotArmProperties.OtherButtons | robot-arm.py:315-331 | Share, Options, PS releases and unknown buttons move no flag; a PS press clears only `running` |
| RobotArmProperties.ShoulderSoftLimits | robot-arm.py:185-190 | the shoulder goes forward (at -50) exactly when asked and the encoder reads above -350, backward (at 50) exactly when asked and below 275, and is stopped otherwise |
| RobotArmProperties.TickTargets | robot-arm.py:192-234 | each on/off joint's position target in motor degrees, the first flag winning and the joint stopped with neither |
| RobotArmProperties.GrabberShare | robot-arm.py:227-234 | the grabber's commands reach only the grabber |
| RobotArmProperties.TickPerJoint | robot-arm.py:184-234 | what a tick sends to each joint is exactly that joint's own branch |
| RobotArmProperties.TickCommandsEveryJoint | robot-arm.py:184-234 | every tick commands every joint, once each except the grabber, which is always stopped last |
| RobotArmProperties.TickIdle | robot-arm.py:184-234 | with no stick deflected and no flag set, a tick stops all seven motors, with no `is_running` check |
| RobotArmProperties.FinalStopsEachOnce | robot-arm.py:236-242 | after the motor loop each of the seven motors is stopped exactly once, and nothing else is sent |

## Left out

- Threads: both scripts share globals between a motor thread, the gamepad loop and, in remote_control.py, an alignment thread. The model runs one event, one tick or one alignment call at a time, so interleavings inside a tick or an alignment are not modelled.
- Sleeps (`time.sleep`) are dropped.
- LEDs, sound, `setfont` and logger output are left out, because they do not affect the arm's state. So are the battery and motor telemetry that Share and Options print in remote_control.py.
- Device and transport plumbing is replaced by the event sequence and the command log: the RPyC connection, evdev discovery and `read_loop`, `gamepad.close`, `sys.exit`, and the SIGINT handler.
- The `DeviceNotFound` probing in remote_control.py:102-128 is replaced by the two booleans `hasGrabber` and `hasColorSensor`.
- Motor-driver behaviour is left uninterpreted: what `on`, `on_to_position`, `stop`, `reset` and `is_running` do to a motor. Only the calls are logged.
- The commented-out calibration block in robot-arm.py:142-182 is not modelled.
- The encoder zeroing at start-up in robot-arm.py:64-72 is not modelled; the shoulder encoder's reading is a parameter of each tick.
- robot-arm.py's position-reset command lists on Options and PS (robot-arm.py:318-341) are not logged. Only PS's effect on `running` and on the loop is modelled.
- robot-arm.py:315-316: the Share branch holds only a comment, so the file as written is not valid Python. The model treats Share as doing nothing.
- The model has no counter-rotation of the spin with the grabber and no clamp at 100 in `calculate_speed`, because the code has neither (remote_control.py:160-166 and 317-331).
- MathHelper.Scale: requires a non-degenerate source range, because the division would fail in Python. Every caller passes (0, 255).
- Python floats are exact reals, so rounding is not modelled.
- The color sensor's readings are a function of the poll index. A reading is taken at each check of the polling loop, and the timing between checks is not modelled.
- RobotArm.Arm.Operate: the final stops run after the whole event stream has been read. In the script they run whenever the motor thread next sees `running` cleared.
- RemoteControl.Controller.Operate: the motor and alignment threads' last passes before shutdown are not part of it; `Tick` and `AlignPoll` model one pass each.
