/** The hardware the controllers talk to, reduced to values: the gamepad's
    input events, the color sensor's readings and a log of the calls made
    on the motor drivers. */
module Devices {

  datatype Option<+T> = None | Some(value: T)

  /** The arm's joints. The shoulder is a tank pair of two large motors that
      always receive the same speed, so it is one joint here. */
  datatype Joint = Waist | Shoulder | Elbow | Roll | Pitch | Spin | Grabber

  /** One call on a motor driver. What the driver does with it (ramping,
      holding, coasting) is not modelled. */
  datatype Command =
    | On(joint: Joint, speed: Option<real>)       // motor.on(speed), or tank.on(speed, speed); None is Python's None
    | OnCoast(joint: Joint, speed: Option<real>)  // motor.on(speed, False): no brake on release
    | OnToPosition(joint: Joint, rate: real, position: real, brake: bool, block: bool)
    | Stop(joint: Joint)
    | Reset(joint: Joint)

  /** An evdev input event: its type, code and value. */
  datatype Event = Event(kind: int, code: int, value: int)

  const EV_KEY := 1  // button
  const EV_ABS := 3  // stick or d-pad axis

  // The gamepad's event codes.

  // Axis codes (events of type EV_ABS).
  const LEFT_STICK_X := 0
  const RIGHT_STICK_X := 3
  const DPAD_X := 16
  const DPAD_Y := 17

  // Button codes (events of type EV_KEY).
  const BTN_CROSS := 304
  const BTN_CIRCLE := 305
  const BTN_TRIANGLE := 307
  const BTN_SQUARE := 308
  const BTN_L1 := 310
  const BTN_R1 := 311
  const BTN_L2 := 312
  const BTN_R2 := 313
  const BTN_SHARE := 314
  const BTN_OPTIONS := 315
  const BTN_PS := 316
  const BTN_L3 := 317
  const BTN_R3 := 318

  /** The ten direction flags, named so that properties can quantify over them.
      Each controller maps them onto its own buttons and record fields. */
  datatype Flag =
    WaistLeft | WaistRight | RollLeft | RollRight | PitchUp | PitchDown |
    SpinLeft | SpinRight | GrabberOpen | GrabberClose

  /** A PS press ends the gamepad loop. */
  predicate EndsLoop(e: Event) {
    e.kind == EV_KEY && e.code == BTN_PS && e.value == 1
  }

  /** How many events the gamepad loop reads from `events`: up to and
      including the first PS press, or all of them. */
  function Consumed(events: seq<Event>): (n: nat)
    ensures n <= |events|
    ensures forall i :: 0 <= i < n - 1 ==> !EndsLoop(events[i])
    ensures n < |events| ==> n > 0 && EndsLoop(events[n - 1])
  {
    if events == [] then 0
    else if EndsLoop(events[0]) then 1
    else 1 + Consumed(events[1..])
  }

  /** The color sensor's readings in COL-COLOR mode. */
  datatype Color = NoColor | Black | Blue | Green | Yellow | Red | White | Brown

  /** The commands of `cmds` addressed to joint `j`, in order. */
  function CommandsTo(cmds: seq<Command>, j: Joint): seq<Command> {
    if cmds == [] then []
    else (if cmds[0].joint == j then [cmds[0]] else []) + CommandsTo(cmds[1..], j)
  }

  /** Filtering distributes over concatenation. */
  lemma {:induction false} CommandsToAppend(a: seq<Command>, b: seq<Command>, j: Joint)
    ensures CommandsTo(a + b, j) == CommandsTo(a, j) + CommandsTo(b, j)
  {
    if a == [] {
      assert a + b == b;
    } else {
      var head := if a[0].joint == j then [a[0]] else [];
      assert (a + b)[0] == a[0] && (a + b)[1..] == a[1..] + b;
      assert CommandsTo(a + b, j) == head + CommandsTo(a[1..] + b, j);
      CommandsToAppend(a[1..], b, j);
    }
  }

  /** `cmds` is empty or a single command to `j`: what one joint receives
      in one tick. */
  predicate OneFor(cmds: seq<Command>, j: Joint) {
    cmds == [] || (|cmds| == 1 && cmds[0].joint == j)
  }

  /** A command reaches joint `j` exactly when it is in `cmds` and addressed to `j`. */
  lemma {:induction false} CommandsToIn(cmds: seq<Command>, j: Joint, c: Command)
    ensures c in CommandsTo(cmds, j) <==> c in cmds && c.joint == j
  {
    if cmds != [] {
      CommandsToIn(cmds[1..], j, c);
      assert cmds == [cmds[0]] + cmds[1..];
    }
  }

  /** A share that is empty or one command to `j` reaches `j` whole and no
      other joint. */
  lemma CommandsToOne(b: seq<Command>, j: Joint, k: Joint)
    requires OneFor(b, j)
    ensures CommandsTo(b, k) == if k == j then b else []
  {
  }

  /** Seven shares, one per joint in tick order, put one in front of the
      other: when each share reaches only its own joint, each joint receives
      its own share and nothing else. */
  lemma SevenShares(sh: seq<Command>, el: seq<Command>, wa: seq<Command>, ro: seq<Command>,
                    pi: seq<Command>, sp: seq<Command>, gr: seq<Command>, k: Joint)
    requires CommandsTo(sh, k) == (if k == Shoulder then sh else [])
    requires CommandsTo(el, k) == (if k == Elbow then el else [])
    requires CommandsTo(wa, k) == (if k == Waist then wa else [])
    requires CommandsTo(ro, k) == (if k == Roll then ro else [])
    requires CommandsTo(pi, k) == (if k == Pitch then pi else [])
    requires CommandsTo(sp, k) == (if k == Spin then sp else [])
    requires CommandsTo(gr, k) == (if k == Grabber then gr else [])
    ensures CommandsTo(sh + (el + (wa + (ro + (pi + (sp + gr))))), k)
         == match k
            case Shoulder => sh case Elbow => el case Waist => wa case Roll => ro
            case Pitch => pi case Spin => sp case Grabber => gr
  {
    var t6 := sp + gr;
    var t5 := pi + t6;
    var t4 := ro + t5;
    var t3 := wa + t4;
    var t2 := el + t3;
    CommandsToAppend(sh, t2, k);
    CommandsToAppend(el, t3, k);
    CommandsToAppend(wa, t4, k);
    CommandsToAppend(ro, t5, k);
    CommandsToAppend(pi, t6, k);
    CommandsToAppend(sp, gr, k);
  }

  /** No joint occurs twice in `order`. */
  predicate Distinct(order: seq<Joint>) {
    forall a, b :: 0 <= a < b < |order| ==> order[a] != order[b]
  }

  /** stop() on each joint of `order`, in turn. */
  function Stops(order: seq<Joint>): (r: seq<Command>)
    ensures |r| == |order|
  {
    if order == [] then [] else [Stop(order[0])] + Stops(order[1..])
  }

  /** reset() on each joint of `order`, in turn. */
  function Resets(order: seq<Joint>): (r: seq<Command>)
    ensures |r| == |order|
  {
    if order == [] then [] else [Reset(order[0])] + Resets(order[1..])
  }

  /** Stopping a list of distinct joints stops each of them exactly once and
      nothing else. */
  lemma {:induction false} StopsEachOnce(order: seq<Joint>, j: Joint)
    requires Distinct(order)
    ensures CommandsTo(Stops(order), j) == if j in order then [Stop(j)] else []
  {
    if order != [] {
      assert Distinct(order[1..]) by {
        forall a, b | 0 <= a < b < |order[1..]| ensures order[1..][a] != order[1..][b] {
          assert order[1..][a] == order[a + 1] && order[1..][b] == order[b + 1];
        }
      }
      StopsEachOnce(order[1..], j);
      assert j in order <==> j == order[0] || j in order[1..];
      if j == order[0] {
        assert j !in order[1..] by {
          forall b | 0 <= b < |order[1..]| ensures order[1..][b] != j {
            assert order[1..][b] == order[b + 1];
          }
        }
      }
    }
  }

  /** Resetting a list of distinct joints resets each of them exactly once
      and nothing else. */
  lemma {:induction false} ResetsEachOnce(order: seq<Joint>, j: Joint)
    requires Distinct(order)
    ensures CommandsTo(Resets(order), j) == if j in order then [Reset(j)] else []
  {
    if order != [] {
      assert Distinct(order[1..]) by {
        forall a, b | 0 <= a < b < |order[1..]| ensures order[1..][a] != order[1..][b] {
          assert order[1..][a] == order[a + 1] && order[1..][b] == order[b + 1];
        }
      }
      ResetsEachOnce(order[1..], j);
      assert j in order <==> j == order[0] || j in order[1..];
      if j == order[0] {
        assert j !in order[1..] by {
          forall b | 0 <= b < |order[1..]| ensures order[1..][b] != j {
            assert order[1..][b] == order[b + 1];
          }
        }
      }
    }
  }

  lemma AppendPair(log: seq<Command>, x: Command, y: Command)
    ensures log + [x] + [y] == log + [x, y]
  {
  }

  /** Whether joint `j` is present on this arm: only the grabber is optional. */
  predicate Present(j: Joint, hasGrabber: bool) {
    j != Grabber || hasGrabber
  }
}
