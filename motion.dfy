/** The pick-and-place choreography of `RoboticArmController.run_pickup_sequence`
    (DofMarket.py, lines 80-121) as a value: the ordered list of status
    announcements, six-servo moves and gripper commands one pickup issues,
    and the three poses it derives from the station pose. */
module Motion {
  import opened Opt
  import opened ArmConfig

  /** The status announcements of a pickup, in the order they are made. */
  datatype Phase = MovingHome | Reaching | Grabbing | Lifting | ToDropZone | Dropping | Returning | Ready

  /** The text each announcement passes to the status callback. */
  function StatusText(phase: Phase): string
  {
    match phase
    case MovingHome => "Moving Home..."
    case Reaching => "Reaching for fruit..."
    case Grabbing => "Grabbing..."
    case Lifting => "Lifting fruit..."
    case ToDropZone => "Moving to drop zone..."
    case Dropping => "Dropping fruit..."
    case Returning => "Returning Home..."
    case Ready => "Ready"
  }

  /** One action of a pickup: a status announcement, a six-servo move over a
      duration in milliseconds, or a gripper command. */
  datatype Step = Say(phase: Phase) | MoveTo(pose: seq<int>, duration: nat) | Grip(angle: int)

  /** The approach pose: a copy of the station pose with the gripper slot open. */
  function Approach(pickup: seq<int>): (pose: seq<int>)
    requires |pickup| >= 6
    ensures |pose| == |pickup| && pose[5] == GRIPPER_OPEN
    ensures forall i :: 0 <= i < |pickup| && i != 5 ==> pose[i] == pickup[i]
  {
    pickup[5 := GRIPPER_OPEN]
  }

  /** The lift pose: the station's base rotation, the home pose's elevation
      joints, and the gripper closed. */
  function Lift(pickup: seq<int>): (pose: seq<int>)
    requires |pickup| >= 1
    ensures |pose| == 6 && pose[0] == pickup[0] && pose[5] == GRIPPER_CLOSE
    ensures pose[1..5] == POS_HOME[1..5]
  {
    [pickup[0], 130, 30, 0, 90, GRIPPER_CLOSE]
  }

  /** The drop pose: a copy of POS_DROP with the gripper slot closed. */
  function DropClosed(): (pose: seq<int>)
    ensures |pose| == |POS_DROP| && pose[5] == GRIPPER_CLOSE
    ensures forall i :: 0 <= i < |POS_DROP| && i != 5 ==> pose[i] == POS_DROP[i]
  {
    POS_DROP[5 := GRIPPER_CLOSE]
  }

  /** An announcement followed by the arm commands it names. */
  function Stage(phase: Phase, commands: seq<Step>): seq<Step>
  {
    [Say(phase)] + commands
  }

  /** The first stage, run before the station pose is first indexed. */
  function HomeStage(): seq<Step>
  {
    Stage(MovingHome, [MoveTo(POS_HOME, MOVE_TIME), Grip(GRIPPER_OPEN)])
  }

  /** Every move carries the six slots a six-servo write reads. */
  predicate Drivable(steps: seq<Step>)
  {
    forall i :: 0 <= i < |steps| && steps[i].MoveTo? ==> |steps[i].pose| >= 6
  }

  /** Every step of one pickup from the given station pose, in order. */
  function Choreography(pickup: seq<int>): (steps: seq<Step>)
    requires |pickup| >= 6
    ensures |steps| == 16 && steps[..3] == HomeStage() && Drivable(steps)
  {
    HomeStage()
    + Stage(Reaching, [MoveTo(Approach(pickup), MOVE_TIME)])
    + Stage(Grabbing, [Grip(GRIPPER_CLOSE)])
    + Stage(Lifting, [MoveTo(Lift(pickup), MOVE_TIME)])
    + Stage(ToDropZone, [MoveTo(DropClosed(), MOVE_TIME)])
    + Stage(Dropping, [Grip(GRIPPER_OPEN)])
    + Stage(Returning, [MoveTo(POS_HOME, MOVE_TIME)])
    + Stage(Ready, [])
  }

  /** The same choreography written out step by step. */
  lemma ChoreographySteps(pickup: seq<int>)
    requires |pickup| >= 6
    ensures Choreography(pickup) == [
      Say(MovingHome), MoveTo(POS_HOME, MOVE_TIME), Grip(GRIPPER_OPEN),
      Say(Reaching), MoveTo(Approach(pickup), MOVE_TIME),
      Say(Grabbing), Grip(GRIPPER_CLOSE),
      Say(Lifting), MoveTo(Lift(pickup), MOVE_TIME),
      Say(ToDropZone), MoveTo(DropClosed(), MOVE_TIME),
      Say(Dropping), Grip(GRIPPER_OPEN),
      Say(Returning), MoveTo(POS_HOME, MOVE_TIME),
      Say(Ready)]
  {
  }

  // ----- The announcements a step list makes -----

  /** The announcements of a step list, in order. */
  function Statuses(steps: seq<Step>): seq<Phase>
  {
    if steps == [] then []
    else (if steps[0].Say? then [steps[0].phase] else []) + Statuses(steps[1..])
  }

  lemma {:induction false} StatusesAppend(s: seq<Step>, t: seq<Step>)
    ensures Statuses(s + t) == Statuses(s) + Statuses(t)
  {
    if s == [] {
      assert s + t == t;
    } else {
      assert (s + t)[1..] == s[1..] + t;
      StatusesAppend(s[1..], t);
    }
  }

  /** A list of arm commands only: no announcement among them. */
  predicate CommandsOnly(steps: seq<Step>)
  {
    forall i :: 0 <= i < |steps| ==> !steps[i].Say?
  }

  lemma {:induction false} StatusesOfCommands(steps: seq<Step>)
    requires CommandsOnly(steps)
    ensures Statuses(steps) == []
  {
    if steps != [] {
      StatusesOfCommands(steps[1..]);
    }
  }

  lemma StatusesOfStage(phase: Phase, commands: seq<Step>)
    requires CommandsOnly(commands)
    ensures Statuses(Stage(phase, commands)) == [phase]
  {
    assert Stage(phase, commands)[1..] == commands;
    StatusesOfCommands(commands);
  }

  /** A pickup announces all eight phases, in order, and "Ready" is its last step. */
  lemma ChoreographyStatuses(pickup: seq<int>)
    requires |pickup| >= 6
    ensures Statuses(Choreography(pickup)) ==
      [MovingHome, Reaching, Grabbing, Lifting, ToDropZone, Dropping, Returning, Ready]
    ensures Choreography(pickup)[|Choreography(pickup)| - 1] == Say(Ready)
  {
    var s1, s2 := HomeStage(), Stage(Reaching, [MoveTo(Approach(pickup), MOVE_TIME)]);
    var s3, s4 := Stage(Grabbing, [Grip(GRIPPER_CLOSE)]), Stage(Lifting, [MoveTo(Lift(pickup), MOVE_TIME)]);
    var s5, s6 := Stage(ToDropZone, [MoveTo(DropClosed(), MOVE_TIME)]), Stage(Dropping, [Grip(GRIPPER_OPEN)]);
    var s7, s8 := Stage(Returning, [MoveTo(POS_HOME, MOVE_TIME)]), Stage(Ready, []);
    StatusesOfStage(MovingHome, [MoveTo(POS_HOME, MOVE_TIME), Grip(GRIPPER_OPEN)]);
    StatusesOfStage(Reaching, [MoveTo(Approach(pickup), MOVE_TIME)]);
    StatusesOfStage(Grabbing, [Grip(GRIPPER_CLOSE)]);
    StatusesOfStage(Lifting, [MoveTo(Lift(pickup), MOVE_TIME)]);
    StatusesOfStage(ToDropZone, [MoveTo(DropClosed(), MOVE_TIME)]);
    StatusesOfStage(Dropping, [Grip(GRIPPER_OPEN)]);
    StatusesOfStage(Returning, [MoveTo(POS_HOME, MOVE_TIME)]);
    StatusesOfStage(Ready, []);
    StatusesAppend(s1, s2);
    StatusesAppend(s1 + s2, s3);
    StatusesAppend(s1 + s2 + s3, s4);
    StatusesAppend(s1 + s2 + s3 + s4, s5);
    StatusesAppend(s1 + s2 + s3 + s4 + s5, s6);
    StatusesAppend(s1 + s2 + s3 + s4 + s5 + s6, s7);
    StatusesAppend(s1 + s2 + s3 + s4 + s5 + s6 + s7, s8);
  }

  // ----- Which announcement each arm command follows -----

  /** The latest announcement made by the end of `steps`, starting from `current`. */
  function Latest(steps: seq<Step>, current: Option<Phase>): Option<Phase>
  {
    if steps == [] then current
    else Latest(steps[1..], if steps[0].Say? then Some(steps[0].phase) else current)
  }

  /** Each arm command of `steps`, paired with the latest announcement made
      before it (starting from `current`). */
  function Announced(steps: seq<Step>, current: Option<Phase>): seq<(Option<Phase>, Step)>
  {
    if steps == [] then []
    else if steps[0].Say? then Announced(steps[1..], Some(steps[0].phase))
    else [(current, steps[0])] + Announced(steps[1..], current)
  }

  lemma {:induction false} AnnouncedAppend(s: seq<Step>, t: seq<Step>, current: Option<Phase>)
    ensures Announced(s + t, current) == Announced(s, current) + Announced(t, Latest(s, current))
    ensures Latest(s + t, current) == Latest(t, Latest(s, current))
  {
    if s == [] {
      assert s + t == t;
    } else {
      assert (s + t)[1..] == s[1..] + t;
      AnnouncedAppend(s[1..], t, if s[0].Say? then Some(s[0].phase) else current);
    }
  }

  lemma {:induction false} AnnouncedCommands(steps: seq<Step>, current: Option<Phase>)
    requires CommandsOnly(steps)
    ensures Announced(steps, current) == seq(|steps|, i requires 0 <= i < |steps| => (current, steps[i]))
    ensures Latest(steps, current) == current
  {
    if steps != [] {
      AnnouncedCommands(steps[1..], current);
    }
  }

  lemma AnnouncedStage(phase: Phase, commands: seq<Step>, current: Option<Phase>)
    requires CommandsOnly(commands)
    ensures Announced(Stage(phase, commands), current) ==
      seq(|commands|, i requires 0 <= i < |commands| => (Some(phase), commands[i]))
    ensures Latest(Stage(phase, commands), current) == Some(phase)
  {
    assert Stage(phase, commands)[1..] == commands;
    AnnouncedCommands(commands, Some(phase));
  }

  /** A pickup issues exactly eight arm commands, each right after the
      announcement that names it: home and open, approach, grab, lift,
      drop zone, release, home. */
  lemma ChoreographyCommands(pickup: seq<int>)
    requires |pickup| >= 6
    ensures Announced(Choreography(pickup), None) == [
      (Some(MovingHome), MoveTo(POS_HOME, MOVE_TIME)),
      (Some(MovingHome), Grip(GRIPPER_OPEN)),
      (Some(Reaching), MoveTo(Approach(pickup), MOVE_TIME)),
      (Some(Grabbing), Grip(GRIPPER_CLOSE)),
      (Some(Lifting), MoveTo(Lift(pickup), MOVE_TIME)),
      (Some(ToDropZone), MoveTo(DropClosed(), MOVE_TIME)),
      (Some(Dropping), Grip(GRIPPER_OPEN)),
      (Some(Returning), MoveTo(POS_HOME, MOVE_TIME))]
  {
    var s1, s2 := HomeStage(), Stage(Reaching, [MoveTo(Approach(pickup), MOVE_TIME)]);
    var s3, s4 := Stage(Grabbing, [Grip(GRIPPER_CLOSE)]), Stage(Lifting, [MoveTo(Lift(pickup), MOVE_TIME)]);
    var s5, s6 := Stage(ToDropZone, [MoveTo(DropClosed(), MOVE_TIME)]), Stage(Dropping, [Grip(GRIPPER_OPEN)]);
    var s7, s8 := Stage(Returning, [MoveTo(POS_HOME, MOVE_TIME)]), Stage(Ready, []);
    AnnouncedStage(MovingHome, [MoveTo(POS_HOME, MOVE_TIME), Grip(GRIPPER_OPEN)], None);
    AnnouncedStage(Reaching, [MoveTo(Approach(pickup), MOVE_TIME)], Some(MovingHome));
    AnnouncedStage(Grabbing, [Grip(GRIPPER_CLOSE)], Some(Reaching));
    AnnouncedStage(Lifting, [MoveTo(Lift(pickup), MOVE_TIME)], Some(Grabbing));
    AnnouncedStage(ToDropZone, [MoveTo(DropClosed(), MOVE_TIME)], Some(Lifting));
    AnnouncedStage(Dropping, [Grip(GRIPPER_OPEN)], Some(ToDropZone));
    AnnouncedStage(Returning, [MoveTo(POS_HOME, MOVE_TIME)], Some(Dropping));
    AnnouncedStage(Ready, [], Some(Returning));
    AnnouncedAppend(s1, s2, None);
    AnnouncedAppend(s1 + s2, s3, None);
    AnnouncedAppend(s1 + s2 + s3, s4, None);
    AnnouncedAppend(s1 + s2 + s3 + s4, s5, None);
    AnnouncedAppend(s1 + s2 + s3 + s4 + s5, s6, None);
    AnnouncedAppend(s1 + s2 + s3 + s4 + s5 + s6, s7, None);
    AnnouncedAppend(s1 + s2 + s3 + s4 + s5 + s6 + s7, s8, None);
  }

  // ----- The gripper is never moved by a six-servo move -----

  /** The gripper angle once `step` has run, when it held `held` before. */
  function NextGrip(step: Step, held: Option<int>): Option<int>
  {
    if step.Grip? then Some(step.angle) else held
  }

  /** `step` is not a six-servo move that changes the held gripper angle. */
  predicate StepKeepsGrip(step: Step, held: Option<int>)
  {
    step.MoveTo? && held.Some? ==> |step.pose| >= 6 && step.pose[5] == held.value
  }

  /** The gripper angle after `steps`, starting from `held` (None: not yet commanded). */
  function GripAfter(steps: seq<Step>, held: Option<int>): Option<int>
  {
    if steps == [] then held else GripAfter(steps[1..], NextGrip(steps[0], held))
  }

  /** Every six-servo move in `steps` sets the gripper slot to the angle the
      gripper already holds, so only gripper commands open or close it. */
  predicate KeepsGrip(steps: seq<Step>, held: Option<int>)
  {
    steps == [] || (StepKeepsGrip(steps[0], held) && KeepsGrip(steps[1..], NextGrip(steps[0], held)))
  }

  lemma {:induction false} KeepsGripAppend(s: seq<Step>, t: seq<Step>, held: Option<int>)
    ensures KeepsGrip(s + t, held) == (KeepsGrip(s, held) && KeepsGrip(t, GripAfter(s, held)))
    ensures GripAfter(s + t, held) == GripAfter(t, GripAfter(s, held))
  {
    if s == [] {
      assert s + t == t;
    } else {
      assert (s + t)[1..] == s[1..] + t;
      KeepsGripAppend(s[1..], t, NextGrip(s[0], held));
    }
  }

  lemma KeepsGripOne(step: Step, held: Option<int>)
    ensures KeepsGrip([step], held) == StepKeepsGrip(step, held)
    ensures GripAfter([step], held) == NextGrip(step, held)
  {
    assert [step][1..] == [];
  }

  /** The same facts for an announcement followed by one command. */
  lemma KeepsGripStage(phase: Phase, step: Step, held: Option<int>)
    ensures KeepsGrip(Stage(phase, [step]), held) == StepKeepsGrip(step, held)
    ensures GripAfter(Stage(phase, [step]), held) == NextGrip(step, held)
  {
    KeepsGripOne(Say(phase), held);
    KeepsGripOne(step, held);
    KeepsGripAppend([Say(phase)], [step], held);
  }

  /** The claw is opened at home, carried open to the fruit, closed for the
      lift and the drop-zone move, opened to release, and is open when the
      arm is back home: no move ever changes the gripper slot. */
  lemma ChoreographyKeepsGrip(pickup: seq<int>)
    requires |pickup| >= 6
    ensures KeepsGrip(Choreography(pickup), None)
    ensures GripAfter(Choreography(pickup), None) == Some(GRIPPER_OPEN)
  {
    var open, closed := Some(GRIPPER_OPEN), Some(GRIPPER_CLOSE);
    var s1, s2 := HomeStage(), Stage(Reaching, [MoveTo(Approach(pickup), MOVE_TIME)]);
    var s3, s4 := Stage(Grabbing, [Grip(GRIPPER_CLOSE)]), Stage(Lifting, [MoveTo(Lift(pickup), MOVE_TIME)]);
    var s5, s6 := Stage(ToDropZone, [MoveTo(DropClosed(), MOVE_TIME)]), Stage(Dropping, [Grip(GRIPPER_OPEN)]);
    var s7, s8 := Stage(Returning, [MoveTo(POS_HOME, MOVE_TIME)]), Stage(Ready, []);
    KeepsGripStage(MovingHome, MoveTo(POS_HOME, MOVE_TIME), None);
    KeepsGripOne(Grip(GRIPPER_OPEN), None);
    KeepsGripAppend(Stage(MovingHome, [MoveTo(POS_HOME, MOVE_TIME)]), [Grip(GRIPPER_OPEN)], None);
    assert s1 == Stage(MovingHome, [MoveTo(POS_HOME, MOVE_TIME)]) + [Grip(GRIPPER_OPEN)];
    KeepsGripStage(Reaching, MoveTo(Approach(pickup), MOVE_TIME), open);
    KeepsGripStage(Grabbing, Grip(GRIPPER_CLOSE), open);
    KeepsGripStage(Lifting, MoveTo(Lift(pickup), MOVE_TIME), closed);
    KeepsGripStage(ToDropZone, MoveTo(DropClosed(), MOVE_TIME), closed);
    KeepsGripStage(Dropping, Grip(GRIPPER_OPEN), closed);
    KeepsGripStage(Returning, MoveTo(POS_HOME, MOVE_TIME), open);
    KeepsGripOne(Say(Ready), open);
    assert s8 == [Say(Ready)];
    KeepsGripAppend(s1, s2, None);
    KeepsGripAppend(s1 + s2, s3, None);
    KeepsGripAppend(s1 + s2 + s3, s4, None);
    KeepsGripAppend(s1 + s2 + s3 + s4, s5, None);
    KeepsGripAppend(s1 + s2 + s3 + s4 + s5, s6, None);
    KeepsGripAppend(s1 + s2 + s3 + s4 + s5 + s6, s7, None);
    KeepsGripAppend(s1 + s2 + s3 + s4 + s5 + s6 + s7, s8, None);
  }

  /** The apple station lifts at base 65, as the station table gives it. */
  lemma AppleLift()
    ensures Lift(FRUIT_STATIONS["apple"]) == [65, 130, 30, 0, 90, 138]
  {
  }
}
