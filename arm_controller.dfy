/** `RoboticArmController` (DofMarket.py, lines 56-121): the driver that
    turns moves and gripper commands into servo-bus writes, or into log
    lines when no device is bound, and blocks for the settle time; and the
    pickup sequence built on it. What an observer sees is recorded as a
    timeline of events: status texts and completed driver calls. */
module ArmController {
  import opened Opt
  import opened ArmConfig
  import opened Motion

  /** A call the driver makes: a write on the servo bus, or, with no device
      bound, the line the simulation logs instead. */
  datatype DriverCall =
    | ServoWrite6(angles: seq<int>, time: nat)
    | ServoWrite(id: int, angle: int, time: nat)
    | SimMove(angles: seq<int>, time: nat)
    | SimGripper(angle: int)

  /** Something an observer sees: a status text, or a completed driver call
      together with the time the caller was blocked for it. */
  datatype Event = Said(text: string) | Drove(call: DriverCall, waitMs: nat)

  /** The timeline so far, latest event last. */
  datatype Log = Begin | Then(before: Log, last: Event)

  /** The timeline's events, in order. */
  function Events(log: Log): seq<Event>
  {
    match log
    case Begin => []
    case Then(before, last) => Events(before) + [last]
  }

  /** The exceptions the pickup can raise. */
  datatype Fault = KeyError(key: string) | IndexError(message: string) | DeviceError(message: string)

  datatype Outcome = Pass | Fail(fault: Fault)

  /** `str(e)` of each fault: a missing key is shown quoted. */
  function FaultText(fault: Fault): string
  {
    match fault
    case KeyError(key) => "'" + key + "'"
    case IndexError(message) => message
    case DeviceError(message) => message
  }

  /** The time a step blocks its caller, in milliseconds: a move waits its
      duration plus a 100 ms settle margin on hardware and exactly its
      duration in simulation; the gripper always waits 500 ms. */
  function StepWait(step: Step, bound: bool): nat
  {
    match step
    case Say(_) => 0
    case MoveTo(_, duration) => if bound then duration + 100 else duration
    case Grip(_) => 500
  }

  /** The event a completed step leaves on the timeline. */
  function StepEvent(step: Step, bound: bool): (e: Event)
    requires bound && step.MoveTo? ==> |step.pose| >= 6
    ensures e.Said? <==> step.Say?
    ensures step.Say? ==> e.text == StatusText(step.phase)
    ensures e.Drove? ==> e.waitMs == StepWait(step, bound)
    ensures step.MoveTo? && bound ==> e.call == ServoWrite6(step.pose[..6], step.duration)
    ensures step.MoveTo? && !bound ==> e.call == SimMove(step.pose, step.duration)
    ensures step.Grip? && bound ==> e.call == ServoWrite(GRIPPER_SERVO, step.angle, GRAB_TIME)
    ensures step.Grip? && !bound ==> e.call == SimGripper(step.angle)
  {
    match step
    case Say(phase) => Said(StatusText(phase))
    case MoveTo(pose, duration) =>
      if bound then Drove(ServoWrite6(pose[..6], duration), duration + 100)
      else Drove(SimMove(pose, duration), duration)
    case Grip(angle) =>
      if bound then Drove(ServoWrite(GRIPPER_SERVO, angle, 500), 500)
      else Drove(SimGripper(angle), 500)
  }

  /** The timeline a list of steps leaves when every step completes. */
  function Realise(steps: seq<Step>, bound: bool): seq<Event>
    requires Drivable(steps)
  {
    seq(|steps|, i requires 0 <= i < |steps| => StepEvent(steps[i], bound))
  }

  lemma RealiseCons(steps: seq<Step>, k: nat, d: nat, bound: bool)
    requires Drivable(steps) && k < d <= |steps|
    ensures Realise(steps[k..d], bound) == [StepEvent(steps[k], bound)] + Realise(steps[k + 1..d], bound)
  {
  }

  /** The steps a pickup attempts: the whole choreography, or only the home
      stage when the station pose is too short to derive the approach pose. */
  function Planned(pickup: seq<int>): (steps: seq<Step>)
    ensures |steps| >= 3 && steps[..3] == HomeStage() && Drivable(steps)
  {
    if |pickup| >= 6 then Choreography(pickup) else HomeStage()
  }

  /** The planned steps of a full pickup, one by one. */
  lemma PlanAt(pickup: seq<int>)
    requires |pickup| >= 6
    ensures var plan := Planned(pickup);
      && |plan| == 16
      && plan[3] == Say(Reaching) && plan[4] == MoveTo(Approach(pickup), MOVE_TIME)
      && plan[5] == Say(Grabbing) && plan[6] == Grip(GRIPPER_CLOSE)
      && plan[7] == Say(Lifting) && plan[8] == MoveTo(Lift(pickup), MOVE_TIME)
      && plan[9] == Say(ToDropZone) && plan[10] == MoveTo(DropClosed(), MOVE_TIME)
      && plan[11] == Say(Dropping) && plan[12] == Grip(GRIPPER_OPEN)
      && plan[13] == Say(Returning) && plan[14] == MoveTo(POS_HOME, MOVE_TIME)
      && plan[15] == Say(Ready)
  {
    ChoreographySteps(pickup);
  }

  lemma ChoreographyDrivable(pickup: seq<int>)
    requires |pickup| >= 6
    ensures Drivable(Choreography(pickup))
  {
    ChoreographySteps(pickup);
  }

  /** Total time the events blocked their caller, in milliseconds. */
  function TotalWait(events: seq<Event>): nat
  {
    if events == [] then 0
    else (if events[0].Drove? then events[0].waitMs else 0) + TotalWait(events[1..])
  }

  lemma {:induction false} TotalWaitAppend(s: seq<Event>, t: seq<Event>)
    ensures TotalWait(s + t) == TotalWait(s) + TotalWait(t)
  {
    if s == [] {
      assert s + t == t;
    } else {
      assert (s + t)[1..] == s[1..] + t;
      TotalWaitAppend(s[1..], t);
    }
  }

  /** Total time a list of steps blocks its caller, in milliseconds. */
  function StepsWait(steps: seq<Step>, bound: bool): nat
  {
    if steps == [] then 0 else StepWait(steps[0], bound) + StepsWait(steps[1..], bound)
  }

  /** The timeline a step list leaves blocks exactly as long as its steps. */
  lemma {:induction false} WaitOfRealise(steps: seq<Step>, bound: bool)
    requires Drivable(steps)
    ensures TotalWait(Realise(steps, bound)) == StepsWait(steps, bound)
  {
    if steps != [] {
      assert Realise(steps, bound)[1..] == Realise(steps[1..], bound);
      WaitOfRealise(steps[1..], bound);
    }
  }

  lemma {:induction false} StepsWaitAppend(s: seq<Step>, t: seq<Step>, bound: bool)
    ensures StepsWait(s + t, bound) == StepsWait(s, bound) + StepsWait(t, bound)
  {
    if s == [] {
      assert s + t == t;
    } else {
      assert (s + t)[1..] == s[1..] + t;
      StepsWaitAppend(s[1..], t, bound);
    }
  }

  lemma WaitOfOne(step: Step, bound: bool)
    ensures StepsWait([step], bound) == StepWait(step, bound)
  {
    assert [step][1..] == [];
  }

  lemma WaitOfStage(phase: Phase, step: Step, bound: bool)
    ensures StepsWait(Stage(phase, [step]), bound) == StepWait(step, bound)
  {
    WaitOfOne(Say(phase), bound);
    WaitOfOne(step, bound);
    StepsWaitAppend([Say(phase)], [step], bound);
  }

  /** A whole pickup blocks its worker for 9.5 s on hardware (five moves of
      1500 + 100 ms, three 500 ms gripper settles) and for 9 s in simulation. */
  lemma PickupWait(pickup: seq<int>, bound: bool)
    requires |pickup| >= 6
    ensures Drivable(Choreography(pickup))
    ensures TotalWait(Realise(Choreography(pickup), bound)) == if bound then 9500 else 9000
  {
    ChoreographyDrivable(pickup);
    WaitOfRealise(Choreography(pickup), bound);
    var home := Stage(MovingHome, [MoveTo(POS_HOME, MOVE_TIME)]);
    var s1, s2 := HomeStage(), Stage(Reaching, [MoveTo(Approach(pickup), MOVE_TIME)]);
    var s3, s4 := Stage(Grabbing, [Grip(GRIPPER_CLOSE)]), Stage(Lifting, [MoveTo(Lift(pickup), MOVE_TIME)]);
    var s5, s6 := Stage(ToDropZone, [MoveTo(DropClosed(), MOVE_TIME)]), Stage(Dropping, [Grip(GRIPPER_OPEN)]);
    var s7, s8 := Stage(Returning, [MoveTo(POS_HOME, MOVE_TIME)]), Stage(Ready, []);
    assert s1 == home + [Grip(GRIPPER_OPEN)];
    WaitOfStage(MovingHome, MoveTo(POS_HOME, MOVE_TIME), bound);
    WaitOfOne(Grip(GRIPPER_OPEN), bound);
    StepsWaitAppend(home, [Grip(GRIPPER_OPEN)], bound);
    WaitOfStage(Reaching, MoveTo(Approach(pickup), MOVE_TIME), bound);
    WaitOfStage(Grabbing, Grip(GRIPPER_CLOSE), bound);
    WaitOfStage(Lifting, MoveTo(Lift(pickup), MOVE_TIME), bound);
    WaitOfStage(ToDropZone, MoveTo(DropClosed(), MOVE_TIME), bound);
    WaitOfStage(Dropping, Grip(GRIPPER_OPEN), bound);
    WaitOfStage(Returning, MoveTo(POS_HOME, MOVE_TIME), bound);
    WaitOfOne(Say(Ready), bound);
    assert s8 == [Say(Ready)];
    StepsWaitAppend(s1, s2, bound);
    StepsWaitAppend(s1 + s2, s3, bound);
    StepsWaitAppend(s1 + s2 + s3, s4, bound);
    StepsWaitAppend(s1 + s2 + s3 + s4, s5, bound);
    StepsWaitAppend(s1 + s2 + s3 + s4 + s5, s6, bound);
    StepsWaitAppend(s1 + s2 + s3 + s4 + s5 + s6, s7, bound);
    StepsWaitAppend(s1 + s2 + s3 + s4 + s5 + s6 + s7, s8, bound);
  }

  // ----- The driver -----

  /** The servo bus survives `writes` more writes: always in simulation,
      which never touches it, and on hardware while the bus has writes left. */
  predicate Survives(bound: bool, healthy: Option<nat>, writes: nat)
  {
    !bound || healthy.None? || healthy.value >= writes
  }

  /** The bus's remaining healthy writes once `writes` more have succeeded. */
  function Spend(bound: bool, healthy: Option<nat>, writes: nat): Option<nat>
    requires Survives(bound, healthy, writes)
  {
    if !bound || healthy.None? then healthy else Some(healthy.value - writes)
  }

  /** Surviving `a` writes and then `b` more is surviving `a + b`. */
  lemma SpendMore(bound: bool, healthy: Option<nat>, a: nat, b: nat)
    requires Survives(bound, healthy, a)
    ensures Survives(bound, Spend(bound, healthy, a), b) <==> Survives(bound, healthy, a + b)
    ensures Survives(bound, healthy, a + b) ==>
      Spend(bound, Spend(bound, healthy, a), b) == Spend(bound, healthy, a + b)
  {
  }

  /** How many bus writes a step makes when it reaches the device. */
  function StepWrites(step: Step): nat
  {
    if step.Say? then 0 else 1
  }

  /** How one step ends: a status text never fails; a move with fewer than
      six angles cannot index them on hardware; a write raises once the bus
      has no healthy writes left. */
  function StepOutcome(step: Step, bound: bool, healthy: Option<nat>, deviceError: string): Outcome
  {
    if !bound || step.Say? then Pass
    else if step.MoveTo? && |step.pose| < 6 then Fail(IndexError("list index out of range"))
    else if Survives(bound, healthy, 1) then Pass
    else Fail(DeviceError(deviceError))
  }

  /** The driver's four cases, as `move_arm` and `set_gripper` take them. */
  lemma DriverCases(step: Step, bound: bool, healthy: Option<nat>, deviceError: string)
    requires !step.Say?
    ensures var o := StepOutcome(step, bound, healthy, deviceError);
      && (!bound ==> o == Pass)
      && (bound && step.MoveTo? && |step.pose| < 6 ==> o == Fail(IndexError("list index out of range")))
      && (bound && (step.Grip? || |step.pose| >= 6) ==>
            (o.Pass? <==> healthy.None? || healthy.value > 0)
            && (o.Fail? ==> o == Fail(DeviceError(deviceError))))
  {
  }

  /** Where a run of steps stands: the outcome so far, how many steps
      completed, the bus's remaining healthy writes and the timeline. */
  datatype Run = Run(outcome: Outcome, done: nat, healthy: Option<nat>, log: Log)

  /** One more step: nothing happens once a step has failed; otherwise the
      step either fails, leaving everything as it was, or completes, spending
      its bus write and leaving its event on the timeline. */
  function StepRun(run: Run, step: Step, bound: bool, deviceError: string): Run
  {
    if run.outcome.Fail? then run
    else
      var outcome := StepOutcome(step, bound, run.healthy, deviceError);
      if outcome.Fail? then run.(outcome := outcome)
      else Run(Pass, run.done + 1, Spend(bound, run.healthy, StepWrites(step)), Then(run.log, StepEvent(step, bound)))
  }

  /** Runs the steps of `plan` from index `k` on, in order. */
  function RunFrom(plan: seq<Step>, k: nat, run: Run, bound: bool, deviceError: string): Run
    decreases |plan| - k
  {
    if k >= |plan| then run else RunFrom(plan, k + 1, StepRun(run, plan[k], bound, deviceError), bound, deviceError)
  }

  /** A failed run stays where it stopped. */
  lemma {:induction false} RunFromFailed(plan: seq<Step>, k: nat, run: Run, bound: bool, deviceError: string)
    requires run.outcome.Fail?
    ensures RunFrom(plan, k, run, bound, deviceError) == run
    decreases |plan| - k
  {
    if k < |plan| {
      RunFromFailed(plan, k + 1, run, bound, deviceError);
    }
  }

  /** The number of arm commands among `steps`. */
  function Commands(steps: seq<Step>): nat
  {
    if steps == [] then 0 else StepWrites(steps[0]) + Commands(steps[1..])
  }

  lemma {:induction false} CommandsAnnounced(steps: seq<Step>, current: Option<Phase>)
    ensures Commands(steps) == |Announced(steps, current)|
  {
    if steps != [] {
      CommandsAnnounced(steps[1..], if steps[0].Say? then Some(steps[0].phase) else current);
    }
  }

  /** From step `k` of a drivable plan, with every earlier step done: the
      rest completes exactly when the bus survives one write per remaining
      command, spending exactly those writes; what stops it is otherwise the
      device's own error. Simulation never touches the bus. */
  lemma {:induction false} RunFromDrivable(plan: seq<Step>, k: nat, run: Run, bound: bool, deviceError: string)
    requires Drivable(plan) && k <= |plan|
    requires run.outcome.Pass? && run.done == k
    ensures var last := RunFrom(plan, k, run, bound, deviceError);
      && k <= last.done <= |plan|
      && (last.outcome.Pass? <==> Survives(bound, run.healthy, Commands(plan[k..])))
      && (last.outcome.Pass? ==>
            last.done == |plan| && last.healthy == Spend(bound, run.healthy, Commands(plan[k..])))
      && (last.outcome.Fail? ==> last.done < |plan| && last.outcome.fault == DeviceError(deviceError))
      && (!bound ==> last.healthy == run.healthy)
    decreases |plan| - k
  {
    if k == |plan| {
      assert plan[k..] == [];
    } else {
      assert plan[k..][0] == plan[k];
      assert plan[k..][1..] == plan[k + 1..];
      var writes, rest := StepWrites(plan[k]), Commands(plan[k + 1..]);
      assert Commands(plan[k..]) == writes + rest;
      var next := StepRun(run, plan[k], bound, deviceError);
      if next.outcome.Pass? {
        SpendMore(bound, run.healthy, writes, rest);
        RunFromDrivable(plan, k + 1, next, bound, deviceError);
      } else {
        RunFromFailed(plan, k + 1, next, bound, deviceError);
      }
    }
  }

  /** From step `k` on, with every earlier step done, the timeline gains the
      events of the steps that complete, in order, and nothing else. */
  lemma {:induction false} RunFromEvents(plan: seq<Step>, k: nat, run: Run, bound: bool, deviceError: string)
    requires Drivable(plan) && k <= |plan|
    requires run.outcome.Pass? && run.done == k
    ensures var last := RunFrom(plan, k, run, bound, deviceError);
      && k <= last.done <= |plan|
      && Events(last.log) == Events(run.log) + Realise(plan[k..last.done], bound)
    decreases |plan| - k
  {
    if k == |plan| {
      assert Realise(plan[k..k], bound) == [];
    } else {
      var next := StepRun(run, plan[k], bound, deviceError);
      if next.outcome.Pass? {
        RunFromEvents(plan, k + 1, next, bound, deviceError);
        RealiseCons(plan, k, RunFrom(plan, k + 1, next, bound, deviceError).done, bound);
      } else {
        RunFromFailed(plan, k + 1, next, bound, deviceError);
        assert Realise(plan[k..k], bound) == [];
      }
    }
  }

  /** `run_pickup_sequence` as a whole: the planned steps run in order, and a
      station pose too short to set the approach's gripper slot raises once
      the home stage is done. */
  function Pickup(pickup: seq<int>, bound: bool, healthy: Option<nat>, log: Log, deviceError: string): Run
  {
    var run := RunFrom(Planned(pickup), 0, Run(Pass, 0, healthy, log), bound, deviceError);
    if run.outcome.Pass? && |pickup| < 6 then run.(outcome := Fail(IndexError("list assignment index out of range")))
    else run
  }

  /** The same pickup step by step, in the order the source takes it. */
  function PickupInOrder(pickup: seq<int>, bound: bool, healthy: Option<nat>, log: Log, deviceError: string): Run
  {
    var s0 := Run(Pass, 0, healthy, log);
    var s1 := StepRun(s0, Say(MovingHome), bound, deviceError);
    var s2 := StepRun(s1, MoveTo(POS_HOME, MOVE_TIME), bound, deviceError);
    var s3 := StepRun(s2, Grip(GRIPPER_OPEN), bound, deviceError);
    if s3.outcome.Fail? then s3
    else if |pickup| < 6 then s3.(outcome := Fail(IndexError("list assignment index out of range")))
    else
      var s4 := StepRun(s3, Say(Reaching), bound, deviceError);
      var s5 := StepRun(s4, MoveTo(Approach(pickup), MOVE_TIME), bound, deviceError);
      var s6 := StepRun(s5, Say(Grabbing), bound, deviceError);
      var s7 := StepRun(s6, Grip(GRIPPER_CLOSE), bound, deviceError);
      var s8 := StepRun(s7, Say(Lifting), bound, deviceError);
      var s9 := StepRun(s8, MoveTo(Lift(pickup), MOVE_TIME), bound, deviceError);
      var s10 := StepRun(s9, Say(ToDropZone), bound, deviceError);
      var s11 := StepRun(s10, MoveTo(DropClosed(), MOVE_TIME), bound, deviceError);
      var s12 := StepRun(s11, Say(Dropping), bound, deviceError);
      var s13 := StepRun(s12, Grip(GRIPPER_OPEN), bound, deviceError);
      var s14 := StepRun(s13, Say(Returning), bound, deviceError);
      var s15 := StepRun(s14, MoveTo(POS_HOME, MOVE_TIME), bound, deviceError);
      var s16 := StepRun(s15, Say(Ready), bound, deviceError);
      s16
  }

  lemma PickupInOrderRunsPlan(pickup: seq<int>, bound: bool, healthy: Option<nat>, log: Log, deviceError: string)
    ensures PickupInOrder(pickup, bound, healthy, log, deviceError) == Pickup(pickup, bound, healthy, log, deviceError)
  {
    var plan := Planned(pickup);
    var s0 := Run(Pass, 0, healthy, log);
    assert plan[..3] == HomeStage();
    var s1 := StepRun(s0, Say(MovingHome), bound, deviceError);
    assert RunFrom(plan, 0, s0, bound, deviceError) == RunFrom(plan, 1, s1, bound, deviceError);
    var s2 := StepRun(s1, MoveTo(POS_HOME, MOVE_TIME), bound, deviceError);
    assert RunFrom(plan, 1, s1, bound, deviceError) == RunFrom(plan, 2, s2, bound, deviceError);
    var s3 := StepRun(s2, Grip(GRIPPER_OPEN), bound, deviceError);
    assert RunFrom(plan, 2, s2, bound, deviceError) == RunFrom(plan, 3, s3, bound, deviceError);
    if s3.outcome.Fail? {
      RunFromFailed(plan, 3, s3, bound, deviceError);
    } else if |pickup| >= 6 {
      PlanAt(pickup);
      var s4 := StepRun(s3, Say(Reaching), bound, deviceError);
      assert RunFrom(plan, 3, s3, bound, deviceError) == RunFrom(plan, 4, s4, bound, deviceError);
      var s5 := StepRun(s4, MoveTo(Approach(pickup), MOVE_TIME), bound, deviceError);
      assert RunFrom(plan, 4, s4, bound, deviceError) == RunFrom(plan, 5, s5, bound, deviceError);
      var s6 := StepRun(s5, Say(Grabbing), bound, deviceError);
      assert RunFrom(plan, 5, s5, bound, deviceError) == RunFrom(plan, 6, s6, bound, deviceError);
      var s7 := StepRun(s6, Grip(GRIPPER_CLOSE), bound, deviceError);
      assert RunFrom(plan, 6, s6, bound, deviceError) == RunFrom(plan, 7, s7, bound, deviceError);
      var s8 := StepRun(s7, Say(Lifting), bound, deviceError);
      assert RunFrom(plan, 7, s7, bound, deviceError) == RunFrom(plan, 8, s8, bound, deviceError);
      var s9 := StepRun(s8, MoveTo(Lift(pickup), MOVE_TIME), bound, deviceError);
      assert RunFrom(plan, 8, s8, bound, deviceError) == RunFrom(plan, 9, s9, bound, deviceError);
      var s10 := StepRun(s9, Say(ToDropZone), bound, deviceError);
      assert RunFrom(plan, 9, s9, bound, deviceError) == RunFrom(plan, 10, s10, bound, deviceError);
      var s11 := StepRun(s10, MoveTo(DropClosed(), MOVE_TIME), bound, deviceError);
      assert RunFrom(plan, 10, s10, bound, deviceError) == RunFrom(plan, 11, s11, bound, deviceError);
      var s12 := StepRun(s11, Say(Dropping), bound, deviceError);
      assert RunFrom(plan, 11, s11, bound, deviceError) == RunFrom(plan, 12, s12, bound, deviceError);
      var s13 := StepRun(s12, Grip(GRIPPER_OPEN), bound, deviceError);
      assert RunFrom(plan, 12, s12, bound, deviceError) == RunFrom(plan, 13, s13, bound, deviceError);
      var s14 := StepRun(s13, Say(Returning), bound, deviceError);
      assert RunFrom(plan, 13, s13, bound, deviceError) == RunFrom(plan, 14, s14, bound, deviceError);
      var s15 := StepRun(s14, MoveTo(POS_HOME, MOVE_TIME), bound, deviceError);
      assert RunFrom(plan, 14, s14, bound, deviceError) == RunFrom(plan, 15, s15, bound, deviceError);
      var s16 := StepRun(s15, Say(Ready), bound, deviceError);
      assert RunFrom(plan, 15, s15, bound, deviceError) == RunFrom(plan, 16, s16, bound, deviceError);
    }
  }

  lemma HomeCommands()
    ensures Commands(HomeStage()) == 2
  {
    var home := HomeStage();
    assert home[1..][1..][1..] == [];
  }

  lemma ChoreographyCommandCount(pickup: seq<int>)
    requires |pickup| >= 6
    ensures Commands(Choreography(pickup)) == 8
  {
    CommandsAnnounced(Choreography(pickup), None);
    ChoreographyCommands(pickup);
  }

  /** A pickup completes, with all sixteen steps done and eight bus writes
      spent, exactly when the station pose has six slots and the bus
      survives eight writes. Otherwise it raises either the approach pose's
      index error, after the home stage's two writes, or the device's own
      error. Simulation never touches the bus. */
  lemma PickupOutcome(pickup: seq<int>, bound: bool, healthy: Option<nat>, log: Log, deviceError: string)
    ensures var run := Pickup(pickup, bound, healthy, log, deviceError);
      && (run.outcome.Pass? <==> |pickup| >= 6 && Survives(bound, healthy, 8))
      && (run.outcome.Pass? ==> run.done == 16 && run.healthy == Spend(bound, healthy, 8))
      && (run.outcome.Fail? ==>
            run.outcome.fault in {IndexError("list assignment index out of range"), DeviceError(deviceError)})
      && (run.outcome == Fail(IndexError("list assignment index out of range")) <==>
            |pickup| < 6 && Survives(bound, healthy, 2))
      && (run.outcome == Fail(IndexError("list assignment index out of range")) ==>
            run.done == 3 && run.healthy == Spend(bound, healthy, 2))
      && (run.outcome == Fail(DeviceError(deviceError)) ==> run.done < |Planned(pickup)|)
      && (!bound ==> run.healthy == healthy)
  {
    var plan := Planned(pickup);
    RunFromDrivable(plan, 0, Run(Pass, 0, healthy, log), bound, deviceError);
    assert plan[0..] == plan;
    if |pickup| >= 6 {
      ChoreographyCommandCount(pickup);
    } else {
      HomeCommands();
    }
  }

  /** What a pickup leaves on the timeline: the events of the planned steps
      that completed, in order, and nothing else. */
  lemma PickupTimeline(pickup: seq<int>, bound: bool, healthy: Option<nat>, log: Log, deviceError: string)
    ensures var run := Pickup(pickup, bound, healthy, log, deviceError);
      && run.done <= |Planned(pickup)|
      && Events(run.log) == Events(log) + Realise(Planned(pickup)[..run.done], bound)
  {
    var plan := Planned(pickup);
    RunFromEvents(plan, 0, Run(Pass, 0, healthy, log), bound, deviceError);
    var run := RunFrom(plan, 0, Run(Pass, 0, healthy, log), bound, deviceError);
    assert plan[0..run.done] == plan[..run.done];
  }

  /** The driver calls among `events`, in order. */
  function Calls(events: seq<Event>): seq<DriverCall>
  {
    if events == [] then []
    else (if events[0].Drove? then [events[0].call] else []) + Calls(events[1..])
  }

  lemma {:induction false} CallsAppend(s: seq<Event>, t: seq<Event>)
    ensures Calls(s + t) == Calls(s) + Calls(t)
  {
    if s == [] {
      assert s + t == t;
    } else {
      assert (s + t)[1..] == s[1..] + t;
      CallsAppend(s[1..], t);
    }
  }

  /** The driver calls of steps run one list after another. */
  lemma CallsOfAppend(s: seq<Step>, t: seq<Step>, bound: bool)
    requires Drivable(s) && Drivable(t)
    ensures Drivable(s + t)
    ensures Calls(Realise(s + t, bound)) == Calls(Realise(s, bound)) + Calls(Realise(t, bound))
  {
    assert Realise(s + t, bound) == Realise(s, bound) + Realise(t, bound);
    CallsAppend(Realise(s, bound), Realise(t, bound));
  }

  lemma CallsOfOne(step: Step, bound: bool)
    requires step.MoveTo? ==> |step.pose| >= 6
    ensures Drivable([step])
    ensures Calls(Realise([step], bound)) == if step.Say? then [] else [StepEvent(step, bound).call]
  {
    assert Realise([step], bound) == [StepEvent(step, bound)];
  }

  lemma CallsOfStage(phase: Phase, step: Step, bound: bool)
    requires (step.MoveTo? ==> |step.pose| >= 6) && !step.Say?
    ensures Drivable(Stage(phase, [step]))
    ensures Calls(Realise(Stage(phase, [step]), bound)) == [StepEvent(step, bound).call]
  {
    CallsOfOne(Say(phase), bound);
    CallsOfOne(step, bound);
    CallsOfAppend([Say(phase)], [step], bound);
  }

  /** The driver calls of the first four stages: home and open, approach, grab. */
  lemma OutwardCalls(pickup: seq<int>, bound: bool)
    requires |pickup| >= 6
    ensures var steps := HomeStage() + Stage(Reaching, [MoveTo(Approach(pickup), MOVE_TIME)])
      + Stage(Grabbing, [Grip(GRIPPER_CLOSE)]);
      && Drivable(steps)
      && Calls(Realise(steps, bound)) == [
        StepEvent(MoveTo(POS_HOME, MOVE_TIME), bound).call, StepEvent(Grip(GRIPPER_OPEN), bound).call,
        StepEvent(MoveTo(Approach(pickup), MOVE_TIME), bound).call, StepEvent(Grip(GRIPPER_CLOSE), bound).call]
  {
    var home := Stage(MovingHome, [MoveTo(POS_HOME, MOVE_TIME)]);
    var s1, s2 := HomeStage(), Stage(Reaching, [MoveTo(Approach(pickup), MOVE_TIME)]);
    var s3 := Stage(Grabbing, [Grip(GRIPPER_CLOSE)]);
    assert s1 == home + [Grip(GRIPPER_OPEN)];
    CallsOfStage(MovingHome, MoveTo(POS_HOME, MOVE_TIME), bound);
    CallsOfOne(Grip(GRIPPER_OPEN), bound);
    CallsOfAppend(home, [Grip(GRIPPER_OPEN)], bound);
    CallsOfStage(Reaching, MoveTo(Approach(pickup), MOVE_TIME), bound);
    CallsOfStage(Grabbing, Grip(GRIPPER_CLOSE), bound);
    CallsOfAppend(s1, s2, bound);
    CallsOfAppend(s1 + s2, s3, bound);
  }

  /** The driver calls of the last five stages: lift, drop zone, release, home, ready. */
  lemma ReturnCalls(pickup: seq<int>, bound: bool)
    requires |pickup| >= 6
    ensures var steps := Stage(Lifting, [MoveTo(Lift(pickup), MOVE_TIME)])
      + Stage(ToDropZone, [MoveTo(DropClosed(), MOVE_TIME)]) + Stage(Dropping, [Grip(GRIPPER_OPEN)])
      + Stage(Returning, [MoveTo(POS_HOME, MOVE_TIME)]) + Stage(Ready, []);
      && Drivable(steps)
      && Calls(Realise(steps, bound)) == [
        StepEvent(MoveTo(Lift(pickup), MOVE_TIME), bound).call, StepEvent(MoveTo(DropClosed(), MOVE_TIME), bound).call,
        StepEvent(Grip(GRIPPER_OPEN), bound).call, StepEvent(MoveTo(POS_HOME, MOVE_TIME), bound).call]
  {
    var s4 := Stage(Lifting, [MoveTo(Lift(pickup), MOVE_TIME)]);
    var s5, s6 := Stage(ToDropZone, [MoveTo(DropClosed(), MOVE_TIME)]), Stage(Dropping, [Grip(GRIPPER_OPEN)]);
    var s7, s8 := Stage(Returning, [MoveTo(POS_HOME, MOVE_TIME)]), Stage(Ready, []);
    CallsOfStage(Lifting, MoveTo(Lift(pickup), MOVE_TIME), bound);
    CallsOfStage(ToDropZone, MoveTo(DropClosed(), MOVE_TIME), bound);
    CallsOfStage(Dropping, Grip(GRIPPER_OPEN), bound);
    CallsOfStage(Returning, MoveTo(POS_HOME, MOVE_TIME), bound);
    assert s8 == [Say(Ready)];
    CallsOfOne(Say(Ready), bound);
    CallsOfAppend(s4, s5, bound);
    CallsOfAppend(s4 + s5, s6, bound);
    CallsOfAppend(s4 + s5 + s6, s7, bound);
    CallsOfAppend(s4 + s5 + s6 + s7, s8, bound);
  }

  /** The driver calls of a completed pickup: one per arm command, in order. */
  lemma ChoreographyCalls(pickup: seq<int>, bound: bool)
    requires |pickup| >= 6
    ensures Drivable(Choreography(pickup))
    ensures Calls(Realise(Choreography(pickup), bound)) == [
      StepEvent(MoveTo(POS_HOME, MOVE_TIME), bound).call, StepEvent(Grip(GRIPPER_OPEN), bound).call,
      StepEvent(MoveTo(Approach(pickup), MOVE_TIME), bound).call, StepEvent(Grip(GRIPPER_CLOSE), bound).call,
      StepEvent(MoveTo(Lift(pickup), MOVE_TIME), bound).call, StepEvent(MoveTo(DropClosed(), MOVE_TIME), bound).call,
      StepEvent(Grip(GRIPPER_OPEN), bound).call, StepEvent(MoveTo(POS_HOME, MOVE_TIME), bound).call]
  {
    var outward := HomeStage() + Stage(Reaching, [MoveTo(Approach(pickup), MOVE_TIME)])
      + Stage(Grabbing, [Grip(GRIPPER_CLOSE)]);
    var back := Stage(Lifting, [MoveTo(Lift(pickup), MOVE_TIME)])
      + Stage(ToDropZone, [MoveTo(DropClosed(), MOVE_TIME)]) + Stage(Dropping, [Grip(GRIPPER_OPEN)])
      + Stage(Returning, [MoveTo(POS_HOME, MOVE_TIME)]) + Stage(Ready, []);
    OutwardCalls(pickup, bound);
    ReturnCalls(pickup, bound);
    assert Choreography(pickup) == outward + back;
    CallsOfAppend(outward, back, bound);
  }

  /** On hardware, a pickup from a six-slot station pose with a bus that
      holds out makes exactly these eight bus writes, in order: home, open,
      the approach pose's six angles, close, lift, drop zone, open, home. */
  lemma PickupBusWrites(pickup: seq<int>, healthy: Option<nat>, log: Log, deviceError: string)
    requires |pickup| >= 6 && Survives(true, healthy, 8)
    ensures var run := Pickup(pickup, true, healthy, log, deviceError);
      && run.outcome.Pass?
      && Calls(Events(run.log)) == Calls(Events(log)) + [
        ServoWrite6(POS_HOME, MOVE_TIME), ServoWrite(GRIPPER_SERVO, GRIPPER_OPEN, GRAB_TIME),
        ServoWrite6(Approach(pickup)[..6], MOVE_TIME), ServoWrite(GRIPPER_SERVO, GRIPPER_CLOSE, GRAB_TIME),
        ServoWrite6(Lift(pickup), MOVE_TIME), ServoWrite6(DropClosed(), MOVE_TIME),
        ServoWrite(GRIPPER_SERVO, GRIPPER_OPEN, GRAB_TIME), ServoWrite6(POS_HOME, MOVE_TIME)]
  {
    CompletedPickupCalls(pickup, true, healthy, log, deviceError);
    ChoreographyCalls(pickup, true);
    assert POS_HOME[..6] == POS_HOME && Lift(pickup)[..6] == Lift(pickup) && DropClosed()[..6] == DropClosed();
  }

  /** In simulation, a pickup from a six-slot station pose logs exactly
      these eight driver lines, in order. */
  lemma PickupSimulationLog(pickup: seq<int>, healthy: Option<nat>, log: Log, deviceError: string)
    requires |pickup| >= 6
    ensures var run := Pickup(pickup, false, healthy, log, deviceError);
      && run.outcome.Pass?
      && Calls(Events(run.log)) == Calls(Events(log)) + [
        SimMove(POS_HOME, MOVE_TIME), SimGripper(GRIPPER_OPEN),
        SimMove(Approach(pickup), MOVE_TIME), SimGripper(GRIPPER_CLOSE),
        SimMove(Lift(pickup), MOVE_TIME), SimMove(DropClosed(), MOVE_TIME),
        SimGripper(GRIPPER_OPEN), SimMove(POS_HOME, MOVE_TIME)]
  {
    CompletedPickupCalls(pickup, false, healthy, log, deviceError);
    ChoreographyCalls(pickup, false);
  }

  lemma CompletedPickupCalls(pickup: seq<int>, bound: bool, healthy: Option<nat>, log: Log, deviceError: string)
    requires |pickup| >= 6 && Survives(bound, healthy, 8)
    ensures Drivable(Choreography(pickup))
    ensures var run := Pickup(pickup, bound, healthy, log, deviceError);
      && run.outcome.Pass?
      && Calls(Events(run.log)) == Calls(Events(log)) + Calls(Realise(Choreography(pickup), bound))
  {
    PickupOutcome(pickup, bound, healthy, log, deviceError);
    PickupTimeline(pickup, bound, healthy, log, deviceError);
    var plan := Planned(pickup);
    assert plan[..16] == plan;
    CallsAppend(Events(log), Realise(plan, bound));
  }

  /** Everything an observer sees, in order: the status line's texts and
      the driver's completed calls. */
  class Timeline {
    var log: Log

    constructor ()
      ensures log == Begin
    {
      log := Begin;
    }

    /** A text written to the status line. */
    method Say(text: string)
      modifies this
      ensures log == Then(old(log), Said(text))
    {
      log := Then(log, Said(text));
    }
  }

  class RoboticArmController {
    /** A servo device is bound (`self.Arm` is set); otherwise the driver simulates. */
    const bound: bool
    const timeline: Timeline
    /** The message of the exception the servo bus raises when a write fails. */
    const deviceError: string
    /** How many more writes the bus accepts before one raises; None: it never fails. */
    var healthyWrites: Option<nat>

    constructor (bound: bool, timeline: Timeline, healthyWrites: Option<nat>, deviceError: string)
      ensures this.bound == bound && this.timeline == timeline
      ensures this.healthyWrites == healthyWrites && this.deviceError == deviceError
    {
      this.bound := bound;
      this.timeline := timeline;
      this.healthyWrites := healthyWrites;
      this.deviceError := deviceError;
    }

    /** One write on the servo bus; false when the bus raises. */
    method BusWrite() returns (ok: bool)
      requires bound
      modifies this
      ensures ok == Survives(bound, old(healthyWrites), 1)
      ensures ok ==> healthyWrites == Spend(bound, old(healthyWrites), 1)
      ensures !ok ==> healthyWrites == old(healthyWrites)
    {
      match healthyWrites
      case None => ok := true;
      case Some(left) =>
        ok := left > 0;
        if ok {
          healthyWrites := Some(left - 1);
        }
    }

    /** `move_arm`: on hardware, writes all six servos and waits the duration
        plus 100 ms; in simulation, logs the move and waits the duration. */
    method MoveArm(angles: seq<int>, duration: nat) returns (r: Outcome)
      modifies this, timeline
      ensures r == StepOutcome(MoveTo(angles, duration), bound, old(healthyWrites), deviceError)
      ensures r.Pass? ==> (healthyWrites == Spend(bound, old(healthyWrites), 1)
        && timeline.log == Then(old(timeline.log), StepEvent(MoveTo(angles, duration), bound)))
      ensures r.Fail? ==> healthyWrites == old(healthyWrites) && timeline.log == old(timeline.log)
    {
      if bound {
        if |angles| < 6 {
          return Fail(IndexError("list index out of range"));
        }
        var ok := BusWrite();
        if !ok {
          return Fail(DeviceError(deviceError));
        }
        timeline.log := Then(timeline.log, Drove(ServoWrite6(angles[..6], duration), duration + 100));
      } else {
        timeline.log := Then(timeline.log, Drove(SimMove(angles, duration), duration));
      }
      r := Pass;
    }

    /** `set_gripper`: on hardware, writes servo 6 over 500 ms; in simulation,
        logs the angle; both wait 500 ms. */
    method SetGripper(angle: int) returns (r: Outcome)
      modifies this, timeline
      ensures r == StepOutcome(Grip(angle), bound, old(healthyWrites), deviceError)
      ensures r.Pass? ==> (healthyWrites == Spend(bound, old(healthyWrites), 1)
        && timeline.log == Then(old(timeline.log), StepEvent(Grip(angle), bound)))
      ensures r.Fail? ==> healthyWrites == old(healthyWrites) && timeline.log == old(timeline.log)
    {
      if bound {
        var ok := BusWrite();
        if !ok {
          return Fail(DeviceError(deviceError));
        }
        timeline.log := Then(timeline.log, Drove(ServoWrite(GRIPPER_SERVO, angle, 500), 500));
      } else {
        timeline.log := Then(timeline.log, Drove(SimGripper(angle), 500));
      }
      r := Pass;
    }

    /** One step of the pickup: a status text through the callback, or one
        driver command. `before` and `after` are where the pickup stands. */
    method Perform(step: Step, ghost before: Run) returns (r: Outcome, ghost after: Run)
      requires before.outcome == Pass && before.healthy == healthyWrites && before.log == timeline.log
      modifies this, timeline
      ensures after == StepRun(before, step, bound, deviceError)
      ensures r == after.outcome && healthyWrites == after.healthy && timeline.log == after.log
    {
      match step {
        case Say(phase) =>
          timeline.Say(StatusText(phase));
          r := Pass;
        case MoveTo(pose, duration) =>
          r := MoveArm(pose, duration);
        case Grip(angle) =>
          r := SetGripper(angle);
      }
      after := StepRun(before, step, bound, deviceError);
    }

    /** `run_pickup_sequence`: the eight announcements and eight arm commands
        of a pickup, in order. The first exception (a bus write that raises,
        or a station pose too short to index) aborts the remaining steps;
        `done` counts the steps that completed. */
    method RunPickupSequence(pickup: seq<int>) returns (r: Outcome, ghost done: nat)
      modifies this, timeline
      ensures Run(r, done, healthyWrites, timeline.log) ==
        Pickup(pickup, bound, old(healthyWrites), old(timeline.log), deviceError)
    {
      PickupInOrderRunsPlan(pickup, bound, healthyWrites, timeline.log, deviceError);
      ghost var run := Run(Pass, 0, healthyWrites, timeline.log);
      // 1. Start from home
      r, run := Perform(Say(MovingHome), run);
      r, run := Perform(MoveTo(POS_HOME, MOVE_TIME), run);
      if r.Fail? {
        return r, run.done;
      }
      r, run := Perform(Grip(GRIPPER_OPEN), run);
      if r.Fail? {
        return r, run.done;
      }
      // 2. Move to the fruit: setting target_pos[5] needs a sixth slot
      if |pickup| < 6 {
        return Fail(IndexError("list assignment index out of range")), run.done;
      }
      var targetPos := Approach(pickup);
      r, run := Perform(Say(Reaching), run);
      r, run := Perform(MoveTo(targetPos, MOVE_TIME), run);
      if r.Fail? {
        return r, run.done;
      }
      // 3. Grab
      r, run := Perform(Say(Grabbing), run);
      r, run := Perform(Grip(GRIPPER_CLOSE), run);
      if r.Fail? {
        return r, run.done;
      }
      // 4. Lift, keeping the base rotation
      var posLift := Lift(pickup);
      r, run := Perform(Say(Lifting), run);
      r, run := Perform(MoveTo(posLift, MOVE_TIME), run);
      if r.Fail? {
        return r, run.done;
      }
      // 5. To the drop zone, gripper still closed
      r, run := Perform(Say(ToDropZone), run);
      var dropPosClosed := DropClosed();
      r, run := Perform(MoveTo(dropPosClosed, MOVE_TIME), run);
      if r.Fail? {
        return r, run.done;
      }
      // 6. Release
      r, run := Perform(Say(Dropping), run);
      r, run := Perform(Grip(GRIPPER_OPEN), run);
      if r.Fail? {
        return r, run.done;
      }
      // 7. Back home
      r, run := Perform(Say(Returning), run);
      r, run := Perform(MoveTo(POS_HOME, MOVE_TIME), run);
      if r.Fail? {
        return r, run.done;
      }
      r, run := Perform(Say(Ready), run);
      done := run.done;
    }
  }
}
