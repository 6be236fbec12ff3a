/** `DofMarketApp` (DofMarket.py, lines 125-409), reduced to what its
    handlers decide: the busy flag that admits one pick at a time, the
    running total, the worker that performs a pick, the checkout, and the
    camera tick's state. The window, its widgets and the thread machinery
    are left out; a started worker is a pending request that `RunWorker`
    carries out in one step. */
module App {
  import opened Opt
  import opened ArmConfig
  import opened ArmController
  import opened Perception

  // ----- The desk: busy flag, ledger, worker, checkout -----

  /** The handlers' state: `is_busy`, `total_cost`, whether the fruit buttons
      are enabled, the fruit of a started worker that has not yet run, and
      whether the checkout screen has replaced the shop. */
  datatype Desk = Desk(isBusy: bool, totalCost: int, buttonsEnabled: bool, worker: Option<string>, checkedOut: bool)

  /** A worker in flight holds the busy flag with the buttons disabled, and
      the total is never negative. */
  predicate Consistent(desk: Desk)
  {
    && (desk.worker.Some? ==> desk.isBusy && !desk.buttonsEnabled)
    && desk.totalCost >= 0
  }

  /** Checked out with no worker in flight: the shop stays closed. */
  predicate Sealed(desk: Desk)
  {
    desk.checkedOut && desk.isBusy && desk.worker.None?
  }

  /** `start_pick_thread`: ignored while busy; otherwise takes the busy
      flag, disables the buttons and starts a worker for the fruit. */
  function AfterStart(desk: Desk, name: string): Desk
  {
    if desk.isBusy then desk
    else desk.(isBusy := true, buttonsEnabled := false, worker := Some(name))
  }

  /** `pick_logic`'s bookkeeping: the fruit's price (0 for an unknown name)
      is added first, and the `finally` clears the busy flag and re-enables
      the buttons however the pickup ended. */
  function AfterPick(desk: Desk, name: string): Desk
  {
    desk.(totalCost := desk.totalCost + Price(name), isBusy := false, buttonsEnabled := true)
  }

  /** The started worker runs to its end. */
  function AfterWorker(desk: Desk): Desk
    requires desk.worker.Some?
  {
    AfterPick(desk.(worker := None), desk.worker.value)
  }

  /** `reset_cost`. */
  function AfterReset(desk: Desk): Desk
  {
    desk.(totalCost := 0)
  }

  /** `show_checkout_screen`: takes the busy flag and closes the shop. */
  function AfterCheckout(desk: Desk): Desk
  {
    desk.(isBusy := true, checkedOut := true)
  }

  /** A click while busy changes nothing; a click while idle hands the
      fruit to a new worker and leaves the total alone. */
  lemma BusyGate(desk: Desk, name: string)
    ensures desk.isBusy ==> AfterStart(desk, name) == desk
    ensures !desk.isBusy ==> (var after := AfterStart(desk, name);
      after.isBusy && !after.buttonsEnabled && after.worker == Some(name)
      && after.totalCost == desk.totalCost && after.checkedOut == desk.checkedOut)
  {
  }

  /** The lock against double clicks: a second click before the worker has
      run is ignored, whichever fruit it names. */
  lemma DoubleClick(desk: Desk, first: string, second: string)
    ensures AfterStart(AfterStart(desk, first), second) == AfterStart(desk, first)
  {
  }

  /** Every handler keeps the desk consistent. */
  lemma ConsistentKept(desk: Desk, name: string)
    requires Consistent(desk)
    ensures Consistent(AfterStart(desk, name))
    ensures Consistent(AfterReset(desk))
    ensures Consistent(AfterCheckout(desk))
    ensures desk.worker.Some? ==> Consistent(AfterWorker(desk)) && !AfterWorker(desk).isBusy
  {
  }

  /** Checking out with no worker in flight closes the shop for good: no
      handler reopens it, and no worker is left to clear the busy flag. */
  lemma CheckoutSeals(desk: Desk, name: string)
    ensures desk.worker.None? ==> Sealed(AfterCheckout(desk))
    ensures Sealed(desk) ==> Sealed(AfterStart(desk, name)) && Sealed(AfterReset(desk)) && Sealed(AfterCheckout(desk))
  {
  }

  /** Checkout does not stop a worker already in flight: when it ends, its
      `finally` clears the busy flag that checkout set. */
  lemma CheckoutDuringPick(desk: Desk)
    requires desk.worker.Some?
    ensures AfterCheckout(desk).worker.Some? && !AfterWorker(AfterCheckout(desk)).isBusy
  {
  }

  /** The prices of a list of fruit, unknown names counting 0. */
  function Bill(names: seq<string>): int
  {
    if names == [] then 0 else Price(names[0]) + Bill(names[1..])
  }

  /** Clicks on each fruit in turn, each worker running before the next click. */
  function Shop(desk: Desk, names: seq<string>): Desk
    decreases |names|
  {
    if names == [] then desk
    else
      var started := AfterStart(desk, names[0]);
      Shop(if started.worker.Some? then AfterWorker(started) else started, names[1..])
  }

  /** From an idle desk, picking fruit one after another charges exactly
      their prices, and the desk is idle again afterwards. */
  lemma {:induction false} ShopCharges(desk: Desk, names: seq<string>)
    requires !desk.isBusy && desk.worker.None?
    ensures Shop(desk, names).totalCost == desk.totalCost + Bill(names)
    ensures !Shop(desk, names).isBusy && Shop(desk, names).worker.None?
    decreases |names|
  {
    if names != [] {
      ShopCharges(AfterWorker(AfterStart(desk, names[0])), names[1..]);
    }
  }

  // ----- The worker's effect on the arm and the status line -----

  /** The status text a pick shows when it starts. */
  function PickingText(name: string): string
  {
    "Picking " + name + "..."
  }

  /** The status text of a fault: `Error: ` and `str(e)`. */
  function ErrorText(fault: Fault): string
  {
    "Error: " + FaultText(fault)
  }

  /** What `pick_logic` does to the arm and the status line: it announces the
      pick, looks up the station (an unknown name raises a key error before
      any arm command), runs the pickup, and shows the error of a fault. */
  function PickRun(name: string, bound: bool, healthy: Option<nat>, log: Log, deviceError: string): Run
  {
    var picking := Then(log, Said(PickingText(name)));
    if name !in FRUIT_STATIONS then
      Run(Fail(KeyError(name)), 0, healthy, Then(picking, Said(ErrorText(KeyError(name)))))
    else
      var run := Pickup(FRUIT_STATIONS[name], bound, healthy, picking, deviceError);
      if run.outcome.Fail? then run.(log := Then(run.log, Said(ErrorText(run.outcome.fault))))
      else run
  }

  /** An unknown fruit shows the pick and then the key error, quoted, and
      touches neither the arm nor the bus. */
  lemma UnknownFruit(name: string, bound: bool, healthy: Option<nat>, log: Log, deviceError: string)
    requires name !in FRUIT_STATIONS
    ensures var run := PickRun(name, bound, healthy, log, deviceError);
      && Events(run.log) == Events(log) + [Said("Picking " + name + "..."), Said("Error: '" + name + "'")]
      && run.healthy == healthy
  {
    var picking := Said("Picking " + name + "...");
    var error := Said("Error: '" + name + "'");
    assert ErrorText(KeyError(name)) == "Error: '" + name + "'" by {
      assert "Error: " + "'" == "Error: '";
    }
    assert Events(log) + [picking] + [error] == Events(log) + [picking, error];
  }

  /** A known fruit shows the pick, then the completed steps of its pickup,
      then, only if the pickup faulted, the fault; it faults exactly when
      the bus gives out, with the device's own error. */
  lemma KnownFruit(name: string, bound: bool, healthy: Option<nat>, log: Log, deviceError: string)
    requires name in FRUIT_STATIONS
    ensures var run := PickRun(name, bound, healthy, log, deviceError);
      var steps := Planned(FRUIT_STATIONS[name]);
      && run.done <= |steps|
      && (run.outcome.Pass? <==> Survives(bound, healthy, 8))
      && (run.outcome.Pass? ==>
            Events(run.log) == Events(log) + [Said(PickingText(name))] + Realise(steps, bound))
      && (run.outcome.Fail? ==>
            && run.outcome == Fail(DeviceError(deviceError))
            && Events(run.log) == Events(log) + [Said(PickingText(name))] + Realise(steps[..run.done], bound)
                                   + [Said("Error: " + deviceError)])
  {
    var pickup := FRUIT_STATIONS[name];
    var picking := Then(log, Said(PickingText(name)));
    StationTablesAgree();
    PickupOutcome(pickup, bound, healthy, picking, deviceError);
    PickupTimeline(pickup, bound, healthy, picking, deviceError);
    ChoreographyDrivable(pickup);
    assert Planned(pickup)[..16] == Planned(pickup);
  }

  // ----- The application -----

  class DofMarketApp {
    const arm: RoboticArmController
    /** The detector; None when the model failed to load. */
    const model: Option<Detector>
    var isBusy: bool
    var totalCost: int
    var buttonsEnabled: bool
    var worker: Option<string>
    var checkedOut: bool
    var frameCount: nat
    var lastDetections: seq<Detection>
    var prevFrameTime: int
    var fps: FpsLabel

    function DeskState(): Desk
      reads this
    {
      Desk(isBusy, totalCost, buttonsEnabled, worker, checkedOut)
    }

    function FeedState(): Feed
      reads this
    {
      Feed(frameCount, lastDetections, prevFrameTime, fps)
    }

    ghost predicate Valid()
      reads this
    {
      Consistent(DeskState())
    }

    /** The shop opens idle with a zero total and an empty video state, and
        the status line reads "System Ready". */
    constructor (arm: RoboticArmController, model: Option<Detector>)
      modifies arm.timeline
      ensures this.arm == arm && this.model == model && Valid()
      ensures DeskState() == Desk(false, 0, true, None, false)
      ensures FeedState() == Feed(0, [], 0, Blank)
      ensures arm.timeline.log == Then(old(arm.timeline.log), Said("System Ready"))
    {
      this.arm := arm;
      this.model := model;
      isBusy := false;
      totalCost := 0;
      buttonsEnabled := true;
      worker := None;
      checkedOut := false;
      frameCount := 0;
      lastDetections := [];
      prevFrameTime := 0;
      fps := Blank;
      new;
      arm.timeline.Say("System Ready");
    }

    /** `start_pick_thread`. */
    method StartPickThread(name: string)
      requires Valid()
      modifies this
      ensures Valid()
      ensures DeskState() == AfterStart(old(DeskState()), name)
      ensures FeedState() == old(FeedState())
      ensures old(Sealed(DeskState())) ==> Sealed(DeskState())
    {
      if isBusy {
        return;
      }
      isBusy := true;
      buttonsEnabled := false;
      worker := Some(name);
      ConsistentKept(old(DeskState()), name);
    }

    /** `pick_logic`: charge first, announce, look up the station, run the
        pickup, show any fault, and always release the busy flag. */
    method PickLogic(name: string)
      modifies this, arm, arm.timeline
      ensures DeskState() == AfterPick(old(DeskState()), name)
      ensures FeedState() == old(FeedState())
      ensures var run := PickRun(name, arm.bound, old(arm.healthyWrites), old(arm.timeline.log), arm.deviceError);
        arm.healthyWrites == run.healthy && arm.timeline.log == run.log
    {
      var price := Price(name);
      totalCost := totalCost + price;
      arm.timeline.Say(PickingText(name));
      if name in FRUIT_STATIONS {
        var angles := FRUIT_STATIONS[name];
        var r: Outcome;
        ghost var done: nat;
        r, done := arm.RunPickupSequence(angles);
        if r.Fail? {
          arm.timeline.Say(ErrorText(r.fault));
        }
      } else {
        arm.timeline.Say(ErrorText(KeyError(name)));
      }
      isBusy := false;
      buttonsEnabled := true;
    }

    /** The started worker runs `pick_logic` for its fruit. */
    method RunWorker()
      requires Valid() && worker.Some?
      modifies this, arm, arm.timeline
      ensures Valid()
      ensures DeskState() == AfterWorker(old(DeskState()))
      ensures FeedState() == old(FeedState())
      ensures var run := PickRun(old(worker.value), arm.bound, old(arm.healthyWrites), old(arm.timeline.log), arm.deviceError);
        arm.healthyWrites == run.healthy && arm.timeline.log == run.log
    {
      var name := worker.value;
      worker := None;
      PickLogic(name);
      ConsistentKept(old(DeskState()), name);
    }

    /** `reset_cost`. */
    method ResetCost()
      requires Valid()
      modifies this, arm.timeline
      ensures Valid()
      ensures DeskState() == AfterReset(old(DeskState()))
      ensures FeedState() == old(FeedState())
      ensures arm.timeline.log == Then(old(arm.timeline.log), Said("Cost Reset"))
      ensures old(Sealed(DeskState())) ==> Sealed(DeskState())
    {
      totalCost := 0;
      arm.timeline.Say("Cost Reset");
      ConsistentKept(old(DeskState()), "");
    }

    /** `show_checkout_screen`, as far as the busy flag goes; the camera is
        released, so later reads fail. */
    method ShowCheckoutScreen()
      requires Valid()
      modifies this
      ensures Valid()
      ensures DeskState() == AfterCheckout(old(DeskState()))
      ensures FeedState() == old(FeedState())
      ensures old(worker.None?) ==> Sealed(DeskState())
    {
      isBusy := true;
      checkedOut := true;
      ConsistentKept(old(DeskState()), "");
      CheckoutSeals(old(DeskState()), "");
    }

    /** `update_video` on one camera read taken at time `now`: a failed read
        (always, once the camera is released) changes nothing; otherwise the
        detector reruns on every 30th frame, its boxes collected result by
        result, and the counter, FPS label and frame time advance. */
    method UpdateVideo(read: Option<Frame>, now: int)
      modifies this
      ensures Tick(old(FeedState()), Reading(if old(checkedOut) then None else read, now), model) == FeedState()
      ensures DeskState() == old(DeskState())
    {
      var frame := if checkedOut then None else read;
      if frame.Some? {
        if model.Some? && frameCount % SKIP_FRAMES == 0 {
          var results := model.value(frame.value);
          lastDetections := [];
          var i := 0;
          while i < |results|
            invariant 0 <= i <= |results|
            invariant lastDetections == Flatten(results[..i])
            invariant DeskState() == old(DeskState())
            invariant frameCount == old(frameCount) && prevFrameTime == old(prevFrameTime)
          {
            var boxes := results[i];
            var j := 0;
            while j < |boxes|
              invariant 0 <= j <= |boxes|
              invariant lastDetections == Flatten(results[..i]) + boxes[..j]
              invariant DeskState() == old(DeskState())
              invariant frameCount == old(frameCount) && prevFrameTime == old(prevFrameTime)
            {
              lastDetections := lastDetections + [boxes[j]];
              j := j + 1;
            }
            assert boxes[..j] == boxes;
            FlattenSnoc(results[..i], boxes);
            assert results[..i + 1] == results[..i] + [boxes];
            i := i + 1;
          }
          assert results[..i] == results;
        }
        frameCount := frameCount + 1;
        var newFrameTime := now;
        if newFrameTime - prevFrameTime > 0 {
          fps := Rate(newFrameTime - prevFrameTime);
        } else {
          fps := Zero;
        }
        prevFrameTime := newFrameTime;
      }
    }
  }
}
