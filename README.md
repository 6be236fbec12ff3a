# DofMarket in Dafny

DofMarket is a fruit shop run by a six-servo robotic arm. A customer clicks a
fruit; the application charges its price, and a background worker drives the
arm from its home pose to the fruit's station, grabs the fruit, lifts it,
carries it to the drop zone, releases it and returns home, announcing each
phase on the status line. Beside the controls, a camera feed is shown with the
boxes of a fruit detector that runs on every 30th frame.

This project models the core of `DofMarket.py`:

- `ArmConfig` (`arm_config.dfy`): the timing and gripper constants, the home
  and drop poses, the station and price tables, and the price lookup.
- `Motion` (`motion.dfy`): a pickup as a value, the ordered list of
  announcements, six-servo moves and gripper commands it issues, and the
  approach, lift and drop poses it derives from a station pose.
- `ArmController` (`arm_controller.dfy`): the `RoboticArmController` class.
  `move_arm`, `set_gripper` and `run_pickup_sequence` are methods on a
  controller whose servo bus may fail after a given number of writes. Status
  texts and completed driver calls go to one shared `Timeline`, so that their
  relative order can be observed. Each method is proved against the
  specification function `Pickup`, a fold of `StepRun` over the planned
  steps, and the lemmas about `Pickup` state what a pickup does.
- `Perception` (`perception.dfy`): the state that `update_video` keeps
  between frames, as a pure tick function with lemmas about sequences of
  ticks.
- `App` (`app.dfy`): the `DofMarketApp` class. It holds the busy flag, the
  running total, the started worker and the checkout, plus the camera tick
  as a method whose nested loops collect the detector's boxes. Beside the
  class, pure transition functions on a `Desk` value state what each handler
  does, and lemmas state the busy gate and the ledger.

A started worker thread is modelled as a pending request (`worker`) that
`RunWorker` carries out in one step. Where the source has a device, a clock
or a detector, the model takes it as a parameter:

- whether a servo device is bound;
- how many bus writes succeed before one raises, and that error's message;
- the time of each camera read;
- the detector function.

## Model

| member | source | states |
|---|---|---|
| `ArmConfig.Price` | DofMarket.py:41-48 | The price charged for a name is never negative, and it is positive exactly for the fruits that have a station; any other name is charged 0. |
| `ArmConfig.StationTablesAgree` | DofMarket.py:32-48 | The station and price tables name the same six fruits, and every station pose has six slots with the gripper slot open. |
| `Motion.Approach` | DofMarket.py:90-91 | The approach pose is the station pose with only slot 5 changed, to the open gripper angle. |
| `Motion.Lift` | DofMarket.py:101-102 | The lift pose keeps the station's base rotation, takes the home pose's four middle joints, and closes the gripper. |
| `Motion.DropClosed` | DofMarket.py:109-111 | The drop pose is `POS_DROP` with only the gripper slot changed, to the closed angle. |
| `Motion.Choreography` | DofMarket.py:84-121 | A pickup has sixteen steps, and it starts with the home stage. Every move in it has the six slots a servo write reads. |
| `Motion.ChoreographySteps` | DofMarket.py:84-121 | The pickup's steps, written out one by one in source order. |
| `Motion.ChoreographyStatuses` | DofMarket.py:85-121 | A pickup makes the eight status announcements in the source's order, ending with "Ready". |
| `Motion.ChoreographyCommands` | DofMarket.py:84-120 | A pickup issues exactly eight arm commands. Each command is paired with the announcement made just before it. |
| `Motion.ChoreographyKeepsGrip` | DofMarket.py:86-116 | No move changes the gripper slot from the angle the gripper holds, and the gripper ends open. |
| `Motion.AppleLift` | DofMarket.py:101-102 | For the apple station, the lift pose is `[65, 130, 30, 0, 90, 138]`. |
| `ArmController.StepEvent` | DofMarket.py:64-78 | A completed step leaves its event. An announcement leaves its status text. On hardware, a move writes the pose's first six angles with its duration, and a gripper command writes servo 6 over 500 ms. In simulation, a move logs the pose and duration, and a gripper command logs the angle. The wait is the step's settle time. |
| `ArmController.DriverCases` | DofMarket.py:64-78 | A driver command never fails in simulation. On hardware, a move with fewer than six angles raises an index error. Any other command fails exactly when the bus has no healthy write left, and then with the device's error. |
| `ArmController.Planned` | DofMarket.py:84-91 | A pickup attempts at least the three home steps before it first indexes the station pose, and every planned move is drivable. |
| `ArmController.PickupWait` | DofMarket.py:64-121 | A completed pickup blocks its worker for 9500 ms on hardware and 9000 ms in simulation. |
| `ArmController.ChoreographyCommandCount` | DofMarket.py:84-120 | A pickup makes eight bus writes. |
| `ArmController.RunFromDrivable` | DofMarket.py:80-121 | From any step on, the rest of a drivable plan completes exactly when the bus survives its remaining writes, and then spends exactly those writes. Otherwise it stops short with the device's error. Simulation never touches the bus. |
| `ArmController.RunFromEvents` | DofMarket.py:80-121 | From any step on, the timeline gains the events of exactly the steps that complete, in order. |
| `ArmController.PickupInOrderRunsPlan` | DofMarket.py:80-121 | The source's straight-line sequence, with its early exits, equals running the planned steps in order. |
| `ArmController.PickupOutcome` | DofMarket.py:80-121 | A pickup completes exactly when the station pose has six slots and the bus survives eight writes. A completed pickup has done all sixteen steps and spent eight writes. A short pose raises the assignment index error after the home stage, exactly when the bus survives the home stage's two writes. Any other failure is the device's error. |
| `ArmController.PickupTimeline` | DofMarket.py:80-121 | A pickup leaves on the timeline the events of the planned steps that completed, in order, and nothing else. |
| `ArmController.ChoreographyCalls` | DofMarket.py:84-120 | A completed pickup makes one driver call per arm command, in the source's order. |
| `ArmController.PickupBusWrites` | DofMarket.py:64-120 | On hardware, a pickup from a six-slot pose, with a bus that holds out, completes. It makes exactly eight bus writes, in order: home, open on servo 6, the approach pose's six angles, close, lift, drop zone, open, home. Every move is over 1500 ms and every gripper write over 500 ms. |
| `ArmController.PickupSimulationLog` | DofMarket.py:64-120 | In simulation, a pickup from a six-slot pose always completes. It logs exactly the eight moves and gripper angles of the pickup, in order. |
| `ArmController.Timeline.Say` | DofMarket.py:327-328 | A status text is appended to the timeline. |
| `ArmController.RoboticArmController.constructor` | DofMarket.py:56-62 | The controller is bound to a device or not, and starts with the given bus. |
| `ArmController.RoboticArmController.BusWrite` | DofMarket.py:66 | A bus write succeeds exactly when the bus has a healthy write left, and then spends one. |
| `ArmController.RoboticArmController.MoveArm` | DofMarket.py:64-70 | `move_arm` ends as the driver's cases say. When it completes, it spends one write and appends its event. When it raises, bus and timeline are unchanged. |
| `ArmController.RoboticArmController.SetGripper` | DofMarket.py:72-78 | `set_gripper` ends as the driver's cases say. When it completes, it spends one write and appends its event. When it raises, bus and timeline are unchanged. |
| `ArmController.RoboticArmController.Perform` | DofMarket.py:85-121 | One step of the sequence (a status callback or a driver command) moves the controller's state exactly as `StepRun` says. |
| `ArmController.RoboticArmController.RunPickupSequence` | DofMarket.py:80-121 | `run_pickup_sequence` ends with the outcome, step count, bus and timeline that `Pickup` gives for the old state. |
| `Perception.Flatten` | DofMarket.py:359-369 | The collected detections are exactly the boxes of the detector's results: every box is collected, and nothing else is. |
| `Perception.Tick` | DofMarket.py:347-386 | A failed read changes nothing. A frame advances the counter and the frame time. It takes the FPS guard's zero branch exactly when the clock did not advance, and otherwise records the frame interval. On a detection frame with a model loaded it replaces the detections with the new boxes, and otherwise it keeps them. |
| `Perception.TicksCount` | DofMarket.py:347-378 | Over any sequence of reads, the frame counter counts exactly the successful reads. |
| `Perception.DetectionsPersist` | DofMarket.py:349-372 | Between detection frames, or with no model loaded, the boxes shown stay the same. |
| `Perception.NoMerge` | DofMarket.py:351-369 | A detector run replaces the detections wholesale; the boxes shown before it play no part. |
| `Perception.OneRunPerThirty` | DofMarket.py:349-378 | Thirty successful reads from a detection frame, with a model loaded, run the detector on the first read only: none of the other twenty-nine is a detection frame. They end showing the boxes found in the first frame, and the next read is a detection frame again. |
| `App.BusyGate` | DofMarket.py:292-302 | A click while busy changes nothing. A click while idle takes the busy flag, disables the buttons and starts a worker for that fruit, leaving the total alone. |
| `App.DoubleClick` | DofMarket.py:292-302 | A second click before the worker has run is ignored, whichever fruit it names. |
| `App.ConsistentKept` | DofMarket.py:251-325 | Every handler keeps the desk consistent: a started worker holds the busy flag with the buttons disabled, and the total is never negative. A worker that has run leaves the shop idle. |
| `App.CheckoutSeals` | DofMarket.py:251-253 | Checkout with no worker in flight leaves the shop busy for good: clicks, resets and further checkouts keep it closed. |
| `App.CheckoutDuringPick` | DofMarket.py:251-325 | A worker in flight at checkout still runs, and its `finally` clears the busy flag that checkout set. |
| `App.ShopCharges` | DofMarket.py:304-325 | From an idle shop, picking fruit one after another adds exactly their prices to the total and leaves the shop idle. |
| `App.UnknownFruit` | DofMarket.py:304-325 | A name without a station shows "Picking …" and then the quoted key error, and it touches neither the arm nor the bus. |
| `App.KnownFruit` | DofMarket.py:304-325 | For a known fruit, the status line shows the pick first, then the completed pickup steps. A fault appears only if the bus gives out, as the device's own error. The pickup completes exactly when the bus survives eight writes. |
| `App.DofMarketApp.constructor` | DofMarket.py:139-249 | The shop opens idle, with a zero total, enabled buttons and an empty video state, and the status line reads "System Ready". |
| `App.DofMarketApp.StartPickThread` | DofMarket.py:292-302 | `start_pick_thread` moves the desk as `AfterStart` says and keeps the shop consistent and, once sealed, sealed. |
| `App.DofMarketApp.PickLogic` | DofMarket.py:304-325 | `pick_logic` charges the price and then releases the busy flag and buttons. Arm and status line end as `PickRun` says: the pick announcement, the pickup, and the error text of any fault. |
| `App.DofMarketApp.RunWorker` | DofMarket.py:302-325 | The started worker runs `pick_logic` for its fruit and leaves the shop consistent. |
| `App.DofMarketApp.ResetCost` | DofMarket.py:286-290 | `reset_cost` zeroes the total and shows "Cost Reset", leaving everything else as it was. |
| `App.DofMarketApp.ShowCheckoutScreen` | DofMarket.py:251-257 | Checkout takes the busy flag and closes the shop. With no worker in flight, the shop is then sealed. |
| `App.DofMarketApp.UpdateVideo` | DofMarket.py:342-387 | One camera read moves the video state exactly as `Tick` says. Once the camera is released at checkout, every read counts as failed. |

## Left out

- The Tk window and its widgets are not modelled: layout, colours, the
  messagebox warning of a busy click, the cost and FPS labels' text, drawing
  boxes, colour conversion and image resizing. The button state is one flag.
- Threads and `root.after` are not modelled. A worker runs in one step
  (`RunWorker`). Interleavings of a worker with the main thread are not
  covered, including the unsynchronised update of `total_cost` from both
  threads.
- `time.sleep` is recorded as the wait of each driver event, not as elapsed
  time. The constructor's 100 ms settle after binding the device is left out.
- `print` output is not modelled, except the simulation lines, which stand
  for the driver calls in simulation mode.
- The servo bus, the camera, the clock and the detector are parameters. A bus
  failure is one exception whose message the model takes as given. Model
  loading and the detector's thresholds are not modelled, nor how a box is
  converted to integer corners or how its label is formatted.
- Perception.Tick: the FPS label keeps the frame interval, not the float
  `1 / interval` truncated by `int`. The value the source displays is also 0
  whenever the interval is a second or more. That includes the first frame,
  because the previous frame time starts at 0 while the clock counts seconds
  since the epoch. Clock readings are integers.
- App.DofMarketApp.constructor: the first `update_video` call at the end of
  the constructor, and the self-rescheduling every 10 ms, are not modelled.
  `UpdateVideo` models one call.
- App.DofMarketApp.ShowCheckoutScreen: destroying the widgets and drawing
  the thank-you screen are not modelled. The released camera is the
  `checkedOut` flag, which makes later reads fail. `on_close` is not part of
  this model.
- ArmController.RoboticArmController.MoveArm: the duration is a natural
  number, so a negative sleep (which Python would reject) is not modelled.
- App.UnknownFruit: the key error's text is the name in single quotes.
  Python's escaping of quotes inside the name is not modelled.
- An unknown fruit name can only reach `pick_logic` through a caller other
  than the buttons. The code charges it `FRUIT_PRICES.get(name, 0)`, i.e. 0,
  and then raises on the station lookup. The model follows the code.
- Checkout sets `is_busy` but does not stop a worker in flight. The worker's
  `finally` later clears the flag, and the model follows the code
  (`App.CheckoutDuringPick`).
