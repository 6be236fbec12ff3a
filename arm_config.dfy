/** Configuration constants of the DofMarket arm: timings, gripper angles,
    the fixed poses and the station and price tables (DofMarket.py, lines 22-48). */
module ArmConfig {

  /** Nominal duration of every six-servo move, in milliseconds. */
  const MOVE_TIME: int := 1500
  /** Grab duration constant; the gripper driver hard-codes the same 500 ms. */
  const GRAB_TIME: int := 500
  const GRIPPER_OPEN: int := 40
  const GRIPPER_CLOSE: int := 138

  /** Servo channel the gripper is wired to. */
  const GRIPPER_SERVO: int := 6

  const POS_DROP: seq<int> := [90, 110, 0, 10, 90, GRIPPER_OPEN]
  const POS_HOME: seq<int> := [90, 130, 30, 0, 90, GRIPPER_OPEN]

  /** Pickup pose of each fruit station. */
  const FRUIT_STATIONS: map<string, seq<int>> := map[
    "apple"      := [65, 90, -15, 90, 90, GRIPPER_OPEN],
    "banana"     := [112, 72, 53, 46, 90, GRIPPER_OPEN],
    "kiwi"       := [112, 90, -15, 90, 90, GRIPPER_OPEN],
    "lemon"      := [90, 76, 51, 45, 90, GRIPPER_OPEN],
    "lychee"     := [87, 100, -25, 90, 90, GRIPPER_OPEN],
    "strawberry" := [65, 60, 70, 43, 90, GRIPPER_OPEN]
  ]

  /** Price of each fruit, in rupees. */
  const FRUIT_PRICES: map<string, int> := map[
    "apple"      := 20,
    "banana"     := 25,
    "kiwi"       := 30,
    "lemon"      := 40,
    "lychee"     := 50,
    "strawberry" := 60
  ]

  /** `FRUIT_PRICES.get(name, 0)`: the price charged for a pick request.
      A name with a station is charged its positive price; any other name
      is charged nothing. */
  function Price(name: string): (p: int)
    ensures p >= 0
    ensures p > 0 <==> name in FRUIT_STATIONS
  {
    if name in FRUIT_PRICES then FRUIT_PRICES[name] else 0
  }

  /** Every station pose has the six slots the servo write needs, with the
      gripper slot open, and the two tables name the same fruits. */
  lemma StationTablesAgree()
    ensures FRUIT_STATIONS.Keys == FRUIT_PRICES.Keys
    ensures forall name :: name in FRUIT_STATIONS ==>
      |FRUIT_STATIONS[name]| == 6 && FRUIT_STATIONS[name][5] == GRIPPER_OPEN
  {
  }
}
