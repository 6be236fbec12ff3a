/** The camera tick of `DofMarketApp.update_video` (DofMarket.py, lines
    342-401), reduced to the state it keeps between frames: the frame
    counter, the detections drawn on every frame, the previous frame's time
    and what the FPS label shows. The camera, the clock and the detector are
    inputs; drawing, colour conversion and the label's float are left out. */
module Perception {
  import opened Opt

  /** The detector runs on every 30th successful frame. */
  const SKIP_FRAMES: nat := 30

  /** A detection box in pixel corners, as `box.xyxy` gives it. */
  datatype Box = Box(x1: int, y1: int, x2: int, y2: int)

  /** One box with its label text (class name and confidence). */
  datatype Detection = Detection(box: Box, labelText: string)

  /** A camera frame, kept abstract. */
  type Frame = seq<int>

  /** The detector: for a frame, its results, each a list of boxes. */
  type Detector = Frame -> seq<seq<Detection>>

  /** What the FPS label shows: nothing before the first frame, 0 when the
      clock did not advance, otherwise the rate of one frame per `interval`. */
  datatype FpsLabel = Blank | Zero | Rate(interval: int)

  /** The state one tick reads and writes. */
  datatype Feed = Feed(frameCount: nat, detections: seq<Detection>, prevTime: int, fps: FpsLabel)

  /** One camera read: a frame, or nothing when the read fails, and the
      clock at that moment. */
  datatype Reading = Reading(frame: Option<Frame>, now: int)

  /** Every box of every result, results in order and boxes in order within each. */
  function Flatten(results: seq<seq<Detection>>): (all: seq<Detection>)
    ensures forall i, j :: 0 <= i < |results| && 0 <= j < |results[i]| ==> results[i][j] in all
    ensures forall d :: d in all ==> exists i :: 0 <= i < |results| && d in results[i]
  {
    if results == [] then []
    else Flatten(results[..|results| - 1]) + results[|results| - 1]
  }

  /** Flattening one more result appends its boxes. */
  lemma FlattenSnoc(results: seq<seq<Detection>>, boxes: seq<Detection>)
    ensures Flatten(results + [boxes]) == Flatten(results) + boxes
  {
    assert (results + [boxes])[..|results|] == results;
  }

  /** `update_video` on one read: a failed read changes nothing; a frame
      advances the counter by one, re-runs the detector on every 30th frame
      when a model is loaded (replacing the old detections outright) and
      otherwise keeps them, and records the frame's time. */
  function Tick(feed: Feed, reading: Reading, model: Option<Detector>): (next: Feed)
    ensures reading.frame.None? ==> next == feed
    ensures reading.frame.Some? ==> next.frameCount == feed.frameCount + 1 && next.prevTime == reading.now
    ensures reading.frame.Some? ==> (next.fps == Zero <==> reading.now - feed.prevTime <= 0)
    ensures reading.frame.Some? && reading.now - feed.prevTime > 0 ==> next.fps == Rate(reading.now - feed.prevTime)
    ensures reading.frame.Some? && model.Some? && Detects(feed) ==>
      next.detections == Flatten(model.value(reading.frame.value))
    ensures !(reading.frame.Some? && model.Some? && Detects(feed)) ==> next.detections == feed.detections
  {
    match reading.frame
    case None => feed
    case Some(frame) =>
      var detections :=
        if model.Some? && Detects(feed) then Flatten(model.value(frame)) else feed.detections;
      var fps := if reading.now - feed.prevTime > 0 then Rate(reading.now - feed.prevTime) else Zero;
      Feed(feed.frameCount + 1, detections, reading.now, fps)
  }

  /** The detector runs on this tick's frame, if there is one. */
  predicate Detects(feed: Feed)
  {
    feed.frameCount % SKIP_FRAMES == 0
  }

  /** A sequence of ticks. */
  function Ticks(feed: Feed, readings: seq<Reading>, model: Option<Detector>): Feed
    decreases |readings|
  {
    if readings == [] then feed
    else Ticks(Tick(feed, readings[0], model), readings[1..], model)
  }

  /** The number of successful reads. */
  function Frames(readings: seq<Reading>): nat
  {
    if readings == [] then 0
    else (if readings[0].frame.Some? then 1 else 0) + Frames(readings[1..])
  }

  /** The counter counts successful reads and nothing else. */
  lemma {:induction false} TicksCount(feed: Feed, readings: seq<Reading>, model: Option<Detector>)
    ensures Ticks(feed, readings, model).frameCount == feed.frameCount + Frames(readings)
    ensures Frames(readings) == 0 ==> Ticks(feed, readings, model) == feed
    decreases |readings|
  {
    if readings != [] {
      TicksCount(Tick(feed, readings[0], model), readings[1..], model);
    }
  }

  /** Between detector runs the boxes persist: if none of the counter values
      the successful reads see is a multiple of 30 (or no model is loaded),
      the detections at the end are the ones at the start. */
  lemma {:induction false} DetectionsPersist(feed: Feed, readings: seq<Reading>, model: Option<Detector>)
    requires model.None? ||
      forall n :: feed.frameCount <= n < feed.frameCount + Frames(readings) ==> n % SKIP_FRAMES != 0
    ensures Ticks(feed, readings, model).detections == feed.detections
    decreases |readings|
  {
    if readings != [] {
      var next := Tick(feed, readings[0], model);
      assert next.detections == feed.detections by {
        if readings[0].frame.Some? && model.Some? {
          assert feed.frameCount % SKIP_FRAMES != 0;
        }
      }
      DetectionsPersist(next, readings[1..], model);
    }
  }

  /** A detector run replaces the detections wholesale: what was shown
      before has no bearing on what is shown after. */
  lemma NoMerge(feed: Feed, other: seq<Detection>, frame: Frame, now: int, detector: Detector)
    requires Detects(feed)
    ensures Tick(feed, Reading(Some(frame), now), Some(detector)).detections ==
      Tick(feed.(detections := other), Reading(Some(frame), now), Some(detector)).detections
    ensures Tick(feed, Reading(Some(frame), now), Some(detector)).detections == Flatten(detector(frame))
  {
  }

  /** Thirty successful reads in a row, starting on a detection frame with
      a model loaded, run the detector exactly on the first one: none of the
      later twenty-nine reads is a detection frame, the boxes shown after
      them are those found in the first frame, and the next read is a
      detection frame again. */
  lemma {:induction false} OneRunPerThirty(feed: Feed, readings: seq<Reading>, detector: Detector)
    requires Detects(feed) && |readings| == SKIP_FRAMES
    requires forall k :: 0 <= k < |readings| ==> readings[k].frame.Some?
    ensures forall k :: 1 <= k < |readings| ==> !Detects(Ticks(feed, readings[..k], Some(detector)))
    ensures Ticks(feed, readings, Some(detector)).detections == Flatten(detector(readings[0].frame.value))
    ensures Detects(Ticks(feed, readings, Some(detector)))
  {
    var first := Tick(feed, readings[0], Some(detector));
    var rest := readings[1..];
    AllFrames(rest);
    TicksCount(first, rest, Some(detector));
    DetectionsPersist(first, rest, Some(detector));
    forall k | 1 <= k < |readings|
      ensures !Detects(Ticks(feed, readings[..k], Some(detector)))
    {
      AllFrames(readings[..k]);
      TicksCount(feed, readings[..k], Some(detector));
      var q := feed.frameCount / SKIP_FRAMES;
      assert feed.frameCount + k == SKIP_FRAMES * q + k;
    }
  }

  lemma {:induction false} AllFrames(readings: seq<Reading>)
    requires forall k :: 0 <= k < |readings| ==> readings[k].frame.Some?
    ensures Frames(readings) == |readings|
  {
    if readings != [] {
      AllFrames(readings[1..]);
    }
  }
}
