/**
 * Pose-based fall detection: the per-person heuristic (wide box, or nose
 * below the hips), the choice of the most confident falling person for the
 * published event, and the processor's frame-dropping and lifecycle state.
 */
module FallDetection {
  import opened Wrappers
  import opened Geometry
  import opened DetectionEvents
  import Forwarding

  const DefaultFallRatioThreshold: real := 1.2
  /** Fewest keypoints for which the nose/hip test is attempted. */
  const MinPoseKeypoints: nat := 13
  /** Keypoint indices of the pose model. */
  const NoseIndex: nat := 0
  const LeftHipIndex: nat := 11
  const RightHipIndex: nat := 12

  /** One person box and its keypoints, each `[x, y]` or `[x, y, score]`. */
  datatype PoseBox = PoseBox(box: RawBox, keypoints: seq<seq<real>>)

  /** The pose detector's result for one image: person boxes and keypoint sets, paired in order. */
  datatype PoseResult = PoseResult(boxes: seq<RawBox>, keypoints: seq<seq<seq<real>>>)

  /** Python's `zip(boxes, keypoints)`: pairs up to the shorter of the two. */
  function Pairs(r: PoseResult): (ps: seq<PoseBox>)
    ensures |ps| == Min(|r.boxes|, |r.keypoints|)
  {
    seq(Min(|r.boxes|, |r.keypoints|), i requires 0 <= i < Min(|r.boxes|, |r.keypoints|) =>
      PoseBox(r.boxes[i], r.keypoints[i]))
  }

  /** The boxes of the first image of a detector call; none for an empty call. */
  function PersonBoxes(results: seq<PoseResult>): seq<PoseBox> {
    if results == [] then [] else Pairs(results[0])
  }

  /** The vertical coordinate of keypoint `i`, or 0 when the keypoint has no y. */
  function KeypointY(kpts: seq<seq<real>>, i: nat): real
    requires i < |kpts|
  {
    if |kpts[i]| > 1 then kpts[i][1] else 0.0
  }

  /** Width over height of a box, each side clamped to at least one pixel. */
  function AspectRatio(b: BBox): (r: real)
    ensures r > 0.0
  {
    Max(1, b.x2 - b.x1) as real / Max(1, b.y2 - b.y1) as real
  }

  /** The box is wider than tall by more than the threshold. */
  predicate WideBox(b: BBox, threshold: real) {
    AspectRatio(b) > threshold
  }

  /** Enough keypoints, nose and both hips seen (y > 0), and the nose lower in the image than the hips' mean. */
  predicate HeadBelowHips(kpts: seq<seq<real>>) {
    && |kpts| >= MinPoseKeypoints
    && KeypointY(kpts, NoseIndex) > 0.0
    && KeypointY(kpts, LeftHipIndex) > 0.0
    && KeypointY(kpts, RightHipIndex) > 0.0
    && KeypointY(kpts, NoseIndex) > (KeypointY(kpts, LeftHipIndex) + KeypointY(kpts, RightHipIndex)) / 2.0
  }

  function TruncatedBox(box: RawBox): BBox {
    BBox(Truncate(box.x1), Truncate(box.y1), Truncate(box.x2), Truncate(box.y2))
  }

  /** The "person" record the detector stage produces for one box. */
  function PersonRecord(p: PoseBox, threshold: real): Detection {
    var b := TruncatedBox(p.box);
    Detection("person", p.box.conf, b, Pose(WideBox(b, threshold) || HeadBelowHips(p.keypoints), p.keypoints))
  }

  predicate IsFalling(d: Detection) {
    d.extra.Pose? && d.extra.isFalling
  }

  /**
   * `_detect` after the opaque model call: one "person" record per paired box,
   * in box order, flagged falling by the two tests.
   */
  method Detect(results: seq<PoseResult>, threshold: real) returns (dets: seq<Detection>)
    ensures |dets| == |PersonBoxes(results)|
    ensures forall i :: 0 <= i < |dets| ==> dets[i] == PersonRecord(PersonBoxes(results)[i], threshold)
  {
    dets := [];
    var boxes := PersonBoxes(results);
    var i := 0;
    while i < |boxes|
      invariant 0 <= i <= |boxes|
      invariant |dets| == i
      invariant forall k :: 0 <= k < i ==> dets[k] == PersonRecord(boxes[k], threshold)
    {
      var box := boxes[i].box;
      var kpts := boxes[i].keypoints;
      var b := BBox(Truncate(box.x1), Truncate(box.y1), Truncate(box.x2), Truncate(box.y2));
      var isFalling := false;
      var width := Max(1, b.x2 - b.x1);
      var height := Max(1, b.y2 - b.y1);
      if width as real / height as real > threshold {
        isFalling := true;
      }
      if |kpts| >= MinPoseKeypoints {
        var noseY := if |kpts[NoseIndex]| > 1 then kpts[NoseIndex][1] else 0.0;
        var leftHipY := if |kpts[LeftHipIndex]| > 1 then kpts[LeftHipIndex][1] else 0.0;
        var rightHipY := if |kpts[RightHipIndex]| > 1 then kpts[RightHipIndex][1] else 0.0;
        if noseY > 0.0 && leftHipY > 0.0 && rightHipY > 0.0 {
          var avgHipY := (leftHipY + rightHipY) / 2.0;
          if noseY > avgHipY {
            isFalling := true;
          }
        }
      }
      dets := dets + [Detection("person", box.conf, b, Pose(isFalling, kpts))];
      i := i + 1;
    }
  }

  /** A box wider than the threshold is flagged falling whatever its keypoints. */
  lemma WideBoxAlwaysFalls(p: PoseBox, threshold: real)
    requires WideBox(TruncatedBox(p.box), threshold)
    ensures IsFalling(PersonRecord(p, threshold))
  {
  }

  /**
   * A box no wider than the threshold is flagged falling exactly when the nose
   * test fires; with fewer than 13 keypoints, an unseen point, or the nose not
   * below the hips, it is not falling.
   */
  lemma NarrowBoxFallsOnlyByPose(p: PoseBox, threshold: real)
    requires !WideBox(TruncatedBox(p.box), threshold)
    ensures IsFalling(PersonRecord(p, threshold)) <==> HeadBelowHips(p.keypoints)
    ensures |p.keypoints| < MinPoseKeypoints ==> !IsFalling(PersonRecord(p, threshold))
  {
  }

  /** The record keeps the confidence and keypoints of its input, and its corners truncated toward zero. */
  lemma PersonRecordFields(p: PoseBox, threshold: real)
    ensures PersonRecord(p, threshold).className == "person"
    ensures PersonRecord(p, threshold).confidence == p.box.conf
    ensures PersonRecord(p, threshold).extra.keypoints == p.keypoints
    ensures PersonRecord(p, threshold).bbox
            == BBox(Truncate(p.box.x1), Truncate(p.box.y1), Truncate(p.box.x2), Truncate(p.box.y2))
  {
  }

  /**
   * `best` is the larger of 0 and every falling confidence; when positive, `bbox`
   * is the box of the first falling record reaching it, else the zero box.
   */
  ghost predicate IsBestFall(dets: seq<Detection>, best: real, bbox: BBox) {
    && best >= 0.0
    && (forall i :: 0 <= i < |dets| && IsFalling(dets[i]) ==> dets[i].confidence <= best)
    && (best == 0.0 ==> bbox == ZeroBox)
    && (best > 0.0 ==> exists i :: 0 <= i < |dets| && IsFalling(dets[i]) && dets[i].confidence == best
                         && dets[i].bbox == bbox
                         && forall j :: 0 <= j < i && IsFalling(dets[j]) ==> dets[j].confidence < best)
  }

  /** The aggregation loop of `_on_frame`: is anyone falling, and the most confident falling person. */
  method AggregateFall(dets: seq<Detection>) returns (present: bool, best: real, bbox: BBox)
    ensures present <==> exists i :: 0 <= i < |dets| && IsFalling(dets[i])
    ensures IsBestFall(dets, best, bbox)
  {
    present, best, bbox := false, 0.0, ZeroBox;
    var i := 0;
    while i < |dets|
      invariant 0 <= i <= |dets|
      invariant present <==> exists k :: 0 <= k < i && IsFalling(dets[k])
      invariant IsBestFall(dets[..i], best, bbox)
    {
      assert dets[..i + 1][..i] == dets[..i];
      if IsFalling(dets[i]) {
        present := true;
        if dets[i].confidence > best {
          best := dets[i].confidence;
          bbox := dets[i].bbox;
        }
      }
      i := i + 1;
    }
    assert dets[..i] == dets;
  }

  /** The published state of the stage. */
  datatype FallState = FallState(detections: seq<Detection>, fallPresent: bool)

  class FallDetectionProcessor {
    const fps: real
    const confidenceThreshold: real
    const fallRatioThreshold: real
    const sub: Forwarding.Subscription
    var latestDetections: seq<Detection>
    var latestEvent: Option<VisionEvent>
    var fallPresent: bool
    var frameNumber: nat
    /** The processing lock is held (an inference is in flight). */
    var busy: bool
    /** The frame number given to the frame in flight. */
    var inFlight: nat

    ghost predicate Valid()
      reads this, sub
    {
      && sub.Valid()
      && (fallPresent <==> exists i :: 0 <= i < |latestDetections| && IsFalling(latestDetections[i]))
      && (latestEvent.Some? <==> fallPresent)
      && (latestEvent.Some? ==> latestEvent.value.FallDetected?
                                && latestEvent.value.frameNumber < frameNumber
                                && IsBestFall(latestDetections, latestEvent.value.confidence, latestEvent.value.bbox))
      && (busy ==> inFlight < frameNumber)
    }

    constructor (fps: real := 2.0, confidenceThreshold: real := 0.5, fallRatioThreshold: real := DefaultFallRatioThreshold)
      ensures Valid() && fresh(sub)
      ensures this.fps == fps && this.fallRatioThreshold == fallRatioThreshold
      ensures latestDetections == [] && latestEvent == None && !fallPresent && frameNumber == 0 && !busy
      ensures sub.forwarder == null && sub.handlerName == "fall_detection_handler"
      ensures sub.forwarderFps == (if fps >= 1.0 then fps else 1.0) && sub.handlerFps == fps
    {
      this.fps := fps;
      this.confidenceThreshold := confidenceThreshold;
      this.fallRatioThreshold := fallRatioThreshold;
      sub := new Forwarding.Subscription("fall_detection_handler", if fps >= 1.0 then fps else 1.0, fps);
      latestDetections := [];
      latestEvent := None;
      fallPresent := false;
      frameNumber := 0;
      busy := false;
      inFlight := 0;
    }

    /** Entry to `_on_frame`: a frame arriving while busy is dropped and numbers nothing. */
    method BeginFrame() returns (admitted: bool)
      requires Valid()
      modifies this
      ensures Valid()
      ensures admitted == !old(busy)
      ensures admitted ==> busy && inFlight == old(frameNumber) && frameNumber == old(frameNumber) + 1
      ensures !admitted ==> unchanged(this)
      ensures latestDetections == old(latestDetections) && fallPresent == old(fallPresent)
      ensures latestEvent == old(latestEvent)
    {
      if busy {
        return false;
      }
      busy := true;
      inFlight := frameNumber;
      frameNumber := frameNumber + 1;
      admitted := true;
    }

    /** The rest of `_on_frame`, once the detector returned: publish records, flag and event. */
    method FinishFrame(results: seq<PoseResult>)
      requires Valid() && busy
      modifies this
      ensures Valid() && !busy && frameNumber == old(frameNumber)
      ensures |latestDetections| == |PersonBoxes(results)|
      ensures forall i :: 0 <= i < |latestDetections| ==>
                latestDetections[i] == PersonRecord(PersonBoxes(results)[i], fallRatioThreshold)
      ensures fallPresent <==> exists i :: 0 <= i < |latestDetections| && IsFalling(latestDetections[i])
      ensures !fallPresent ==> latestEvent == None
      ensures fallPresent ==> latestEvent.Some? && latestEvent.value.FallDetected?
                              && latestEvent.value.frameNumber == old(inFlight)
                              && latestEvent.value.name == "FallDetected"
                              && latestEvent.value.timestamp == 0.0
                              && IsBestFall(latestDetections, latestEvent.value.confidence, latestEvent.value.bbox)
    {
      var dets := Detect(results, fallRatioThreshold);
      latestDetections := dets;
      var present, best, bbox := AggregateFall(dets);
      fallPresent := present;
      if present {
        latestEvent := Some(FallDetected(frameNumber := inFlight, confidence := best, bbox := bbox));
      } else {
        latestEvent := None;
      }
      busy := false;
    }

    /**
     * The pose model raised inside `_on_frame`: the lock is released on the way
     * out, the frame keeps its number, and the published state is not touched.
     */
    method FailFrame()
      requires Valid() && busy
      modifies this`busy
      ensures Valid() && !busy
    {
      busy := false;
    }

    /**
     * `state()`: the published records and the fall flag, which holds exactly when
     * some record is falling.
     */
    function State(): (s: FallState)
      requires Valid()
      reads this, sub
      ensures s.detections == latestDetections
      ensures s.fallPresent <==> exists i :: 0 <= i < |s.detections| && IsFalling(s.detections[i])
    {
      FallState(latestDetections, fallPresent)
    }

    method ProcessVideo(shared: Forwarding.Forwarder?)
      requires Valid()
      modifies sub, sub.forwarder, shared
      ensures Valid() && sub.handlerRegistered && sub.forwarder != null
      ensures shared != null ==> sub.forwarder == shared && !sub.ownsForwarder
      ensures shared == null ==> fresh(sub.forwarder) && sub.ownsForwarder && sub.forwarder.running
                                 && sub.forwarder.handlers == map[sub.handlerName := sub.handlerFps]
      ensures shared != null ==> shared.handlers == old(shared.handlers)[sub.handlerName := sub.handlerFps]
      ensures shared != null ==>
                shared.running == (old(shared.running) && !(old(sub.forwarder) == shared && old(sub.ownsForwarder)))
      ensures old(sub.forwarder) != null && old(sub.forwarder) != shared ==>
                old(sub.forwarder).handlers == old(sub.forwarder.handlers) - {sub.handlerName}
                && old(sub.forwarder).running == (old(sub.forwarder.running) && !old(sub.ownsForwarder))
    {
      sub.Attach(shared);
    }

    method StopProcessing()
      requires Valid()
      modifies sub, sub.forwarder
      ensures Valid() && sub.forwarder == null && !sub.ownsForwarder && !sub.handlerRegistered
      ensures old(sub.forwarder) != null ==>
                old(sub.forwarder).handlers == old(sub.forwarder.handlers) - {sub.handlerName}
                && old(sub.forwarder).running == (old(sub.forwarder.running) && !old(sub.ownsForwarder))
      ensures old(sub.forwarder) == null ==> unchanged(sub)
    {
      sub.Detach();
    }
  }
}
