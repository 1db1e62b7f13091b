/**
 * Shared geometry and detection-record helpers of the video processors:
 * box centre, intersection-over-union, and the mapping from raw detector
 * boxes to detection records.
 */
module Geometry {
  import opened Wrappers

  /** A corner box (x1, y1, x2, y2) in integer pixels. */
  datatype BBox = BBox(x1: int, y1: int, x2: int, y2: int)

  /** The stage-specific fields a detection record may carry besides the common ones. */
  datatype Extra =
    | NoExtra
    | ClassId(id: int)
    | Pose(isFalling: bool, keypoints: seq<seq<real>>)

  /** One detection record ("label" in the source): class name, confidence, corner box, stage extras. */
  datatype Detection = Detection(className: string, confidence: real, bbox: BBox, extra: Extra)

  /** One raw detector box: float corners, confidence and class index as the detector reports them. */
  datatype RawBox = RawBox(x1: real, y1: real, x2: real, y2: real, conf: real, cls: real)

  /** The detector's result for one image: its boxes and its class-name table. */
  datatype YoloResult = YoloResult(boxes: seq<RawBox>, names: map<int, string>)

  function Min(a: int, b: int): int { if a <= b then a else b }

  function Max(a: int, b: int): int { if a >= b then a else b }

  /** Python's `int(x)` on a float: truncation toward zero. */
  function Truncate(r: real): (n: int)
    ensures r >= 0.0 ==> 0 <= n && n as real <= r < n as real + 1.0
    ensures r < 0.0 ==> n <= 0 && n as real - 1.0 < r <= n as real
  {
    if r >= 0.0 then r.Floor else -((-r).Floor)
  }

  /** Python's `round(x)` on a float: the nearest integer, ties going to the even one. */
  function RoundHalfEven(r: real): (n: int)
    ensures -0.5 <= n as real - r <= 0.5
    ensures (n as real - r == 0.5 || r - n as real == 0.5) ==> n % 2 == 0
  {
    var f := r.Floor;
    var d := r - f as real;
    if d < 0.5 then f
    else if d > 0.5 then f + 1
    else if f % 2 == 0 then f
    else f + 1
  }

  /** Rounding never reverses the order of two values. */
  lemma RoundHalfEvenMonotone(a: real, b: real)
    requires a <= b
    ensures RoundHalfEven(a) <= RoundHalfEven(b)
  {
  }

  /** The box centre, with Python's floor division `//` on each axis. */
  function BoxCenter(b: BBox): (c: (int, int))
    ensures 2 * c.0 <= b.x1 + b.x2 < 2 * c.0 + 2
    ensures 2 * c.1 <= b.y1 + b.y2 < 2 * c.1 + 2
  {
    ((b.x1 + b.x2) / 2, (b.y1 + b.y2) / 2)
  }

  /** The max/min corner box of two boxes; it may be inverted when they do not overlap. */
  function Intersection(a: BBox, b: BBox): BBox {
    BBox(Max(a.x1, b.x1), Max(a.y1, b.y1), Min(a.x2, b.x2), Min(a.y2, b.y2))
  }

  predicate IsEmptyBox(b: BBox) {
    b.x2 <= b.x1 || b.y2 <= b.y1
  }

  function Area(b: BBox): int {
    (b.x2 - b.x1) * (b.y2 - b.y1)
  }

  /** Intersection over union of two boxes; 0 when they do not overlap or the union is not positive. */
  function OverlapRatio(a: BBox, b: BBox): (r: real)
    ensures IsEmptyBox(Intersection(a, b)) ==> r == 0.0
  {
    var i := Intersection(a, b);
    if i.x2 <= i.x1 || i.y2 <= i.y1 then 0.0
    else
      var inter := Area(i);
      var union := Area(a) + Area(b) - inter;
      if union > 0 then inter as real / union as real else 0.0
  }

  lemma MulMonotone(a: int, b: int, c: int, d: int)
    requires 0 <= a <= c && 0 <= b <= d
    ensures a * b <= c * d
  {
    calc {
      a * b;
    <= { assert (c - a) * b >= 0; }
      c * b;
    <= { assert c * (d - b) >= 0; }
      c * d;
    }
  }

  /** A non-empty intersection lies inside both boxes, so its area is at most each box's area. */
  lemma IntersectionAreaBounds(a: BBox, b: BBox)
    requires !IsEmptyBox(Intersection(a, b))
    ensures 0 < Area(Intersection(a, b)) <= Area(a)
    ensures Area(Intersection(a, b)) <= Area(b)
    ensures Area(a) + Area(b) - Area(Intersection(a, b)) > 0
  {
    var i := Intersection(a, b);
    assert 0 < (i.x2 - i.x1) * (i.y2 - i.y1);
    MulMonotone(i.x2 - i.x1, i.y2 - i.y1, a.x2 - a.x1, a.y2 - a.y1);
    MulMonotone(i.x2 - i.x1, i.y2 - i.y1, b.x2 - b.x1, b.y2 - b.y1);
  }

  /** Intersection over union always lies in [0, 1]; the union guard can never fire for overlapping boxes. */
  lemma OverlapRatioBounds(a: BBox, b: BBox)
    ensures 0.0 <= OverlapRatio(a, b) <= 1.0
    ensures !IsEmptyBox(Intersection(a, b)) ==> OverlapRatio(a, b) > 0.0
  {
    if !IsEmptyBox(Intersection(a, b)) {
      IntersectionAreaBounds(a, b);
      var inter := Area(Intersection(a, b));
      var union := Area(a) + Area(b) - inter;
      assert inter <= union;
      RatioAtMostOne(inter as real, union as real);
    }
  }

  /** A positive quotient of a number by one at least as large is at most one. */
  lemma RatioAtMostOne(n: real, d: real)
    requires 0.0 < n <= d
    ensures 0.0 < n / d <= 1.0
  {
    assert n / d * d == n;
  }

  /** The overlap ratio does not depend on the order of its arguments. */
  lemma OverlapRatioSymmetric(a: BBox, b: BBox)
    ensures OverlapRatio(a, b) == OverlapRatio(b, a)
  {
    assert Intersection(a, b) == Intersection(b, a);
  }

  /** A box with positive area overlaps itself completely. */
  lemma OverlapRatioSelf(a: BBox)
    requires a.x1 < a.x2 && a.y1 < a.y2
    ensures OverlapRatio(a, a) == 1.0
  {
    assert Intersection(a, a) == a;
    assert Area(a) > 0 by { MulMonotone(1, 1, a.x2 - a.x1, a.y2 - a.y1); }
  }

  /** The detection record for one raw box, given its class name. */
  function BoxRecord(box: RawBox, className: string): Detection {
    Detection(className, box.conf, BBox(Truncate(box.x1), Truncate(box.y1), Truncate(box.x2), Truncate(box.y2)),
              ClassId(Truncate(box.cls)))
  }

  predicate HasName(box: RawBox, names: map<int, string>) {
    Truncate(box.cls) in names
  }

  /**
   * Maps every box of one detector result to a record, in order; fails with the
   * class index of the first box whose class has no name (a missing key).
   */
  function FormatBoxes(boxes: seq<RawBox>, names: map<int, string>): (r: Result<seq<Detection>, int>)
    ensures r.Ok? <==> forall i :: 0 <= i < |boxes| ==> HasName(boxes[i], names)
    ensures r.Ok? ==> |r.value| == |boxes|
    ensures r.Ok? ==> forall i :: 0 <= i < |boxes| ==>
                        r.value[i] == BoxRecord(boxes[i], names[Truncate(boxes[i].cls)])
    ensures r.Err? ==> exists i :: 0 <= i < |boxes| && !HasName(boxes[i], names)
                                   && r.error == Truncate(boxes[i].cls)
                                   && forall j :: 0 <= j < i ==> HasName(boxes[j], names)
  {
    if boxes == [] then Ok([])
    else if !HasName(boxes[0], names) then Err(Truncate(boxes[0].cls))
    else
      match FormatBoxes(boxes[1..], names)
      case Err(c) =>
        assert forall j :: 1 <= j < |boxes| ==> boxes[j] == boxes[1..][j - 1];
        Err(c)
      case Ok(rest) =>
        Ok([BoxRecord(boxes[0], names[Truncate(boxes[0].cls)])] + rest)
  }

  /** Records for the first image of a detector call; an empty call gives no records. */
  function FormatYoloDetections(results: seq<YoloResult>): Result<seq<Detection>, int> {
    if results == [] then Ok([]) else FormatBoxes(results[0].boxes, results[0].names)
  }

  /**
   * Every record carries its class name and index, its confidence, and the raw
   * corners truncated toward zero, as `int()` does.
   */
  lemma FormatYoloDetectionsRecords(results: seq<YoloResult>, i: nat)
    requires results != [] && FormatYoloDetections(results).Ok?
    requires i < |results[0].boxes|
    ensures var box := results[0].boxes[i];
            var d := FormatYoloDetections(results).value[i];
            && d.extra == ClassId(Truncate(box.cls))
            && Truncate(box.cls) in results[0].names
            && d.className == results[0].names[Truncate(box.cls)]
            && d.confidence == box.conf
            && d.bbox == BBox(Truncate(box.x1), Truncate(box.y1), Truncate(box.x2), Truncate(box.y2))
  {
  }
}
