/**
 * The fusion publisher: one output stream on which the boxes of the object
 * stage and, when present, the toddler stage are drawn over each source frame.
 * Pixels, colour conversion and text rendering are outside the model: an output
 * frame is the source frame's timing plus the list of boxes drawn on it.
 */
module CombinedPublisher {
  import opened Wrappers
  import opened Values
  import Forwarding
  import Geometry

  const PublisherName: string := "combined_video_publisher"
  const HandlerName: string := PublisherName + "_handler"
  const DefaultFps: real := 10.0
  const DefaultLabel: string := "object"

  /** A drawing colour, in the blue-green-red order of the frames. */
  datatype Color = Color(b: int, g: int, r: int)

  const ObjectColor: Color := Color(0, 255, 0)
  const ToddlerColor: Color := Color(0, 165, 255)

  /**
   * The text drawn over a box: the label alone, or the label and the confidence
   * (printed with two decimals). The label is the raw value whose `str()` is shown.
   */
  datatype Caption = LabelOnly(shown: Json) | LabelWithScore(shown: Json, score: real)

  /** One box drawn on a frame. */
  datatype Overlay = Overlay(bbox: Json, caption: Caption, color: Color)

  /** `isinstance(confidence, (int, float))`: numbers, and booleans, which Python counts as integers. */
  function NumericValue(v: Option<Json>): (r: Option<real>)
    ensures r.Some? <==> v.Some? && (v.value.JNum? || v.value.JBool?)
    ensures v.Some? && v.value.JNum? ==> r == Some(v.value.n)
  {
    match v
    case Some(JNum(n)) => Some(n)
    case Some(JBool(b)) => Some(if b then 1.0 else 0.0)
    case _ => None
  }

  /** The caption of one detection record: its label (default "object"), with the confidence when numeric. */
  function CaptionOf(det: map<string, Json>): (c: Caption)
    ensures "label" !in det ==> c.shown == JStr(DefaultLabel)
    ensures "label" in det ==> c.shown == det["label"]
    ensures c.LabelOnly? <==> NumericValue(Get(det, "confidence")).None?
  {
    var shown := Get(det, "label").GetOr(JStr(DefaultLabel));
    match NumericValue(Get(det, "confidence"))
    case None => LabelOnly(shown)
    case Some(score) => LabelWithScore(shown, score)
  }

  /** `bbox is None`: the record has no box, or its box is `None`. */
  predicate HasBox(det: map<string, Json>) {
    "bbox" in det && det["bbox"] != JNull
  }

  /** The boxes `_draw_detection_list` draws for a list of records, in list order. */
  function Drawn(dets: seq<map<string, Json>>, color: Color): seq<Overlay> {
    if dets == [] then []
    else
      var rest := Drawn(dets[1..], color);
      if HasBox(dets[0]) then [Overlay(dets[0]["bbox"], CaptionOf(dets[0]), color)] + rest else rest
  }

  /** Drawing a concatenation draws the first list's boxes, then the second's. */
  lemma {:induction false} DrawnConcat(a: seq<map<string, Json>>, b: seq<map<string, Json>>, color: Color)
    ensures Drawn(a + b, color) == Drawn(a, color) + Drawn(b, color)
  {
    if a == [] {
      assert a + b == b;
    } else {
      assert (a + b)[1..] == a[1..] + b;
      DrawnConcat(a[1..], b, color);
    }
  }

  /** The number of records that carry a box. */
  function BoxedCount(dets: seq<map<string, Json>>): nat {
    if dets == [] then 0 else (if HasBox(dets[0]) then 1 else 0) + BoxedCount(dets[1..])
  }

  /**
   * Exactly the records with a box are drawn, one box each, in the given colour,
   * with the record's own box and caption.
   */
  lemma {:induction false} DrawnSpec(dets: seq<map<string, Json>>, color: Color)
    ensures |Drawn(dets, color)| == BoxedCount(dets)
    ensures forall o :: o in Drawn(dets, color) ==>
              o.color == color && o.bbox != JNull
              && exists i :: 0 <= i < |dets| && HasBox(dets[i]) && o.bbox == dets[i]["bbox"]
                             && o.caption == CaptionOf(dets[i])
  {
    if dets != [] {
      DrawnSpec(dets[1..], color);
      forall o | o in Drawn(dets[1..], color)
        ensures exists i :: 0 <= i < |dets| && HasBox(dets[i]) && o.bbox == dets[i]["bbox"]
                            && o.caption == CaptionOf(dets[i])
      {
        var j :| 0 <= j < |dets[1..]| && HasBox(dets[1..][j]) && o.bbox == dets[1..][j]["bbox"]
                 && o.caption == CaptionOf(dets[1..][j]);
        assert dets[j + 1] == dets[1..][j];
      }
    }
  }

  /** A list without any box draws nothing. */
  lemma {:induction false} NothingBoxedDrawsNothing(dets: seq<map<string, Json>>, color: Color)
    requires forall i :: 0 <= i < |dets| ==> !HasBox(dets[i])
    ensures Drawn(dets, color) == []
  {
    if dets != [] {
      NothingBoxedDrawsNothing(dets[1..], color);
    }
  }

  /** `_draw_detection_list`: the loop that draws each boxed record onto the frame. */
  method DrawDetectionList(frame: seq<Overlay>, dets: seq<map<string, Json>>, color: Color)
    returns (out: seq<Overlay>)
    ensures out == frame + Drawn(dets, color)
  {
    out := frame;
    var i := 0;
    while i < |dets|
      invariant 0 <= i <= |dets|
      invariant out + Drawn(dets[i..], color) == frame + Drawn(dets, color)
    {
      var det := dets[i];
      assert dets[i..][1..] == dets[i + 1..];
      if !HasBox(det) {
        i := i + 1;
        continue;
      }
      out := out + [Overlay(det["bbox"], CaptionOf(det), color)];
      i := i + 1;
    }
  }

  /**
   * The records of a stage's `state().get("detections", []) or []`: none when the
   * stage has no state, or the entry is missing or falsy; nothing (the handler
   * raises) when the entry is not a list of dictionaries.
   */
  function DetectionRecords(state: Option<map<string, Json>>): (r: Option<seq<map<string, Json>>>)
    ensures state.None? ==> r == Some([])
    ensures state.Some? && ("detections" !in state.value || !Truthy(state.value["detections"])) ==> r == Some([])
    ensures r.Some? && r.value != [] ==>
              state.Some? && "detections" in state.value && state.value["detections"].JList?
              && |r.value| == |state.value["detections"].items|
              && forall i :: 0 <= i < |r.value| ==> state.value["detections"].items[i] == JObj(r.value[i])
    ensures r.None? <==>
              state.Some? && "detections" in state.value && Truthy(state.value["detections"])
              && !(state.value["detections"].JList?
                   && forall i :: 0 <= i < |state.value["detections"].items| ==> state.value["detections"].items[i].JObj?)
  {
    if state.None? then Some([])
    else
      var entry := Get(state.value, "detections").GetOr(JList([]));
      if !Truthy(entry) then Some([])
      else if entry.JList? && forall i :: 0 <= i < |entry.items| ==> entry.items[i].JObj? then
        Some(seq(|entry.items|, i requires 0 <= i < |entry.items| => entry.items[i].fields))
      else None
  }

  /** A source frame's timing: presentation timestamp and time base. */
  datatype SourceFrame = SourceFrame(pts: Option<int>, timeBase: real)

  /** A published frame: the source timing and the boxes drawn on it. */
  datatype OutFrame = OutFrame(pts: Option<int>, timeBase: real, overlays: seq<Overlay>)

  /**
   * The frame `_on_frame` publishes: object boxes in green, then (with a toddler
   * stage) toddler boxes in orange; nothing when a detection entry is malformed.
   */
  function Annotate(frame: SourceFrame, objectState: Option<map<string, Json>>,
                    toddlerState: Option<map<string, Json>>, hasToddlerStage: bool): (r: Option<OutFrame>)
    ensures r.Some? <==> DetectionRecords(objectState).Some?
                         && (hasToddlerStage ==> DetectionRecords(toddlerState).Some?)
    ensures r.Some? ==> r.value.pts == frame.pts && r.value.timeBase == frame.timeBase
  {
    var objects := DetectionRecords(objectState);
    var toddlers := if hasToddlerStage then DetectionRecords(toddlerState) else Some([]);
    if objects.None? || toddlers.None? then None
    else
      Some(OutFrame(frame.pts, frame.timeBase,
                    Drawn(objects.value, ObjectColor) + Drawn(toddlers.value, ToddlerColor)))
  }

  /**
   * The layers of a published frame: first one green box per boxed object record,
   * then (only with a toddler stage) one orange box per boxed toddler record,
   * so toddler boxes are drawn over object boxes.
   */
  lemma AnnotateLayers(frame: SourceFrame, objectState: Option<map<string, Json>>,
                       toddlerState: Option<map<string, Json>>, hasToddlerStage: bool)
    requires Annotate(frame, objectState, toddlerState, hasToddlerStage).Some?
    ensures var overlays := Annotate(frame, objectState, toddlerState, hasToddlerStage).value.overlays;
            var objects := BoxedCount(DetectionRecords(objectState).value);
            |overlays| == objects + (if hasToddlerStage then BoxedCount(DetectionRecords(toddlerState).value) else 0)
            && forall i :: 0 <= i < |overlays| ==>
                 overlays[i].color == (if i < objects then ObjectColor else ToddlerColor)
  {
    var objects := DetectionRecords(objectState).value;
    var toddlers: seq<map<string, Json>> := if hasToddlerStage then DetectionRecords(toddlerState).value else [];
    DrawnSpec(objects, ObjectColor);
    DrawnSpec(toddlers, ToddlerColor);
    LayerColors(Drawn(objects, ObjectColor), Drawn(toddlers, ToddlerColor), ObjectColor, ToddlerColor);
  }

  /** In `a + b`, where `a` is all in one colour and `b` all in another, the colour of a position tells the layer. */
  lemma LayerColors(a: seq<Overlay>, b: seq<Overlay>, lower: Color, upper: Color)
    requires forall o :: o in a ==> o.color == lower
    requires forall o :: o in b ==> o.color == upper
    ensures forall i :: 0 <= i < |a + b| ==> (a + b)[i].color == (if i < |a| then lower else upper)
  {
    forall i | 0 <= i < |a + b|
      ensures (a + b)[i].color == (if i < |a| then lower else upper)
    {
      if i < |a| {
        assert (a + b)[i] in a;
      } else {
        assert (a + b)[i] == b[i - |a|];
        assert b[i - |a|] in b;
      }
    }
  }

  class CombinedVideoPublisher {
    const fps: real
    const hasToddlerStage: bool
    /** The rate of the output track: `max(1, int(fps))`. */
    const trackFps: int
    const sub: Forwarding.Subscription
    /** The processing lock is held. */
    var busy: bool
    /** The frames queued on the output track, oldest first. */
    var published: seq<OutFrame>
    var trackStopped: bool

    ghost predicate Valid()
      reads this, sub
    {
      sub.Valid() && trackFps >= 1
    }

    constructor (fps: real, hasToddlerStage: bool)
      ensures Valid() && fresh(sub)
      ensures this.fps == fps && this.hasToddlerStage == hasToddlerStage
      ensures !busy && published == [] && !trackStopped
      ensures sub.forwarder == null && sub.handlerName == HandlerName
      ensures sub.forwarderFps == (if fps < 1.0 then 1.0 else fps) && sub.handlerFps == fps
      ensures trackFps == (if Geometry.Truncate(fps) >= 1 then Geometry.Truncate(fps) else 1)
    {
      this.fps := fps;
      this.hasToddlerStage := hasToddlerStage;
      var t := Geometry.Truncate(fps);
      trackFps := if t >= 1 then t else 1;
      sub := new Forwarding.Subscription(HandlerName, if fps < 1.0 then 1.0 else fps, fps);
      busy := false;
      published := [];
      trackStopped := false;
    }

    /** Entry to `_on_frame`: a frame arriving while the previous one is in progress is dropped. */
    method BeginFrame() returns (admitted: bool)
      requires Valid()
      modifies this`busy
      ensures Valid()
      ensures admitted == !old(busy) && busy
    {
      admitted := !busy;
      busy := true;
    }

    /**
     * The body of `_on_frame`: read both stages' detections, draw them, and queue
     * the annotated frame with the source timing. A malformed entry raises and
     * queues nothing; the lock is released either way.
     */
    method FinishFrame(frame: SourceFrame, objectState: Option<map<string, Json>>,
                       toddlerState: Option<map<string, Json>>)
      requires Valid() && busy
      modifies this`busy, this`published
      ensures Valid() && !busy
      ensures match Annotate(frame, objectState, toddlerState, hasToddlerStage)
              case None => published == old(published)
              case Some(out) => published == old(published) + [out]
    {
      var objects := DetectionRecords(objectState);
      var toddlers := Some([]);
      if hasToddlerStage {
        toddlers := DetectionRecords(toddlerState);
      }
      if objects.None? || toddlers.None? {
        busy := false;
        return;
      }
      var overlays := DrawDetectionList([], objects.value, ObjectColor);
      assert overlays == Drawn(objects.value, ObjectColor);
      overlays := DrawDetectionList(overlays, toddlers.value, ToddlerColor);
      published := published + [OutFrame(frame.pts, frame.timeBase, overlays)];
      busy := false;
    }

    /** `process_video`: leave any previous distributor, then join the shared one or own a fresh one. */
    method ProcessVideo(shared: Forwarding.Forwarder?)
      requires Valid()
      modifies sub, sub.forwarder, shared
      ensures Valid() && sub.handlerRegistered && sub.forwarder != null
      ensures shared != null ==> sub.forwarder == shared && !sub.ownsForwarder
      ensures shared == null ==> fresh(sub.forwarder) && sub.ownsForwarder && sub.forwarder.running
                                 && sub.forwarder.handlers == map[sub.handlerName := sub.handlerFps]
      ensures shared != null ==> shared.handlers == old(shared.handlers)[sub.handlerName := sub.handlerFps]
      ensures shared != null ==>
                shared.running == (old(shared.running) && !(old(sub.forwarder) == shared && old(sub.ownsForwarder)))
      ensures old(sub.forwarder) != null && old(sub.forwarder) != shared ==>
                old(sub.forwarder).handlers == old(sub.forwarder.handlers) - {sub.handlerName}
                && old(sub.forwarder).running == (old(sub.forwarder.running) && !old(sub.ownsForwarder))
    {
      sub.Attach(shared);
    }

    /** `stop_processing`: idempotent; the distributor is stopped only when owned. */
    method StopProcessing()
      requires Valid()
      modifies sub, sub.forwarder
      ensures Valid() && sub.forwarder == null && !sub.ownsForwarder && !sub.handlerRegistered
      ensures old(sub.forwarder) != null ==>
                old(sub.forwarder).handlers == old(sub.forwarder.handlers) - {sub.handlerName}
                && old(sub.forwarder).running == (old(sub.forwarder.running) && !old(sub.ownsForwarder))
      ensures old(sub.forwarder) == null ==> unchanged(sub)
    {
      sub.Detach();
    }

    /** `close`: stop processing, then stop the output track. */
    method Close()
      requires Valid()
      modifies this`trackStopped, sub, sub.forwarder
      ensures Valid() && trackStopped
      ensures sub.forwarder == null && !sub.ownsForwarder && !sub.handlerRegistered
      ensures published == old(published)
      ensures old(sub.forwarder) != null ==>
                old(sub.forwarder).handlers == old(sub.forwarder.handlers) - {sub.handlerName}
                && old(sub.forwarder).running == (old(sub.forwarder.running) && !old(sub.ownsForwarder))
    {
      sub.Detach();
      trackStopped := true;
    }
  }
}
