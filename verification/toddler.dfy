/**
 * The toddler-presence stage: configuration parsing, conversion of the remote
 * classifier's centre-based predictions to corner boxes, the class allow-list
 * with its per-class confidence floors, `toddler_present`, and the
 * drop-if-busy frame handling in which a failed inference changes nothing.
 */
module Toddler {
  import opened Wrappers
  import opened Text
  import opened Geometry
  import opened Values
  import Forwarding

  const DefaultModelId: string := "toddler-detection-yxicj-sdfde/2"
  const ToddlerMinConfidence: real := 0.8
  const DefaultConfThreshold: real := 0.3
  const RemoteOverlap: int := 30

  /** The class names a retained detection may have, lower-cased. */
  predicate IsAllowedClass(lowered: string) {
    lowered == "toddler" || lowered == "adult"
  }

  datatype ConfigError = MissingApiKey | NoVersionSeparator | VersionNotInteger

  /**
   * `_parse_model_id`: split at the last "/" into project and integer version;
   * an id without "/" or with a non-integer version is refused.
   */
  function ParseModelId(modelId: string): (r: Result<(string, int), ConfigError>)
    ensures r == Err(NoVersionSeparator) <==> '/' !in modelId
    ensures r.Err? ==> r.error != MissingApiKey
    ensures r.Ok? ==> var k := |r.value.0|;
                      && k < |modelId| && modelId[..k] == r.value.0 && modelId[k] == '/'
                      && '/' !in modelId[k + 1..]
                      && ParsePyInt(modelId[k + 1..]) == Some(r.value.1)
    ensures r == Err(VersionNotInteger) ==> exists k :: 0 <= k < |modelId| && modelId[k] == '/'
                                                        && '/' !in modelId[k + 1..]
                                                        && ParsePyInt(modelId[k + 1..]).None?
  {
    match LastIndexOf(modelId, '/')
    case None => Err(NoVersionSeparator)
    case Some(k) =>
      match ParsePyInt(modelId[k + 1..])
      case None => Err(VersionNotInteger)
      case Some(v) => Ok((modelId[..k], v))
  }

  /** A project name (which may itself hold "/") joined to a version by "/" parses back to both. */
  lemma ParseModelIdRoundTrip(project: string, version: nat)
    ensures ParseModelId(project + "/" + NatToString(version)) == Ok((project, version))
  {
    var id := project + "/" + NatToString(version);
    assert id[|project|] == '/';
    assert id[|project| + 1..] == NatToString(version);
    assert '/' !in NatToString(version) by {
      assert AllDigits(NatToString(version));
    }
    assert LastIndexOf(id, '/') == Some(|project|);
    ParsePyIntOfNat(version);
    assert id[..|project|] == project;
  }

  /** `int()` accepts a version grouped by an underscore: `p/1_0` is version 10 of project `p`. */
  lemma GroupedVersionAccepted(modelId: string)
    requires modelId == "p/1_0"
    ensures ParseModelId(modelId) == Ok(("p", 10))
  {
    var version := modelId[2..];
    assert version == "1_0";
    assert LastIndexOf(modelId, '/') == Some(1) by {
      assert modelId[..|modelId| - 1] == "p/1_";
      assert modelId[..|modelId| - 1][..3] == "p/1";
      assert modelId[..|modelId| - 1][..3][..2] == "p/";
    }
    TrimByUnchanged(version, PythonSpace);
    GroupedNatExamples(version, "1__0", "1_");
    assert modelId[..1] == "p";
  }

  /** Decimal text as Python's `float` reads it: optional sign, digits with at most one point. */
  function ParseDecimal(s: string): Option<real> {
    var t := PyStrip(s);
    var neg := |t| > 0 && t[0] == '-';
    var body := if |t| > 0 && (t[0] == '-' || t[0] == '+') then t[1..] else t;
    match LastIndexOf(body, '.')
    case None =>
      (match ParseNat(body)
       case None => None
       case Some(n) => Some(if neg then -(n as real) else n as real))
    case Some(p) =>
      var whole := body[..p];
      var frac := body[p + 1..];
      if '.' in whole || (whole == [] && frac == []) || !AllDigits(whole) || !AllDigits(frac) then None
      else
        var v := DigitsValue(whole) as real + DigitsValue(frac) as real / Pow10(|frac|) as real;
        Some(if neg then -v else v)
  }

  /** `float(str(n)) == n` for every natural number. */
  lemma ParseDecimalOfNat(n: nat)
    ensures ParseDecimal(NatToString(n)) == Some(n as real)
  {
    var s := NatToString(n);
    TrimByUnchanged(s, PythonSpace);
    ParseNatToString(n);
    assert LastIndexOf(s, '.') == None;
  }

  /** A signed decimal with a fractional part reads as its value. */
  lemma ParseDecimalSignedFraction(s: string)
    requires s == "-2.25"
    ensures ParseDecimal(s) == Some(-2.25)
  {
    TrimByUnchanged(s, PythonSpace);
    var body := s[1..];
    assert body == "2.25";
    assert LastIndexOf(body, '.') == Some(1);
    assert body[..1] == "2" && body[2..] == "25";
    assert DigitsValue("25") == 25 by {
      assert "25"[..1] == "2";
      assert DigitsValue("2") == 2;
    }
    assert Pow10(2) == 100;
  }

  function Pow10(n: nat): (p: nat)
    ensures p >= 1
  {
    if n == 0 then 1 else 10 * Pow10(n - 1)
  }

  /** `_safe_float`: a number for numeric values (and bools and decimal text), nothing otherwise. */
  function SafeFloat(v: Option<Json>): (r: Option<real>)
    ensures v.Some? && v.value.JNum? ==> r == Some(v.value.n)
    ensures v.None? || v == Some(JNull) ==> r.None?
    ensures v.Some? && (v.value.JList? || v.value.JObj?) ==> r.None?
  {
    match v
    case None => None
    case Some(JNull) => None
    case Some(JBool(b)) => Some(if b then 1.0 else 0.0)
    case Some(JNum(n)) => Some(n)
    case Some(JStr(s)) => ParseDecimal(s)
    case Some(_) => None
  }

  /** Every coordinate of the prediction is a number and the width and height are positive. */
  predicate WellFormedBox(pred: map<string, Json>) {
    && SafeFloat(Get(pred, "x")).Some? && SafeFloat(Get(pred, "y")).Some?
    && SafeFloat(Get(pred, "width")).Some? && SafeFloat(Get(pred, "height")).Some?
    && SafeFloat(Get(pred, "width")).value > 0.0 && SafeFloat(Get(pred, "height")).value > 0.0
  }

  /**
   * `_prediction_to_bbox`: the corner box of a centre-based prediction, each corner
   * rounded half to even; nothing when a coordinate is missing or not numeric, or
   * the width or height is not positive.
   */
  function PredictionToBox(pred: map<string, Json>): (r: Option<BBox>)
    ensures r.Some? <==> WellFormedBox(pred)
    ensures r.Some? ==> r.value.x1 <= r.value.x2 && r.value.y1 <= r.value.y2
    ensures r.Some? ==>
              var x, w := SafeFloat(Get(pred, "x")).value, SafeFloat(Get(pred, "width")).value;
              var y, h := SafeFloat(Get(pred, "y")).value, SafeFloat(Get(pred, "height")).value;
              && -0.5 <= r.value.x1 as real - (x - w / 2.0) <= 0.5
              && -0.5 <= r.value.x2 as real - (x + w / 2.0) <= 0.5
              && -0.5 <= r.value.y1 as real - (y - h / 2.0) <= 0.5
              && -0.5 <= r.value.y2 as real - (y + h / 2.0) <= 0.5
  {
    var x := SafeFloat(Get(pred, "x"));
    var y := SafeFloat(Get(pred, "y"));
    var width := SafeFloat(Get(pred, "width"));
    var height := SafeFloat(Get(pred, "height"));
    if x.None? || y.None? || width.None? || height.None? then None
    else if width.value <= 0.0 || height.value <= 0.0 then None
    else
      RoundHalfEvenMonotone(x.value - width.value / 2.0, x.value + width.value / 2.0);
      RoundHalfEvenMonotone(y.value - height.value / 2.0, y.value + height.value / 2.0);
      Some(BBox(RoundHalfEven(x.value - width.value / 2.0), RoundHalfEven(y.value - height.value / 2.0),
                RoundHalfEven(x.value + width.value / 2.0), RoundHalfEven(y.value + height.value / 2.0)))
  }

  /**
   * `str(pred.get("class", "Unknown")).strip() or "Unknown"`. The text form of a
   * number, list or object is not modelled (None): such classes never pass the allow-list.
   */
  function ClassLabel(v: Option<Json>): Option<string> {
    match v
    case None => Some("Unknown")
    case Some(JStr(s)) => Some(if PyStrip(s) == "" then "Unknown" else PyStrip(s))
    case Some(JNull) => Some("None")
    case Some(JBool(b)) => Some(if b then "True" else "False")
    case Some(_) => None
  }

  /** A label is produced for strings, null and booleans, never for numbers or containers; it is never
      empty and never starts or ends with whitespace (the `.strip() or "Unknown"` of the loop). */
  lemma ClassLabelSpec(v: Option<Json>)
    ensures ClassLabel(v).None? <==> v.Some? && (v.value.JNum? || v.value.JList? || v.value.JObj?)
    ensures ClassLabel(v).Some? ==>
              var l := ClassLabel(v).value;
              l != "" && !IsPySpace(l[0]) && !IsPySpace(l[|l| - 1])
  {
    if v.Some? && v.value.JStr? {
      TrimBySpec(v.value.s, PythonSpace);
    }
  }

  /** The confidence a retained prediction of this class needs: the stage floor, and 0.8 at least for toddlers. */
  function MinConfidence(lowered: string, confThreshold: real): (m: real)
    ensures m >= confThreshold
    ensures lowered == "toddler" ==> m >= ToddlerMinConfidence
    ensures lowered != "toddler" ==> m == confThreshold
    ensures lowered == "toddler" ==> m == confThreshold || m == ToddlerMinConfidence
  {
    if lowered == "toddler" && confThreshold < ToddlerMinConfidence then ToddlerMinConfidence else confThreshold
  }

  /** The label and confidence of a prediction whose class is allowed and whose confidence clears its floor. */
  function Admitted(fields: map<string, Json>, confThreshold: real): Option<(string, real)> {
    var cls := ClassLabel(Get(fields, "class"));
    var confidence := SafeFloat(Get(fields, "confidence"));
    if cls.None? || !IsAllowedClass(Lower(cls.value)) then None
    else if confidence.None? || confidence.value < MinConfidence(Lower(cls.value), confThreshold) then None
    else Some((cls.value, confidence.value))
  }

  /** The record one prediction contributes, if it passes every filter of `_on_frame`. */
  function Keep(pred: Json, confThreshold: real): Option<Detection> {
    if !pred.JObj? then None
    else
      var admitted := Admitted(pred.fields, confThreshold);
      if admitted.None? then None
      else
        var box := PredictionToBox(pred.fields);
        if box.None? then None
        else Some(Detection(admitted.value.0, admitted.value.1, box.value, NoExtra))
  }

  /** The values `f` gives for the elements it keeps, in the order of `xs`. */
  function KeptValues<T, U>(xs: seq<T>, f: T -> Option<U>): seq<U> {
    if xs == [] then []
    else (if f(xs[0]).Some? then [f(xs[0]).value] else []) + KeptValues(xs[1..], f)
  }

  lemma {:induction false} KeptValuesConcat<T, U>(a: seq<T>, b: seq<T>, f: T -> Option<U>)
    ensures KeptValues(a + b, f) == KeptValues(a, f) + KeptValues(b, f)
  {
    if a != [] {
      assert (a + b)[1..] == a[1..] + b;
      KeptValuesConcat(a[1..], b, f);
    } else {
      assert a + b == b;
    }
  }

  lemma {:induction false} KeptValuesFrom<T, U>(xs: seq<T>, f: T -> Option<U>)
    ensures forall v :: v in KeptValues(xs, f) ==> exists i :: 0 <= i < |xs| && f(xs[i]) == Some(v)
  {
    if xs != [] {
      KeptValuesFrom(xs[1..], f);
      forall v | v in KeptValues(xs[1..], f)
        ensures exists i :: 0 <= i < |xs| && f(xs[i]) == Some(v)
      {
        var j :| 0 <= j < |xs[1..]| && f(xs[1..][j]) == Some(v);
        assert xs[j + 1] == xs[1..][j];
      }
    }
  }

  /** One step of a filtering loop: the values kept from the first i + 1 elements. */
  lemma KeptValuesSnoc<T, U>(xs: seq<T>, i: nat, f: T -> Option<U>, v: Option<U>)
    requires i < |xs| && f(xs[i]) == v
    ensures KeptValues(xs[..i + 1], f) == KeptValues(xs[..i], f) + (if v.Some? then [v.value] else [])
  {
    assert xs[..i + 1] == xs[..i] + [xs[i]];
    KeptValuesConcat(xs[..i], [xs[i]], f);
    assert [xs[i]][1..] == [];
  }

  /** The filter of `_on_frame` for one stage threshold. */
  function KeepWith(confThreshold: real): Json -> Option<Detection> {
    pred => Keep(pred, confThreshold)
  }

  /** The retained records of a prediction list, in order. */
  function Retained(preds: seq<Json>, confThreshold: real): seq<Detection> {
    KeptValues(preds, KeepWith(confThreshold))
  }

  /** The `predictions` list of the classifier's answer; anything else counts as no predictions. */
  function Predictions(answer: Json): seq<Json> {
    if answer.JObj? && "predictions" in answer.fields && answer.fields["predictions"].JList? then
      answer.fields["predictions"].items
    else []
  }

  /** The predictions are the list the answer holds under "predictions"; any other answer has none. */
  lemma PredictionsSource(answer: Json)
    ensures Predictions(answer) != [] ==>
              answer.JObj? && "predictions" in answer.fields && answer.fields["predictions"] == JList(Predictions(answer))
    ensures !answer.JObj? || "predictions" !in answer.fields || !answer.fields["predictions"].JList? ==>
              Predictions(answer) == []
  {
  }

  /** The body of the filtering loop for one prediction: the record it appends, if any. */
  method KeepPrediction(pred: Json, confThreshold: real) returns (kept: Option<Detection>)
    ensures kept == Keep(pred, confThreshold)
  {
    kept := None;
    if !pred.JObj? {
      return;
    }
    var admitted := Admitted(pred.fields, confThreshold);
    if admitted.None? {
      return;
    }
    var bbox := PredictionToBox(pred.fields);
    if bbox.None? {
      return;
    }
    kept := Some(Detection(admitted.value.0, admitted.value.1, bbox.value, NoExtra));
  }

  /** The filtering loop of `_on_frame`. */
  method FilterPredictions(preds: seq<Json>, confThreshold: real) returns (dets: seq<Detection>)
    ensures dets == Retained(preds, confThreshold)
  {
    dets := [];
    var i := 0;
    while i < |preds|
      invariant 0 <= i <= |preds|
      invariant dets == Retained(preds[..i], confThreshold)
    {
      var kept := KeepPrediction(preds[i], confThreshold);
      KeptValuesSnoc(preds, i, KeepWith(confThreshold), kept);
      if kept.Some? {
        dets := dets + [kept.value];
      }
      i := i + 1;
    }
    assert preds[..|preds|] == preds;
  }

  /** A kept record is a toddler or adult above its floor, with a non-empty label and an ordered box. */
  lemma KeepPasses(pred: Json, confThreshold: real)
    requires Keep(pred, confThreshold).Some?
    ensures var d := Keep(pred, confThreshold).value;
            && IsAllowedClass(Lower(d.className))
            && d.confidence >= confThreshold
            && (Lower(d.className) == "toddler" ==> d.confidence >= ToddlerMinConfidence)
            && d.bbox.x1 <= d.bbox.x2 && d.bbox.y1 <= d.bbox.y2
            && d.className != ""
  {
  }

  /**
   * Which predictions are kept: a dictionary whose label is allowed, whose
   * confidence is a number at or above the label's floor and whose box is well
   * formed, and no other; the record carries that label, confidence and box.
   */
  lemma KeepComplete(pred: Json, confThreshold: real)
    ensures Keep(pred, confThreshold).Some? <==>
              && pred.JObj?
              && ClassLabel(Get(pred.fields, "class")).Some?
              && IsAllowedClass(Lower(ClassLabel(Get(pred.fields, "class")).value))
              && SafeFloat(Get(pred.fields, "confidence")).Some?
              && SafeFloat(Get(pred.fields, "confidence")).value
                 >= MinConfidence(Lower(ClassLabel(Get(pred.fields, "class")).value), confThreshold)
              && PredictionToBox(pred.fields).Some?
    ensures Keep(pred, confThreshold).Some? ==>
              Keep(pred, confThreshold).value
              == Detection(ClassLabel(Get(pred.fields, "class")).value, SafeFloat(Get(pred.fields, "confidence")).value,
                           PredictionToBox(pred.fields).value, NoExtra)
  {
  }

  /** With the default 0.3 threshold an adult at 0.5 is kept: only toddlers have the 0.8 floor. */
  lemma AdultAboveThresholdKept(cls: string)
    requires cls == "adult"
    ensures Keep(Prediction(cls, 0.5), DefaultConfThreshold).Some?
    ensures Keep(Prediction(cls, 0.5), DefaultConfThreshold).value.confidence == 0.5
  {
    SampleLabelAndConfidence(cls, 0.5);
    AllowedClassLowered(cls);
    SampleBoxWellFormed(cls, 0.5);
    KeepComplete(Prediction(cls, 0.5), DefaultConfThreshold);
  }

  /** Every retained record is a toddler or adult above its floor, with an ordered box. */
  lemma RetainedPassFilters(preds: seq<Json>, confThreshold: real)
    ensures forall d :: d in Retained(preds, confThreshold) ==>
              && IsAllowedClass(Lower(d.className))
              && d.confidence >= confThreshold
              && (Lower(d.className) == "toddler" ==> d.confidence >= ToddlerMinConfidence)
              && d.bbox.x1 <= d.bbox.x2 && d.bbox.y1 <= d.bbox.y2
              && d.className != ""
  {
    RetainedFromPredictions(preds, confThreshold);
    forall d | d in Retained(preds, confThreshold)
      ensures IsAllowedClass(Lower(d.className)) && d.confidence >= confThreshold
      ensures Lower(d.className) == "toddler" ==> d.confidence >= ToddlerMinConfidence
      ensures d.bbox.x1 <= d.bbox.x2 && d.bbox.y1 <= d.bbox.y2 && d.className != ""
    {
      var i :| 0 <= i < |preds| && Keep(preds[i], confThreshold) == Some(d);
      KeepPasses(preds[i], confThreshold);
    }
  }

  /** Filtering splits over concatenation: the retained records keep the order of the predictions. */
  lemma RetainedConcat(a: seq<Json>, b: seq<Json>, confThreshold: real)
    ensures Retained(a + b, confThreshold) == Retained(a, confThreshold) + Retained(b, confThreshold)
  {
    KeptValuesConcat(a, b, KeepWith(confThreshold));
  }

  /** Every retained record is what some prediction of the list gives. */
  lemma RetainedFromPredictions(preds: seq<Json>, confThreshold: real)
    ensures forall d :: d in Retained(preds, confThreshold) ==>
              exists i :: 0 <= i < |preds| && Keep(preds[i], confThreshold) == Some(d)
  {
    KeptValuesFrom(preds, KeepWith(confThreshold));
  }

  /** `toddler_present`: some retained label lower-cases to "toddler". */
  predicate ToddlerPresent(dets: seq<Detection>) {
    exists i :: 0 <= i < |dets| && Lower(dets[i].className) == "toddler"
  }

  /** A toddler is reported present only on a toddler prediction at or above both floors. */
  lemma ToddlerPresentIsConfident(preds: seq<Json>, confThreshold: real)
    requires ToddlerPresent(Retained(preds, confThreshold))
    ensures exists d :: d in Retained(preds, confThreshold) && Lower(d.className) == "toddler"
                        && d.confidence >= ToddlerMinConfidence && d.confidence >= confThreshold
  {
    RetainedPassFilters(preds, confThreshold);
    var dets := Retained(preds, confThreshold);
    var i :| 0 <= i < |dets| && Lower(dets[i].className) == "toddler";
    assert dets[i] in dets;
  }

  /** Among records that each meet the toddler floor, a present toddler is a confident one. */
  lemma PresentToddlerConfident(dets: seq<Detection>)
    requires forall d :: d in dets ==> (Lower(d.className) == "toddler" ==> d.confidence >= ToddlerMinConfidence)
    ensures ToddlerPresent(dets) ==>
              exists d :: d in dets && Lower(d.className) == "toddler" && d.confidence >= ToddlerMinConfidence
  {
    if ToddlerPresent(dets) {
      var i :| 0 <= i < |dets| && Lower(dets[i].className) == "toddler";
      assert dets[i] in dets;
    }
  }

  function Prediction(cls: string, confidence: real): Json {
    JObj(map["class" := JStr(cls), "confidence" := JNum(confidence),
             "x" := JNum(50.0), "y" := JNum(50.0), "width" := JNum(20.0), "height" := JNum(40.0)])
  }

  /** A toddler prediction below the toddler floor is dropped even though it clears the stage floor. */
  lemma LowConfidenceToddlerDropped(cls: string)
    requires cls == "toddler"
    ensures Keep(Prediction(cls, 0.75), DefaultConfThreshold) == None
  {
    SampleLabelAndConfidence(cls, 0.75);
    AllowedClassLowered(cls);
  }

  lemma SampleLabelAndConfidence(cls: string, confidence: real)
    requires cls != [] && !IsPySpace(cls[0]) && !IsPySpace(cls[|cls| - 1])
    ensures ClassLabel(Get(Prediction(cls, confidence).fields, "class")) == Some(cls)
    ensures SafeFloat(Get(Prediction(cls, confidence).fields, "confidence")) == Some(confidence)
  {
    var fields := Prediction(cls, confidence).fields;
    assert Get(fields, "class") == Some(JStr(cls));
    assert Get(fields, "confidence") == Some(JNum(confidence));
    TrimByUnchanged(cls, PythonSpace);
  }

  /** The allowed class names are already lower case. */
  lemma AllowedClassLowered(cls: string)
    requires IsAllowedClass(cls)
    ensures Lower(cls) == cls
  {
    if cls == "toddler" {
      LowerUnchanged(cls);
    } else {
      LowerUnchanged(cls);
    }
  }

  lemma SampleBoxWellFormed(cls: string, confidence: real)
    ensures WellFormedBox(Prediction(cls, confidence).fields)
  {
    var fields := Prediction(cls, confidence).fields;
    assert Get(fields, "x") == Some(JNum(50.0));
    assert Get(fields, "y") == Some(JNum(50.0));
    assert Get(fields, "width") == Some(JNum(20.0));
    assert Get(fields, "height") == Some(JNum(40.0));
  }

  lemma SampleToddlerAdmitted()
    ensures Admitted(Prediction("toddler", 0.85).fields, DefaultConfThreshold) == Some(("toddler", 0.85))
  {
    SampleLabelAndConfidence("toddler", 0.85);
    AllowedClassLowered("toddler");
  }

  /** A toddler prediction above the toddler floor with a proper box is kept. */
  lemma ConfidentToddlerKept()
    ensures Keep(Prediction("toddler", 0.85), DefaultConfThreshold).Some?
  {
    SampleToddlerAdmitted();
    SampleBoxWellFormed("toddler", 0.85);
  }

  /** A class outside the allow-list is dropped whatever its confidence. */
  lemma OtherClassDropped(cls: string)
    requires cls == "dog"
    ensures Keep(Prediction(cls, 0.99), DefaultConfThreshold) == None
  {
    var fields := Prediction(cls, 0.99).fields;
    TrimByUnchanged(cls, PythonSpace);
    assert ClassLabel(Get(fields, "class")) == Some(cls);
    assert Lower(cls) == cls;
    assert Admitted(fields, DefaultConfThreshold) == None;
  }

  /** The validated construction parameters of the stage. */
  datatype ToddlerConfig = ToddlerConfig(
    modelId: string, project: string, version: int, confThreshold: real,
    fps: nat, remoteConfidence: int, remoteOverlap: int)

  /**
   * The checks of the constructor: an API key (argument, else environment) is
   * required, the model id must parse, `fps` becomes `max(1, int(fps))` and the
   * remote confidence percentage `max(1, int(conf * 100))`.
   */
  function Configure(modelId: string, apiKey: Option<string>, envKey: Option<string>,
                     confThreshold: real, fps: real): (r: Result<ToddlerConfig, ConfigError>)
    ensures r.Ok? ==> r.value.fps >= 1 && r.value.remoteConfidence >= 1 && r.value.remoteOverlap == RemoteOverlap
    ensures r.Ok? ==> ParseModelId(modelId) == Ok((r.value.project, r.value.version))
    ensures r == Err(MissingApiKey) <==> (apiKey.None? || apiKey.value == "") && (envKey.None? || envKey.value == "")
    ensures r != Err(MissingApiKey) ==>
              && (r.Ok? <==> ParseModelId(modelId).Ok?)
              && (r.Err? ==> r == Err(ParseModelId(modelId).error))
    ensures r.Ok? ==> r.value.modelId == modelId && r.value.confThreshold == confThreshold
    ensures r.Ok? ==> r.value.fps == (if Truncate(fps) >= 1 then Truncate(fps) else 1)
    ensures r.Ok? ==> r.value.remoteConfidence == (if Truncate(confThreshold * 100.0) >= 1
                                                   then Truncate(confThreshold * 100.0) else 1)
  {
    var key := if apiKey.Some? && apiKey.value != "" then apiKey else envKey;
    if key.None? || key.value == "" then Err(MissingApiKey)
    else
      match ParseModelId(modelId)
      case Err(e) => Err(e)
      case Ok((project, version)) =>
        var f := Truncate(fps);
        var c := Truncate(confThreshold * 100.0);
        Ok(ToddlerConfig(modelId, project, version, confThreshold,
                         if f >= 1 then f else 1, if c >= 1 then c else 1, RemoteOverlap))
  }

  /** What the remote classifier call gave: an exception, or a JSON answer. */
  datatype InferenceOutcome = InferenceFailed | Answered(answer: Json)

  /** The published state of the stage. */
  datatype ToddlerState = ToddlerState(toddlerPresent: bool, detections: seq<Detection>)

  class ToddlerProcessor {
    const config: ToddlerConfig
    const sub: Forwarding.Subscription
    var toddlerPresent: bool
    var lastPredictions: seq<Detection>
    /** The processing lock is held (an inference is in flight). */
    var busy: bool

    ghost predicate Valid()
      reads this, sub
    {
      && sub.Valid()
      && toddlerPresent == ToddlerPresent(lastPredictions)
      && forall d :: d in lastPredictions ==>
           IsAllowedClass(Lower(d.className)) && d.confidence >= config.confThreshold
           && (Lower(d.className) == "toddler" ==> d.confidence >= ToddlerMinConfidence)
    }

    constructor (config: ToddlerConfig)
      ensures Valid() && fresh(sub) && this.config == config
      ensures !toddlerPresent && lastPredictions == [] && !busy
      ensures sub.forwarder == null && sub.handlerName == "toddler_processor_handler"
      ensures sub.forwarderFps == config.fps as real && sub.handlerFps == config.fps as real
    {
      this.config := config;
      sub := new Forwarding.Subscription("toddler_processor_handler", config.fps as real, config.fps as real);
      toddlerPresent := false;
      lastPredictions := [];
      busy := false;
    }

    /** Entry to `_on_frame`: a frame arriving while an inference is in flight is dropped. */
    method BeginFrame() returns (admitted: bool)
      requires Valid()
      modifies this
      ensures Valid()
      ensures admitted == !old(busy) && busy
      ensures lastPredictions == old(lastPredictions) && toddlerPresent == old(toddlerPresent)
    {
      admitted := !busy;
      busy := true;
    }

    /** The rest of `_on_frame`: a failed call leaves the published state alone; an answer replaces it. */
    method FinishFrame(outcome: InferenceOutcome)
      requires Valid() && busy
      modifies this
      ensures Valid() && !busy
      ensures outcome.InferenceFailed? ==>
                lastPredictions == old(lastPredictions) && toddlerPresent == old(toddlerPresent)
      ensures outcome.Answered? ==>
                lastPredictions == Retained(Predictions(outcome.answer), config.confThreshold)
      ensures toddlerPresent <==> ToddlerPresent(lastPredictions)
    {
      if outcome.InferenceFailed? {
        busy := false;
        return;
      }
      var dets := FilterPredictions(Predictions(outcome.answer), config.confThreshold);
      RetainedPassFilters(Predictions(outcome.answer), config.confThreshold);
      lastPredictions := dets;
      toddlerPresent := ToddlerPresent(dets);
      busy := false;
    }

    /**
     * `state()`: the published records and the presence flag, which holds exactly
     * when some record is a toddler; every record is an allowed class at or above
     * the stage threshold, and a reported toddler is at or above its own floor.
     */
    function State(): (s: ToddlerState)
      requires Valid()
      reads this, sub
      ensures s.detections == lastPredictions
      ensures s.toddlerPresent <==> exists i :: 0 <= i < |s.detections| && Lower(s.detections[i].className) == "toddler"
      ensures forall d :: d in s.detections ==>
                IsAllowedClass(Lower(d.className)) && d.confidence >= config.confThreshold
      ensures s.toddlerPresent ==>
                exists d :: d in s.detections && Lower(d.className) == "toddler" && d.confidence >= ToddlerMinConfidence
    {
      PresentToddlerConfident(lastPredictions);
      ToddlerState(toddlerPresent, lastPredictions)
    }

    method ProcessVideo(shared: Forwarding.Forwarder?)
      requires Valid()
      modifies sub, sub.forwarder, shared
      ensures Valid() && sub.handlerRegistered && sub.forwarder != null
      ensures shared != null ==> sub.forwarder == shared && !sub.ownsForwarder
      ensures shared == null ==> fresh(sub.forwarder) && sub.ownsForwarder && sub.forwarder.running
                                 && sub.forwarder.handlers == map[sub.handlerName := sub.handlerFps]
      ensures shared != null ==> shared.handlers == old(shared.handlers)[sub.handlerName := sub.handlerFps]
      ensures shared != null ==>
                shared.running == (old(shared.running) && !(old(sub.forwarder) == shared && old(sub.ownsForwarder)))
      ensures old(sub.forwarder) != null && old(sub.forwarder) != shared ==>
                old(sub.forwarder).handlers == old(sub.forwarder.handlers) - {sub.handlerName}
                && old(sub.forwarder).running == (old(sub.forwarder.running) && !old(sub.ownsForwarder))
    {
      sub.Attach(shared);
    }

    /** `stop_processing` (and `close`): idempotent; the distributor is stopped only when owned. */
    method StopProcessing()
      requires Valid()
      modifies sub, sub.forwarder
      ensures Valid() && sub.forwarder == null && !sub.ownsForwarder && !sub.handlerRegistered
      ensures old(sub.forwarder) != null ==>
                old(sub.forwarder).handlers == old(sub.forwarder.handlers) - {sub.handlerName}
                && old(sub.forwarder).running == (old(sub.forwarder.running) && !old(sub.ownsForwarder))
      ensures old(sub.forwarder) == null ==> unchanged(sub)
    {
      sub.Detach();
    }
  }
}
