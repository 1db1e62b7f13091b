/**
 * The live crying monitor: keyword resolution of the cry classes, down-mixing
 * and resample length, the 16 000-sample chunk slicing with its rate limit, the
 * enter/exit hysteresis, the five-slot history and its three-of-five alarm.
 * The audio model, the clock and the resampler are parameters.
 */
module CryingAudio {
  import opened Wrappers
  import opened Text
  import opened Geometry

  const SampleRate: nat := 16000
  /** The live worker slices fixed one-second chunks and steps by one second. */
  const ChunkSize: nat := 16000
  const AlarmWindowSize: nat := 5
  const AlarmMinTrue: nat := 3
  const QueueCapacity: nat := 50
  const DefaultEnterThreshold: real := 0.35
  const DefaultExitThreshold: real := 0.20
  const CryKeywords: seq<string> := ["baby cry", "infant cry", "crying", "sobbing", "wail"]
  const EmptyClassMapReason: string := "Failed to load YAMNet class names"

  // ---------------------------------------------------------------- class names

  /** The text contains one of the cry keywords. */
  predicate HasCryKeyword(n: string) {
    exists k :: 0 <= k < |CryKeywords| && Contains(n, CryKeywords[k])
  }

  /** The lower-cased, stripped class name contains one of the cry keywords. */
  predicate IsCryClassName(name: string) {
    HasCryKeyword(PyStrip(Lower(name)))
  }

  /** `any(keyword in n for keyword in DEFAULT_CRY_KEYWORDS)`. */
  method MatchesCryKeyword(n: string) returns (matched: bool)
    ensures matched <==> HasCryKeyword(n)
  {
    matched := false;
    var k := 0;
    while k < |CryKeywords|
      invariant 0 <= k <= |CryKeywords|
      invariant matched <==> exists j :: 0 <= j < k && Contains(n, CryKeywords[j])
    {
      if Contains(n, CryKeywords[k]) {
        matched := true;
      }
      k := k + 1;
    }
  }

  /** The indices below `n` whose name satisfies `keep`, in increasing order. */
  function IndicesBelow(names: seq<string>, n: nat, keep: string -> bool): seq<int>
    requires n <= |names|
  {
    if n == 0 then []
    else IndicesBelow(names, n - 1, keep) + (if keep(names[n - 1]) then [n - 1] else [])
  }

  /** Exactly the indices below `n` whose name satisfies `keep`, strictly increasing. */
  lemma {:induction false} IndicesBelowSpec(names: seq<string>, n: nat, keep: string -> bool)
    requires n <= |names|
    ensures var r := IndicesBelow(names, n, keep);
            && (forall k :: 0 <= k < |r| ==> 0 <= r[k] < n)
            && (forall k, l :: 0 <= k < l < |r| ==> r[k] < r[l])
            && (forall i :: 0 <= i < n ==> (i in r <==> keep(names[i])))
  {
    if n > 0 {
      IndicesBelowSpec(names, n - 1, keep);
      var before := IndicesBelow(names, n - 1, keep);
      var tail: seq<int> := if keep(names[n - 1]) then [n - 1] else [];
      forall i | 0 <= i < n
        ensures i in before + tail <==> keep(names[i])
      {
        assert i in before + tail <==> i in before || i in tail;
      }
    }
  }

  /** The cry-class indices below `n`. */
  function CryIndicesBelow(classNames: seq<string>, n: nat): seq<int>
    requires n <= |classNames|
  {
    IndicesBelow(classNames, n, IsCryClassName)
  }

  /** `_resolve_cry_class_indices`: the indices of the class names that name a cry, in order. */
  method ResolveCryClassIndices(classNames: seq<string>) returns (indices: seq<int>)
    ensures indices == CryIndicesBelow(classNames, |classNames|)
    ensures forall k :: 0 <= k < |indices| ==> 0 <= indices[k] < |classNames|
    ensures forall k, l :: 0 <= k < l < |indices| ==> indices[k] < indices[l]
    ensures forall i :: 0 <= i < |classNames| ==> (i in indices <==> IsCryClassName(classNames[i]))
  {
    indices := [];
    var idx := 0;
    while idx < |classNames|
      invariant 0 <= idx <= |classNames|
      invariant indices == CryIndicesBelow(classNames, idx)
    {
      var matched := MatchesCryKeyword(PyStrip(Lower(classNames[idx])));
      if matched {
        indices := indices + [idx];
      }
      idx := idx + 1;
    }
    IndicesBelowSpec(classNames, |classNames|, IsCryClassName);
  }

  /** Lower-casing "Baby cry, infant cry" starts it with the first keyword and keeps its ends unspaced. */
  lemma BabyCryLowered(name: string)
    requires name == "Baby cry, infant cry"
    ensures var lowered := Lower(name);
            && lowered[0] == 'b' && lowered[|lowered| - 1] == 'y' && lowered[..8] == CryKeywords[0]
  {
    var lowered := Lower(name);
    assert |lowered| == 20;
    assert lowered[0] == LowerChar('B') == 'b';
    assert lowered[19] == LowerChar('y') == 'y';
    forall i | 1 <= i < 8
      ensures lowered[i] == CryKeywords[0][i]
    {
      assert lowered[i] == LowerChar(name[i]);
    }
  }

  /** A class map entry such as "Baby cry, infant cry" resolves as a cry class. */
  lemma BabyCryIsCryClass(name: string)
    requires name == "Baby cry, infant cry"
    ensures IsCryClassName(name)
  {
    BabyCryLowered(name);
    var lowered := Lower(name);
    TrimByUnchanged(lowered, PythonSpace);
    assert OccursAt(PyStrip(lowered), CryKeywords[0], 0);
  }

  /** A class map entry such as "Speech" is not a cry class. */
  lemma SpeechIsNotCryClass()
    ensures !IsCryClassName("Speech")
  {
    var speech := Lower("Speech");
    assert speech == "speech";
    TrimByUnchanged(speech, PythonSpace);
    forall k | 0 <= k < |CryKeywords|
      ensures !Contains(speech, CryKeywords[k])
    {
      if k == 2 {
        forall i | 0 <= i <= |speech| - |CryKeywords[k]| ensures !OccursAt(speech, CryKeywords[k], i) {
          assert speech[i] != 'c';
        }
      } else if k == 4 {
        forall i | 0 <= i <= |speech| - |CryKeywords[k]| ensures !OccursAt(speech, CryKeywords[k], i) {
          assert speech[i] != 'w';
        }
      }
    }
  }

  // ---------------------------------------------------------------- samples

  /** A sample array: one-dimensional, two-dimensional (rows of equal width), or of higher rank (kept flattened). */
  datatype Samples =
    | Vector(values: seq<real>)
    | Matrix(rows: seq<seq<real>>, width: nat)
    | Tensor(outer: nat, flat: seq<real>)

  /** Every row of a two-dimensional array has the declared width. */
  predicate WellShaped(s: Samples) {
    s.Matrix? ==> forall i :: 0 <= i < |s.rows| ==> |s.rows[i]| == s.width
  }

  /** `len(samples)`: the size of the first axis. */
  function Length(s: Samples): nat {
    match s
    case Vector(v) => |v|
    case Matrix(rows, _) => |rows|
    case Tensor(outer, _) => outer
  }

  function Sum(v: seq<real>): real {
    if v == [] then 0.0 else v[0] + Sum(v[1..])
  }

  function Mean(v: seq<real>): real
    requires |v| > 0
  {
    Sum(v) / |v| as real
  }

  lemma {:induction false} SumBounds(v: seq<real>, lo: real, hi: real)
    requires forall i :: 0 <= i < |v| ==> lo <= v[i] <= hi
    ensures |v| as real * lo <= Sum(v) <= |v| as real * hi
  {
    if v != [] {
      SumBounds(v[1..], lo, hi);
    }
  }

  /** A mean lies between the least and the greatest bound of its values. */
  lemma MeanBounds(v: seq<real>, lo: real, hi: real)
    requires |v| > 0
    requires forall i :: 0 <= i < |v| ==> lo <= v[i] <= hi
    ensures lo <= Mean(v) <= hi
  {
    SumBounds(v, lo, hi);
    var n := |v| as real;
    assert Sum(v) / n >= lo by { assert Sum(v) >= n * lo; }
    assert Sum(v) / n <= hi by { assert Sum(v) <= n * hi; }
  }

  function Column(rows: seq<seq<real>>, width: nat, j: nat): (c: seq<real>)
    requires forall i :: 0 <= i < |rows| ==> |rows[i]| == width
    requires j < width
    ensures |c| == |rows|
    ensures forall i :: 0 <= i < |rows| ==> c[i] == rows[i][j]
  {
    seq(|rows|, i requires 0 <= i < |rows| => rows[i][j])
  }

  function Flatten(rows: seq<seq<real>>): seq<real> {
    if rows == [] then [] else rows[0] + Flatten(rows[1..])
  }

  lemma {:induction false} FlattenLength(rows: seq<seq<real>>, width: nat)
    requires forall i :: 0 <= i < |rows| ==> |rows[i]| == width
    ensures |Flatten(rows)| == |rows| * width
  {
    if rows != [] {
      FlattenLength(rows[1..], width);
    }
  }

  /** The frame count is the channel count when the array is laid out channel by channel. */
  predicate ChannelMajor(s: Samples, channels: int) {
    s.Matrix? && channels > 1 && |s.rows| == channels
  }

  predicate ChannelMinor(s: Samples, channels: int) {
    s.Matrix? && channels > 1 && |s.rows| != channels && s.width == channels
  }

  /**
   * `_to_mono`: one-dimensional input is kept; a channel-major or channel-minor
   * matrix is averaged to one value per frame; anything else is flattened.
   */
  function ToMono(s: Samples, channels: int): (r: seq<real>)
    requires WellShaped(s)
    ensures s.Vector? ==> r == s.values
    ensures ChannelMajor(s, channels) ==>
              |r| == s.width && forall j :: 0 <= j < |r| ==> r[j] == Mean(Column(s.rows, s.width, j))
    ensures ChannelMinor(s, channels) ==>
              |r| == |s.rows| && forall i :: 0 <= i < |r| ==> r[i] == Mean(s.rows[i])
    ensures s.Matrix? && !ChannelMajor(s, channels) && !ChannelMinor(s, channels) ==>
              r == Flatten(s.rows) && |r| == |s.rows| * s.width
    ensures s.Tensor? ==> r == s.flat
  {
    match s
    case Vector(v) => v
    case Matrix(rows, width) =>
      if channels > 1 && |rows| == channels then
        seq(width, j requires 0 <= j < width => Mean(Column(rows, width, j)))
      else if channels > 1 && width == channels then
        seq(|rows|, i requires 0 <= i < |rows| => Mean(rows[i]))
      else
        FlattenLength(rows, width);
        Flatten(rows)
    case Tensor(_, flat) => flat
  }

  predicate AllWithin(v: seq<real>, lo: real, hi: real) {
    forall i :: 0 <= i < |v| ==> lo <= v[i] <= hi
  }

  predicate SamplesWithin(s: Samples, lo: real, hi: real) {
    match s
    case Vector(v) => AllWithin(v, lo, hi)
    case Matrix(rows, _) => forall i :: 0 <= i < |rows| ==> AllWithin(rows[i], lo, hi)
    case Tensor(_, flat) => AllWithin(flat, lo, hi)
  }

  lemma {:induction false} FlattenWithin(rows: seq<seq<real>>, lo: real, hi: real)
    requires forall i :: 0 <= i < |rows| ==> AllWithin(rows[i], lo, hi)
    ensures AllWithin(Flatten(rows), lo, hi)
  {
    if rows != [] {
      FlattenWithin(rows[1..], lo, hi);
      assert Flatten(rows) == rows[0] + Flatten(rows[1..]);
    }
  }

  /** Down-mixing never leaves the range of the input samples (normalised audio stays in range). */
  lemma ToMonoWithin(s: Samples, channels: int, lo: real, hi: real)
    requires WellShaped(s) && SamplesWithin(s, lo, hi)
    ensures AllWithin(ToMono(s, channels), lo, hi)
  {
    var r := ToMono(s, channels);
    if ChannelMajor(s, channels) {
      forall j | 0 <= j < |r| ensures lo <= r[j] <= hi {
        MeanBounds(Column(s.rows, s.width, j), lo, hi);
      }
    } else if ChannelMinor(s, channels) {
      forall i | 0 <= i < |r| ensures lo <= r[i] <= hi {
        MeanBounds(s.rows[i], lo, hi);
      }
    } else if s.Matrix? {
      FlattenWithin(s.rows, lo, hi);
    }
  }

  /**
   * The length `_resample_if_needed` asks for: the input itself at 16 kHz, else
   * `max(1, int(n * (16000 / max(1, rate))))`.
   */
  function ResampledLength(n: nat, sampleRate: int): (m: nat)
    ensures sampleRate == SampleRate ==> m == n
    ensures sampleRate != SampleRate ==> m >= 1
  {
    if sampleRate == SampleRate then n
    else
      var rate := if sampleRate >= 1 then sampleRate else 1;
      var t := Truncate(n as real * (SampleRate as real / rate as real));
      if t >= 1 then t else 1
  }

  /** From a rate dividing 16 kHz the length scales by the exact factor; a non-positive rate counts as 1 Hz. */
  lemma ResampledLengthScales(n: nat, sampleRate: int)
    requires sampleRate != SampleRate && n > 0
    requires sampleRate < 1 || (sampleRate <= SampleRate && SampleRate % sampleRate == 0)
    ensures sampleRate < 1 ==> ResampledLength(n, sampleRate) == n * SampleRate
    ensures sampleRate >= 1 ==> ResampledLength(n, sampleRate) == n * (SampleRate / sampleRate)
  {
    var rate := if sampleRate >= 1 then sampleRate else 1;
    var q := SampleRate / rate;
    assert SampleRate == q * rate;
    assert SampleRate as real / rate as real == q as real;
    assert n as real * q as real == (n * q) as real;
  }

  // ---------------------------------------------------------------- one inference

  /** The largest score among the given class indices. */
  function MaxOver(scores: seq<real>, indices: seq<int>): real
    requires |indices| > 0
    requires forall k :: 0 <= k < |indices| ==> 0 <= indices[k] < |scores|
  {
    if |indices| == 1 then scores[indices[0]]
    else
      var rest := MaxOver(scores, indices[1..]);
      assert forall k :: 1 <= k < |indices| ==> indices[k] == indices[1..][k - 1];
      if scores[indices[0]] >= rest then scores[indices[0]] else rest
  }

  /** The maximum over the listed indices is one of their scores and bounds all of them. */
  lemma {:induction false} MaxOverSpec(scores: seq<real>, indices: seq<int>)
    requires |indices| > 0
    requires forall k :: 0 <= k < |indices| ==> 0 <= indices[k] < |scores|
    ensures exists k :: 0 <= k < |indices| && scores[indices[k]] == MaxOver(scores, indices)
    ensures forall k :: 0 <= k < |indices| ==> scores[indices[k]] <= MaxOver(scores, indices)
  {
    if |indices| > 1 {
      var tail := indices[1..];
      assert forall k :: 1 <= k < |indices| ==> indices[k] == tail[k - 1];
      MaxOverSpec(scores, tail);
      var j :| 0 <= j < |tail| && scores[tail[j]] == MaxOver(scores, tail);
      assert indices[j + 1] == tail[j];
      if scores[indices[0]] >= MaxOver(scores, tail) {
        assert scores[indices[0]] == MaxOver(scores, indices);
      } else {
        assert scores[indices[j + 1]] == MaxOver(scores, indices);
      }
    } else {
      assert scores[indices[0]] == MaxOver(scores, indices);
    }
  }

  /** `np.argmax`: the first index holding the greatest score. */
  function ArgMax(scores: seq<real>): (i: nat)
    requires |scores| > 0
    ensures i < |scores|
  {
    if |scores| == 1 then 0
    else
      var i := ArgMax(scores[..|scores| - 1]);
      if scores[|scores| - 1] > scores[i] then |scores| - 1 else i
  }

  /** The index `ArgMax` picks holds the greatest score, and every earlier score is smaller. */
  lemma {:induction false} ArgMaxSpec(scores: seq<real>)
    requires |scores| > 0
    ensures forall j :: 0 <= j < |scores| ==> scores[j] <= scores[ArgMax(scores)]
    ensures forall j :: 0 <= j < ArgMax(scores) ==> scores[j] < scores[ArgMax(scores)]
  {
    if |scores| > 1 {
      var prefix := scores[..|scores| - 1];
      ArgMaxSpec(prefix);
      assert forall j :: 0 <= j < |prefix| ==> scores[j] == prefix[j];
    }
  }

  /** What one chunk's inference reports. */
  datatype Inference = Inference(cryScore: real, topLabel: string, topScore: real)

  /** The cry classes a class map resolves to are usable for inference on scores of that map's size. */
  predicate CanInfer(classNames: seq<string>, cryIndices: seq<int>) {
    |cryIndices| > 0 && forall k :: 0 <= k < |cryIndices| ==> 0 <= cryIndices[k] < |classNames|
  }

  /**
   * `_infer_window` after the model: the cry score is the greatest mean score of a
   * cry class; the top class is the first of greatest mean score, named by the
   * class map or, beyond it, by its index.
   */
  function InferWindow(meanScores: seq<real>, classNames: seq<string>, cryIndices: seq<int>): (r: Inference)
    requires CanInfer(classNames, cryIndices) && |meanScores| >= |classNames|
  {
    assert 0 <= cryIndices[0] < |classNames|;
    var top := ArgMax(meanScores);
    Inference(MaxOver(meanScores, cryIndices),
              if top < |classNames| then classNames[top] else NatToString(top),
              meanScores[top])
  }

  /**
   * The cry score is the largest score among the cry classes; the top label and
   * score belong to the first class with the largest score of all.
   */
  lemma InferWindowSpec(meanScores: seq<real>, classNames: seq<string>, cryIndices: seq<int>)
    requires CanInfer(classNames, cryIndices) && |meanScores| >= |classNames|
    ensures var r := InferWindow(meanScores, classNames, cryIndices);
            && (exists k :: 0 <= k < |cryIndices| && meanScores[cryIndices[k]] == r.cryScore)
            && (forall k :: 0 <= k < |cryIndices| ==> meanScores[cryIndices[k]] <= r.cryScore)
            && (exists i :: && 0 <= i < |meanScores| && meanScores[i] == r.topScore
                           && r.topLabel == (if i < |classNames| then classNames[i] else NatToString(i))
                           && (forall j :: 0 <= j < |meanScores| ==> meanScores[j] <= meanScores[i])
                           && (forall j :: 0 <= j < i ==> meanScores[j] < meanScores[i]))
  {
    assert 0 <= cryIndices[0] < |classNames|;
    MaxOverSpec(meanScores, cryIndices);
    ArgMaxSpec(meanScores);
  }


  /**
   * One hysteresis decision: an undetected cry is entered at `enter` or above;
   * a detected cry is left at `exit` or below; otherwise nothing changes.
   */
  function Hysteresis(detected: bool, score: real, enter: real, exit: real): (d: bool)
    ensures !detected ==> (d <==> score >= enter)
    ensures detected ==> (d <==> score > exit)
  {
    if detected then !(score <= exit) else score >= enter
  }

  /** The decisions after each score of a run, starting from `start`. */
  function HysteresisTrace(start: bool, scores: seq<real>, enter: real, exit: real): (t: seq<bool>)
    ensures |t| == |scores|
    ensures |scores| > 0 ==> t[0] == Hysteresis(start, scores[0], enter, exit)
    decreases |scores|
  {
    if scores == [] then []
    else
      var d := Hysteresis(start, scores[0], enter, exit);
      [d] + HysteresisTrace(d, scores[1..], enter, exit)
  }

  /** Each decision of a trace follows the rule from the decision before it. */
  lemma {:induction false} HysteresisTraceSteps(start: bool, scores: seq<real>, enter: real, exit: real, i: nat)
    requires 0 < i < |scores|
    ensures var t := HysteresisTrace(start, scores, enter, exit);
            t[i] == Hysteresis(t[i - 1], scores[i], enter, exit)
    decreases i
  {
    var d := Hysteresis(start, scores[0], enter, exit);
    if i > 1 {
      HysteresisTraceSteps(d, scores[1..], enter, exit, i - 1);
    }
  }

  /** With the exit threshold below the enter one, scores strictly between them never change the state. */
  lemma {:induction false} HysteresisHoldsInBand(start: bool, scores: seq<real>, enter: real, exit: real)
    requires exit < enter
    requires forall i :: 0 <= i < |scores| ==> exit < scores[i] < enter
    ensures HysteresisTrace(start, scores, enter, exit) == seq(|scores|, _ => start)
  {
    if scores != [] {
      HysteresisHoldsInBand(start, scores[1..], enter, exit);
    }
  }

  /** The score run 0.1, 0.4, 0.3, 0.15 under the default thresholds enters on 0.4 and leaves on 0.15. */
  lemma HysteresisExample()
    ensures HysteresisTrace(false, [0.1, 0.4, 0.3, 0.15], DefaultEnterThreshold, DefaultExitThreshold)
            == [false, true, true, false]
  {
    var s := [0.1, 0.4, 0.3, 0.15];
    assert s[1..] == [0.4, 0.3, 0.15];
    assert s[1..][1..] == [0.3, 0.15];
    assert s[1..][1..][1..] == [0.15];
    assert s[1..][1..][1..][1..] == [];
  }

  function CountTrue(s: seq<bool>): (n: nat)
    ensures n <= |s|
  {
    if s == [] then 0 else (if s[0] then 1 else 0) + CountTrue(s[1..])
  }

  lemma {:induction false} CountTrueConcat(a: seq<bool>, b: seq<bool>)
    ensures CountTrue(a + b) == CountTrue(a) + CountTrue(b)
  {
    if a == [] {
      assert a + b == b;
    } else {
      assert (a + b)[1..] == a[1..] + b;
      CountTrueConcat(a[1..], b);
    }
  }

  /** Append the new decision and evict the oldest once there are more than five. */
  function PushRecent(recent: seq<bool>, d: bool): (r: seq<bool>)
    ensures |recent| < AlarmWindowSize ==> r == recent + [d]
    ensures |recent| >= AlarmWindowSize ==> r == recent[1..] + [d]
    ensures r[|r| - 1] == d
  {
    var appended := recent + [d];
    if |appended| > AlarmWindowSize then appended[1..] else appended
  }

  /** The history never grows past five entries, and the push changes the true count by the new entry minus the evicted one. */
  lemma PushRecentCount(recent: seq<bool>, d: bool)
    requires |recent| <= AlarmWindowSize
    ensures |PushRecent(recent, d)| == if |recent| < AlarmWindowSize then |recent| + 1 else AlarmWindowSize
    ensures CountTrue(PushRecent(recent, d)) + (if |recent| == AlarmWindowSize && recent[0] then 1 else 0)
            == CountTrue(recent) + (if d then 1 else 0)
  {
    CountTrueConcat(recent, [d]);
    if |recent| == AlarmWindowSize {
      assert recent == [recent[0]] + recent[1..];
      CountTrueConcat([recent[0]], recent[1..]);
      CountTrueConcat(recent[1..], [d]);
    }
  }

  /** `alarm_active`: at least three of the remembered decisions are detections. */
  predicate AlarmOf(recent: seq<bool>) {
    CountTrue(recent) >= AlarmMinTrue
  }

  /** Three detections in the last five raise the alarm; one more miss that evicts a detection drops it. */
  lemma AlarmExample()
    ensures AlarmOf([true, true, false, false, true])
    ensures PushRecent([true, true, false, false, true], false) == [true, false, false, true, false]
    ensures !AlarmOf([true, false, false, true, false])
  {
    assert CountTrue([true, true, false, false, true]) == 3 by {
      CountTrueConcat([true, true], [false, false, true]);
      CountTrueConcat([false, false], [true]);
    }
    assert CountTrue([true, false, false, true, false]) == 2 by {
      CountTrueConcat([true, false], [false, true, false]);
      CountTrueConcat([false, true], [false]);
    }
  }

  // ---------------------------------------------------------------- the monitor

  /** The decision state the worker keeps between chunks. */
  datatype Monitor = Monitor(
    lastInferTs: real, cryDetected: bool, cryScore: real, topLabel: string, topScore: real,
    recent: seq<bool>, alarmActive: bool)

  const InitialMonitor: Monitor := Monitor(0.0, false, 0.0, "", 0.0, [], false)

  /**
   * The history holds at most five decisions, the alarm is the three-of-five
   * count, the newest decision is the current state, and before any inference
   * every field still has its initial value.
   */
  predicate MonitorValid(m: Monitor) {
    && |m.recent| <= AlarmWindowSize
    && m.alarmActive == AlarmOf(m.recent)
    && (m.recent != [] ==> m.recent[|m.recent| - 1] == m.cryDetected)
    && (m.recent == [] ==> m == InitialMonitor)
  }

  /** The fixed configuration of one inference step. */
  datatype CryConfig = CryConfig(
    enterThreshold: real, exitThreshold: real, inferInterval: real,
    classNames: seq<string>, cryIndices: seq<int>)

  /** The audio model gives a mean score for every class of the class map (and possibly more). */
  ghost predicate ModelMatches(cfg: CryConfig, model: seq<real> -> seq<real>) {
    forall w :: |model(w)| >= |cfg.classNames|
  }

  /** The decision after an inference at time `now`: hysteresis, history push, alarm recount. */
  function Decide(m: Monitor, inference: Inference, now: real, cfg: CryConfig): (r: Monitor)
    ensures MonitorValid(m) ==> MonitorValid(r)
    ensures r.lastInferTs == now && r.cryScore == inference.cryScore
    ensures r.recent != [] && r.recent[|r.recent| - 1] == r.cryDetected
  {
    var d := Hysteresis(m.cryDetected, inference.cryScore, cfg.enterThreshold, cfg.exitThreshold);
    var recent := PushRecent(m.recent, d);
    Monitor(now, d, inference.cryScore, inference.topLabel, inference.topScore, recent, AlarmOf(recent))
  }

  /**
   * One chunk at time `now`: skipped (nothing changes) while the last inference
   * is less than one interval old; otherwise inferred and decided.
   */
  function ChunkStep(m: Monitor, chunk: seq<real>, now: real, cfg: CryConfig,
                     model: seq<real> -> seq<real>): (r: Monitor)
    requires CanInfer(cfg.classNames, cfg.cryIndices) && ModelMatches(cfg, model)
    ensures MonitorValid(m) ==> MonitorValid(r)
    ensures now - m.lastInferTs < cfg.inferInterval ==> r == m
    ensures now - m.lastInferTs >= cfg.inferInterval ==> r.lastInferTs == now
  {
    if now - m.lastInferTs < cfg.inferInterval then m
    else Decide(m, InferWindow(model(chunk), cfg.classNames, cfg.cryIndices), now, cfg)
  }

  /**
   * The slicing loop: whole chunks are cut from the front of the buffer, the
   * k-th reading of the clock timing the k-th chunk, until less than a chunk is left.
   */
  /** Draining a buffer holding a whole chunk is the chunk's step, then draining the rest. */
  lemma DrainUnfold(m: Monitor, buffer: seq<real>, clock: nat -> real, k: nat, cfg: CryConfig,
                    model: seq<real> -> seq<real>)
    requires CanInfer(cfg.classNames, cfg.cryIndices) && ModelMatches(cfg, model)
    requires |buffer| >= ChunkSize
    ensures Drain(m, buffer, clock, k, cfg, model)
            == Drain(ChunkStep(m, buffer[..ChunkSize], clock(k), cfg, model), buffer[ChunkSize..], clock, k + 1, cfg, model)
  {
  }

  function Drain(m: Monitor, buffer: seq<real>, clock: nat -> real, k: nat, cfg: CryConfig,
                 model: seq<real> -> seq<real>): (r: (Monitor, seq<real>))
    requires CanInfer(cfg.classNames, cfg.cryIndices) && ModelMatches(cfg, model)
    ensures |r.1| < ChunkSize
    ensures |r.1| == |buffer| % ChunkSize
    ensures r.1 == buffer[|buffer| - |r.1|..]
    ensures MonitorValid(m) ==> MonitorValid(r.0)
    decreases |buffer|
  {
    if |buffer| < ChunkSize then (m, buffer)
    else
      var r := Drain(ChunkStep(m, buffer[..ChunkSize], clock(k), cfg, model), buffer[ChunkSize..], clock, k + 1, cfg, model);
      assert buffer[ChunkSize..][|buffer[ChunkSize..]| - |r.1|..] == buffer[|buffer| - |r.1|..];
      r
  }

  /** A buffer of fewer than n + 1 chunks' worth, clocked too early every time, leaves the decision state alone. */
  lemma {:induction false} DrainSkipped(m: Monitor, buffer: seq<real>, clock: nat -> real, k: nat, cfg: CryConfig,
                                        model: seq<real> -> seq<real>)
    requires CanInfer(cfg.classNames, cfg.cryIndices) && ModelMatches(cfg, model)
    requires forall j :: k <= j ==> clock(j) - m.lastInferTs < cfg.inferInterval
    ensures Drain(m, buffer, clock, k, cfg, model).0 == m
    decreases |buffer|
  {
    if |buffer| >= ChunkSize {
      DrainSkipped(m, buffer[ChunkSize..], clock, k + 1, cfg, model);
    }
  }

  // ---------------------------------------------------------------- the detector

  /** One queued audio packet: samples, their rate, and the channel count (`channels or 1`). */
  datatype AudioPacket = AudioPacket(samples: Samples, sampleRate: int, channels: int)

  /** An incoming PCM frame, already converted to float samples. */
  datatype PcmData = PcmData(samples: Option<Samples>, sampleRate: int, channels: int)

  /** How loading the audio model and its class map went. */
  datatype ModelLoad = LoadFailed(reason: string) | Loaded(classNames: seq<string>)

  /** What `state()` reports. */
  datatype CryState = CryState(
    enabled: bool, cryDetected: bool, cryScore: real, topLabel: string, topScore: real,
    alarmActive: bool, recentPredictions: seq<bool>, lastAudioTs: Option<real>, disableReason: Option<string>)

  /** `window_samples`: `int(max(0.5, window_seconds) * 16000)`. */
  function WindowSamples(windowSeconds: real): (n: nat)
    ensures n >= SampleRate / 2
    ensures var w := if windowSeconds < 0.5 then 0.5 else windowSeconds;
            n as real <= w * SampleRate as real < n as real + 1.0
  {
    var w := if windowSeconds < 0.5 then 0.5 else windowSeconds;
    Truncate(w * SampleRate as real)
  }

  /** The mono samples one packet contributes: down-mixed, then resampled unless already at 16 kHz. */
  function Incoming(p: AudioPacket, resample: (seq<real>, nat) -> seq<real>): seq<real>
    requires WellShaped(p.samples)
  {
    var mono := ToMono(p.samples, p.channels);
    if p.sampleRate == SampleRate then mono else resample(mono, ResampledLength(|mono|, p.sampleRate))
  }

  /**
   * With a resampler that returns the length asked of it, a packet contributes
   * its down-mixed samples unchanged at 16 kHz, and otherwise exactly the
   * resampled length of them.
   */
  lemma IncomingLength(p: AudioPacket, resample: (seq<real>, nat) -> seq<real>)
    requires WellShaped(p.samples)
    requires forall x: seq<real>, m: nat :: |resample(x, m)| == m
    ensures p.sampleRate == SampleRate ==> Incoming(p, resample) == ToMono(p.samples, p.channels)
    ensures |Incoming(p, resample)| == ResampledLength(|ToMono(p.samples, p.channels)|, p.sampleRate)
  {
  }

  /**
   * The class-map part of the detector's set-up: a failed load and an empty map
   * each give their reason for disabling; otherwise the names and the indices of
   * the crying classes among them.
   */
  method ResolveClassMap(load: ModelLoad) returns (names: seq<string>, indices: seq<int>, reason: Option<string>)
    ensures forall k :: 0 <= k < |indices| ==> 0 <= indices[k] < |names|
    ensures load.LoadFailed? ==> names == [] && indices == [] && reason == Some(load.reason)
    ensures load == Loaded([]) ==> names == [] && indices == [] && reason == Some(EmptyClassMapReason)
    ensures load.Loaded? && load.classNames != [] ==>
              && names == load.classNames && reason == None
              && indices == CryIndicesBelow(names, |names|)
              && (forall i :: 0 <= i < |names| ==> (i in indices <==> IsCryClassName(names[i])))
              && (|indices| > 0 <==> exists i :: 0 <= i < |names| && IsCryClassName(names[i]))
  {
    names, indices, reason := [], [], None;
    match load {
      case LoadFailed(r) =>
        reason := Some(r);
      case Loaded(loaded) =>
        if loaded == [] {
          reason := Some(EmptyClassMapReason);
        } else {
          names := loaded;
          indices := ResolveCryClassIndices(loaded);
          if exists i :: 0 <= i < |names| && IsCryClassName(names[i]) {
            var i :| 0 <= i < |names| && IsCryClassName(names[i]);
            assert i in indices;
          }
          if |indices| > 0 {
            assert indices[0] in indices;
          }
        }
    }
  }

  class CryingAudioDetector {
    const windowSeconds: real
    const windowSamples: nat
    const inferInterval: real
    const enterThreshold: real
    const exitThreshold: real
    const classNames: seq<string>
    const cryIndices: seq<int>
    const enabled: bool
    const disableReason: Option<string>

    var buffer: seq<real>
    var queue: seq<AudioPacket>
    var lastInferTs: real
    var cryDetected: bool
    var cryScore: real
    var topLabel: string
    var topScore: real
    var recentPredictions: seq<bool>
    var alarmActive: bool
    var lastAudioTs: Option<real>
    /** The worker thread has ended on an exception; nothing drains the queue any more. */
    var workerStopped: bool

    function Config(): CryConfig {
      CryConfig(enterThreshold, exitThreshold, inferInterval, classNames, cryIndices)
    }

    function Snapshot(): Monitor
      reads this
    {
      Monitor(lastInferTs, cryDetected, cryScore, topLabel, topScore, recentPredictions, alarmActive)
    }

    ghost predicate Valid()
      reads this
    {
      && |buffer| < ChunkSize
      && |queue| <= QueueCapacity
      && (forall i :: 0 <= i < |queue| ==> WellShaped(queue[i].samples))
      && MonitorValid(Snapshot())
      && (enabled <==> |cryIndices| > 0)
      && (forall k :: 0 <= k < |cryIndices| ==> 0 <= cryIndices[k] < |classNames|)
      && (!enabled ==> queue == [] && buffer == [] && Snapshot() == InitialMonitor && lastAudioTs == None)
    }

    /**
     * Construction: clamp the window and rate, then enable the monitor exactly
     * when the model loaded and some class name resolves as a cry.
     */
    constructor (windowSeconds: real, inferHz: real, enterThreshold: real, exitThreshold: real, load: ModelLoad)
      ensures Valid()
      ensures this.windowSeconds == (if windowSeconds < 0.5 then 0.5 else windowSeconds)
      ensures windowSamples == WindowSamples(windowSeconds)
      ensures inferInterval == 1.0 / (if inferHz < 0.1 then 0.1 else inferHz)
      ensures this.enterThreshold == enterThreshold && this.exitThreshold == exitThreshold
      ensures load.LoadFailed? ==> !enabled && disableReason == Some(load.reason)
      ensures load == Loaded([]) ==> !enabled && disableReason == Some(EmptyClassMapReason)
      ensures load.Loaded? && load.classNames != [] ==>
                && classNames == load.classNames && disableReason == None
                && cryIndices == CryIndicesBelow(classNames, |classNames|)
                && (forall i :: 0 <= i < |classNames| ==> (i in cryIndices <==> IsCryClassName(classNames[i])))
                && (enabled <==> exists i :: 0 <= i < |classNames| && IsCryClassName(classNames[i]))
      ensures buffer == [] && queue == [] && Snapshot() == InitialMonitor && lastAudioTs == None
      ensures !workerStopped
    {
      this.windowSeconds := if windowSeconds < 0.5 then 0.5 else windowSeconds;
      windowSamples := WindowSamples(windowSeconds);
      inferInterval := 1.0 / (if inferHz < 0.1 then 0.1 else inferHz);
      this.enterThreshold := enterThreshold;
      this.exitThreshold := exitThreshold;
      var names, indices, reason := ResolveClassMap(load);
      classNames := names;
      cryIndices := indices;
      enabled := |indices| > 0;
      disableReason := reason;
      buffer := [];
      queue := [];
      lastInferTs := 0.0;
      cryDetected := false;
      cryScore := 0.0;
      topLabel := "";
      topScore := 0.0;
      recentPredictions := [];
      alarmActive := false;
      lastAudioTs := None;
      workerStopped := false;
    }

    /**
     * `process_audio`: nothing while disabled or for an absent or empty frame;
     * otherwise the packet is queued, or dropped when fifty are already waiting.
     */
    method ProcessAudio(audio: PcmData)
      requires Valid()
      requires audio.samples.Some? ==> WellShaped(audio.samples.value)
      modifies this
      ensures Valid()
      ensures (!enabled || audio.samples.None? || Length(audio.samples.value) == 0 || |old(queue)| == QueueCapacity)
              ==> queue == old(queue)
      ensures (enabled && audio.samples.Some? && Length(audio.samples.value) > 0 && |old(queue)| < QueueCapacity)
              ==> queue == old(queue) + [AudioPacket(audio.samples.value, audio.sampleRate,
                                                     if audio.channels == 0 then 1 else audio.channels)]
      ensures buffer == old(buffer) && Snapshot() == old(Snapshot()) && lastAudioTs == old(lastAudioTs)
      ensures workerStopped == old(workerStopped)
    {
      if !enabled {
        return;
      }
      if audio.samples.None? || Length(audio.samples.value) == 0 {
        return;
      }
      if |queue| < QueueCapacity {
        queue := queue + [AudioPacket(audio.samples.value, audio.sampleRate,
                                      if audio.channels == 0 then 1 else audio.channels)];
      }
    }

    /**
     * One pass of the worker (lines 203-259 of the source loop): take the oldest
     * packet, down-mix and resample it, stamp the arrival time, append it to the
     * buffer and drain whole chunks. `clock(0)` is the arrival stamp and
     * `clock(k)` the reading for the k-th chunk. Once the worker has ended,
     * nothing happens.
     */
    method WorkerStep(resample: (seq<real>, nat) -> seq<real>, clock: nat -> real, model: seq<real> -> seq<real>)
      requires Valid()
      requires ModelMatches(Config(), model)
      modifies this
      ensures Valid() && workerStopped == old(workerStopped)
      ensures old(workerStopped) || old(queue) == [] ==>
                queue == old(queue) && buffer == old(buffer) && Snapshot() == old(Snapshot())
                && lastAudioTs == old(lastAudioTs)
      ensures !old(workerStopped) && old(queue) != [] ==> queue == old(queue)[1..] && lastAudioTs == Some(clock(0))
      ensures !old(workerStopped) && old(queue) != [] && Incoming(old(queue)[0], resample) == [] ==>
                buffer == old(buffer) && Snapshot() == old(Snapshot())
      ensures !old(workerStopped) && old(queue) != [] && Incoming(old(queue)[0], resample) != [] ==>
                (Snapshot(), buffer)
                == Drain(old(Snapshot()), old(buffer) + Incoming(old(queue)[0], resample), clock, 1, Config(), model)
    {
      if workerStopped || queue == [] {
        return;
      }
      var packet := queue[0];
      queue := queue[1..];
      var mono := ToMono(packet.samples, packet.channels);
      if packet.sampleRate != SampleRate {
        mono := resample(mono, ResampledLength(|mono|, packet.sampleRate));
      }
      lastAudioTs := Some(clock(0));
      if |mono| == 0 {
        return;
      }
      buffer := buffer + mono;
      DrainBuffer(clock, model);
    }

    /**
     * A pass of the worker that raises while down-mixing or resampling (the
     * resampler's import or call): the packet has been taken off the queue, and
     * the thread ends with the buffer, the decision state and the arrival stamp
     * as they were. Later packets are queued until fifty wait, then dropped.
     */
    method FailWorkerPass()
      requires Valid() && !workerStopped && queue != []
      modifies this`queue, this`workerStopped
      ensures Valid() && workerStopped
      ensures queue == old(queue)[1..]
    {
      queue := queue[1..];
      workerStopped := true;
    }

    /**
     * The slicing loop: cut whole chunks from the front of the buffer, the k-th
     * clock reading timing the k-th chunk, until less than a chunk is left.
     */
    method DrainBuffer(clock: nat -> real, model: seq<real> -> seq<real>)
      requires CanInfer(classNames, cryIndices) && ModelMatches(Config(), model)
      modifies this`buffer, this`lastInferTs, this`cryDetected, this`cryScore, this`topLabel, this`topScore,
               this`recentPredictions, this`alarmActive
      ensures (Snapshot(), buffer) == Drain(old(Snapshot()), old(buffer), clock, 1, Config(), model)
    {
      ghost var cfg := Config();
      ghost var target := Drain(Snapshot(), buffer, clock, 1, cfg, model);
      var k := 1;
      while |buffer| >= ChunkSize
        invariant Config() == cfg
        invariant Drain(Snapshot(), buffer, clock, k, cfg, model) == target
        decreases |buffer|
      {
        DrainUnfold(Snapshot(), buffer, clock, k, cfg, model);
        var chunk := buffer[..ChunkSize];
        buffer := buffer[ChunkSize..];
        ConsumeChunk(chunk, clock(k), model);
        k := k + 1;
      }
    }

    /**
     * The body of the slicing loop for one chunk read at time `now`: skipped while
     * the last inference is younger than the interval, otherwise inferred and decided.
     */
    method ConsumeChunk(chunk: seq<real>, now: real, model: seq<real> -> seq<real>)
      requires CanInfer(classNames, cryIndices) && ModelMatches(Config(), model)
      modifies this`lastInferTs, this`cryDetected, this`cryScore, this`topLabel, this`topScore,
               this`recentPredictions, this`alarmActive
      ensures Snapshot() == ChunkStep(old(Snapshot()), chunk, now, Config(), model)
    {
      if now - lastInferTs < inferInterval {
        return;
      }
      var inference := InferWindow(model(chunk), classNames, cryIndices);
      ApplyInference(inference, now);
    }

    /** The decision after an inference: hysteresis, history push with eviction, alarm recount. */
    method ApplyInference(inference: Inference, now: real)
      modifies this`lastInferTs, this`cryDetected, this`cryScore, this`topLabel, this`topScore,
               this`recentPredictions, this`alarmActive
      ensures Snapshot() == Decide(old(Snapshot()), inference, now, Config())
    {
      var detected := cryDetected;
      if detected {
        if inference.cryScore <= exitThreshold {
          detected := false;
        }
      } else if inference.cryScore >= enterThreshold {
        detected := true;
      }
      var recent := recentPredictions + [detected];
      if |recent| > AlarmWindowSize {
        recent := recent[1..];
      }
      lastInferTs, cryDetected, cryScore, topLabel, topScore, recentPredictions, alarmActive :=
        now, detected, inference.cryScore, inference.topLabel, inference.topScore, recent,
        CountTrue(recent) >= AlarmMinTrue;
    }

    /** `state()`: a copy of the public fields; a disabled monitor reports its initial values. */
    function State(): (s: CryState)
      requires Valid()
      reads this
      ensures s.enabled == enabled && s.recentPredictions == recentPredictions && s.disableReason == disableReason
      ensures s.alarmActive <==> CountTrue(s.recentPredictions) >= AlarmMinTrue
      ensures |s.recentPredictions| <= AlarmWindowSize
      ensures s.recentPredictions != [] ==> s.recentPredictions[|s.recentPredictions| - 1] == s.cryDetected
      ensures !s.enabled ==> && !s.cryDetected && s.cryScore == 0.0 && s.topLabel == "" && s.topScore == 0.0
                             && !s.alarmActive && s.recentPredictions == [] && s.lastAudioTs == None
    {
      CryState(enabled, cryDetected, cryScore, topLabel, topScore, alarmActive, recentPredictions,
               lastAudioTs, disableReason)
    }

    /** The effective `close` (the later definition): empties the buffer and nothing else. */
    method Close()
      requires Valid()
      modifies this
      ensures Valid()
      ensures buffer == [] && queue == old(queue) && Snapshot() == old(Snapshot()) && lastAudioTs == old(lastAudioTs)
      ensures workerStopped == old(workerStopped)
    {
      buffer := [];
    }
  }
}
