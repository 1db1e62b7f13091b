/**
 * The offline crying check: a PCM WAV file is decoded and normalised, down-mixed
 * and resampled as the live monitor does, then scored window by window with the
 * same hysteresis, while the first maximum cry score is tracked. Reading the file,
 * the audio model and the printing of each line are outside the model: the
 * header fields and frame bytes, the model and the resampler are parameters,
 * and the printed lines are returned as reports.
 */
module CryingAudioCheck {
  import opened Wrappers
  import opened Geometry
  import opened CryingAudio

  type Byte = b: int | 0 <= b < 256

  // ---------------------------------------------------------------- sample decoding

  function Pow2(k: nat): (p: nat)
    ensures p >= 1
  {
    if k == 0 then 1 else 2 * Pow2(k - 1)
  }

  lemma {:induction false} Pow2Add(a: nat, b: nat)
    ensures Pow2(a + b) == Pow2(a) * Pow2(b)
    decreases a
  {
    if a > 0 {
      Pow2Add(a - 1, b);
    }
  }

  /** The unsigned little-endian value of a byte string. */
  function LittleEndian(bs: seq<Byte>): nat {
    if bs == [] then 0 else bs[0] + 256 * LittleEndian(bs[1..])
  }

  /** A little-endian value of n bytes fits in 8n bits. */
  lemma {:induction false} LittleEndianBound(bs: seq<Byte>)
    ensures LittleEndian(bs) < Pow2(8 * |bs|)
  {
    if bs != [] {
      LittleEndianBound(bs[1..]);
      Pow2Add(8, 8 * (|bs| - 1));
      assert Pow2(8) == 256;
      assert 8 * |bs| == 8 + 8 * (|bs| - 1);
    }
  }

  /**
   * One sample of `np.frombuffer`: an unsigned byte for 8-bit audio, a
   * two's-complement little-endian integer (int16, int32) otherwise.
   */
  function SampleValue(bs: seq<Byte>): int {
    var v := LittleEndian(bs);
    if |bs| == 1 then v
    else if |bs| > 1 && v >= Pow2(8 * |bs| - 1) then v - Pow2(8 * |bs|)
    else v
  }

  /** 8-bit samples lie in [0, 255]; wider ones in [-2^(8w-1), 2^(8w-1)). */
  lemma SampleValueRange(bs: seq<Byte>)
    requires |bs| >= 1
    ensures |bs| == 1 ==> 0 <= SampleValue(bs) < 256
    ensures |bs| > 1 ==> -(Pow2(8 * |bs| - 1) as int) <= SampleValue(bs) < Pow2(8 * |bs| - 1)
  {
    LittleEndianBound(bs);
    assert Pow2(8 * |bs|) == 2 * Pow2(8 * |bs| - 1);
    if |bs| == 1 {
      assert Pow2(8) == 256;
    }
  }

  /** The float conversion: `(v - 128) / 128` for 8-bit samples, `v / 2^(8w-1)` otherwise. */
  function Normalize(v: int, width: nat): real
    requires width >= 1
  {
    if width == 1 then (v as real - 128.0) / 128.0
    else v as real / Pow2(8 * width - 1) as real
  }

  lemma UnitQuotient(v: real, p: real)
    requires p > 0.0 && -p <= v < p
    ensures -1.0 <= v / p < 1.0
  {
  }

  /** A normalised sample lies in [-1, 1). */
  lemma NormalizeRange(bs: seq<Byte>)
    requires |bs| >= 1
    ensures -1.0 <= Normalize(SampleValue(bs), |bs|) < 1.0
  {
    SampleValueRange(bs);
    var v := SampleValue(bs) as real;
    if |bs| > 1 {
      var p := Pow2(8 * |bs| - 1) as real;
      UnitQuotient(v, p);
    } else {
      assert 0.0 <= v < 256.0;
    }
  }

  /** A length that divides evenly is the quotient's multiple. */
  lemma WholeMultiple(n: nat, m: int)
    requires m >= 1 && n % m == 0
    ensures n / m >= 0 && n == (n / m) * m
  {
  }

  /** The normalised samples of a frame buffer, one per `width` bytes. */
  function Decode(frames: seq<Byte>, width: nat): (r: seq<real>)
    requires width >= 1
    decreases |frames|
  {
    if |frames| < width then []
    else [Normalize(SampleValue(frames[..width]), width)] + Decode(frames[width..], width)
  }

  /** A buffer of n whole samples decodes to exactly n values, each in [-1, 1). */
  lemma {:induction false} DecodeSpec(frames: seq<Byte>, width: nat, n: nat)
    requires width >= 1 && |frames| == n * width
    ensures |Decode(frames, width)| == n
    ensures AllWithin(Decode(frames, width), -1.0, 1.0)
  {
    if n > 0 {
      assert |frames[width..]| == (n - 1) * width;
      DecodeSpec(frames[width..], width, n - 1);
      NormalizeRange(frames[..width]);
    }
  }

  /** `reshape(-1, channels)`: consecutive runs of `channels` values, one row per frame. */
  function Rows(values: seq<real>, channels: nat): (rows: seq<seq<real>>)
    requires channels >= 1
    ensures forall i :: 0 <= i < |rows| ==> |rows[i]| == channels
    decreases |values|
  {
    if |values| < channels then []
    else [values[..channels]] + Rows(values[channels..], channels)
  }

  /** Reshaping n whole frames gives n rows, and flattening them gives the values back in order. */
  lemma {:induction false} RowsFlatten(values: seq<real>, channels: nat, n: nat)
    requires channels >= 1 && |values| == n * channels
    ensures Flatten(Rows(values, channels)) == values
    ensures |Rows(values, channels)| == n
  {
    if n > 0 {
      var rest := values[channels..];
      assert |rest| == (n - 1) * channels;
      RowsFlatten(rest, channels, n - 1);
      assert values == values[..channels] + rest;
    }
  }

  lemma {:induction false} RowsWithin(values: seq<real>, channels: nat, lo: real, hi: real)
    requires channels >= 1 && AllWithin(values, lo, hi)
    ensures forall i :: 0 <= i < |Rows(values, channels)| ==> AllWithin(Rows(values, channels)[i], lo, hi)
    decreases |values|
  {
    if |values| >= channels {
      RowsWithin(values[channels..], channels, lo, hi);
    }
  }

  /** Why `_load_wav` raises: an unsupported width, a partial sample, or frames that do not divide into channels. */
  datatype WavError = UnsupportedSampleWidth(width: int) | PartialSample | PartialFrame

  /** The header fields and frame bytes of a WAV file. */
  datatype Wav = Wav(channels: int, sampleRate: int, sampleWidth: int, frames: seq<Byte>)

  /**
   * `_load_wav`: widths 1, 2 and 4 are accepted; the bytes are decoded and
   * normalised; with more than one channel the samples become one row per frame.
   */
  function LoadWav(w: Wav): (r: Result<Samples, WavError>)
    ensures w.sampleWidth !in {1, 2, 4} <==> r == Err(UnsupportedSampleWidth(w.sampleWidth))
    ensures w.sampleWidth in {1, 2, 4} && |w.frames| % w.sampleWidth != 0 <==> r == Err(PartialSample)
    ensures r == Err(PartialFrame) <==>
              && w.sampleWidth in {1, 2, 4} && |w.frames| % w.sampleWidth == 0 && w.channels > 1
              && |Decode(w.frames, w.sampleWidth)| % w.channels != 0
    ensures r.Ok? && w.channels > 1 ==> r.value == Matrix(Rows(Decode(w.frames, w.sampleWidth), w.channels), w.channels)
    ensures r.Ok? && w.channels <= 1 ==> r.value == Vector(Decode(w.frames, w.sampleWidth))
  {
    if w.sampleWidth !in {1, 2, 4} then Err(UnsupportedSampleWidth(w.sampleWidth))
    else if |w.frames| % w.sampleWidth != 0 then Err(PartialSample)
    else
      var values := Decode(w.frames, w.sampleWidth);
      if w.channels > 1 then
        if |values| % w.channels != 0 then Err(PartialFrame)
        else Ok(Matrix(Rows(values, w.channels), w.channels))
      else Ok(Vector(values))
  }

  /**
   * A loaded file is well shaped, every sample lies in [-1, 1), and a
   * multi-channel file flattens back to its decoded samples in file order.
   */
  lemma LoadWavSpec(w: Wav)
    requires LoadWav(w).Ok?
    ensures WellShaped(LoadWav(w).value)
    ensures SamplesWithin(LoadWav(w).value, -1.0, 1.0)
    ensures w.channels > 1 ==>
              Flatten(LoadWav(w).value.rows) == Decode(w.frames, w.sampleWidth)
              && |LoadWav(w).value.rows| * w.channels == |Decode(w.frames, w.sampleWidth)|
  {
    var width := w.sampleWidth;
    WholeMultiple(|w.frames|, width);
    DecodeSpec(w.frames, width, |w.frames| / width);
    var values := Decode(w.frames, width);
    if w.channels > 1 {
      assert |values| % w.channels == 0;
      WholeMultiple(|values|, w.channels);
      RowsWithin(values, w.channels, -1.0, 1.0);
      RowsFlatten(values, w.channels, |values| / w.channels);
    }
  }

  /** A mono 16-bit file decodes to one sample per two bytes, all within [-1, 1). */
  lemma MonoSixteenBit(frames: seq<Byte>)
    requires |frames| % 2 == 0
    ensures LoadWav(Wav(1, 16000, 2, frames)).Ok?
    ensures |LoadWav(Wav(1, 16000, 2, frames)).value.values| * 2 == |frames|
  {
    DecodeSpec(frames, 2, |frames| / 2);
  }

  /** Full-scale bytes: 0x00 is -1 and 0xff is 127/128 in 8-bit audio; 0x00 0x80 is -1 in 16-bit audio. */
  lemma NormalizeExamples()
    ensures Normalize(SampleValue([0]), 1) == -1.0
    ensures Normalize(SampleValue([255]), 1) == 127.0 / 128.0
    ensures Normalize(SampleValue([0, 128]), 2) == -1.0
  {
    assert Pow2(8) == 256;
    assert Pow2(15) == 32768;
    assert Pow2(16) == 65536;
    assert LittleEndian([0, 128]) == 32768 by {
      assert [0, 128][1..] == [128];
    }
  }

  // ---------------------------------------------------------------- the window scan

  /** `max(1, int(stride * 16000))`: the hop between window starts, in samples. */
  function StrideSamples(stride: real): (s: nat)
    ensures s >= 1
    ensures stride * SampleRate as real >= 1.0 ==> s as real <= stride * SampleRate as real < s as real + 1.0
  {
    var t := Truncate(stride * SampleRate as real);
    if t >= 1 then t else 1
  }

  /** The length of `range(0, total - window + 1, stride)`. */
  function WindowCount(total: nat, window: nat, stride: nat): nat
    requires stride >= 1
  {
    if total < window then 0 else (total - window) / stride + 1
  }

  /** The starts are exactly the multiples of the stride at or below `total - window`. */
  lemma WindowCountSpec(total: nat, window: nat, stride: nat, k: nat)
    requires stride >= 1
    ensures k < WindowCount(total, window, stride) <==> k * stride + window <= total
  {
    if total >= window {
      var q := (total - window) / stride;
      assert total - window == q * stride + (total - window) % stride;
      if k <= q {
        assert k * stride <= q * stride;
      } else {
        assert k * stride >= (q + 1) * stride;
      }
    }
  }

  /** The k-th window: `mono[start : start + window]` with `start = k * stride`. */
  function WindowAt(mono: seq<real>, window: nat, stride: nat, k: nat): (w: seq<real>)
    requires stride >= 1 && k < WindowCount(|mono|, window, stride)
    ensures |w| == window
  {
    WindowCountSpec(|mono|, window, stride, k);
    mono[k * stride..k * stride + window]
  }

  /** What `_infer_window` gives for the k-th window. */
  function WindowInference(mono: seq<real>, window: nat, stride: nat, k: nat, cfg: CryConfig,
                           model: seq<real> -> seq<real>): Inference
    requires stride >= 1 && k < WindowCount(|mono|, window, stride)
    requires CanInfer(cfg.classNames, cfg.cryIndices) && ModelMatches(cfg, model)
  {
    InferWindow(model(WindowAt(mono, window, stride, k)), cfg.classNames, cfg.cryIndices)
  }

  /** The cry scores of all windows, in order. */
  function WindowScores(mono: seq<real>, window: nat, stride: nat, cfg: CryConfig,
                        model: seq<real> -> seq<real>): (s: seq<real>)
    requires stride >= 1
    requires CanInfer(cfg.classNames, cfg.cryIndices) && ModelMatches(cfg, model)
    ensures |s| == WindowCount(|mono|, window, stride)
    ensures forall k :: 0 <= k < |s| ==> s[k] == WindowInference(mono, window, stride, k, cfg, model).cryScore
  {
    seq(WindowCount(|mono|, window, stride),
        k requires 0 <= k < WindowCount(|mono|, window, stride) =>
          WindowInference(mono, window, stride, k, cfg, model).cryScore)
  }

  /** One printed line: the window's time, its scores and the hysteresis decision after it. */
  datatype WindowReport = WindowReport(t: real, cryScore: real, cryDetected: bool, topLabel: string, topScore: real)

  /** The line of the k-th window, given the decision after it. */
  function ReportAt(mono: seq<real>, window: nat, stride: nat, k: nat, detected: bool, cfg: CryConfig,
                    model: seq<real> -> seq<real>): WindowReport
    requires stride >= 1 && k < WindowCount(|mono|, window, stride)
    requires CanInfer(cfg.classNames, cfg.cryIndices) && ModelMatches(cfg, model)
  {
    var inference := WindowInference(mono, window, stride, k, cfg, model);
    WindowReport(StartTime(k * stride), inference.cryScore, detected,
                 inference.topLabel, inference.topScore)
  }

  /** The lines of the whole scan: decisions follow the hysteresis trace of the scores from "not detected". */
  function Reports(mono: seq<real>, window: nat, stride: nat, cfg: CryConfig,
                   model: seq<real> -> seq<real>): (r: seq<WindowReport>)
    requires stride >= 1
    requires CanInfer(cfg.classNames, cfg.cryIndices) && ModelMatches(cfg, model)
    ensures |r| == WindowCount(|mono|, window, stride)
  {
    var trace := HysteresisTrace(false, WindowScores(mono, window, stride, cfg, model),
                                 cfg.enterThreshold, cfg.exitThreshold);
    seq(WindowCount(|mono|, window, stride),
        k requires 0 <= k < WindowCount(|mono|, window, stride) =>
          ReportAt(mono, window, stride, k, trace[k], cfg, model))
  }

  /**
   * The k-th line is the k-th window's: its start time, its cry score and top
   * class, and the hysteresis decision taken from the line before it (or from
   * "not detected" for the first window).
   */
  lemma ReportsSpec(mono: seq<real>, window: nat, stride: nat, cfg: CryConfig,
                    model: seq<real> -> seq<real>, k: nat)
    requires stride >= 1 && k < WindowCount(|mono|, window, stride)
    requires CanInfer(cfg.classNames, cfg.cryIndices) && ModelMatches(cfg, model)
    ensures var r := Reports(mono, window, stride, cfg, model);
            var inference := WindowInference(mono, window, stride, k, cfg, model);
            && r[k].t == StartTime(k * stride)
            && r[k].cryScore == inference.cryScore
            && r[k].topLabel == inference.topLabel && r[k].topScore == inference.topScore
            && r[k].cryDetected == Hysteresis(if k == 0 then false else r[k - 1].cryDetected, r[k].cryScore,
                                              cfg.enterThreshold, cfg.exitThreshold)
  {
    var scores := WindowScores(mono, window, stride, cfg, model);
    TraceStep(scores, cfg.enterThreshold, cfg.exitThreshold, k);
  }

  /** The time of the window starting at sample `start`, in seconds. */
  function StartTime(start: nat): real {
    start as real / SampleRate as real
  }

  /**
   * After the first i scores: `maxScore` is the maximum of 0 and those scores,
   * and `maxAt` the time of the first window reaching it (0 when none is positive).
   */
  ghost predicate FirstMaximum(scores: seq<real>, i: nat, stride: nat, maxScore: real, maxAt: real)
    requires i <= |scores|
  {
    && maxScore >= 0.0
    && (forall k :: 0 <= k < i ==> scores[k] <= maxScore)
    && (maxScore == 0.0 ==> maxAt == 0.0)
    && (maxScore > 0.0 ==>
          exists k :: && 0 <= k < i && scores[k] == maxScore && maxAt == StartTime(k * stride)
                      && forall j :: 0 <= j < k ==> scores[j] < maxScore)
  }

  /** Replacing the maximum only on a strictly greater score keeps the first maximum. */
  lemma FirstMaximumStep(scores: seq<real>, i: nat, stride: nat, maxScore: real, maxAt: real)
    requires i < |scores| && FirstMaximum(scores, i, stride, maxScore, maxAt)
    ensures scores[i] > maxScore ==> FirstMaximum(scores, i + 1, stride, scores[i], StartTime(i * stride))
    ensures scores[i] <= maxScore ==> FirstMaximum(scores, i + 1, stride, maxScore, maxAt)
  {
    if scores[i] > maxScore {
      assert forall j :: 0 <= j < i ==> scores[j] < scores[i];
    } else if maxScore > 0.0 {
      var k :| && 0 <= k < i && scores[k] == maxScore && maxAt == StartTime(k * stride)
               && forall j :: 0 <= j < k ==> scores[j] < maxScore;
      assert 0 <= k < i + 1;
    }
  }

  /** The decision after window i follows from the decision after window i - 1 (or "not detected"). */
  lemma TraceStep(scores: seq<real>, enter: real, exit: real, i: nat)
    requires i < |scores|
    ensures var t := HysteresisTrace(false, scores, enter, exit);
            t[i] == Hysteresis(if i == 0 then false else t[i - 1], scores[i], enter, exit)
  {
    if i > 0 {
      HysteresisTraceSteps(false, scores, enter, exit, i);
    }
  }

  /** What the scan learns from window i: its score, the decision after it, and its line. */
  lemma ScanStep(mono: seq<real>, window: nat, stride: nat, cfg: CryConfig, model: seq<real> -> seq<real>, i: nat)
    requires stride >= 1 && i < WindowCount(|mono|, window, stride)
    requires CanInfer(cfg.classNames, cfg.cryIndices) && ModelMatches(cfg, model)
    ensures var scores := WindowScores(mono, window, stride, cfg, model);
            var trace := HysteresisTrace(false, scores, cfg.enterThreshold, cfg.exitThreshold);
            var inference := WindowInference(mono, window, stride, i, cfg, model);
            var reports := Reports(mono, window, stride, cfg, model);
            && scores[i] == inference.cryScore
            && trace[i] == Hysteresis(if i == 0 then false else trace[i - 1], inference.cryScore,
                                      cfg.enterThreshold, cfg.exitThreshold)
            && reports[..i + 1] == reports[..i] + [ReportAt(mono, window, stride, i, trace[i], cfg, model)]
  {
    var scores := WindowScores(mono, window, stride, cfg, model);
    TraceStep(scores, cfg.enterThreshold, cfg.exitThreshold, i);
    var reports := Reports(mono, window, stride, cfg, model);
    assert reports[..i + 1] == reports[..i] + [reports[i]];
  }

  /**
   * One pass of the window loop of `main`: the window's line, the hysteresis
   * decision after it, and the running maximum with the new score taken in.
   */
  method ScanWindow(mono: seq<real>, window: nat, stride: nat, cfg: CryConfig, model: seq<real> -> seq<real>,
                    i: nat, wasDetected: bool, maxScore: real, maxAt: real)
    returns (report: WindowReport, detected: bool, newMaxScore: real, newMaxAt: real)
    requires stride >= 1 && i < WindowCount(|mono|, window, stride)
    requires CanInfer(cfg.classNames, cfg.cryIndices) && ModelMatches(cfg, model)
    requires FirstMaximum(WindowScores(mono, window, stride, cfg, model), i, stride, maxScore, maxAt)
    ensures detected == Hysteresis(wasDetected, WindowScores(mono, window, stride, cfg, model)[i],
                                   cfg.enterThreshold, cfg.exitThreshold)
    ensures report == ReportAt(mono, window, stride, i, detected, cfg, model)
    ensures FirstMaximum(WindowScores(mono, window, stride, cfg, model), i + 1, stride, newMaxScore, newMaxAt)
  {
    var start := i * stride;
    var inference := InferWindow(model(WindowAt(mono, window, stride, i)), cfg.classNames, cfg.cryIndices);
    detected := wasDetected;
    if wasDetected {
      if inference.cryScore <= cfg.exitThreshold {
        detected := false;
      }
    } else if inference.cryScore >= cfg.enterThreshold {
      detected := true;
    }
    var t := StartTime(start);
    FirstMaximumStep(WindowScores(mono, window, stride, cfg, model), i, stride, maxScore, maxAt);
    newMaxScore, newMaxAt := maxScore, maxAt;
    if inference.cryScore > maxScore {
      newMaxScore, newMaxAt := inference.cryScore, t;
    }
    report := WindowReport(t, inference.cryScore, detected, inference.topLabel, inference.topScore);
  }

  /**
   * The window loop of `main`: the reports are the expected lines, and
   * `maxScore`/`maxAt` are the first maximum of the cry scores (at least 0).
   */
  method ScanWindows(mono: seq<real>, window: nat, stride: nat, cfg: CryConfig, model: seq<real> -> seq<real>)
    returns (reports: seq<WindowReport>, maxScore: real, maxAt: real)
    requires stride >= 1
    requires CanInfer(cfg.classNames, cfg.cryIndices) && ModelMatches(cfg, model)
    ensures reports == Reports(mono, window, stride, cfg, model)
    ensures FirstMaximum(WindowScores(mono, window, stride, cfg, model), WindowCount(|mono|, window, stride),
                         stride, maxScore, maxAt)
  {
    ghost var scores := WindowScores(mono, window, stride, cfg, model);
    ghost var trace := HysteresisTrace(false, scores, cfg.enterThreshold, cfg.exitThreshold);
    ghost var expected := Reports(mono, window, stride, cfg, model);
    var count := WindowCount(|mono|, window, stride);
    reports := [];
    var cryDetected := false;
    maxScore := 0.0;
    maxAt := 0.0;
    var i := 0;
    while i < count
      invariant 0 <= i <= count
      invariant reports == expected[..i]
      invariant cryDetected == if i == 0 then false else trace[i - 1]
      invariant FirstMaximum(scores, i, stride, maxScore, maxAt)
    {
      ScanStep(mono, window, stride, cfg, model, i);
      var report;
      report, cryDetected, maxScore, maxAt := ScanWindow(mono, window, stride, cfg, model, i, cryDetected, maxScore, maxAt);
      reports := reports + [report];
      i := i + 1;
    }
    assert expected[..count] == expected;
  }

  // ---------------------------------------------------------------- the command

  /** How a run of the check ends. */
  datatype CheckOutcome =
    | StrideDivisionByZero      // `1.0 / args.stride` raises before anything is loaded
    | DetectorDisabled          // exit status 1
    | WavRejected(error: WavError)
    | AudioTooShort             // exit status 2
    | Scanned(reports: seq<WindowReport>, maxScore: real, maxAt: real)   // exit status 0

  /** The process exit status; none when the run ends with an exception. */
  function ExitStatus(o: CheckOutcome): (s: Option<int>)
    ensures s == Some(1) <==> o.DetectorDisabled?
    ensures s == Some(2) <==> o.AudioTooShort?
    ensures s == Some(0) <==> o.Scanned?
    ensures s.None? <==> o.StrideDivisionByZero? || o.WavRejected?
  {
    match o
    case StrideDivisionByZero => None
    case DetectorDisabled => Some(1)
    case WavRejected(_) => None
    case AudioTooShort => Some(2)
    case Scanned(_, _, _) => Some(0)
  }

  /** `max(0.1, 1.0 / stride)`, for a non-zero stride. */
  function InferHz(stride: real): real
    requires stride != 0.0
  {
    if 1.0 / stride < 0.1 then 0.1 else 1.0 / stride
  }

  /**
   * `main`: build the detector with the default thresholds, load the file,
   * down-mix and resample it, refuse audio shorter than one window, then scan.
   * `load` is how loading the audio model went; the detector is enabled exactly
   * when its class map has a cry class.
   */
  method RunCheck(wav: Wav, windowSeconds: real, stride: real, load: ModelLoad,
                  model: seq<real> -> seq<real>, resample: (seq<real>, nat) -> seq<real>)
    returns (outcome: CheckOutcome)
    requires load.Loaded? ==> forall w :: |model(w)| >= |load.classNames|
    ensures stride == 0.0 <==> outcome == StrideDivisionByZero
    ensures stride != 0.0 ==>
              (outcome == DetectorDisabled <==>
                 load.LoadFailed? || forall i :: 0 <= i < |load.classNames| ==> !IsCryClassName(load.classNames[i]))
    ensures outcome.DetectorDisabled? ==>
              load.LoadFailed? || forall i :: 0 <= i < |load.classNames| ==> !IsCryClassName(load.classNames[i])
    ensures outcome.WavRejected? ==> LoadWav(wav) == Err(outcome.error)
    ensures outcome.AudioTooShort? || outcome.Scanned? ==>
              && load.Loaded? && LoadWav(wav).Ok?
              && var mono := Incoming(AudioPacket(LoadWav(wav).value, wav.sampleRate, wav.channels), resample);
                 var cfg := CryConfig(DefaultEnterThreshold, DefaultExitThreshold, 1.0 / InferHz(stride),
                                      load.classNames, CryIndicesBelow(load.classNames, |load.classNames|));
                 && CanInfer(cfg.classNames, cfg.cryIndices) && ModelMatches(cfg, model)
                 && (outcome.AudioTooShort? <==> |mono| < WindowSamples(windowSeconds))
                 && (outcome.Scanned? ==>
                       && outcome.reports == Reports(mono, WindowSamples(windowSeconds), StrideSamples(stride), cfg, model)
                       && FirstMaximum(WindowScores(mono, WindowSamples(windowSeconds), StrideSamples(stride), cfg, model),
                                       WindowCount(|mono|, WindowSamples(windowSeconds), StrideSamples(stride)),
                                       StrideSamples(stride), outcome.maxScore, outcome.maxAt))
  {
    if stride == 0.0 {
      return StrideDivisionByZero;
    }
    var detector := new CryingAudioDetector(windowSeconds, InferHz(stride), DefaultEnterThreshold,
                                            DefaultExitThreshold, load);
    if !detector.enabled {
      return DetectorDisabled;
    }
    var loaded := LoadWav(wav);
    if loaded.Err? {
      return WavRejected(loaded.error);
    }
    LoadWavSpec(wav);
    var mono := Incoming(AudioPacket(loaded.value, wav.sampleRate, wav.channels), resample);
    var windowSamples := detector.windowSamples;
    var strideSamples := StrideSamples(stride);
    if |mono| < windowSamples {
      return AudioTooShort;
    }
    var reports, maxScore, maxAt := ScanWindows(mono, windowSamples, strideSamples, detector.Config(), model);
    return Scanned(reports, maxScore, maxAt);
  }
}
