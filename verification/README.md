# A Dafny model of the baby-monitor vision and audio pipeline

The system watches a child through a camera and a microphone:

- **Backend video processors** consume frames from a shared frame distributor.
  - A remote classifier finds toddlers and adults.
  - A pose model flags falls.
  - A fusion publisher draws the boxes of the object and toddler stages onto an output video track.
- **Crying monitor.** It slices incoming audio into one-second chunks, scores each chunk with an audio classifier, and keeps an enter/exit hysteresis decision and a three-of-five alarm.
- **Offline cry check.** A command-line tool runs the same scoring over a WAV file, window by window.
- **Browser side.**
  - A sample page and a React hook show the MJPEG stream and poll a status endpoint.
  - An activity card times a session.

This project models the decision logic of those pieces in Dafny and proves what each one promises. The opaque model calls (audio classifier, pose and object detectors, remote classifier), the clock and the resampler become parameters.

Modules, one per source file plus shared helpers:

| module | file | models |
|---|---|---|
| `Wrappers`, `Values`, `Text` | wrappers.dfy, values.dfy, text.dfy | Option/Result, JSON-like Python values, Python/JavaScript string primitives |
| `Geometry` | geometry.dfy | backend/processors/base.py |
| `DetectionEvents` | events.dfy | backend/events/detection_events.py |
| `Forwarding` | forwarding.dfy | the frame distributor as a handler registry, and the subscribe/unsubscribe bookkeeping the three video processors share |
| `CryingAudio` | cry_monitor.dfy | backend/processors/crying_audio_detector.py |
| `CryingAudioCheck` | offline_check.dfy | backend/tools/crying_audio_check.py |
| `Toddler` | toddler.dfy | backend/processors/toddler_processor.py |
| `FallDetection` | fall_detection.dfy | backend/processors/fall_detection.py |
| `CombinedPublisher` | publisher.dfy | backend/processors/combined_video_publisher.py |
| `StreamApi` | stream_api.dfy | the pure helpers shared by frontend/sample/app.js and frontend/src/hooks/useLiveStream.js |
| `SampleApp` | sample_app.dfy | frontend/sample/app.js |
| `LiveStreamHook` | live_stream_hook.dfy | frontend/src/hooks/useLiveStream.js |
| `ActivityCard` | activity_card.dfy | frontend/src/components/home/ActivityCard.jsx |

Modelling conventions:

- **Locks and await points.** A handler that holds an `asyncio.Lock` across an `await` is split in two:
  - `BeginFrame` drops the frame when the `busy` flag is set, and otherwise sets it.
  - `FinishFrame` takes the awaited result as a parameter, applies it and clears the flag.
- **Timers.** JavaScript timers are explicit events (`OnRetryTimer`, `Tick`), and a pending retry is a flag.
- **Numbers.** Floats are exact reals. Python's `int()` on a float is truncation toward zero (`Geometry.Truncate`), and `round()` is half-to-even (`Geometry.RoundHalfEven`).

## Model

| member | source | states |
|---|---|---|
| Geometry.Truncate | backend/processors/base.py:162-165 | `int(x)` truncates toward zero: the result is within one of x and no farther from zero |
| Geometry.RoundHalfEven | backend/processors/toddler_processor.py:85-88 | `round(x)` is within 0.5 of x, and an exact tie goes to the even neighbour |
| Geometry.RoundHalfEvenMonotone | backend/processors/toddler_processor.py:85-88 | rounding never reverses the order of two values, so rounded corners stay ordered |
| Geometry.BoxCenter | backend/processors/base.py:91-94 | each coordinate is the floor of the midpoint (`//` on the corner sums) |
| Geometry.OverlapRatio | backend/processors/base.py:124-144 | the ratio is 0 whenever the max/min intersection is empty |
| Geometry.IntersectionAreaBounds | backend/processors/base.py:131-141 | a non-empty intersection has positive area at most each box's area, so the union is positive |
| Geometry.OverlapRatioBounds | backend/processors/base.py:139-144 | intersection over union always lies in [0, 1], and is positive for overlapping boxes |
| Geometry.RatioAtMostOne | backend/processors/base.py:144 | a positive area over a union at least as large lies in (0, 1] |
| Geometry.OverlapRatioSymmetric | backend/processors/base.py:124-144 | the ratio does not depend on the order of the two boxes |
| Geometry.OverlapRatioSelf | backend/processors/base.py:139-144 | a box of positive area has ratio exactly 1 with itself |
| Geometry.FormatBoxes | backend/processors/base.py:156-169 | succeeds iff every box's class has a name; then one record per box, in order, with the box's class name, index and truncated corners; otherwise fails on a box whose class has no name |
| Geometry.FormatYoloDetectionsRecords | backend/processors/base.py:149-169 | each record of the first result carries `names[cls]`, `cls` and the box with every corner `int()`-truncated toward zero |
| DetectionEvents.EventDefaults | backend/events/detection_events.py:8-62 | every event kind starts at frame 0 and time 0 with its own name; fall, face, toddler and cry confidences are 0; fall, face and toddler boxes and the proximity and danger-object child boxes are the zero box with distance 0; the person, edge, zone and object labels default to "unknown" (a zone violation's object to "person"); the object list starts empty |
| Forwarding.Forwarder.constructor | backend/processors/toddler_processor.py:107-112 | a new distributor is stopped and has no handlers |
| Forwarding.Forwarder.Start | backend/processors/toddler_processor.py:113 | starting sets the running flag and keeps the handlers |
| Forwarding.Forwarder.Stop | backend/processors/toddler_processor.py:185-186 | stopping clears the running flag and keeps the handlers |
| Forwarding.Forwarder.AddHandler | backend/processors/toddler_processor.py:116-120 | registering adds or replaces exactly the named handler |
| Forwarding.Forwarder.RemoveHandler | backend/processors/toddler_processor.py:183-184 | unregistering removes exactly the named handler |
| Forwarding.Subscription.constructor | backend/processors/toddler_processor.py:47-49 | no distributor is held or owned, and no handler is registered |
| Forwarding.Subscription.Attach | backend/processors/toddler_processor.py:91-121 | the previous distributor loses the handler and is stopped only if owned; then the handler is on the shared distributor (not owned), or on a fresh, started and owned one |
| Forwarding.Subscription.Detach | backend/processors/toddler_processor.py:182-189 | the handler is removed; the distributor is stopped only if owned; afterwards nothing is held, owned or registered; with nothing held nothing changes |
| Forwarding.StopTwice | backend/processors/toddler_processor.py:182-189 | stopping twice leaves the distributor as one stop leaves it |
| CryingAudio.MatchesCryKeyword | backend/processors/crying_audio_detector.py:145 | the keyword loop answers true iff the name contains one of the cry keywords |
| Text.Lower | backend/processors/crying_audio_detector.py:144 | the same length, every ASCII capital lowered and every other character kept |
| CryingAudio.IndicesBelowSpec | backend/processors/crying_audio_detector.py:141-147 | the collected indices are exactly the qualifying ones, in range and strictly increasing |
| CryingAudio.ResolveCryClassIndices | backend/processors/crying_audio_detector.py:141-147 | the result holds exactly the in-range indices whose lower-cased, stripped name contains a cry keyword, strictly increasing |
| CryingAudio.BabyCryIsCryClass | backend/processors/crying_audio_detector.py:141-147 | the class "Baby cry, infant cry" resolves as a cry class |
| CryingAudio.SpeechIsNotCryClass | backend/processors/crying_audio_detector.py:141-147 | the class "Speech" does not |
| CryingAudio.MeanBounds | backend/processors/crying_audio_detector.py:155-157 | a mean lies between the bounds of the averaged values |
| CryingAudio.Column | backend/processors/crying_audio_detector.py:155 | the column holds the j-th value of every row |
| CryingAudio.FlattenLength | backend/processors/crying_audio_detector.py:158 | flattening r rows of width w gives r·w values |
| CryingAudio.ToMono | backend/processors/crying_audio_detector.py:150-159 | 1-D input is kept; a channel-major matrix gives one mean per column, a channel-minor one one mean per row; any other matrix and higher ranks are flattened |
| CryingAudio.ToMonoWithin | backend/processors/crying_audio_detector.py:150-159 | down-mixing keeps every sample within the bounds of its input |
| CryingAudio.ResampledLength | backend/processors/crying_audio_detector.py:161-165 | the input length at 16 kHz; otherwise at least 1 |
| CryingAudio.ResampledLengthScales | backend/processors/crying_audio_detector.py:164-165 | from a rate dividing 16 kHz the length scales by the exact factor; a non-positive rate counts as 1 Hz |
| CryingAudio.IncomingLength | backend/processors/crying_audio_detector.py:161-170 | with a resampler that returns the length it is asked for, 16 kHz audio is the down-mixed audio unchanged, and any other rate gives exactly the target length |
| CryingAudio.MaxOverSpec | backend/processors/crying_audio_detector.py:176 | the cry score is one of the cry classes' scores and bounds all of them |
| CryingAudio.ArgMaxSpec | backend/processors/crying_audio_detector.py:177 | `argmax` picks a greatest score, and no earlier index holds one as great |
| CryingAudio.InferWindowSpec | backend/processors/crying_audio_detector.py:172-180 | the cry score is the maximum over cry classes; the top label and score belong to the first highest class, named by the class map or by its index |
| CryingAudio.Hysteresis | backend/processors/crying_audio_detector.py:238-242 | undetected becomes detected iff score ≥ enter; detected stays iff score > exit |
| CryingAudio.HysteresisTrace | backend/processors/crying_audio_detector.py:238-242 | one decision per score, the first from the start state |
| CryingAudio.HysteresisTraceSteps | backend/processors/crying_audio_detector.py:238-242 | every later decision applies the rule to the one before it |
| CryingAudio.HysteresisHoldsInBand | backend/processors/crying_audio_detector.py:238-242 | scores strictly between exit and enter never change the decision |
| CryingAudio.HysteresisExample | backend/processors/crying_audio_detector.py:238-242 | with the default 0.35/0.20 thresholds, 0.1, 0.4, 0.3, 0.15 enters on 0.4 and leaves on 0.15 |
| CryingAudio.CountTrueConcat | backend/processors/crying_audio_detector.py:247 | counting detections splits over concatenation |
| CryingAudio.PushRecent | backend/processors/crying_audio_detector.py:244-246 | the decision is appended; the oldest entry is evicted once the history would exceed five |
| CryingAudio.PushRecentCount | backend/processors/crying_audio_detector.py:244-247 | the history never exceeds five, and its detection count changes by the new entry minus the evicted one |
| CryingAudio.AlarmExample | backend/processors/crying_audio_detector.py:244-247 | three detections in five raise the alarm; a miss that evicts a detection drops it |
| CryingAudio.Decide | backend/processors/crying_audio_detector.py:224-247 | the decision keeps the monitor invariant (history ≤ 5, newest entry = decision, alarm = three of five), records the time and the score |
| CryingAudio.ChunkStep | backend/processors/crying_audio_detector.py:221-247 | a chunk younger than the interval changes nothing; otherwise the inference time is now and the invariant holds |
| CryingAudio.Drain | backend/processors/crying_audio_detector.py:217-219 | the slicing loop leaves the last `len mod 16000` samples of the buffer, fewer than one chunk, and keeps the invariant |
| CryingAudio.DrainSkipped | backend/processors/crying_audio_detector.py:221-223 | when every clock reading is too early, slicing leaves the decision state alone |
| CryingAudio.WindowSamples | backend/processors/crying_audio_detector.py:56-63 | the window is `int(max(0.5, w) * 16000)` samples, the truncation of the clamped length, and so at least 8000 |
| CryingAudio.ResolveClassMap | backend/processors/crying_audio_detector.py:92-110 | a failed load and an empty class map each give their disable reason; otherwise the names are kept and the indices are exactly the cry classes, non-empty iff some class is a cry class |
| CryingAudio.CryingAudioDetector.constructor | backend/processors/crying_audio_detector.py:48-127 | window and rate clamped; enabled iff the model loaded and some class is a cry class, else the reason is kept; all state at its initial values |
| CryingAudio.CryingAudioDetector.ProcessAudio | backend/processors/crying_audio_detector.py:182-194 | disabled, absent, empty or a full queue: nothing changes; otherwise the packet is queued last |
| CryingAudio.CryingAudioDetector.WorkerStep | backend/processors/crying_audio_detector.py:196-259 | a stopped worker or an empty queue changes nothing; otherwise the oldest packet is taken and stamped; empty mono audio changes nothing else; otherwise it is appended to the buffer, which is drained |
| CryingAudio.CryingAudioDetector.FailWorkerPass | backend/processors/crying_audio_detector.py:196-206 | a pass that raises while down-mixing or resampling takes the oldest packet and stops the worker for good; nothing else changes |
| CryingAudio.CryingAudioDetector.DrainBuffer | backend/processors/crying_audio_detector.py:217-259 | the loop's buffer and decision state are those of `Drain` |
| CryingAudio.CryingAudioDetector.ConsumeChunk | backend/processors/crying_audio_detector.py:221-247 | the rate-limit gate and the decision, as `ChunkStep` |
| CryingAudio.CryingAudioDetector.ApplyInference | backend/processors/crying_audio_detector.py:227-247 | score fields, hysteresis, history push and alarm recount, as `Decide` |
| CryingAudio.CryingAudioDetector.State | backend/processors/crying_audio_detector.py:266-277 | a copy of the public fields; alarm iff three detections, history ≤ 5 ending in the decision, and a disabled monitor at its initial values |
| CryingAudio.CryingAudioDetector.Close | backend/processors/crying_audio_detector.py:279-280 | the effective `close` empties the buffer and changes nothing else |
| CryingAudioCheck.Pow2Add | backend/tools/crying_audio_check.py:41 | powers of two multiply by adding exponents |
| CryingAudioCheck.LittleEndianBound | backend/tools/crying_audio_check.py:36 | the value of w bytes is below 2^(8w) |
| CryingAudioCheck.SampleValueRange | backend/tools/crying_audio_check.py:27-36 | 8-bit samples are unsigned bytes; wider ones lie in [-2^(8w-1), 2^(8w-1)) |
| CryingAudioCheck.NormalizeRange | backend/tools/crying_audio_check.py:37-42 | every converted sample lies in [-1, 1) |
| CryingAudioCheck.DecodeSpec | backend/tools/crying_audio_check.py:36-42 | n whole samples decode to exactly n values in [-1, 1) |
| CryingAudioCheck.RowsFlatten | backend/tools/crying_audio_check.py:44-45 | reshaping n frames gives n rows whose flattening is the decoded samples in file order |
| CryingAudioCheck.LoadWav | backend/tools/crying_audio_check.py:19-47 | widths other than 1, 2, 4 are refused (iff); a partial sample is refused (iff); a partial frame is refused iff the decoded samples do not fill whole frames; mono stays one-dimensional; more channels give exactly the decoded samples cut into rows of that width |
| CryingAudioCheck.LoadWavSpec | backend/tools/crying_audio_check.py:19-47 | a loaded file is well shaped, in [-1, 1), and its rows flatten back to the samples |
| CryingAudioCheck.NormalizeExamples | backend/tools/crying_audio_check.py:37-42 | 8-bit 0x00 is -1 and 0xff is 127/128; 16-bit 0x8000 is -1 |
| CryingAudioCheck.StrideSamples | backend/tools/crying_audio_check.py:68 | the stride is at least one sample, and the truncated stride time when that is at least one |
| CryingAudioCheck.WindowCountSpec | backend/tools/crying_audio_check.py:79 | the k-th start exists iff k·stride + window ≤ total |
| CryingAudioCheck.WindowAt | backend/tools/crying_audio_check.py:80 | every window has exactly the window length |
| CryingAudioCheck.WindowScores | backend/tools/crying_audio_check.py:79-81 | one cry score per window start, in order |
| CryingAudioCheck.ReportsSpec | backend/tools/crying_audio_check.py:79-105 | line k carries window k's start time, cry score and top class, and the hysteresis decision taken from line k-1 (from "not detected" for the first) |
| CryingAudioCheck.FirstMaximumStep | backend/tools/crying_audio_check.py:89-92 | replacing the maximum only on a strictly greater score keeps the first maximum |
| CryingAudioCheck.ScanStep | backend/tools/crying_audio_check.py:79-92 | window i's score, decision and line follow from the previous decision |
| CryingAudioCheck.ScanWindow | backend/tools/crying_audio_check.py:79-92 | one window: the decision is the hysteresis step from the previous one, the line is the window's line, and the running maximum takes the new score in |
| CryingAudioCheck.ScanWindows | backend/tools/crying_audio_check.py:75-110 | the lines are the windows' times, scores and hysteresis decisions from "not detected"; `max_score` is the maximum of 0 and all scores and `max_at` the time of the first window reaching it |
| CryingAudioCheck.ExitStatus | backend/tools/crying_audio_check.py:59-113 | exit 1 iff disabled, 2 iff too short, 0 iff scanned; none when an exception ends the run |
| CryingAudioCheck.RunCheck | backend/tools/crying_audio_check.py:50-113 | a zero stride raises; exit 1 happens exactly when the model failed to load or none of its classes is a cry class; a refused file raises; audio shorter than a window exits 2; otherwise the lines are those of the scan and `max_score`/`max_at` are the first maximum over the window scores |
| Toddler.ParseModelId | backend/processors/toddler_processor.py:57-64 | refused iff there is no "/"; otherwise split at the last "/", and a version that is not an integer is refused |
| Toddler.ParseModelIdRoundTrip | backend/processors/toddler_processor.py:57-64 | a project (which may contain "/") joined to a version parses back to both |
| Toddler.GroupedVersionAccepted | backend/processors/toddler_processor.py:57-64 | a version written with a grouping underscore ("p/1_0") parses as `int()` reads it, 10 |
| Text.ParseGroupedNat | backend/processors/toddler_processor.py:62 | digits with single underscores between them (as `int()` accepts) read as a number, and nothing else does; plain digits read as before |
| Text.GroupedNatExamples | backend/processors/toddler_processor.py:62 | "1_0" is 10; "1__0" and "1_" are refused |
| Text.ParsePyIntOfNat | backend/processors/toddler_processor.py:62 | `int(str(n)) == n` |
| Text.ParsePyIntNegative | backend/processors/toddler_processor.py:62 | a leading minus negates: `int("-" + str(n)) == -n` |
| Toddler.SafeFloat | backend/processors/toddler_processor.py:66-73 | numbers are kept; None, lists and dictionaries give none |
| Toddler.ParseDecimalOfNat | backend/processors/toddler_processor.py:66-73 | the decimal text of a natural number reads back as that number |
| Toddler.ParseDecimalSignedFraction | backend/processors/toddler_processor.py:66-73 | "-2.25" reads as -2.25: a sign and a fractional part are honoured |
| Toddler.PredictionToBox | backend/processors/toddler_processor.py:76-89 | a box iff every coordinate is numeric and width and height are positive; then ordered corners within half a pixel of centre ± half size |
| Toddler.MinConfidence | backend/processors/toddler_processor.py:155-161 | for any class but a toddler the floor is exactly the stage threshold; for a toddler it is the threshold or 0.8, whichever is larger |
| Toddler.PredictionsSource | backend/processors/toddler_processor.py:144-146 | predictions come only from a list under "predictions" in a dictionary answer; any other answer has none |
| Toddler.ClassLabelSpec | backend/processors/toddler_processor.py:152 | a label exists exactly for strings, None and booleans; it is never empty and never starts or ends with white space |
| Toddler.KeepPrediction | backend/processors/toddler_processor.py:149-171 | one prediction is kept, as its detection record, exactly when `Keep` keeps it |
| Toddler.KeepPasses | backend/processors/toddler_processor.py:152-164 | a kept prediction has a non-empty allowed class, meets the stage threshold, a toddler meets the 0.8 floor, and its corners are ordered |
| Toddler.FilterPredictions | backend/processors/toddler_processor.py:148-171 | the loop keeps exactly the records of `Retained`, in prediction order |
| Toddler.RetainedPassFilters | backend/processors/toddler_processor.py:152-164 | every kept record is a toddler or an adult at or above its floor, with ordered corners |
| Toddler.RetainedConcat | backend/processors/toddler_processor.py:148-171 | filtering keeps the order of the predictions |
| Toddler.RetainedFromPredictions | backend/processors/toddler_processor.py:148-171 | every kept record comes from some prediction of the list |
| Toddler.ToddlerPresentIsConfident | backend/processors/toddler_processor.py:173-174 | a toddler is present only on a kept toddler record at or above both floors |
| Toddler.LowConfidenceToddlerDropped | backend/processors/toddler_processor.py:155-161 | a toddler at 0.75 is dropped although it clears the 0.5 stage floor |
| Toddler.ConfidentToddlerKept | backend/processors/toddler_processor.py:148-171 | a toddler at 0.85 with a proper box is kept |
| Toddler.KeepComplete | backend/processors/toddler_processor.py:148-171 | a prediction is kept exactly when it is an object with a label, an allowed lower-cased class, a confidence at or above its floor and a well-formed box; the record then carries that label, confidence and box |
| Toddler.AdultAboveThresholdKept | backend/processors/toddler_processor.py:155-164 | with the default 0.3 threshold an adult at 0.5 is kept with its confidence: only toddlers have the 0.8 floor |
| Toddler.OtherClassDropped | backend/processors/toddler_processor.py:152-153 | a class outside the allow-list is dropped even at 0.99 |
| Toddler.Configure | backend/processors/toddler_processor.py:25-54 | a missing key (argument, then environment) is refused iff both are absent or empty; with a key present the stage is configured iff the model id parses, and the parse error is returned otherwise; the model id and threshold are kept; fps is `max(1, int(fps))` and the remote confidence `max(1, int(threshold * 100))` |
| Toddler.ToddlerProcessor.constructor | backend/processors/toddler_processor.py:47-54 | nothing present, no predictions, not busy, no distributor |
| Toddler.ToddlerProcessor.BeginFrame | backend/processors/toddler_processor.py:123-125 | a frame is admitted iff no inference is in flight; the published state is kept |
| Toddler.ToddlerProcessor.FinishFrame | backend/processors/toddler_processor.py:126-174 | a failed call changes no published state; an answer replaces the records with the retained ones; presence iff a retained toddler |
| Toddler.ToddlerProcessor.State | backend/processors/toddler_processor.py:176-180 | the records are the published ones; present iff some record's lower-cased class is "toddler"; every record is an allowed class at or above the stage threshold, and presence is backed by a toddler record at or above 0.8 |
| Toddler.PresentToddlerConfident | backend/processors/toddler_processor.py:155-174 | when every toddler record meets the 0.8 floor, presence is witnessed by such a record |
| Toddler.ToddlerProcessor.ProcessVideo | backend/processors/toddler_processor.py:91-121 | the previous distributor (if another) loses the handler and is stopped only if owned; then the handler is added to the shared distributor, whose other handlers are kept and which is stopped only if it was the owned previous one, or is the only handler of a fresh, started, owned one |
| Toddler.ToddlerProcessor.StopProcessing | backend/processors/toddler_processor.py:182-192 | the handler is removed from the held distributor, which is stopped only if owned; afterwards nothing is held, owned or registered; with nothing held nothing changes; a second call changes nothing |
| FallDetection.Pairs | backend/processors/fall_detection.py:127-130 | `zip` pairs up to the shorter of boxes and keypoints |
| FallDetection.AspectRatio | backend/processors/fall_detection.py:139-142 | sides clamped to at least one pixel, so the ratio is defined and positive |
| FallDetection.Detect | backend/processors/fall_detection.py:118-170 | one "person" record per paired box, in box order |
| FallDetection.WideBoxAlwaysFalls | backend/processors/fall_detection.py:144-145 | a box wider than the threshold is falling whatever its keypoints |
| FallDetection.NarrowBoxFallsOnlyByPose | backend/processors/fall_detection.py:137-160 | otherwise falling iff the nose is below the hips with 13 keypoints all seen; fewer than 13 keypoints is never falling |
| FallDetection.PersonRecordFields | backend/processors/fall_detection.py:162-168 | the record keeps the class "person", the confidence, the keypoints and the truncated box |
| FallDetection.AggregateFall | backend/processors/fall_detection.py:97-106 | present iff some record is falling; the best confidence and box are those of the first falling record with the greatest confidence above 0, else 0 and the zero box |
| FallDetection.FallDetectionProcessor.constructor | backend/processors/fall_detection.py:22-46 | no records, no event, nothing falling, frame 0, not busy |
| FallDetection.FallDetectionProcessor.BeginFrame | backend/processors/fall_detection.py:80-87 | an admitted frame takes the next number and increments the counter by one; a busy frame changes nothing |
| FallDetection.FallDetectionProcessor.FinishFrame | backend/processors/fall_detection.py:88-116 | records as `Detect`; the flag iff some record falls; no event without a fall, a fall event with the best record's confidence and box otherwise |
| FallDetection.FallDetectionProcessor.FailFrame | backend/processors/fall_detection.py:83-92 | a pose-model failure releases the lock and keeps the frame number and the published state |
| FallDetection.FallDetectionProcessor.State | backend/processors/fall_detection.py:172-176 | the records are the published ones, and the flag is set iff some record is falling |
| FallDetection.FallDetectionProcessor.ProcessVideo | backend/processors/fall_detection.py:48-78 | the previous distributor (if another) loses the handler and is stopped only if owned; then the handler is added to the shared distributor, whose other handlers are kept and which is stopped only if it was the owned previous one, or is the only handler of a fresh, started, owned one |
| FallDetection.FallDetectionProcessor.StopProcessing | backend/processors/fall_detection.py:178-188 | the handler is removed from the held distributor, which is stopped only if owned; afterwards nothing is held, owned or registered; with nothing held nothing changes; a second call changes nothing |
| CombinedPublisher.NumericValue | backend/processors/combined_video_publisher.py:77 | a confidence is numeric iff it is a number or a boolean |
| CombinedPublisher.CaptionOf | backend/processors/combined_video_publisher.py:73-80 | the label defaults to "object"; the label alone iff the confidence is not numeric |
| CombinedPublisher.DrawnConcat | backend/processors/combined_video_publisher.py:71-81 | drawing a concatenation draws the first list, then the second |
| CombinedPublisher.DrawnSpec | backend/processors/combined_video_publisher.py:71-81 | exactly the records with a box are drawn, each once, in the colour, with its own box and caption |
| CombinedPublisher.NothingBoxedDrawsNothing | backend/processors/combined_video_publisher.py:71-76 | records without boxes draw nothing |
| CombinedPublisher.DrawDetectionList | backend/processors/combined_video_publisher.py:69-82 | the loop appends the list's drawn boxes to the frame |
| CombinedPublisher.DetectionRecords | backend/processors/combined_video_publisher.py:92-100 | no stage, a missing or a falsy entry give no records; the entry is refused iff it is truthy and not a list of dictionaries; a non-empty result is exactly the list's dictionaries, in order |
| CombinedPublisher.Annotate | backend/processors/combined_video_publisher.py:88-105 | a frame is produced iff both detection entries are well formed; it keeps the source pts and time base |
| CombinedPublisher.AnnotateLayers | backend/processors/combined_video_publisher.py:92-100 | one green box per boxed object record, then, only with a toddler stage, one orange box per boxed toddler record |
| CombinedPublisher.CombinedVideoPublisher.constructor | backend/processors/combined_video_publisher.py:21-35 | output rate exactly `max(1, int(fps))` with `int` truncating toward zero; handler rates as given; nothing held, published or stopped |
| CombinedPublisher.CombinedVideoPublisher.BeginFrame | backend/processors/combined_video_publisher.py:84-86 | a frame is admitted iff none is in progress |
| CombinedPublisher.CombinedVideoPublisher.FinishFrame | backend/processors/combined_video_publisher.py:87-105 | the annotated frame is queued, or nothing when an entry is malformed; the lock is released either way |
| CombinedPublisher.CombinedVideoPublisher.ProcessVideo | backend/processors/combined_video_publisher.py:37-67 | the previous distributor (if another) loses the handler and is stopped only if owned; then the handler is added to the shared distributor, whose other handlers are kept and which is stopped only if it was the owned previous one, or is the only handler of a fresh, started, owned one |
| CombinedPublisher.CombinedVideoPublisher.StopProcessing | backend/processors/combined_video_publisher.py:110-117 | the handler is removed from the held distributor, which is stopped only if owned; afterwards nothing is held, owned or registered; with nothing held nothing changes; a second call changes nothing |
| CombinedPublisher.CombinedVideoPublisher.Close | backend/processors/combined_video_publisher.py:119-121 | stops processing as `StopProcessing` (the handler removed, an owned distributor stopped), then the output track; the queued frames are kept |
| StreamApi.NormalizedStreamUrl | frontend/sample/app.js:13-16 | the address is never empty |
| StreamApi.NormalizedStreamUrlSpec | frontend/sample/app.js:13-16 | a blank input gives the default address; otherwise the input with its surrounding white space removed; normalising is idempotent |
| Text.TrimBySpec | frontend/sample/app.js:14 | the trim is empty iff the text is all white space; otherwise it neither starts nor ends with white space and is the text with only white space cut from each end (Python `strip` and JavaScript `trim`, each with its own white space) |
| StreamApi.WithCacheBuster | frontend/src/hooks/useLiveStream.js:10-12 | the address, then "&" if it has "?" else "?", then "t=" and digits that read back as the timestamp |
| StreamApi.CacheBusterDistinct | frontend/sample/app.js:21 | different timestamps never give the same image source |
| StreamApi.FirstStreamTail | frontend/sample/app.js:55 | the leftmost index where `/stream`, then nothing or "?" and one line, ends the address |
| StreamApi.StatusUrl | frontend/sample/app.js:55 | without a match the address is unchanged; otherwise the leftmost match is replaced by `/status` |
| StreamApi.StatusUrlOfStreamAddress | frontend/src/hooks/useLiveStream.js:66 | `base/stream` with or without a one-line query becomes `base/status` |
| StreamApi.DefaultStatusUrl | frontend/sample/app.js:55 | the default stream address maps to `http://127.0.0.1:8000/video/status` |
| StreamApi.StatusMessage | frontend/sample/app.js:57-71 | "publisher not initialized" iff a non-null body lacks the flag; "waiting for first video frame" iff initialised without a frame; otherwise the status is kept |
| SampleApp.StatusLine | frontend/sample/app.js:9-11 | the message after the "Status: " prefix |
| SampleApp.SamplePage.constructor | frontend/sample/app.js:6-7 | not live, no retry pending, no source, the page's initial status text |
| SampleApp.SamplePage.StartStream | frontend/sample/app.js:18-26 | retry cancelled, not live, "connecting...", source is the cache-busted normalised address |
| SampleApp.SamplePage.StopStream | frontend/sample/app.js:28-33 | retry cancelled, not live, no source, "stopped" |
| SampleApp.SamplePage.OnLoad | frontend/sample/app.js:35-38 | live, "live" |
| SampleApp.SamplePage.OnError | frontend/sample/app.js:40-48 | not live, "no frame yet or bad URL", a retry scheduled |
| SampleApp.SamplePage.OnRetryTimer | frontend/sample/app.js:43-47 | a page that came live is left as it was; otherwise the stream restarts |
| SampleApp.SamplePage.RefreshStatus | frontend/sample/app.js:53-72 | asks the rewritten status address; the line shows the reply's message or is kept |
| LiveStreamHook.LiveStream.constructor | frontend/src/hooks/useLiveStream.js:3-8 | status "idle", not live, no source, no retry |
| LiveStreamHook.LiveStream.StartStream | frontend/src/hooks/useLiveStream.js:14-23 | nothing without an image; otherwise "connecting...", not live, cache-busted source, retry cleared |
| LiveStreamHook.LiveStream.StopStream | frontend/src/hooks/useLiveStream.js:25-34 | nothing without an image; otherwise "stopped", not live, no source, retry cleared |
| LiveStreamHook.LiveStream.HandleLoad | frontend/src/hooks/useLiveStream.js:40-43 | "live", live |
| LiveStreamHook.LiveStream.HandleError | frontend/src/hooks/useLiveStream.js:45-52 | "no frame yet or bad URL", not live, a retry scheduled |
| LiveStreamHook.LiveStream.OnRetryTimer | frontend/src/hooks/useLiveStream.js:49-51 | the stream restarts whatever happened since the error |
| LiveStreamHook.LiveStream.CheckStatus | frontend/src/hooks/useLiveStream.js:63-81 | asks the rewritten status address; the status becomes the reply's message or is kept |
| ActivityCard.ClockOf | frontend/src/components/home/ActivityCard.jsx:35-38 | minutes and seconds are below 60, and the fields add back up to the whole seconds |
| ActivityCard.ClockUnique | frontend/src/components/home/ActivityCard.jsx:35-38 | fields in range adding up to a number of seconds are exactly the computed ones |
| ActivityCard.TwoDigits | frontend/src/components/home/ActivityCard.jsx:41 | at least two digits, exactly two below 100 |
| ActivityCard.TwoDigitsValue | frontend/src/components/home/ActivityCard.jsx:41 | the padded field reads back as the number |
| Text.PadStart | frontend/src/components/home/ActivityCard.jsx:41 | `padStart`: the text, right-aligned, preceded by fill characters up to the width; never shorter than the text |
| ActivityCard.FormatTime | frontend/src/components/home/ActivityCard.jsx:40-42 | at least eight characters, with colons before the last two two-character fields |
| ActivityCard.FormatTimeRoundTrip | frontend/src/components/home/ActivityCard.jsx:34-43 | reading back the display gives the whole seconds; hours are never truncated |
| ActivityCard.FormatTimeShape | frontend/src/components/home/ActivityCard.jsx:40-42 | below 100 hours the display is `HH:MM:SS` |
| ActivityCard.Card.constructor | frontend/src/components/home/ActivityCard.jsx:5-6 | not playing, time 0 |
| ActivityCard.Card.HandlePlay | frontend/src/components/home/ActivityCard.jsx:23-32 | the flag flips; starting resets the time and calls `onStart` if given; stopping calls `onStop` if given and keeps the time |
| ActivityCard.Card.Tick | frontend/src/components/home/ActivityCard.jsx:9-21 | time grows by 1000 only while playing and live, so the shown seconds grow by one |
| ActivityCard.Card.Display | frontend/src/components/home/ActivityCard.jsx:34-43 | the shown text reads back as the session's whole seconds |

Functions that only compute carry no contract of their own; the lemma or method named here states what they mean:

- `CryingAudio.InferWindow`: `CryingAudio.InferWindowSpec`
- `CryingAudio.Incoming`: `CryingAudio.IncomingLength`
- `Geometry.FormatYoloDetections`: `Geometry.FormatYoloDetectionsRecords`
- `FallDetection.PersonRecord`: `FallDetection.PersonRecordFields`, `FallDetection.WideBoxAlwaysFalls`, `FallDetection.NarrowBoxFallsOnlyByPose`
- `Toddler.Keep`: `Toddler.KeepComplete`, `Toddler.KeepPasses`, `Toddler.KeepPrediction`
- `Toddler.Predictions`: `Toddler.PredictionsSource`
- `Toddler.ClassLabel`: `Toddler.ClassLabelSpec`
- `Toddler.ParseDecimal`: `Toddler.ParseDecimalOfNat`, `Toddler.ParseDecimalSignedFraction`
- `CryingAudioCheck.Decode`: `CryingAudioCheck.DecodeSpec`
- `CryingAudioCheck.SampleValue`: `CryingAudioCheck.SampleValueRange`
- `CryingAudioCheck.Normalize`: `CryingAudioCheck.NormalizeRange`, `CryingAudioCheck.NormalizeExamples`
- `CryingAudioCheck.Reports`: `CryingAudioCheck.ReportsSpec`
- `Text.ParsePyInt`: `Text.ParsePyIntOfNat`, `Text.ParsePyIntNegative`, `Text.ParseGroupedNat`
- `Text.PyStrip`, `Text.JsTrim`: `Text.TrimBySpec`

## Left out

- **Opaque model and media calls.** These are passed in as parameters or left out:
  - the audio classifier's scores
  - the pose and object detectors' boxes
  - the remote classifier's answer or failure
  - the resampler (`tf.signal.resample` or `scipy.signal.resample`)
  - frame conversion
  - the pixels, colours and text rendering of the drawn boxes
- **Resampling values.** Only the target length is modelled. `Incoming` takes the resampler's output as a parameter, and so does the offline check.
- **Threads and timeouts.** The crying monitor's worker thread, its queue timeouts and its stop event are outside the model. `WorkerStep` is one pass of the worker loop.
- **Locks and timers.** Each `asyncio.Lock` is a busy flag, and each `setTimeout`/`setInterval` firing is an explicit call.
  - Only the latest retry timer is tracked. An earlier timer overwritten by a second error (and never cleared) is not modelled.
  - React batches state updates; here each setter takes effect at once.
- **Floating point.** Scores and samples are exact reals, so float32 rounding in means, normalisation and `1.0 / infer_hz` is not modelled.
- Toddler.ParseDecimal: reads `float("...")` as plain decimal text only; exponents, underscores, `inf` and `nan` are refused. For `inf` and `nan` the consequence differs from the program: `float` accepts them, and `round` then raises outside any guard (backend/processors/toddler_processor.py:85-88), so the whole answer of that frame is lost. The model drops only that one prediction. For a `nan` or `inf` confidence the program keeps the record (the comparison `confidence < min_conf` is false for `nan`, and `inf` clears every floor), while the model drops it.
- Toddler.ParseModelId: reads the version with `Text.ParsePyInt`, which accepts ASCII digits only (with single underscores between them). Python's `int()` also accepts the decimal digits of other scripts, so a model id whose version is written in such digits is refused here.
- Text.Lower: lowers ASCII capitals only, where `str.lower()` lowers every script. Every name it is compared with ("toddler", "adult", the cry keywords) is ASCII, and only two non-ASCII characters lower into ASCII letters: the Kelvin sign U+212A and the dotted capital I U+0130. Only a class name containing one of those two is judged differently.
- **Printed text and logging.**
  - The caption's text is not modelled: the `"%.2f"` confidence and the `str()` of a non-string label. `CombinedPublisher.Caption` keeps the raw label and confidence.
  - Logging and its throttle timestamps are left out.
  - The offline check's printed lines are returned as `WindowReport` values, without rounding or JSON formatting.
- **I/O.** Out of the model:
  - downloading the class map and parsing its CSV (`ModelLoad` stands for the outcome)
  - opening and reading the WAV file (`Wav` holds its header fields and bytes)
  - argument parsing
  - `fetch` and JSON parsing (`StatusReply` stands for the outcome)
  - the environment variable holding the API key (a parameter)
  - `Date.now()` and the address box's value (parameters)
- **The first `close` of the crying monitor.** It stops the worker thread, but a later `close` in the same class shadows it and is the one modelled.
- **Output track.** `publish_video_track` only returns the track, and the queued frames are the `published` field.
- **Other helpers.** `draw_bbox`, `draw_zone`, `calculate_distance` and `is_inside_zone` need image or square-root libraries and no core operation uses them.
- **Record-mapping edge cases.** A detection record whose box is not four numbers is drawn as it is, without the drawing library's own failure.
- **Distributor library.** The distributor's own frame buffering and rate gating are outside the model; it is a registry of handlers with a running flag. Handlers are keyed by name, while the program adds and removes them by callback (backend/processors/toddler_processor.py:99, 184); two instances of the same stage sharing one distributor therefore hold one entry in the model, and the first to stop removes it for both.
- CryingAudio.WorkerStep: only a failure before the buffer is touched is modelled (`FailWorkerPass`: down-mixing or resampling raises, and the loop body has no guard, so the thread ends and later packets queue until fifty wait). A classifier that raises in the middle of a drain is not modelled. The earlier windows of that pass would already be decided, the failing window already cut from the buffer and the inference stamp already set when the thread ends. The classifier is also required (`ModelMatches`) to give at least one score per class name. The program needs less: only the cry indices must be in range. It names a top class beyond the name list by its index, and it raises when a cry index is out of range. For the same reason `CryingAudioCheck.RunCheck` has no outcome for a classifier that raises.
- CryingAudio.ToMono: an array of shape (n, channels) with n equal to the channel count is averaged along the first axis, as the source's first test does. The model follows that order and does not judge which layout the caller meant.
- Toddler.ClassLabel: the `str()` of a number, list or dictionary class is not modelled. Such a value gives no label and is dropped, as its text could never be "toddler" or "adult".
- ActivityCard.FormatTime: takes a natural number of milliseconds. The card never passes a negative duration.
- SampleApp.SamplePage.OnRetryTimer: a timer cleared by a stop or a start cannot fire. The model requires a pending retry, which is how the cleared timer is excluded.
