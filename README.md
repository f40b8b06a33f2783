# Licence-plate reader client: the plate-decision pipeline

This project is a Dafny model of the decision logic of the browser client in
`static/js/main.js`. The client detects licence-plate regions in camera frames
and sends each crop to a text-recognition service. It then cleans and
classifies the returned text and shows the most recent valid, new plate, at
most once per cool-down interval. The model covers five pieces:

- **Text cleaning** (`cleanPlateText`), module `PlateText`. It keeps the
  characters `A`-`Z` and `0`-`9` in order and drops everything else, lower-case
  letters included.
- **Plate classification** (`validatePlate`), module `PlateFormat`. It
  re-cleans the text and tests the four-wheeled grammar (three letters, four
  digits) and the two-wheeled grammar (three digits and three letters, or one
  letter, three digits and two letters). The selector `"both"`,
  `"Four Wheeled"` or `"Two Wheeled"` decides which grammars are tried. When
  nothing matches, the result is the sentinel
  `{plate: "Invalid plate format", type: "Unknown"}`.
- **Post-processing of the service reply** (`extractPlateText`), module
  `OcrText`. A reply with `plate_texts` becomes the cleaned fragments joined
  with `", "`. A reply without it, or a failed request, becomes
  `"Error extracting text"`. The reply is an input value; the request itself
  is not modelled.
- **Throttle and de-duplication gate** (`renderPredictions`), module
  `DisplayGate`. The variables `lastDetectedPlate` and `lastUpdateTime` are
  the fields of the class `DisplayState`. Its method `RenderPredictions` runs
  the loop over one frame's predictions and is proved against the pure fold
  `Run` of the gate function `Gate`.
- **Frame loop** (`detectFrame`), module `FrameLoop`. It covers the gate on
  the inference worker being started, and the window `pastFrameTimes` of the
  last 30 inter-frame delays. It also covers the summing loop and the
  frame-rate quotient. The class `FrameLoop` holds `workerId`, `prevTime` and
  `pastFrameTimes`; its methods are proved against the pure functions
  `Complete`, `Slide` and `SumSeconds`.

Points of the code's behaviour worth knowing:

- The sentinel text is `"Invalid plate format"`.
- Frame delays are integer milliseconds; they are divided by 1000 while
  summing.
- The first valid plate is shown only when the clock reads more than
  5000 ms, because `lastUpdateTime` starts at 0 (`DisplayGate.FirstCandidate`).
- A failed reply still goes through classification, as the text
  `"Error extracting text"`. That text cleans to `"E"`, which is always
  `Unknown`, so a failed reply never changes the display
  (`OcrText.FailedReplyIsUnknown`, `DisplayGate.FailedRepliesChangeNothing`).
- `if (prevTime)` and `!workerId` are JavaScript truthiness tests. A
  `prevTime` of 0 and an empty worker id count as unset.

## Model

| member | source | states |
|---|---|---|
| `PlateText.Clean` | static/js/main.js:107-109 | the result holds only characters in `[A-Z0-9]` and is no longer than the input |
| `PlateText.CleanIsSubsequence` | static/js/main.js:107-109 | the cleaned text is an order-preserving subsequence of the input |
| `PlateText.CleanIsLongestPlateSubsequence` | static/js/main.js:107-109 | every subsequence made of `[A-Z0-9]` characters is at most as long as the cleaned text, and one of the same length is the cleaned text: cleaning keeps exactly those characters, in order |
| `PlateText.CleanCounts` | static/js/main.js:107-109 | each `[A-Z0-9]` character occurs in the result as often as in the input; no other character occurs |
| `PlateText.CleanAppend` | static/js/main.js:107-109 | cleaning a concatenation is concatenating the cleaned parts |
| `PlateText.CleanUnchangedIff` | static/js/main.js:107-109 | cleaning leaves a text unchanged if and only if it holds only `[A-Z0-9]` characters |
| `PlateText.CleanIdempotent` | static/js/main.js:107-109 | cleaning twice is cleaning once |
| `PlateText.CleanOfNoise` | static/js/main.js:108 | a text without `[A-Z0-9]` characters cleans to the empty text |
| `PlateText.CleanDropsNoise` | static/js/main.js:107-109 | characters outside `[A-Z0-9]` between two clean texts vanish and the two are joined directly |
| `PlateFormat.Validate` | static/js/main.js:142-157 | the type is `Unknown` (the string `"Unknown"` that the gate tests) exactly when the plate is the sentinel; otherwise the plate is the cleaned input, has length 6 or 7 and matches the grammar of its type; a type is given exactly when the selector admits a grammar the cleaned text matches; `"Four Wheeled"` never yields `Two Wheeled` and `"Two Wheeled"` never yields `Four Wheeled` |
| `PlateFormat.FormatsDisjoint` | static/js/main.js:145-146 | no text matches both grammars, so the four-wheeled-first order never decides a tie |
| `PlateFormat.PlateIsClean` | static/js/main.js:145-146 | every text a grammar accepts consists of `[A-Z0-9]` characters only |
| `PlateFormat.ValidateBoth` | static/js/main.js:148-150 | with `"both"`: a four-wheeled cleaned text gives `Four Wheeled`, a two-wheeled one gives `Two Wheeled`, anything else gives the sentinel |
| `PlateFormat.UnknownSelectorIsInvalid` | static/js/main.js:148-156 | a selector other than the three known strings always gives the sentinel |
| `PlateFormat.SelectorsRefineBoth` | static/js/main.js:148-155 | whatever a selector accepts, `"both"` accepts with the same result |
| `PlateFormat.ValidateIgnoresNoise` | static/js/main.js:143 | two texts that clean to the same text are classified alike |
| `PlateFormat.ValidateCleaned` | static/js/main.js:143 | classifying an already cleaned text gives the same result |
| `PlateFormat.ValidatePlateUnderBoth` | static/js/main.js:143-150 | a grammar-accepted text is classified under `"both"` as itself, with the type of its grammar |
| `PlateFormat.ValidateFourWheeledExample` | static/js/main.js:145-154 | `ABC1234` is `Four Wheeled` under `"both"` and the sentinel under `"Two Wheeled"` |
| `PlateFormat.ValidateSeparatorExample` | static/js/main.js:143-149 | `ABC-1234` is classified as the plate `ABC1234`, `Four Wheeled` |
| `PlateFormat.ValidateDigitsFirstExample` | static/js/main.js:146-150 | `123ABC` is `Two Wheeled` |
| `PlateFormat.ValidateLetterFirstExample` | static/js/main.js:146-150 | `A123BC` is `Two Wheeled` |
| `PlateFormat.ValidateInvalidExamples` | static/js/main.js:143-156 | `AB12` and the lower-case `abc1234` give the sentinel |
| `OcrText.SeparatorIsNoise` | static/js/main.js:126 | the separator `", "` cleans to the empty text |
| `OcrText.CleanJoinedFragments` | static/js/main.js:124-126 | re-cleaning the joined cleaned fragments gives the cleaned concatenation of the raw fragments |
| `OcrText.ExtractPlateText` | static/js/main.js:122-134 | on a reply with texts, the result cleans to the cleaned concatenation of the fragments, is the cleaned fragment when there is one, and is empty when there are none; on an error reply or a failed request it is `"Error extracting text"` |
| `OcrText.ValidateReply` | static/js/main.js:122-126 | classifying the joined reply is classifying the concatenated raw fragments |
| `OcrText.ErrorTextCleansToE` | static/js/main.js:128-132 | the failure text `"Error extracting text"` cleans to `"E"` |
| `OcrText.FailedReplyIsUnknown` | static/js/main.js:127-134 | the failure text cleans to `"E"` and is classified as the sentinel under every selector |
| `DisplayGate.Gate` | static/js/main.js:195-201 | the state changes exactly when the time gap exceeds 5000 ms, the plate is new and the type is not `Unknown`; it then becomes the candidate plate and `now`; the plate changes if and only if the time changes |
| `DisplayGate.StepKeepsShown` | static/js/main.js:190-201 | one prediction keeps the displayed plate `""` or a grammar-accepted text |
| `DisplayGate.RunKeepsShown` | static/js/main.js:137-201 | starting from `""` (or any shown plate), the displayed plate stays `""` or a grammar-accepted text |
| `DisplayGate.RunThrottled` | static/js/main.js:195-201 | the update time never decreases; any change moves it more than 5000 ms forward; a changed display holds the candidate plate and time of one of the predictions |
| `DisplayGate.FailedRepliesChangeNothing` | static/js/main.js:189-201 | predictions whose replies all failed leave the display unchanged |
| `DisplayGate.RunAppend` | static/js/main.js:162-213 | processing two batches of predictions in turn equals processing their concatenation |
| `DisplayGate.RunExtend` | static/js/main.js:162-213 | processing one more prediction of a batch is one more gate step, and appends the plate then displayed to the labels |
| `DisplayGate.LabelAt` | static/js/main.js:203-206 | label `i` is the plate displayed once predictions `0` to `i` have passed the gate |
| `DisplayGate.FirstCandidate` | static/js/main.js:137-139 | from the initial state a consistent candidate is admitted exactly when its type is known and the clock exceeds 5000 |
| `DisplayGate.GateScenario` | static/js/main.js:195-201 | first plate shown; a different plate 1 s later refused; 6 s later shown; the same plate after 6 s refused |
| `DisplayGate.DisplayState.constructor` | static/js/main.js:137-139 | the state starts as `("", 0)` |
| `DisplayGate.DisplayState.MaybeUpdate` | static/js/main.js:195-201 | returns whether the three conditions held and leaves the state as `Gate` gives it: both fields written, or neither |
| `DisplayGate.DisplayState.ProcessPrediction` | static/js/main.js:189-206 | classifies the reply with `"both"`, leaves the state as one gate step gives it, keeps the shown-plate invariant, and returns the displayed plate as the label |
| `DisplayGate.DisplayState.RenderPredictions` | static/js/main.js:159-213 | the predictions are processed in order; the final state is `Run` of the old one; the label drawn for prediction `i` is the plate displayed after it; the shown-plate invariant is kept |
| `FrameLoop.Slide` | static/js/main.js:229-230 | a window within capacity grows by one until 30 and then stays at 30; the new sample is last |
| `FrameLoop.SlideLastN` | static/js/main.js:229-230 | sliding the last 30 samples of a history gives the last 30 samples of the extended history |
| `FrameLoop.DeltaAt` | static/js/main.js:228-229 | delay `i` is the time between completions `i` and `i + 1` |
| `FrameLoop.DeltasSnoc` | static/js/main.js:228-229 | a new completion time adds one delay, measured from the previous time |
| `FrameLoop.CompleteSlides` | static/js/main.js:227-240 | after a completion at a non-zero time, the next one slides the delay since then into the window and sets `prevTime` to the new time |
| `FrameLoop.CompleteSlidesWindow` | static/js/main.js:227-230 | if the window holds the last delays of a history, a completion makes it hold the last delays of the history followed by the new delay |
| `FrameLoop.WindowHoldsLastDeltas` | static/js/main.js:216-240 | from the initial state the first completion records nothing; after completions at non-zero times, `prevTime` is the last time and the window holds the last at most 30 delays between consecutive times, oldest first |
| `FrameLoop.CompleteKeepsBound` | static/js/main.js:228-240 | a completion keeps the window at 30 samples or fewer |
| `FrameLoop.Fps` | static/js/main.js:237 | the estimate times the total seconds is the number of samples |
| `FrameLoop.SteadySum` | static/js/main.js:232-235 | a window of equal delays `d` sums to `count * d / 1000` seconds |
| `FrameLoop.SteadyRate` | static/js/main.js:232-237 | a window of equal positive delays `d` ms gives the estimate `1000 / d` (30 delays of 100 ms give 10) |
| `FrameLoop.FrameLoop.constructor` | static/js/main.js:216-217 | no worker, no previous time, an empty window |
| `FrameLoop.FrameLoop.WorkerStarted` | static/js/main.js:32-35 | the worker id is recorded |
| `FrameLoop.FrameLoop.TotalSeconds` | static/js/main.js:232-235 | the loop total is the sum of the delays in seconds |
| `FrameLoop.FrameLoop.RecordFrameTime` | static/js/main.js:228-240 | the timing state becomes `Complete` of the old one; no reading on the first completion; otherwise the reading is the number of samples over their summed seconds, or `Infinite` when that sum is zero |
| `FrameLoop.FrameLoop.DetectFrame` | static/js/main.js:218-245 | without a started worker, or when inference fails, nothing changes, no label is drawn and no rate is shown; otherwise the display becomes `Run` over the predictions, the label drawn for prediction `i` is the plate displayed after it, the timing state becomes `Complete` at `now`, and the reading is nothing on the first completion, else the number of samples over their summed seconds, or `Infinite` when that sum is zero |

## Left out

- Camera acquisition (`getUserMedia`, `video.play()`) is browser input/output.
- The inference worker (`startWorker`, `infer`) is a foreign library. Its
  result is an input value: the predictions, or a rejection.
- `videoDimensions` and `resizeCanvas` are page layout on floating-point
  ratios.
- Canvas drawing, cropping and `toBlob` are left out, and so is the DOM write
  of the plate. Each prediction is reduced to its service reply and its
  `Date.now()` reading. The label drawn beside a box is the `labels` result.
- The HTTP request to `/process_plate` and JSON decoding are network
  input/output. The model keeps only the branch on the reply; the content of
  the `error` field is only logged and plays no part.
- Concurrency is not modelled. `renderPredictions` is not awaited, and frames
  reschedule themselves with `requestAnimationFrame`, so two frames' gate
  loops can interleave. The model runs frames one after another and each
  frame's predictions in order.
- `FrameLoop.FrameLoop.DetectFrame`: records the frame time after the
  prediction loop. In the code the timing update runs once the
  (un-awaited) loop first suspends. The two touch disjoint state.
- `FrameLoop.FrameLoop.RecordFrameTime`: uses one clock reading per
  completion. The code reads `Date.now()` twice, once for the delay and once
  for the new `prevTime`.
- `FrameLoop.FrameLoop.RecordFrameTime`: sums over exact reals, not IEEE
  doubles. `Math.round` of the displayed value is not modelled.
- The server `app.py` (Flask routes, easyocr, OpenCV decoding) is a thin
  wrapper over libraries that are not part of this model.
