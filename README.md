# Output decoder of the ESP32 motherboard detector

This project models `process_output` in `main/main.cpp`, the step of the
on-device detection loop that reads the classification model's int8 output
tensor and turns it into a decision. It covers four steps:

- the shape dispatch: an (n, c, h, w) = (1, c, 1, 1) tensor is a vector of `c` class scores, and any other shape only has its dimensions reported;
- the first-maximum scan over the scores. It starts from `max_score = -128`, `max_class_id = -1` and replaces them only on a strictly greater score;
- the confidence `(max_score + 128) / 255`;
- the check against the two-entry label table `{"motherboard", "background"}`, and the "motherboard detected" decision (class 0 with confidence above `DETECTION_THRESHOLD = 0.5`).

Layout:

- `argmax.dfy`, module `Argmax`, holds the `int8` score type and the scan as a fold (`Scan`). It also has an independent reference definition of "first index of the largest score" (`IsFirstMax`) and the lemmas that connect the two.
- `decoder.dfy`, module `OutputDecoder`, holds the outcome type, the constants, the pure specification `Decode`, and `ProcessOutput`. `ProcessOutput` is the imperative routine with the source's `for` loop, proved equal to `Decode`. It also has the lemmas about decoded outcomes.

The model handle `dl::model::Model` appears only as what the decoder reads from it: the output tensor's dimensions and its score array. The outcome is returned as a value, `Unrecognized(n, c, h, w)`, `InvalidClass(id)` or `Classified(id, name, score, confidence, detected)`, in place of the log lines the source prints. `ProcessOutput` has no `modifies` clause, so it provably leaves the tensor unchanged. It reads only indices below `c`.

The routine hard-codes its decision policy. The positive class is 0, the threshold is 0.5 and the confidence formula is fixed. The model follows this code and does not use a configurable scoring function, threshold or positive-class index. So for the scores `[10, 90, -128, -128]`, class 1 ("background") wins and the report is negative (`FourClassExample`). A configurable design with positive class 1 would report a detection here instead.

The confidence is modelled as the exact rational `(s + 128) / 255`. For every int8 score `s`, that value exceeds 0.5 exactly when `s >= 0`, because 128/255 > 0.5 > 127/255. The single-precision computation in the source gives the same answer at both of these neighbouring values.

## Model

| member | source | states |
|---|---|---|
| `Argmax.ScanOutcome` | main/main.cpp:247-256 | After the scan, either the id is still -1, the score still -128 and every score is -128, or the id is a first maximum of the scores, holds the returned score, and that score exceeds -128 |
| `Argmax.FirstMaxUnique` | main/main.cpp:252 | The reference first maximum (`IsFirstMax`) has at most one index; `ScanSelectsFirstMax` uses this to pin down the strict-`>` winner |
| `Argmax.SentinelIff` | main/main.cpp:247-256 | The scan leaves `max_class_id == -1` exactly when every score is -128, including when there are no scores, and then `max_score` is still -128 |
| `Argmax.ScanSelectsFirstMax` | main/main.cpp:250-256 | For every index k, the scan selects k exactly when k is the first index of the largest score and that score exceeds -128 (both directions of the argmax and tie-break property) |
| `Argmax.ScanRange` | main/main.cpp:250-259 | If some score exceeds -128, the selected id lies in [0, c), its score is the score at that id and lies in (-128, 127], and `max_score + 128` lies in [1, 255] |
| `OutputDecoder.Confidence` | main/main.cpp:259 | The confidence lies in [0, 1], is positive for any score above -128, is 1 only for score 127, and exceeds `DETECTION_THRESHOLD` (0.5) exactly when the raw score is non-negative |
| `OutputDecoder.Judge` | main/main.cpp:262-275 | The outcome is a classification exactly when the id lies in [0, 2), and the invalid-id outcome carrying that id otherwise. A classification has that id, its label, its score and confidence, and it reports a detection exactly when the id is 0 and the score is non-negative |
| `OutputDecoder.Decode` | main/main.cpp:243-285 | The outcome is "unrecognized" exactly when the shape is not (1, c, 1, 1), and then it carries the four dimensions unchanged |
| `OutputDecoder.ProcessOutput` | main/main.cpp:238-286 | The scan loop and its branches compute exactly `Decode` of the tensor's dimensions and contents; the loop invariant ties its locals to `Argmax.Scan` of the prefix read so far, the loop's reference fold that the `Argmax` rows are about. The tensor is not modified |
| `OutputDecoder.DecodeReadsOnlyScores` | main/main.cpp:250-251 | Two tensors of the same shape whose first `c` entries agree decode to the same outcome, so only `data[0 .. c)` is read |
| `OutputDecoder.SentinelIsInvalid` | main/main.cpp:247-274 | A classification tensor with no scores, or only -128 scores, decodes to the invalid id -1 and never to a classification |
| `OutputDecoder.ClassifiedIsFirstMax` | main/main.cpp:250-264 | A classification's id is below 2 and below c. It is the first maximum of the first c scores, its score is the tensor's entry at that id and exceeds -128, and its confidence lies in (0, 1] |
| `OutputDecoder.ClassifiedIff` | main/main.cpp:250-275 | A classification-shaped tensor decodes to classification k exactly when k is the first maximum, its score exceeds -128 and k < 2. Every other such tensor decodes to the invalid-id outcome |
| `OutputDecoder.ThirdClassIsInvalid` | main/main.cpp:262-275 | When a class id of 2 or more wins the scan, the outcome is the invalid-id outcome with that id |
| `OutputDecoder.DetectionRule` | main/main.cpp:259-272 | "Motherboard detected" is reported exactly when the shape is (1, c, 1, 1), class 0 is the first maximum, and its raw score is at least 0 |
| `OutputDecoder.TieGoesToLowerIndex` | main/main.cpp:252-254 | When classes 0 and 1 tie at the top score above -128, class 0 is selected |
| `OutputDecoder.FourClassExample` | main/main.cpp:243-272 | Scores [10, 90, -128, -128] in shape (1, 4, 1, 1) decode to class 1 "background" with score 90, confidence 218/255 and no detection |

## Left out

- `init_spiffs`, `init_camera` and `load_model` (main/main.cpp:72-195) are not modelled. They mount the filesystem, configure the camera and load the model through platform APIs.
- `preprocess_image` (main/main.cpp:198-235) is not modelled. Its colour conversion, resize and normalisation are library calls whose bodies are not part of this model. The copy into the input tensor has no capacity check of its own.
- `motherboard_detection_task` and `app_main` (main/main.cpp:289-373) are not modelled. They are the scheduler task loop, frame capture and return, timing, delays and storage initialisation. The model's `run()` is an opaque foreign call.
- `main/simple_main.cpp` is not modelled. It only constructs a detector class whose header is not part of this model.
- Confidence: single-precision floating-point arithmetic is not modelled. The confidence is the exact rational `(s + 128) / 255`. The comparison with 0.5 gives the same result for every int8 score.
- Logging: the `ESP_LOG*` text output is not modelled. Each branch's report is the returned `Outcome` value.
- ProcessOutput: requires that a (1, c, 1, 1) tensor hold at least `c` scores. The source indexes `data[0 .. c)` without checking, and reading past the buffer is undefined behaviour that this model does not describe.
