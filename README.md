# Fall classification and alert lifecycle engine, modelled in Dafny

This project models the decision core of a fall-detection backend. Motion samples arrive from a
phone or wearable. `DetectionService.process` gates them on a global cooldown deadline
(`suppressUntilMs`) and classifies each one. The classifier combines fixed accelerometer and
gyroscope thresholds with a score from `MLService.predictFallProbability`. A device-drop detector
looks at the last 4 seconds of stored samples and can only tighten the decision. A positive
decision stores an alert in `PENDING_SILENT`, with a confirmation window whose timing adapts to the
sample. The scheduler tick (`checkPendingAlerts`) moves due alerts to `PENDING_CONFIRM`. It then
sends the alerts whose window has elapsed and extends the cooldown. The user's answer
(`confirmAlert`) cancels an open alert or sends it at once. Both update the cooldown with a
monotone `max`.

Layout, one module per file:

- `wrappers.dfy`: `Wrappers.Option`, and `Arith` (`Math.max`/`Math.min`).
- `text.dfy`: `Text.Contains`, Java's `String.contains`.
- `stats.dfy`: `Stats.PopulationVariance`, the specification of `variance`.
- `events.dfy`: the `Sample` and `Alert` records, the closed `Status` set and the newest-first sample query `Recent30`.
- `mlscore.dfy`: the fallback heuristic and the two-branch prediction.
- `dropdetector.dfy`: the window filter, the peak search, the post-impact slice, the `variance` method and `IsLikelyDeviceDrop`.
- `classifier.dfy`: the rule, base and final decision, the adaptive timing chain and alert creation.
- `lifecycle.dfy`: the tick and confirmation transitions as functions on the alert store (a map from id to alert), with their lemmas.
- `service.dfy`: the class `DetectionService`. Its fields are `suppressUntilMs`, the alert map, the id counter, the sample store and a ghost count of notifier dispatches. Its methods are proved against the functions above.

Modelling notes:

- Magnitudes are given non-negative reals (`Events.Magnitude`). `Math.sqrt` is not modelled, and `double` arithmetic is exact `real` arithmetic here.
- `process` reads the clock twice: once for the cooldown gate (line 36) and once for the alert's windows (line 72). `Process` takes both times as parameters, `nowEntry` and `nowCreate`.
- The sample query is `ORDER BY id DESC`, so the list is newest first. The "post-impact" slice `idx+1 .. min(idx+5, size)` is index-based, so in time it holds the samples OLDER than the peak. The model keeps this exactly as written (`PostSlice`, `Recent30`), and `PostSliceIsOlder` and `QuietBeforeSpikeIsDrop` state the consequence.
- A tick queries the store a second time after its first loop. A silent alert whose whole window has already passed is therefore promoted and sent in the same tick (`Lifecycle.NextStatus`, `Lifecycle.SentByTickExactly`).
- The repository finders `findByStatusAndConfirmStartsAtLessThanEqual` and `findByStatusAndExpiryAtLessThanEqual`, and the alert's `status`, `confirmStartsAt` and `expiryAt` fields, are modelled from how `DetectionService` uses them. The alert store hands out ids from 1 upwards. The tick visits each query result in ascending id order, and the resulting store, deadline and dispatch count do not depend on that order.
- The drop detector's `catch` covers a failure of the sample query. The detector takes the query result as an `Option`, and `None` yields `false`. The service always supplies the query result.

## Model

| member | source | states |
|---|---|---|
| Text.ContainsIffOccurs | backend/src/main/java/com/example/alert/service/DetectionService.java:145-147 | the substring scan used for the context tags is true exactly when the tag occurs at some position |
| Text.Contains | backend/src/main/java/com/example/alert/service/DetectionService.java:75-76 | the empty tag is always contained, a contained tag is never longer than the text, and every text contains itself |
| Stats.PopulationVariance | backend/src/main/java/com/example/alert/service/DetectionService.java:156-161 | the variance is 0 for fewer than two values and never negative |
| Stats.ConstantHasNoVariance | backend/src/main/java/com/example/alert/service/DetectionService.java:156-161 | samples that do not change have variance 0, so a phone lying still passes the stillness test |
| Events.Recent30 | backend/src/main/java/com/example/alert/repo/EventRepository.java:9-10 | the sample query returns at most 30 samples; element i is the i-th newest stored sample |
| MLScore.AccelTerm | backend/src/main/java/com/example/alert/service/MLService.java:81 | the acceleration term is never negative, is 0 up to 12 and reaches 1 from 27 |
| MLScore.GyroTerm | backend/src/main/java/com/example/alert/service/MLService.java:81 | the rotation term lies in [0, 0.5] and saturates at 0.5 from 300 |
| MLScore.Clamp01 | backend/src/main/java/com/example/alert/service/MLService.java:82 | the clamp lands in [0,1], keeps values already there, and sends values above to 1 and below to 0 |
| MLScore.Fallback | backend/src/main/java/com/example/alert/service/MLService.java:81-82 | the fallback score always lies in [0,1] |
| MLScore.Predict | backend/src/main/java/com/example/alert/service/MLService.java:70-84 | without a usable model the score lies in [0,1]; with one, it does too whenever the sigmoid maps into [0,1] |
| MLScore.BranchSelection | backend/src/main/java/com/example/alert/service/MLService.java:74-78 | the sigmoid of the linear score is used exactly when the weights are present with length 2; otherwise, and for the unloaded defaults, the heuristic is used |
| MLScore.ThresholdIgnored | backend/src/main/java/com/example/alert/service/MLService.java:70-84 | changing the loaded threshold never changes the prediction |
| MLScore.CalmAccelerationCapsScore | backend/src/main/java/com/example/alert/service/MLService.java:81-82 | at acceleration 12 or less only the rotation term counts, so the score is at most 0.5 |
| MLScore.StrongAccelerationSaturates | backend/src/main/java/com/example/alert/service/MLService.java:81-82 | from acceleration 27 the raw value is at least 1 and the score is exactly 1 |
| MLScore.FallbackMonotone | backend/src/main/java/com/example/alert/service/MLService.java:81-82 | more acceleration or more rotation never lowers the fallback score |
| DropDetector.Window | backend/src/main/java/com/example/alert/service/DetectionService.java:110-113 | the window holds exactly the recent samples at most 4000 ms older than, and not newer than, the current one |
| DropDetector.WindowAppend | backend/src/main/java/com/example/alert/service/DetectionService.java:111-113 | the filter distributes over concatenation, so it keeps the order and the repetitions of the samples it keeps |
| DropDetector.WindowOfOne | backend/src/main/java/com/example/alert/service/DetectionService.java:112 | a single sample is kept exactly when it lies in the window |
| DropDetector.PeakIndex | backend/src/main/java/com/example/alert/service/DetectionService.java:117-123 | the impact index is -1 when every magnitude is 0; otherwise it is the first index of the largest magnitude, which is positive |
| DropDetector.PeakValue | backend/src/main/java/com/example/alert/service/DetectionService.java:117-123 | the peak is the magnitude at the impact index, 0 when there is none, and bounds every magnitude in the window |
| DropDetector.FindPeak | backend/src/main/java/com/example/alert/service/DetectionService.java:117-123 | the strict-greater search loop returns that index and that peak |
| DropDetector.PostSlice | backend/src/main/java/com/example/alert/service/DetectionService.java:126-128 | the clamped bounds select the in-bounds slice from idx+1 to min(idx+5, size), at most 4 samples |
| DropDetector.PostSliceIsOlder | backend/src/main/java/com/example/alert/service/DetectionService.java:124-128 | on a newest-first window every sample of the "post-impact" slice was stored before the peak |
| DropDetector.Variance | backend/src/main/java/com/example/alert/service/DetectionService.java:156-161 | the two accumulator loops compute the population variance of the array, and 0 for a missing array |
| DropDetector.PostImpactVariances | backend/src/main/java/com/example/alert/service/DetectionService.java:124-141 | filling the arrays from the slice and taking their variances yields the variances of the slice's magnitudes |
| DropDetector.IsLikelyDeviceDrop | backend/src/main/java/com/example/alert/service/DetectionService.java:108-154 | the detector returns the drop verdict: a query result exists, the peak exceeds 18, both slice variances are below their limits, and the context names a surface |
| DropDetector.DropLike | backend/src/main/java/com/example/alert/service/DetectionService.java:108-153 | a drop verdict needs a query result, a non-empty window and a surface tag |
| DropDetector.DropLikeNeedsEveryCondition | backend/src/main/java/com/example/alert/service/DetectionService.java:143-150 | a drop verdict implies a non-empty window, a sample above 18 in it, both stillness limits, and a context containing face_down or still_side |
| DropDetector.NoWindowIsNotDrop | backend/src/main/java/com/example/alert/service/DetectionService.java:109-114 | a failed query or an empty window gives no drop |
| DropDetector.SoftWindowIsNotDrop | backend/src/main/java/com/example/alert/service/DetectionService.java:143 | no sample above 18 in the window gives no drop |
| DropDetector.NoSurfaceIsNotDrop | backend/src/main/java/com/example/alert/service/DetectionService.java:145-147 | a context without a surface marker gives no drop |
| DropDetector.VarianceOfTwo | backend/src/main/java/com/example/alert/service/DetectionService.java:156-161 | the variance of two values is the square of half their distance |
| DropDetector.QuietBeforeSpikeIsDrop | backend/src/main/java/com/example/alert/service/DetectionService.java:108-150 | a face-down phone whose window holds a 19.0 spike and two quiet samples stored before it is drop-like, because the slice after the peak index runs toward older samples |
| Classifier.RuleThresholdIsStrict | backend/src/main/java/com/example/alert/service/DetectionService.java:42 | the rule does not fire at acceleration 16.0 and fires above it, e.g. at 16.01 |
| Classifier.BaseAlert | backend/src/main/java/com/example/alert/service/DetectionService.java:58 | a rule hit always alerts; otherwise an alert needs acceleration above 13 or rotation above 80 together with a score above 0.55 |
| Classifier.DropCorroborated | backend/src/main/java/com/example/alert/service/DetectionService.java:62 | a corroborated drop has acceleration above 14.5; acceleration above 16 always corroborates; without a rule hit a score of 0.65 or less never does |
| Classifier.Decide | backend/src/main/java/com/example/alert/service/DetectionService.java:58-63 | an alert needs the base decision and, for a drop-like sample, a score above 0.65 or a rule hit with acceleration above 14.5; without a drop it equals the base decision |
| Classifier.WeakDropIsIgnored | backend/src/main/java/com/example/alert/service/DetectionService.java:58-63 | a drop-like sample without a rule hit and with score 0.5 raises no alert |
| Classifier.HumanLikely | backend/src/main/java/com/example/alert/service/DetectionService.java:75 | the sample counts as carried exactly when `in_hand` or `moving` occurs somewhere in its tag |
| Classifier.SurfaceLikely | backend/src/main/java/com/example/alert/service/DetectionService.java:76 | the sample counts as resting exactly when `face_down`, `still_side` or `in_pocket` occurs somewhere in its tag |
| Classifier.VeryStrong | backend/src/main/java/com/example/alert/service/DetectionService.java:77 | acceleration above 20 is always very strong; otherwise very strong needs a score above 0.80 and acceleration above 16 or rotation above 110 |
| Classifier.SelectTiming | backend/src/main/java/com/example/alert/service/DetectionService.java:74-94 | the first matching case wins: very strong and not a drop gives delay 0 and window max(cfg, 30 s); human-carried gives delay min(cfg, 5 s) and window max(cfg, 25 s); a drop or surface gives delay min(cfg, 5 s) and window max(cfg, 20 s); otherwise the configured pair. The window never shortens and the delay never grows |
| Classifier.NewAlert | backend/src/main/java/com/example/alert/service/DetectionService.java:96-98 | a new alert is PENDING_SILENT, starts prompting exactly max(0, silentMs) after creation, and its window lasts exactly max(1000, modalMs) |
| Classifier.HardImpactPromptsAtOnce | backend/src/main/java/com/example/alert/service/DetectionService.java:77-98 | an acceleration of 20.5 with no rotation and no context hits the rule, counts as very strong, prompts at creation and lasts at least 30 s |
| Lifecycle.Promote | backend/src/main/java/com/example/alert/service/DetectionService.java:168-174 | the first phase keeps the set of stored ids |
| Lifecycle.Expire | backend/src/main/java/com/example/alert/service/DetectionService.java:176-183 | the second phase keeps the set of stored ids |
| Lifecycle.DueForSending | backend/src/main/java/com/example/alert/service/DetectionService.java:176 | the send query returns only stored ids |
| Lifecycle.Tick | backend/src/main/java/com/example/alert/service/DetectionService.java:165-183 | a tick keeps every id, changes nothing but statuses, and moves each status along an allowed edge |
| Lifecycle.SentByTick | backend/src/main/java/com/example/alert/service/DetectionService.java:168-183 | a tick sends only stored, non-terminal alerts whose expiry has passed |
| Lifecycle.TickDeadline | backend/src/main/java/com/example/alert/service/DetectionService.java:176-183 | a tick leaves the deadline alone when nothing is sent and otherwise sets it to exactly max(old, now + 20000) |
| Lifecycle.TickIsPointwise | backend/src/main/java/com/example/alert/service/DetectionService.java:165-184 | a tick changes only statuses, each as the per-alert reference says |
| Lifecycle.SentByTickExactly | backend/src/main/java/com/example/alert/service/DetectionService.java:168-183 | a tick sends exactly the confirm-phase alerts past expiry, plus the silent alerts past both their prompt time and their expiry |
| Lifecycle.TickSteps | backend/src/main/java/com/example/alert/service/DetectionService.java:165-184 | every alert moves along an allowed lifecycle edge; SENT and CANCELLED alerts are untouched |
| Lifecycle.TickIdempotent | backend/src/main/java/com/example/alert/service/DetectionService.java:165-184 | a second tick at the same or an earlier time changes nothing and sends nothing |
| Lifecycle.TickPreservesValid | backend/src/main/java/com/example/alert/service/DetectionService.java:165-184 | a tick keeps every alert's id and its window of at least 1000 ms |
| Lifecycle.Confirm | backend/src/main/java/com/example/alert/service/DetectionService.java:186-206 | a confirmation keeps the stored ids and leaves every other alert unchanged |
| Lifecycle.ConfirmDeadline | backend/src/main/java/com/example/alert/service/DetectionService.java:189-204 | a confirmation leaves the deadline alone for an absent or finished alert, and otherwise sets it to exactly max(old, now + 10000) (okay) or max(old, now + 20000) (not okay) |
| Lifecycle.ConfirmOutcome | backend/src/main/java/com/example/alert/service/DetectionService.java:186-206 | an absent or finished alert is left alone; an open one becomes CANCELLED (okay) or SENT (not okay) with nothing else changed; all moves are allowed edges |
| Lifecycle.ConfirmPreservesValid | backend/src/main/java/com/example/alert/service/DetectionService.java:186-206 | a confirmation keeps every alert's id and window |
| Lifecycle.ConfirmedAlertSurvivesTick | backend/src/main/java/com/example/alert/service/DetectionService.java:168-183 | after the user closes an alert, no tick changes or sends it again |
| Service.DetectionService.constructor | backend/src/main/java/com/example/alert/service/DetectionService.java:20-32 | the service starts with deadline 0, empty stores, nothing dispatched, and the configured timings |
| Service.DetectionService.RecordEvent | backend/src/main/java/com/example/alert/controller/EventController.java:68 | storing a sample appends it to the sample store and changes nothing else |
| Service.DetectionService.Process | backend/src/main/java/com/example/alert/service/DetectionService.java:34-105 | before the deadline, no alert and no change; otherwise exactly one new silent alert, built from the score, the drop verdict and the adaptive timing, is stored under a new id when the final decision holds. The deadline never changes |
| Service.DetectionService.CheckPendingAlerts | backend/src/main/java/com/example/alert/service/DetectionService.java:165-184 | the store becomes the tick of the old store, the deadline is raised as the tick rule says, and each sent alert is dispatched exactly once |
| Service.DetectionService.PromoteDueAlerts | backend/src/main/java/com/example/alert/service/DetectionService.java:168-174 | the first loop moves exactly the due silent alerts to PENDING_CONFIRM and changes nothing else |
| Service.DetectionService.SendExpiredAlerts | backend/src/main/java/com/example/alert/service/DetectionService.java:176-183 | the second loop sends exactly the elapsed confirm-phase alerts, dispatches each once, and raises the deadline to max(old, now+20000) if anything was sent |
| Service.DetectionService.ConfirmAlert | backend/src/main/java/com/example/alert/service/DetectionService.java:186-206 | the store and deadline change as the confirmation rule says, and a dispatch happens only when an open alert is answered "not okay" |

## Left out

- The square roots that give the magnitudes (`Math.sqrt`, lines 40-41, 121, 134-135 of `DetectionService.java`, and lines 71-72 of `MLService.java`) are not computed. They are floating-point numerics, so samples carry their magnitudes.
- `double` rounding is not modelled: all thresholds and the variance are compared over exact reals.
- The logistic function `1 / (1 + exp(-z))` (`MLService.java:76`) is a floating-point `exp`. It is a function-valued parameter of the service.
- MLScore.Predict: its [0,1] bound for the logistic branch holds only when the supplied sigmoid maps into [0,1], because `exp` is not modelled.
- `MLService.load` and `parseJsonModel` do classpath I/O and JSON parsing. Their result is the `Descriptor` value. The TFLite bytes they may load are never used by the prediction.
- Formatting of the reason text (`%.2f`) and every log line are out. The alert records the fields of its reason as a `Reason` value.
- `sendTelegramAlert` builds text and calls the network, and it swallows failures. It is a ghost dispatch count, since a failure never changes the transition.
- `TelegramService`, `SmsService`, the controllers (apart from the sample save at `EventController.java:68`), the CORS configuration, the web front end and the training script are out: they are transport, routing, UI and training.
- Concurrency is out: the `volatile` field, the `@Scheduled(fixedDelay = 1000)` driver and `@Transactional`. Ticks and requests are sequential method calls with an explicit time.
- Java `long` overflow in sums such as `now + 20_000` is not modelled; times are unbounded integers.
- Persistence failures other than the sample query inside the drop detector are not modelled. The JPA stores are an in-memory map and sequence.
- The null check on `confirmStartsAt` in the tick (line 170) always passes in the model, because every alert gets both times when it is created. A `null` id passed to `confirmAlert` is not modelled.
- Sample ids, raw axis values and the unused `recent30` query on alerts are not modelled.
