# eventSegment: a verified model of mosaic's threshold event segmenter

mosaic's `eventSegment` partitions a stream of ionic-current samples into
events. A sample whose magnitude falls below `thrCurr = |meanOpenCurr| -
eventThreshold * |sdOpenCurr|` starts an event. The event grows until a
sample reaches the mean of the look-behind buffer. It is padded in front
with that buffer, which holds at most `eventPad` samples, ends with the
trigger sample itself, and is shorter right after an earlier event
because each event clears it. It is padded behind with a filtered window
of the `eventPad` samples after it. It is handed to the event processor when its run holds
at least `minEventLength` samples. This project models `_init` (settings,
threshold, initial state) and `_eventsegment` (the segmentation loop), and
proves properties of both.

Files:

- `wrappers.dfy` holds `Result`.
- `samples.dfy` holds sample arithmetic: `util.avg` as `Mean`; Python's
  truncating `int()` as `TruncToInt`; the bounded `deque(maxlen=eventPad)`
  as `Push`/`Window`.
- `settings.dfy` covers the settings block of `_init`: each key popped with
  its default, converted, or rejected.
- `segment_model.dfy` is a value-level specification of `_eventsegment`:
  - `Take`: lines 168-181;
  - `Grow`/`PopRun`: the inner loop, lines 184-188;
  - `Close`: lines 191-229, covering refill, pad, acceptance and clearing;
  - `Advance`: lines 182-229;
  - `Step`: one pass of the outer loop;
  - `Segment`: the whole call, until `IndexError` ends it;
  - `Inv`: the invariant kept between calls.
- `segment_lemmas.dfy` holds properties of that specification: the
  invariant, counting, acceptance, payload layout, the end of a run and
  exhaustion.
- `event_segment.dfy` holds the class `EventSegment`. Its fields mirror
  the Python attributes; the configuration fixed by `_init` is `const`.
  Each phase is a method that updates the fields in place, with `while`
  loops where the source has them. `SegmentEvents` is proved to produce
  exactly `Segment(Cfg(), selectS, old(State()))`.
- `scenarios.dfy` proves concrete passes: ten low samples (accepted),
  three (rejected), a pad filtered to nothing, and an event split by a
  chunk boundary.

Collaborators outside the file are parameters or fields:

- `util.selectS` is the `Selector` function `selectS`; nothing is assumed
  about what it returns.
- `trajDataObj.popdata(n)` takes the next `Min(n, remaining)` samples of
  the `trajectory` field.
- `_processEvent(eventProcHnd(...))` appends the call's arguments, as an
  `EventRecord`, to the ghost log `dispatched`.
- `IndexError` (from `popleft()` on an empty deque, or from indexing past
  the pad) is `HaltReason.Exhausted`.
- The `ZeroDivisionError` of `util.avg` on an empty buffer is
  `HaltReason.EmptyAverage`.

### Behaviour of the code that the model keeps

- The trigger sample is pushed into the look-behind buffer before the
  event starts, so it is both the last lead-pad sample and the first run
  sample (`TriggerStartsEvent`).
- The sample that ends the run, at or above the local mean, stays in the
  run (`IdleCycleRun`).
- The trailing pad is read without being consumed; the next pass starts
  from the same samples (`CloseSettles`).
- The end offset is `|buffer| + |run| + 1`. It is one past the payload
  when the pad filter drops every pad sample (`EndOffsetPastPayload`).
- Running dry inside the run returns with the event left open, but the
  next call does not continue it. Its first sample is neither buffered nor
  added to the run. If that sample is below `thrCurr`, the run restarts
  as that one sample; the samples already collected are dropped, and
  `dataStart` is counted back over the buffer kept from the earlier
  trigger. Otherwise the run keeps its samples but never gets that one
  (`ResumedRunRestarts`). So an event split by a chunk boundary can be
  cut short and rejected: four samples at 50 read in one call give an
  accepted run of 5, while the same samples split two and two over two
  calls end the second with the run `[50, 50, 100]`, nothing dispatched,
  and `dataStart` 2 instead of 0 (`ChunkBoundarySplitsRun`).
- Running dry while padding loses the event and leaves the buffer
  uncleared (`ExhaustionStates`).
- The top-up asks `popdata` for one chunk only. When a chunk is shorter
  than the shortfall, the pad fails although the trajectory still has
  data (`ExhaustionStates`).
- With `eventPad = 0` the buffer is always empty, so the first event
  divides by zero (`ZeroPadCannotAverage`). With `eventPad > 0` a call
  only ends by running out of data (`PositivePadOnlyExhausts`).

### Worked consequences

- The sample that ends the run stays in it. Ten samples at 50 between
  samples at 100, with pad 3, minimum 5 and thrCurr 85, give a run of 11,
  a payload of 14 plus the filtered pad, and offsets 4 and 15. The lead
  pad `[100, 100, 50]` already holds the trigger sample (`TenLowSamples`).
- The end offset can be one past the payload: a pad filter that drops
  every pad sample gives `end = len(payload) + 1`
  (`EndOffsetPastPayload`).
- An empty look-behind buffer makes `util.avg` divide by zero; there is
  no fallback baseline (`ZeroPadCannotAverage`).
- The top-up pulls one chunk only, not as many as the pad needs
  (`ExhaustionStates`).

## Model

| member | source | states |
|---|---|---|
| Samples.MeanWithin | mosaic/eventSegment.py:184 | `util.avg` of a non-empty buffer lies between its smallest and its largest sample |
| Samples.TruncToInt | mosaic/eventSegment.py:69-70 | `int()` of a float truncates toward zero: `r <= x < r+1` for `x >= 0`, `r-1 < x <= r` for `x < 0`, and `abs(r) <= abs(x)` |
| Samples.Push | mosaic/eventSegment.py:172-173 | appending to `deque(maxlen=cap)`: the length is `min(n+1, cap)`; the result is the last `cap` samples of `b + [x]`; `x` is last; a full buffer drops exactly its oldest sample |
| Samples.WindowOfWindow | mosaic/eventSegment.py:90 | the bounded buffer forgets only what is out of reach: windowing, appending more, then windowing again equals one window over everything |
| Samples.PushThenWindow | mosaic/eventSegment.py:172-173 | pushing samples one at a time leaves the last `cap` samples of the whole stream |
| SegmentSettings.ParseSettings | mosaic/eventSegment.py:67-76 | a failing conversion is reported as the settings type error |
| SegmentSettings.ParseSettingsReads | mosaic/eventSegment.py:67-74 | setup succeeds iff every present setting converts; each setting then takes the dictionary's value (integer ones truncated) or its default when absent |
| SegmentSettings.ThresholdCurrent | mosaic/eventSegment.py:79 | with a non-negative eventThreshold, thrCurr lies at or below the open-channel level `abs(meanOpenCurr)`, strictly below when the threshold and the SD are both non-zero |
| SegmentSettings.DefaultSettings | mosaic/eventSegment.py:68-79 | with no settings the defaults are 1.0, 500, 5, 6.0, -1, -1, -1, so thrCurr is -5 |
| EventSegmentation.EventSegment.constructor | mosaic/eventSegment.py:62-92 | on successful setup: settings taken and removed from the dictionary, `thrCurr = abs(mean) - k*abs(sd)`, drift check on iff both drift limits are non-negative, no open event, empty buffer and run, zero counts, invariant established |
| EventSegmentation.EventSegment.Create | mosaic/eventSegment.py:62-92 | setup succeeds iff the settings convert and eventPad is non-negative; otherwise it fails with the matching error (settings type error first, then the deque's negative capacity) |
| EventSegmentation.EventSegment.PopData | mosaic/eventSegment.py:195 | `popdata(n)` hands over the next `min(n, remaining)` samples and removes them from the trajectory |
| EventSegmentation.EventSegment.ProcessEvent | mosaic/eventSegment.py:216-227 | a dispatch appends exactly one record to the dispatched events |
| SegmentModel.Take | mosaic/eventSegment.py:168-181 | taking a sample pops exactly the head and advances the global index by one; an event is open afterwards iff one was open or the sample's magnitude is below thrCurr; an open event's buffer is left alone; nothing is dispatched or counted |
| SegmentLemmas.ResumedRunRestarts | mosaic/eventSegment.py:168-181 | with an event left open by an earlier call, the sample taken is not buffered and not added to the run: below thrCurr it restarts the run as `[t]` with dataStart counted back over the kept buffer; otherwise run and dataStart stay as they were |
| EventSegmentation.EventSegment.TakeSample | mosaic/eventSegment.py:168-181 | pops the head sample and advances the global index; buffers the sample only while idle; starts an event iff `abs(t) < thrCurr`, with run `[t]` and `dataStart = index - len(buffer) - 1` |
| SegmentModel.Grow | mosaic/eventSegment.py:185-188 | the inner loop pops at most the queued samples; when it does not end at the mean, it has popped every queued sample |
| SegmentModel.GrowStopsAtMean | mosaic/eventSegment.py:185-188 | every sample examined before the last is below the local mean; the loop ends normally iff the last examined sample is at or above it |
| SegmentModel.GrowsToFirstHigh | mosaic/eventSegment.py:185-188 | conversely, when the first k samples examined are below the mean and the next is not, the loop pops exactly k samples and ends normally |
| EventSegmentation.EventSegment.GrowRun | mosaic/eventSegment.py:184-188 | the loop pops into the run exactly the samples `Grow` counts, in order, advancing the global index by as many; `ended` is false iff the queue ran dry |
| SegmentModel.PopRun | mosaic/eventSegment.py:185-188 | moving samples from the queue into the run conserves global index + samples still to read |
| SegmentModel.Refill | mosaic/eventSegment.py:194-195 | the refill moves samples without losing or creating any |
| SegmentLemmas.RefillAppends | mosaic/eventSegment.py:194-195 | refill only appends: the queue's prefix is kept; queue tail + trajectory equals the old trajectory; nothing happens when eventPad samples are queued; otherwise one chunk of `min(nPoints, remaining)` |
| EventSegmentation.EventSegment.TopUp | mosaic/eventSegment.py:194-195 | the queue gets the next chunk of the trajectory exactly when it holds fewer than eventPad samples |
| SegmentModel.PadReadsQueueHead | mosaic/eventSegment.py:201-206 | the trailing pad depends only on the first eventPad queued samples: states agreeing on those give the same pad |
| SegmentModel.RecordLayout | mosaic/eventSegment.py:216-226 | the dispatched payload is buffer, run and pad in that order; the 1-based offsets pick out exactly the run; the absolute index is dataStart |
| SegmentLemmas.SettleDispatches | mosaic/eventSegment.py:209-227 | dispatch happens iff the run has at least minEventLength samples; a rejection changes nothing; the payload is buffer ++ run ++ pad, the offsets are 1-based, the absolute index is dataStart, and the record is well formed |
| EventSegmentation.EventSegment.SettleEvent | mosaic/eventSegment.py:209-229 | a long enough event is counted and dispatched with the source's arguments, and a short one is not; the buffer is cleared either way |
| SegmentModel.Close | mosaic/eventSegment.py:191-229 | ending an event neither consumes nor creates samples and leaves the global index unchanged |
| SegmentLemmas.CloseBookkeeping | mosaic/eventSegment.py:191-229 | ending an event adds at most one record, and only when the pass goes on; earlier records are kept; the count follows the log; the event is closed either way |
| SegmentLemmas.CloseSettles | mosaic/eventSegment.py:191-229 | past the pad: idle, empty buffer, at least eventPad samples queued, run kept; dispatched iff the run is long enough; payload = the look-behind buffer the close found ++ run ++ the pad filtered from the samples the next pass starts from; `end = start + len(run)` |
| EventSegmentation.EventSegment.CloseEvent | mosaic/eventSegment.py:191-229 | the in-place closing does exactly what `Close` specifies, including stopping when the pad cannot be built |
| SegmentModel.Advance | mosaic/eventSegment.py:182-229 | a pass with an open event never creates samples and conserves global index + samples still to read |
| EventSegmentation.EventSegment.RunEvent | mosaic/eventSegment.py:182-229 | with an event open, the in-place code does exactly what `Advance` specifies: empty-buffer average, running dry in the run, running dry at the pad, or going on |
| SegmentModel.Step | mosaic/eventSegment.py:168-229 | a pass that goes on strictly reduces the samples still to read (so the loop terminates); global index + samples still to read is conserved |
| EventSegmentation.EventSegment.Cycle | mosaic/eventSegment.py:168-229 | one pass of the in-place loop does exactly what `Step` specifies |
| SegmentLemmas.StepBookkeeping | mosaic/eventSegment.py:168-229 | a pass adds at most one record and keeps the earlier ones; eventcount grows with the log; a pass that ends the call dispatches nothing; a pass that goes on leaves no event open |
| SegmentLemmas.TakeKeepsInv | mosaic/eventSegment.py:168-181 | taking a sample keeps the invariant: buffer within capacity, non-empty run (and buffer, for a positive pad) while open, count = dispatches, records well formed |
| SegmentLemmas.SettleKeepsInv | mosaic/eventSegment.py:209-229 | settling an event and clearing the buffer keeps the invariant |
| SegmentLemmas.StepKeepsInv | mosaic/eventSegment.py:168-229 | every pass keeps the invariant, however it ends |
| SegmentModel.Segment | mosaic/eventSegment.py:156-231 | the whole call conserves global index + samples still to read |
| SegmentLemmas.SegmentKeepsInv | mosaic/eventSegment.py:156-231 | the invariant holds when the call returns: buffer length at most eventPad, every dispatched record well formed (offsets in range, run at least minEventLength) |
| SegmentLemmas.SegmentCountsDispatches | mosaic/eventSegment.py:209-227 | across a call, eventcount grows by exactly the number of events dispatched, earlier dispatches are unchanged, and the count never decreases |
| EventSegmentation.EventSegment.SegmentEvents | mosaic/eventSegment.py:156-231 | the in-place routine ends in exactly the state and for exactly the reason `Segment` specifies; it keeps the invariant; count and dispatches grow together; with a positive eventPad the call only ends by running out of samples |
| SegmentLemmas.PositivePadOnlyExhausts | mosaic/eventSegment.py:172-183 | with a positive pad, a call that starts in the invariant only ends by running out of samples, never on an empty-buffer average |
| SegmentLemmas.ZeroPadCannotAverage | mosaic/eventSegment.py:172-183 | with eventPad 0, the first sample that starts an event makes the average of the empty buffer fail |
| SegmentLemmas.TriggerStartsEvent | mosaic/eventSegment.py:172-181 | from idle, an event starts iff `abs(t) < thrCurr`; the trigger sample is the last buffer sample (for a positive pad) and the whole run; dataStart counts back over the buffer |
| SegmentLemmas.IdleCycleRun | mosaic/eventSegment.py:176-188 | a completed cycle from idle: the run starts with the trigger sample and is a prefix of the stream; all run samples but the last are below the buffer's mean; the last is at or above it |
| SegmentLemmas.EventCycle | mosaic/eventSegment.py:183-229 | a completed event cycle ends idle with an empty buffer; it dispatches iff the run is long enough; payload = lead pad ++ run ++ filtered pad of the next samples, where the lead pad is the look-behind buffer: from idle, the old buffer with the trigger sample pushed onto it; for an event left open earlier, the buffer kept since its trigger; `end = start + len(run)` |
| SegmentLemmas.ExhaustionStates | mosaic/eventSegment.py:166-231 | running out of samples ends the call unchanged, or mid-run with the event left open, or at the pad with the event closed, nothing dispatched, the look-behind buffer left uncleared, and the trajectory empty unless a chunk is shorter than the pad |
| SegmentLemmas.IdleStepBelowZero | mosaic/eventSegment.py:172-181 | with `thrCurr <= 0` an idle pass only buffers the sample it takes |
| SegmentLemmas.NonPositiveThresholdNeverTriggers | mosaic/eventSegment.py:168-181 | with `thrCurr <= 0` an idle call reads the whole queue without refilling, dispatching or counting, and leaves the last eventPad samples read in the buffer |
| SegmentScenarios.TenLowSamples | mosaic/eventSegment.py:168-229 | ten samples at 50 between samples at 100 (pad 3, minimum 5, threshold 85): one event, run of 11, offsets 4 and 15, lead pad `[100, 100, 50]`, three samples left queued |
| SegmentScenarios.ThreeLowSamples | mosaic/eventSegment.py:209-229 | three low samples: a run of 4 is rejected; nothing is counted or dispatched; the buffer is cleared |
| SegmentScenarios.DryInsideRun | mosaic/eventSegment.py:183-188 | a call given only two low samples runs dry inside the run and returns with the event open, run `[50, 50]` and dataStart 0 |
| SegmentScenarios.ResumeRestartsRun | mosaic/eventSegment.py:168-229 | the next call, given the rest of the stream, restarts the run from its first sample; the run `[50, 50, 100]` is rejected and dataStart becomes 2 |
| SegmentScenarios.ChunkBoundarySplitsRun | mosaic/eventSegment.py:168-229 | four low samples in one call are accepted as a run of 5 from index 0; split two and two over two calls, nothing is dispatched |
| SegmentScenarios.EndOffsetPastPayload | mosaic/eventSegment.py:201-221 | when the pad filter drops every sample, the end offset is the payload length + 1 |

## Left out

- Settings values are numbers or malformed (`SettingValue`). Parsing
  strings with `float()`/`int()` is not modelled. A fractional `int()`
  argument is truncated, as `int()` of a float is.
- Line 76 raises through a module name the file never imports. As written,
  a bad setting raises `NameError`; the model reports the settings type
  error the line names.
- On a setup failure, the keys popped before the failing one are already
  removed. The model leaves the dictionary untouched on failure, since
  the object is then discarded.
- `dataStart` is not set by `_init`. The constructor sets it to 0; it is
  only read after an event has set it.
- The `metaEventPartition` base class is not part of this model. Its
  fields (`currData`, `trajDataObj`, `nPoints`, `settingsDict`, drift
  limits, `eventProcSettingsDict`, `writeEventTS`) are constructor
  parameters, and `globalDataIndex` starts at 0. Its block loop that refills `currData` and
  calls `_eventsegment` again is outside the model. Baseline and drift
  recomputation are outside it too, so the baseline is fixed.
- `util.selectS` (the pad filter) and `util.avg` come from a utilities
  module that is not part of this model. `selectS` is an uninterpreted
  function parameter. `avg` is sum / length.
- `_processEvent` and `eventProcHnd` (event characterisation,
  parallel dispatch) are a one-way append to a ghost log. The `.copy()`
  of the settings dictionary is immaterial for immutable maps.
- `eventprocessedcount` is only initialised.
- Statistics and log-formatting methods (lines 97-150), `_stop`, and the
  CUSUM, web and JavaScript files are outside the model.
- Samples are exact reals, so floating-point rounding (in the mean, and in
  the comparisons against `thrCurr` and the mean) is not modelled.
- Python exceptions are modelled as halting results. The routine's caller
  handling them is not modelled.
