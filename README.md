# SmartListener inference task, modelled in Dafny

This project models `ml_inference_task`, the audio inference loop of the
SmartListener firmware. Per audio block read from the PDM microphone, the task:

- restarts the per-block peak and decays the slow peak;
- for every sample, normalises it (raw / 2^15), boosts it by 10 and clamps it
  to [-1, 1];
- enqueues the sample into the inference engine (a refusal halts) and folds it
  into the envelope;
- polls the engine once per sample:
  - an error halts;
  - "no data" continues;
  - a completed score vector goes through a left-to-right arg-max scan with a
    sentinel of -1000 and strict `>`.

The scan's (label, confidence) observation feeds a debounce machine with the
state `last_seen_label`, `debounce_counter` and `confirmed_label`:

- only confidences >= 0.90 count;
- three in a row of a label that is not the confirmed one confirm it and reset
  the counter;
- a confirmation outside the background set is sent, without waiting, to the
  bounded publisher queue. The background set defaults to {0, 6}
  ("unlabeled", "unknown").

## Modules

- `Conditioning` (`conditioning.dfy`): the sample conversion
  (`Normalize`, `Clamp`, `Condition`) over reals, with raw samples as a
  16-bit `int16` newtype.
- `Reduction` (`reduction.dfy`): the arg-max. `Scan` is its specification as a
  fold, and `ArgMax` is the loop over the score array.
- `Debounce` (`debounce.dfy`): the machine as pure functions:
  - `Step` handles one frame;
  - `Run` handles a sequence of frames and collects every confirmation;
  - `Events` keeps the confirmations outside the background set.

  The event-count scenarios are proved as lemmas over `Repeat(o, k)`, which is
  k copies of one observation.
- `Envelope` (`envelope.dfy`): `sample_max` and `sample_max_slow` as
  `Tick` (block start) and `Track` (one sample), with block-level closed forms.
- `Publisher` (`publisher.dfy`): the publisher queue, a bounded FIFO whose
  non-blocking send drops a message when the queue is full.
- `InferenceEngine` (`engine.dfy`): the engine as an abstract class. Each
  enqueue result and each dequeue reply is a fixed function of the samples fed
  so far. The engine is a deterministic pipeline polled exactly once per
  sample, so no other state matters.
- `MlTask` (`ml_task.dfy`):
  - `InferenceTask` is a class holding the task's persistent state: the three
    debounce variables, the two envelope peaks and a run/halted status. Two
    ghost histories sit beside them: the observations and the published
    events.
  - Its methods mirror the C code statement by statement:
    - `TickBlock`;
    - `TrackSample`;
    - `CountObservation`, the debounce branches;
    - `Observe`, the debounce branches plus publishing;
    - `ProcessSample`;
    - `ProcessBlock`, the per-sample loop that stops at the first fault.
  - Each method is proved equal to a pure model: `SampleStep`, `Feed` and
    `BlockModel` over a `World` value. The lemmas about the pure model give the
    task-level properties.
  - `Valid()` says that the debounce state and the published events are exactly
    those of `Run(Initial, observations)`.

`halt_error` is modelled as a terminal status `Halted(cause)`. A halted task
processes nothing more.

The slow peak decays by 0.0005 per block with no floor of its own. In the code,
though, it is raised to the per-block peak after every sample, and that peak is
never negative. So the slow peak falls without bound only across empty blocks.
Across non-empty silent blocks it stops at 0 (`EmptyBlocksDecay`,
`SilentBlocksDecay`).

## Model

| member | source | states |
|---|---|---|
| Conditioning.Normalize | ModusToolbox_Project/SmartListener/source/ml_task.c:58 | every 16-bit sample divided by 2^15 lies in [-1, 1) |
| Conditioning.Clamp | ModusToolbox_Project/SmartListener/source/ml_task.c:139-146 | the result lies in [-1, 1] and is the point of [-1, 1] nearest to the input |
| Conditioning.Condition | ModusToolbox_Project/SmartListener/source/ml_task.c:138-146 | the enqueued value lies in [-1, 1]; raw magnitudes up to 3276 pass through as raw * 10 / 32768 exactly; larger positive raws give 1.0 and larger negative raws give -1.0 |
| Conditioning.ConditionAllAt | ModusToolbox_Project/SmartListener/source/ml_task.c:135-138 | element i of a block's conditioned samples is the conditioning of raw sample i |
| Reduction.ScanIsFirstMaximum | ModusToolbox_Project/SmartListener/source/ml_task.c:163-183 | when some score exceeds -1000, the scan returns an in-range index holding a maximum score, its score as confidence, and every earlier index scores strictly less (first maximum wins); when no score exceeds -1000, it returns index 0 with confidence -1000 |
| Reduction.ScanInRange | ModusToolbox_Project/SmartListener/source/ml_task.c:163-183 | the confidence is never below the sentinel, and a confidence above it names an index of the vector |
| Reduction.ArgMax | ModusToolbox_Project/SmartListener/source/ml_task.c:172-183 | the loop over the score array returns the scan of the array, hence its first maximum |
| Debounce.Step | ModusToolbox_Project/SmartListener/source/ml_task.c:188-204 | below 0.90 nothing changes and nothing is confirmed; a confirmation happens exactly when the updated run length (counter + 1 on the same label, else 1) reaches 3 and the label is not the confirmed one, and then the state becomes (label, 0, label); otherwise the confirmed label is unchanged and the run is the label with the updated length |
| Debounce.StepPreservesInv | ModusToolbox_Project/SmartListener/source/ml_task.c:188-204 | every step keeps the counter non-negative and keeps a zero or full-length run on the confirmed label |
| Debounce.RunPreservesInv | ModusToolbox_Project/SmartListener/source/ml_task.c:79-81 | the invariant holds after any sequence of frames from a state satisfying it |
| Debounce.LowConfidenceIgnored | ModusToolbox_Project/SmartListener/source/ml_task.c:188 | any sequence of frames below 0.90 leaves the state unchanged and confirms nothing |
| Debounce.NoRepeatedConfirmation | ModusToolbox_Project/SmartListener/source/ml_task.c:201-204 | successive confirmations always differ, the first differs from the label confirmed before, and the confirmed label is the last confirmation (or unchanged when there is none) |
| Debounce.HoldingConfirmedLabel | ModusToolbox_Project/SmartListener/source/ml_task.c:201 | once a label is confirmed, any number of further frames of it confirm nothing |
| Debounce.ConfirmWithin | ModusToolbox_Project/SmartListener/source/ml_task.c:190-204 | k confident frames of an unconfirmed label, enough to complete its current run, confirm it exactly once |
| Debounce.RepeatConfirmsOnce | ModusToolbox_Project/SmartListener/source/ml_task.c:190-204 | three or more confident frames of one label confirm it exactly once, or not at all if it is already confirmed, and leave it confirmed |
| Debounce.EventsFilter | ModusToolbox_Project/SmartListener/source/ml_task.c:207-221 | a label is published exactly when it is confirmed and not a background label; there are never more events than confirmations |
| Debounce.EventsWithoutBackground | ModusToolbox_Project/SmartListener/source/ml_task.c:207-214 | without background labels, every confirmation is published, in order |
| Debounce.FiveFramesOneEvent | ModusToolbox_Project/SmartListener/source/ml_task.c:188-214 | [A, A, A, A, A] from the initial state publishes A exactly once |
| Debounce.TwoLabelsTwoEvents | ModusToolbox_Project/SmartListener/source/ml_task.c:188-214 | [A, A, A, B, B, B] publishes A then B |
| Debounce.ReArmConfirms | ModusToolbox_Project/SmartListener/source/ml_task.c:190-204 | [A x 5, B x 3, A x 3] confirms A, B, A |
| Debounce.ReArmedByOtherLabel | ModusToolbox_Project/SmartListener/source/ml_task.c:188-214 | [A x 5, B x 3, A x 3] publishes A, B, A: confirming B re-arms A |
| Debounce.BackgroundConfirmedSilently | ModusToolbox_Project/SmartListener/source/ml_task.c:201-221 | a background label held for three frames becomes the confirmed label but publishes nothing |
| Envelope.Tick | ModusToolbox_Project/SmartListener/source/ml_task.c:133-134 | at block start the block peak is 0 and the slow peak has dropped by exactly 0.0005 |
| Envelope.Track | ModusToolbox_Project/SmartListener/source/ml_task.c:152-161 | after a sample the block peak is at least abs(sample) and at least its previous value, and equals one of them; the slow peak is at least the block peak and its previous value, and equals one of them |
| Envelope.TrackAllPeaks | ModusToolbox_Project/SmartListener/source/ml_task.c:135-161 | after tracking a sequence, the block peak bounds every abs(sample), is attained or unchanged, and the slow peak is the maximum of its old value and the block peak |
| Envelope.BlockPeaks | ModusToolbox_Project/SmartListener/source/ml_task.c:133-161 | after a non-empty block, the block peak is the largest abs(sample) of the block and the slow peak is max(old slow - 0.0005, block peak); an empty block only ticks |
| Envelope.EmptyBlocksDecay | ModusToolbox_Project/SmartListener/source/ml_task.c:133 | across n empty blocks the slow peak falls by exactly n * 0.0005 |
| Envelope.SilentBlocksDecay | ModusToolbox_Project/SmartListener/source/ml_task.c:133-161 | across n non-empty all-zero blocks the slow peak is max(old - n * 0.0005, 0) |
| Publisher.Offer | ModusToolbox_Project/SmartListener/source/ml_task.c:214 | a send appends the message exactly when the queue is below capacity and otherwise leaves it as it was; a queue within capacity stays within capacity |
| Publisher.PublisherQueue.TrySend | ModusToolbox_Project/SmartListener/source/ml_task.c:212-214 | the queue becomes Offer of the old queue, and the result says whether the message was queued |
| Publisher.SaturatedQueueDropsAll | ModusToolbox_Project/SmartListener/source/ml_task.c:214 | any number of sends to a full queue leave it unchanged |
| InferenceEngine.Engine.Enqueue | ModusToolbox_Project/SmartListener/source/ml_task.c:147 | the engine's history grows by the sample, and the result is the engine's answer for that history |
| InferenceEngine.Engine.Dequeue | ModusToolbox_Project/SmartListener/source/ml_task.c:165-167 | the status is the reply's kind; on a frame the output array holds its scores, otherwise the array is untouched |
| MlTask.SampleStepFed | ModusToolbox_Project/SmartListener/source/ml_task.c:135-237 | one sample adds exactly its conditioned value to the engine's history; an enqueue refusal halts with an enqueue fault, a dequeue error halts with a dequeue fault, and otherwise the status is unchanged |
| MlTask.ConsistentStep | ModusToolbox_Project/SmartListener/source/ml_task.c:188-221 | one more observation keeps the debounce state and events equal to the machine's run over all observations |
| MlTask.ObserveFrameConsistent | ModusToolbox_Project/SmartListener/source/ml_task.c:188-221 | observing a frame keeps the task consistent with the machine |
| MlTask.FeedConsistent | ModusToolbox_Project/SmartListener/source/ml_task.c:135-238 | feeding a block keeps the task consistent with the machine |
| MlTask.BlockConsistent | ModusToolbox_Project/SmartListener/source/ml_task.c:124-239 | a whole block, whatever its outcome, keeps the task consistent with the machine |
| MlTask.FeedHalted | ModusToolbox_Project/SmartListener/source/ml_task.c:326-334 | a halted task feeds nothing more and changes nothing |
| MlTask.FeedCompletes | ModusToolbox_Project/SmartListener/source/ml_task.c:135-148 | a block without a fault hands the engine every conditioned sample of the block, in order, one enqueue each |
| MlTask.FeedStopsAtFault | ModusToolbox_Project/SmartListener/source/ml_task.c:135-236 | a block that faults hands the engine a non-empty prefix of its conditioned samples, ending at the faulting sample, and nothing after |
| MlTask.FeedFaultCause | ModusToolbox_Project/SmartListener/source/ml_task.c:147-236 | a fault inside a block is never a read fault; an enqueue fault means the last enqueue was refused, and a dequeue fault means the last enqueue succeeded and the poll after it returned an error |
| MlTask.BlockFeeding | ModusToolbox_Project/SmartListener/source/ml_task.c:124-239 | a halted task is unchanged; a failed read halts with a read fault and feeds nothing; a running block feeds all of its samples or a prefix ending at its fault |
| MlTask.FeedExtends | ModusToolbox_Project/SmartListener/source/ml_task.c:207-214 | observations, events and queue only grow; a block queues at most as many messages as it publishes events, and the queue never exceeds its capacity |
| MlTask.FeedEnvelope | ModusToolbox_Project/SmartListener/source/ml_task.c:150-161 | after a completed block, the envelope is the envelope of its conditioned samples |
| MlTask.BlockEnvelope | ModusToolbox_Project/SmartListener/source/ml_task.c:133-161 | after a completed block, the envelope is Envelope.Block of its conditioned samples |
| MlTask.InferenceTask.constructor | ModusToolbox_Project/SmartListener/source/ml_task.c:79-81 | the task starts with no label seen, counter 0, no label confirmed, both peaks 0 and no history, with a background set that defaults to {0, 6} |
| MlTask.InferenceTask.TickBlock | ModusToolbox_Project/SmartListener/source/ml_task.c:133-134 | the peak fields become Tick of the old envelope |
| MlTask.InferenceTask.TrackSample | ModusToolbox_Project/SmartListener/source/ml_task.c:152-161 | the peak fields become Track of the old envelope and the sample |
| MlTask.InferenceTask.CountObservation | ModusToolbox_Project/SmartListener/source/ml_task.c:188-204 | the three debounce fields become Step's next state and the result is Step's confirmation |
| MlTask.InferenceTask.Observe | ModusToolbox_Project/SmartListener/source/ml_task.c:188-221 | the debounce state takes one Step; a confirmation outside the background set records an event and offers its label's message to the queue; otherwise the event list and queue are unchanged; the task stays consistent with the machine |
| MlTask.InferenceTask.ProcessSample | ModusToolbox_Project/SmartListener/source/ml_task.c:137-237 | the task, engine and queue together change exactly as SampleStep says |
| MlTask.InferenceTask.ProcessBlock | ModusToolbox_Project/SmartListener/source/ml_task.c:124-239 | the task, engine and queue together change exactly as BlockModel says for the block's first count samples, and the outcome is the resulting status |

## Left out

- `init_audio`, `pdm_frequency_fix` and the PDM, clock and pin set-up are
  hardware bring-up with no logic to model. The read of a block is a parameter:
  the samples, their count and whether the read succeeded.
- `IMAI_init` and the start-up `halt_error` on its result are not modelled. The
  model starts from a running task.
- The engine internals (sliding window, Hann smoothing, Fourier transform, mel
  filterbank, classifier) are not modelled. The engine is a class whose replies
  are functions of the fed samples; its number of classes is a parameter.
- `IMAI_dequeue` return codes other than success, no data and error fall
  through the task's `switch` and behave like no data. The model's three-way
  reply does not list them separately.
- FreeRTOS scheduling, `vTaskDelay` and the publisher task are not modelled.
  The queue is a bounded sequence with a non-blocking, drop-on-full send.
  The consumer side (the publisher task) is not part of this model, and the
  concurrency between the two tasks is left out.
- The `printf` logging and the `LOG_ENABLE` blocks have no effect on the state.
- IEEE-754 single-precision arithmetic is left out. Samples, scores, the 0.90
  comparison and the envelope are real numbers: no rounding, no NaN scores, and
  `fabs` is exact absolute value.
- `halt_error`'s infinite loop is modelled as the terminal status
  `Halted(cause)`, not as non-termination. The task's outer `while(1)` is one
  `ProcessBlock` call per block.
- The pointer into `label_text` sent as the message is modelled as the label's
  text itself.
- `main.c` duplicates the arg-max for a demo and has no debounce state.
  `mbedtls_user_config.h` holds only build configuration. Neither is modelled.
- Debounce.Step: the run counter is an unbounded integer. In the C code
  `debounce_counter` is an `int` that keeps growing while the confirmed label
  is held (line 192), so after 2^31 - 1 such frames it would overflow (undefined
  behaviour, in practice a wrap to a negative value). The model does not capture
  that overflow; `Inv`'s "counter never negative" (`StepPreservesInv`) relies on
  the unbounded integer. No confirmation depends on it: a held label is already
  confirmed, and any other label restarts the counter at 1.
