# Redis telemetry hook, modelled in Dafny

go-zero's Redis client registers a hook with go-redis. The hook wraps every command and
every pipeline with telemetry and does not change what the command returns. For each
logical call it:

- opens one client span named `redis`, tagged `redis.cmds` with the command names;
- runs the wrapped step;
- closes the span with status Ok (nil error or `red.Nil`) or Error (any other error, also
  recorded on the span);
- measures the elapsed time from a start time stamped into the call context;
- logs a slow-call record and bumps the slow counter when the call took strictly longer
  than the slow threshold. For a pipeline the threshold is multiplied by the batch size,
  and the slow counter is not bumped;
- observes the latency in a histogram, under the command name or, for a pipeline, under
  the fixed label `Pipeline`;
- bumps the error counter under the label that `formatError` gives the error, when that
  label is not empty.

What the hook hands to its collaborators (the tracer, the slow-call logger, the metric
sinks) is recorded in this model as one ordered trace of `Event`s. The class
`RedisHook.Hook` keeps that trace in its field `emitted`. Its methods follow the Go
methods statement by statement and append to it. Each method is proved to append exactly
what a specification function gives (`AfterProcessEvents`, `ProcessHookRun`, ...). The
lemmas state the hook's promises about those functions:

- how many events of each kind a call emits;
- what those events carry;
- the early returns.

Files:

| file | what it holds |
|---|---|
| `optional.dfy` | `Option`, Go's nilable value |
| `classifier.dfy` | `formatError` and an independent first-match-wins rule classifier proved equal to it |
| `trace.dfy` | commands, events, counting events by kind, the command-name list, the collection of non-nil errors, `Duration.Milliseconds` |
| `span.dfy` | `endSpan`'s events and the `redis.cmds` loop of `startSpan` |
| `slowcall.dfy` | the message `logDuration` builds, its two nested loops, and a round trip showing that the message gives back every command's arguments |
| `hook.dfy` | the dispatcher: the specification functions, the lemmas and the `Hook` class |

## Model

| member | source | states |
|---|---|---|
| `Classifier.FormatError` | core/stores/redis/hook.go:145-165 | the label is empty exactly for nil and `red.Nil`; every other error gets one of the five labels; "timeout" exactly for a net.OpError that reports a timeout; a net.OpError that is not a timeout, or any unknown error, is "unexpected error" |
| `Classifier.FormatErrorIsFirstMatch` | core/stores/redis/hook.go:145-165 | formatError equals an ordered rule list where the first matching rule wins and "unexpected error" is the default |
| `Span.StatusOf` | core/stores/redis/hook.go:206-211 | the status is Ok iff the error's label is empty; a failed status carries the call's own error |
| `Span.EndSpanOrder` | core/stores/redis/hook.go:202-213 | endSpan sets the status first and ends the span last (the deferred End); it records an error iff the call failed, and that error is the call's own |
| `Span.EndSpanCount` | core/stores/redis/hook.go:202-213 | endSpan emits exactly one status and one End; it records the error once on failure and never on success; it emits nothing else |
| `Span.CommandNames` | core/stores/redis/hook.go:193-197 | the `redis.cmds` loop builds exactly the names list |
| `Trace.Names` | core/stores/redis/hook.go:193-197 | the names list has the batch's length and, at each index, that command's name |
| `Trace.NonNilErrors` | core/stores/redis/hook.go:113-121 | the batch error holds at most as many errors as there are commands |
| `Trace.NonNilErrorsMembers` | core/stores/redis/hook.go:113-121 | the batch error is empty iff every command's error is nil; an error is in it iff some command returned it |
| `Trace.NonNilErrorsAppend` | core/stores/redis/hook.go:114-121 | collection keeps command order: the errors of a concatenation are the concatenation of the errors |
| `RedisHook.CollectErrors` | core/stores/redis/hook.go:113-121 | the accumulation loop skips nil errors and yields exactly the non-nil errors, in order |
| `Trace.Milliseconds` | core/stores/redis/hook.go:139 | `Duration.Milliseconds` truncates toward zero: bounds for both signs |
| `SlowCall.Lines` | core/stores/redis/hook.go:169-180 | one line per command, in order, each its arguments joined by single spaces |
| `SlowCall.BuildSlowCallMessage` | core/stores/redis/hook.go:167-182 | the nested builder loops produce the prefix followed by the lines joined by newlines |
| `SlowCall.SplitJoin` | core/stores/redis/hook.go:169-180 | splitting a join at its separator gives back the parts when no part contains the separator |
| `SlowCall.SlowCallTextRecoversArgs` | core/stores/redis/hook.go:167-182 | the slow-call message starts with the fixed prefix; splitting the rest at newlines gives one line per command in batch order, and splitting each line at spaces gives back that command's arguments (when no argument contains a space or newline) |
| `RedisHook.CommandMetricsCount` | core/stores/redis/hook.go:74-83 | for a command measured at d: one slow log and one slow count iff d > threshold (strict), exactly one observation, one error count iff the label is not empty, nothing else |
| `RedisHook.CommandMetricsMembers` | core/stores/redis/hook.go:74-83 | the observation is under the command name in exact milliseconds; the slow log carries d and the command's record; the slow count and the error count are under the command name, the error count with its label |
| `RedisHook.PipelineMetricsCount` | core/stores/redis/hook.go:134-142 | for a batch measured at d: one slow log iff d > threshold × batch size, never a slow count, exactly one observation, one error count iff the combined error has a label |
| `RedisHook.PipelineMetricsMembers` | core/stores/redis/hook.go:134-142 | the observation is under "Pipeline" in whole truncated milliseconds; the slow log carries every command's record; the error count is under "Pipeline" with the combined error's label |
| `RedisHook.PipelineOfOneIsCommandThreshold` | core/stores/redis/hook.go:135 | a batch of one is slow exactly when that command alone would be, and its record is the same |
| `RedisHook.SlowBatchBoundShrinks` | core/stores/redis/hook.go:135 | with a non-negative threshold, a duration that makes a batch slow makes every smaller batch slow |
| `RedisHook.AfterProcessWithoutStartTime` | core/stores/redis/hook.go:60-72 | without a time.Duration start time in the context (missing or of another type), AfterProcess only ends the span |
| `RedisHook.AfterProcessMeasured` | core/stores/redis/hook.go:60-84 | with a start time, the span end comes first and the metrics of now − start follow |
| `RedisHook.AfterProcessCount` | core/stores/redis/hook.go:60-84 | AfterProcess with a start time, counted by event kind: one status and one End; the error recorded iff the call failed; slow log and slow count iff strictly slow; exactly one observation; error count iff the label is not empty; no span opened |
| `RedisHook.AfterProcessEmits` | core/stores/redis/hook.go:74-83 | the latency is observed under the command name; a slow call logs its record and is counted under its name; a failure is counted under its name and label |
| `RedisHook.ProcessHookNextFailed` | core/stores/redis/hook.go:42-49 | an error returned by next, of any kind, is returned unchanged; only the span start happened (no End, no log, no metric) |
| `RedisHook.NilReplyFromNextIsNotObserved` | core/stores/redis/hook.go:42-84 | `red.Nil` as the command's result still ends the span and observes the latency; `red.Nil` returned by next is returned with no End and no observation |
| `RedisHook.ProcessHookCompleted` | core/stores/redis/hook.go:42-58 | otherwise nil is returned; the span start tagged with the command's name is followed by AfterProcess on the context stamped by BeforeProcess; right after the start come the span status, then `SpanEnd` on success or the recorded error on failure |
| `RedisHook.ProcessHookCount` | core/stores/redis/hook.go:42-84 | a completed ProcessHook, counted by event kind: one span opened, one status and one End; exactly one observation, since the start time is always present; slow log and count iff now − stamp > threshold; error count iff the label is not empty |
| `RedisHook.ProcessHookEmits` | core/stores/redis/hook.go:42-84 | a completed ProcessHook observes the latency since the BeforeProcess stamp under the command name, and logs and counts it as the command metrics say |
| `RedisHook.AfterPipelineWithoutStartTime` | core/stores/redis/hook.go:108-132 | for a non-empty batch without a start time, only the span is ended, with the combined error |
| `RedisHook.AfterPipelineMeasured` | core/stores/redis/hook.go:108-143 | with a start time, the span end for the combined error comes first and the batch metrics follow |
| `RedisHook.AfterPipelineCount` | core/stores/redis/hook.go:108-143 | AfterProcessPipeline on a non-empty batch with a start time, counted by event kind: one status and one End for the combined error; the error recorded iff it fails; one slow log iff d > threshold × size; no slow count; one observation; error count iff the label is not empty |
| `RedisHook.AfterPipelineEmits` | core/stores/redis/hook.go:134-142 | the latency is observed under "Pipeline"; a slow batch logs every command's record; a failure is counted under "Pipeline" and the combined label |
| `RedisHook.EmptyPipelineIsSilent` | core/stores/redis/hook.go:100-111 | an empty batch keeps the context unchanged, emits nothing before or after next, and returns next's error unchanged |
| `RedisHook.ProcessPipelineNextFailed` | core/stores/redis/hook.go:86-93 | for a non-empty batch, an error returned by next, of any kind, is returned unchanged after a span start tagged with the names in order; nothing else happens |
| `RedisHook.ProcessPipelineCompleted` | core/stores/redis/hook.go:86-106 | otherwise nil is returned; the span start is followed by AfterProcessPipeline on the stamped context, and the status for the combined error comes right after the start |
| `RedisHook.ProcessPipelineCount` | core/stores/redis/hook.go:86-143 | a completed non-empty pipeline, counted by event kind: one span opened and ended, one observation, slow log iff now − stamp > threshold × size, never a slow count, error count iff the combined label is not empty |
| `RedisHook.ProcessPipelineEmits` | core/stores/redis/hook.go:86-143 | a completed pipeline observes the latency since the stamp under "Pipeline" and logs and counts as the batch metrics say |
| `RedisHook.PipelineSentinelsReachCombine` | core/stores/redis/hook.go:113-122 | `red.Nil` is not filtered: a batch whose commands all answered `red.Nil` hands one `red.Nil` per command to the combined error |
| `RedisHook.BatchErrNilIffAllNil` | core/stores/redis/hook.go:113-122 | when combine gives nil exactly for the empty list, as BatchError.Err does, the batch error is nil iff every command's error is nil |
| `RedisHook.AllNilPipelineIsOk` | core/stores/redis/hook.go:108-143 | a completed batch whose commands all returned nil ends its span with Ok and neither records nor counts an error |
| `RedisHook.Hook.StartSpan` | core/stores/redis/hook.go:185-200 | appends one span start named "redis" tagged with the names list; the context is passed through |
| `RedisHook.Hook.EndSpan` | core/stores/redis/hook.go:202-213 | appends exactly the endSpan events |
| `RedisHook.Hook.LogDuration` | core/stores/redis/hook.go:167-183 | appends one slow-call record with the duration and the built message |
| `RedisHook.Hook.BeforeProcess` | core/stores/redis/hook.go:56-58 | stamps the start time and appends the span start for the command |
| `RedisHook.Hook.AfterProcess` | core/stores/redis/hook.go:60-84 | appends exactly `AfterProcessEvents` |
| `RedisHook.Hook.ProcessHook` | core/stores/redis/hook.go:42-54 | returns and appends exactly what `ProcessHookRun` gives |
| `RedisHook.Hook.BeforeProcessPipeline` | core/stores/redis/hook.go:100-106 | leaves an empty batch alone; otherwise stamps and appends the span start |
| `RedisHook.Hook.AfterProcessPipeline` | core/stores/redis/hook.go:108-143 | appends exactly `AfterPipelineEvents` |
| `RedisHook.Hook.ProcessPipelineHook` | core/stores/redis/hook.go:86-98 | returns and appends exactly what `ProcessPipelineHookRun` gives |

What the code does that a reader might not expect:

- The slow-call record holds each command's `Args()`, each rendered by `mapping.Repr`.
  For go-redis commands these arguments include the command name. The model logs
  `Command.args`.
- When `next` returns an error, of any kind, the span opened by BeforeProcess /
  BeforeProcessPipeline is never ended. `ProcessHookNextFailed` and
  `ProcessPipelineNextFailed` state that no End is emitted, so "one start and one end per
  call" holds only when `next` returns nil.
- The start time is stamped twice on the single-command path. ProcessHook stamps it with
  `context.WithValue`, then BeforeProcess stamps it again. The elapsed time is measured
  from the second stamp, `stampedAt`. The first, `enteredAt`, is overwritten.
- `red.Nil` in `cmd.Err()` counts as success in AfterProcess. `red.Nil` returned by `next`
  takes the early return at hook.go:47-48 like any other error: no End, no metric
  (`NilReplyFromNextIsNotObserved`).
- In a pipeline, `red.Nil` is not filtered before the errors are combined
  (`PipelineSentinelsReachCombine`). The batch status therefore depends on what
  `BatchError.Err()` makes of it.

## Left out

- `DialHook` (hook.go:36-40) only forwards to the next dial step, so it has nothing to model.
- OpenTelemetry internals are not modelled:
  - the tracer lookup from the context and the span carried in the context. Span events always refer to the span of the call at hand;
  - the text of `err.Error()`. A failed status carries the error value itself;
  - tolerance of a context without a span.
- Internals of logx and the metric vectors are not modelled: severity, the label order of the vectors, and their concurrency safety. Each call is one event in the trace.
- `timex.Now`, `timex.Since` and the atomic `slowThreshold.Load()` are not modelled. The clock readings (`enteredAt`, `stampedAt`, `now`) and the loaded threshold are parameters.
- RedisHook.Hook.AfterProcess: the histogram value is modelled as the exact real ns / 1e6, not as a float64 division with rounding.
- RedisHook.Hook.AfterProcess: the duration `now - start` is an unbounded integer; int64 overflow of `time.Duration` is not modelled.
- RedisHook.Hook.AfterProcessPipeline: the duration, `threshold * len(cmds)` and `Duration.Milliseconds` are unbounded integers; int64 overflow is not modelled.
- `errorx.BatchError.Err()` is not modelled. The error the pipeline combines is given by the parameter `combine`, applied to the non-nil errors in order. `combine` decides which error, if any, represents the batch. Lemmas that need BatchError.Err's nil-for-the-empty-list behaviour take it as a precondition on `combine`.
- `mapping.Repr` is not modelled. A command's arguments are given already rendered as strings.
- `context.WithValue` and context values other than the start time are not modelled. A context is only its start value: missing, not a `time.Duration`, or a clock reading.
- go-redis's own dispatch of the hooks, and the wrapped `next` step, are not modelled. The error `next` returns, of any kind, is a parameter.
