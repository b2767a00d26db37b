/** The hook dispatcher: the single-command and pipeline hooks of the Redis client, with
    their Before and After steps. Everything the hook hands to the tracer, the slow-call
    logger and the metric sinks is recorded in order as one trace of events. */
module RedisHook {
  import opened Optional
  import opened Classifier
  import opened Trace
  import opened Span
  import opened SlowCall

  /** The fixed histogram and error-counter label of a whole pipeline. */
  const PipelineLabel: string := "Pipeline"

  /** The value a call context holds under startTimeKey: none, a value that is not a
      time.Duration, or a clock reading in nanoseconds. */
  datatype StartValue = Unset | NotDuration | At(t: int)

  /** The part of a call context the hook reads and writes. The active span is left to
      the tracer: span events always refer to the span of the call at hand. */
  datatype Context = Context(start: StartValue)

  /** What a hooked call returns to its caller, and what it emitted on the way. */
  datatype Run = Run(err: Option<Error>, events: seq<Event>)

  /** timex.Since(start) at clock reading now, when the context holds a start time. */
  function Elapsed(ctx: Context, now: int): Option<int> {
    match ctx.start
    case At(start) => Some(now - start)
    case _ => None
  }

  /** float64(duration) / float64(time.Millisecond), without the rounding of floats. */
  function ExactMillis(d: int): real {
    d as real / 1000000.0
  }

  // ---------------------------------------------------------------------------------
  // Specification of the single-command hook

  /** The slow-call record and the slow counter of a command that took d nanoseconds:
      both when d is strictly above the threshold, neither otherwise. */
  function CommandSlowEvents(cmd: Command, d: int, threshold: int): seq<Event> {
    if d > threshold then [SlowLog(d, SlowCallText([cmd])), SlowCount(cmd.name)] else []
  }

  /** The error counter bump under name for err: present iff err has a label. */
  function ErrorEvents(name: string, err: Option<Error>): seq<Event> {
    var reason := FormatError(err);
    if reason != NoLabel then [ErrCount(name, reason)] else []
  }

  /** What AfterProcess emits after the span for a command measured at d nanoseconds. */
  function CommandMetrics(cmd: Command, d: int, threshold: int): seq<Event> {
    CommandSlowEvents(cmd, d, threshold) + [Observe(cmd.name, ExactMillis(d))] + ErrorEvents(cmd.name, cmd.err)
  }

  /** What AfterProcess emits after ending the span: nothing without a start time. */
  function AfterProcessMetrics(ctx: Context, cmd: Command, now: int, threshold: int): seq<Event> {
    match Elapsed(ctx, now)
    case Some(d) => CommandMetrics(cmd, d, threshold)
    case None => []
  }

  /** Everything AfterProcess emits. */
  function AfterProcessEvents(ctx: Context, cmd: Command, now: int, threshold: int): seq<Event> {
    EndSpanEvents(cmd.err) + AfterProcessMetrics(ctx, cmd, now, threshold)
  }

  /** ProcessHook: the span is opened with the stamped context; any error next returns
      (red.Nil included) is returned at once, otherwise AfterProcess runs and nil is
      returned. */
  function ProcessHookRun(ctx: Context, cmd: Command, nextErr: Option<Error>,
                          stampedAt: int, now: int, threshold: int): Run
  {
    var before := [SpanStart(SpanName, Names([cmd]))];
    if nextErr != None then Run(nextErr, before)
    else Run(None, before + AfterProcessEvents(ctx.(start := At(stampedAt)), cmd, now, threshold))
  }

  // ---------------------------------------------------------------------------------
  // Specification of the pipeline hook

  /** The slow-call record of a batch: present iff d is strictly above the threshold
      scaled by the batch size. */
  function PipelineSlowEvents(cmds: seq<Command>, d: int, threshold: int): seq<Event> {
    if d > threshold * |cmds| then [SlowLog(d, SlowCallText(cmds))] else []
  }

  /** What AfterProcessPipeline emits after the span for a batch measured at d. */
  function PipelineMetrics(cmds: seq<Command>, batchErr: Option<Error>, d: int, threshold: int)
    : seq<Event>
  {
    PipelineSlowEvents(cmds, d, threshold) + [Observe(PipelineLabel, Milliseconds(d) as real)]
    + ErrorEvents(PipelineLabel, batchErr)
  }

  /** What AfterProcessPipeline emits after ending the span of a non-empty batch. */
  function AfterPipelineMetrics(ctx: Context, cmds: seq<Command>, batchErr: Option<Error>,
                                now: int, threshold: int): seq<Event>
  {
    match Elapsed(ctx, now)
    case Some(d) => PipelineMetrics(cmds, batchErr, d, threshold)
    case None => []
  }

  /** The error endSpan and the error counter see for a batch; combine stands for
      errorx.BatchError.Err() applied to the collected errors. */
  function BatchErr(cmds: seq<Command>, combine: seq<Error> -> Option<Error>): Option<Error> {
    combine(NonNilErrors(cmds))
  }

  /** Everything AfterProcessPipeline emits. */
  function AfterPipelineEvents(ctx: Context, cmds: seq<Command>, combine: seq<Error> -> Option<Error>,
                               now: int, threshold: int): seq<Event>
  {
    if |cmds| == 0 then []
    else
      var batchErr := BatchErr(cmds, combine);
      EndSpanEvents(batchErr) + AfterPipelineMetrics(ctx, cmds, batchErr, now, threshold)
  }

  /** What BeforeProcessPipeline emits: the span start, unless the batch is empty. */
  function PipelineSpanStart(cmds: seq<Command>): seq<Event> {
    if |cmds| == 0 then [] else [SpanStart(SpanName, Names(cmds))]
  }

  /** The context BeforeProcessPipeline returns: unchanged for an empty batch. */
  function PipelineContext(ctx: Context, cmds: seq<Command>, stampedAt: int): Context {
    if |cmds| == 0 then ctx else ctx.(start := At(stampedAt))
  }

  /** ProcessPipelineHook, shaped like ProcessHook around the pipeline steps. */
  function ProcessPipelineHookRun(ctx: Context, cmds: seq<Command>, nextErr: Option<Error>,
                                  combine: seq<Error> -> Option<Error>,
                                  stampedAt: int, now: int, threshold: int): Run
  {
    var before := PipelineSpanStart(cmds);
    if nextErr != None then Run(nextErr, before)
    else Run(None, before + AfterPipelineEvents(PipelineContext(ctx, cmds, stampedAt), cmds,
                                                combine, now, threshold))
  }

  // ---------------------------------------------------------------------------------
  // Census of the metric pieces

  /** A slow command is logged once and counted once; a fast one neither. */
  lemma CommandSlowEventsCount(cmd: Command, d: int, threshold: int, k: Kind)
    ensures Count(CommandSlowEvents(cmd, d, threshold), k)
         == if d > threshold && (k == SlowLogKind || k == SlowCountKind) then 1 else 0
  {
    if d > threshold {
      CountPair(SlowLog(d, SlowCallText([cmd])), SlowCount(cmd.name));
    }
  }

  /** A slow batch is logged once; a fast one not at all. */
  lemma PipelineSlowEventsCount(cmds: seq<Command>, d: int, threshold: int, k: Kind)
    ensures Count(PipelineSlowEvents(cmds, d, threshold), k)
         == if d > threshold * |cmds| && k == SlowLogKind then 1 else 0
  {
    if d > threshold * |cmds| {
      CountSingle(SlowLog(d, SlowCallText(cmds)));
    }
  }

  /** The error counter is bumped once iff the error has a label. */
  lemma ErrorEventsCount(name: string, err: Option<Error>, k: Kind)
    ensures Count(ErrorEvents(name, err), k)
         == if FormatError(err) != NoLabel && k == ErrCountKind then 1 else 0
  {
    if FormatError(err) != NoLabel {
      CountSingle(ErrCount(name, FormatError(err)));
    }
  }

  /** The metrics of a measured command, kind by kind. */
  lemma CommandMetricsCount(cmd: Command, d: int, threshold: int, k: Kind)
    ensures Count(CommandMetrics(cmd, d, threshold), k)
         == (if d > threshold && (k == SlowLogKind || k == SlowCountKind) then 1 else 0)
          + (if k == ObserveKind then 1 else 0)
          + (if FormatError(cmd.err) != NoLabel && k == ErrCountKind then 1 else 0)
  {
    CountConcat3(CommandSlowEvents(cmd, d, threshold), [Observe(cmd.name, ExactMillis(d))],
                 ErrorEvents(cmd.name, cmd.err), k);
    CommandSlowEventsCount(cmd, d, threshold, k);
    CountSingle(Observe(cmd.name, ExactMillis(d)));
    ErrorEventsCount(cmd.name, cmd.err, k);
  }

  /** The metrics of a measured batch, kind by kind. */
  lemma PipelineMetricsCount(cmds: seq<Command>, batchErr: Option<Error>, d: int, threshold: int, k: Kind)
    ensures Count(PipelineMetrics(cmds, batchErr, d, threshold), k)
         == (if d > threshold * |cmds| && k == SlowLogKind then 1 else 0)
          + (if k == ObserveKind then 1 else 0)
          + (if FormatError(batchErr) != NoLabel && k == ErrCountKind then 1 else 0)
  {
    CountConcat3(PipelineSlowEvents(cmds, d, threshold), [Observe(PipelineLabel, Milliseconds(d) as real)],
                 ErrorEvents(PipelineLabel, batchErr), k);
    PipelineSlowEventsCount(cmds, d, threshold, k);
    CountSingle(Observe(PipelineLabel, Milliseconds(d) as real));
    ErrorEventsCount(PipelineLabel, batchErr, k);
  }

  /** Where the metrics of a measured command are found. */
  lemma CommandMetricsMembers(cmd: Command, d: int, threshold: int)
    ensures var m := CommandMetrics(cmd, d, threshold);
      && Observe(cmd.name, ExactMillis(d)) in m
      && (d > threshold ==> SlowLog(d, SlowCallText([cmd])) in m && SlowCount(cmd.name) in m)
      && (FormatError(cmd.err) != NoLabel ==> ErrCount(cmd.name, FormatError(cmd.err)) in m)
  {
    var slow := CommandSlowEvents(cmd, d, threshold);
    var errs := ErrorEvents(cmd.name, cmd.err);
    var m := CommandMetrics(cmd, d, threshold);
    assert m[|slow|] == Observe(cmd.name, ExactMillis(d));
    if d > threshold {
      assert m[0] == SlowLog(d, SlowCallText([cmd])) && m[1] == SlowCount(cmd.name);
    }
    if FormatError(cmd.err) != NoLabel {
      assert m[|slow| + 1] == errs[0];
    }
  }

  /** Where the metrics of a measured batch are found. */
  lemma PipelineMetricsMembers(cmds: seq<Command>, batchErr: Option<Error>, d: int, threshold: int)
    ensures var m := PipelineMetrics(cmds, batchErr, d, threshold);
      && Observe(PipelineLabel, Milliseconds(d) as real) in m
      && (d > threshold * |cmds| ==> SlowLog(d, SlowCallText(cmds)) in m)
      && (FormatError(batchErr) != NoLabel ==> ErrCount(PipelineLabel, FormatError(batchErr)) in m)
  {
    var slow := PipelineSlowEvents(cmds, d, threshold);
    var errs := ErrorEvents(PipelineLabel, batchErr);
    var m := PipelineMetrics(cmds, batchErr, d, threshold);
    assert m[|slow|] == Observe(PipelineLabel, Milliseconds(d) as real);
    if slow != [] {
      assert m[0] == slow[0];
    }
    if FormatError(batchErr) != NoLabel {
      assert m[|slow| + 1] == errs[0];
    }
  }

  /** The batch threshold is the single-command threshold scaled by the batch size: a
      batch of one command is logged as slow exactly when that command alone would be,
      with the same record. */
  lemma PipelineOfOneIsCommandThreshold(cmd: Command, d: int, threshold: int)
    ensures PipelineSlowEvents([cmd], d, threshold) != [] <==> CommandSlowEvents(cmd, d, threshold) != []
    ensures PipelineSlowEvents([cmd], d, threshold) != [] ==>
              PipelineSlowEvents([cmd], d, threshold)[0] == CommandSlowEvents(cmd, d, threshold)[0]
  {
  }

  /** With a non-negative threshold a larger batch is allowed at least as much time: a
      duration that makes a batch slow also makes every smaller batch slow. */
  lemma SlowBatchBoundShrinks(small: seq<Command>, large: seq<Command>, d: int, threshold: int)
    requires 0 <= threshold && |small| <= |large|
    requires PipelineSlowEvents(large, d, threshold) != []
    ensures PipelineSlowEvents(small, d, threshold) != []
  {
    MulMonotone(threshold, |small|, |large|);
  }

  lemma MulMonotone(t: int, m: nat, n: nat)
    requires 0 <= t && m <= n
    ensures t * m <= t * n
  {
    assert t * n == t * m + t * (n - m);
  }

  // ---------------------------------------------------------------------------------
  // Properties of AfterProcess

  /** Without a time.Duration start time in the context, AfterProcess ends the span and
      emits nothing else: no slow log, no metric. */
  lemma AfterProcessWithoutStartTime(ctx: Context, cmd: Command, now: int, threshold: int)
    requires !ctx.start.At?
    ensures AfterProcessEvents(ctx, cmd, now, threshold) == EndSpanEvents(cmd.err)
  {
    assert EndSpanEvents(cmd.err) + [] == EndSpanEvents(cmd.err);
  }

  /** With a start time, the span end is followed by the metrics of the elapsed time. */
  lemma AfterProcessMeasured(ctx: Context, start: int, cmd: Command, now: int, threshold: int)
    requires ctx.start == At(start)
    ensures AfterProcessEvents(ctx, cmd, now, threshold)
         == EndSpanEvents(cmd.err) + CommandMetrics(cmd, now - start, threshold)
  {
    assert Elapsed(ctx, now) == Some(now - start);
    assert AfterProcessMetrics(ctx, cmd, now, threshold) == CommandMetrics(cmd, now - start, threshold);
  }


  /** The census of AfterProcess with a start time, d = now - start: one status and one
      span end; the error recorded iff the command failed; one slow log and one slow
      count iff d is strictly above the threshold; exactly one latency observation; one
      error count iff the command's label is not empty; no span opened. */
  lemma AfterProcessCount(ctx: Context, start: int, cmd: Command, now: int, threshold: int, k: Kind)
    requires ctx.start == At(start)
    ensures var d := now - start;
      Count(AfterProcessEvents(ctx, cmd, now, threshold), k)
      == (if k == StatusKind || k == SpanEndKind then 1 else 0)
       + (if k == RecordErrorKind && !IsSuccess(cmd.err) then 1 else 0)
       + (if (k == SlowLogKind || k == SlowCountKind) && d > threshold then 1 else 0)
       + (if k == ObserveKind then 1 else 0)
       + (if k == ErrCountKind && FormatError(cmd.err) != NoLabel then 1 else 0)
  {
    var d := now - start;
    AfterProcessMeasured(ctx, start, cmd, now, threshold);
    CountAppend(EndSpanEvents(cmd.err), CommandMetrics(cmd, d, threshold), k);
    EndSpanCount(cmd.err, k);
    CommandMetricsCount(cmd, d, threshold, k);
  }

  /** What those metrics carry: the latency in exact milliseconds under the command's
      name; on a slow call the record of the command and the counter under its name; on
      a failure the counter under the command's name and its label. */
  lemma AfterProcessEmits(ctx: Context, start: int, cmd: Command, now: int, threshold: int)
    requires ctx.start == At(start)
    ensures var evs := AfterProcessEvents(ctx, cmd, now, threshold);
      var d := now - start;
      && Observe(cmd.name, ExactMillis(d)) in evs
      && (d > threshold ==> SlowLog(d, SlowCallText([cmd])) in evs && SlowCount(cmd.name) in evs)
      && (FormatError(cmd.err) != NoLabel ==> ErrCount(cmd.name, FormatError(cmd.err)) in evs)
  {
    AfterProcessMeasured(ctx, start, cmd, now, threshold);
    CommandMetricsMembers(cmd, now - start, threshold);
  }

  // ---------------------------------------------------------------------------------
  // Properties of ProcessHook

  /** Any error next returns, of any kind, is returned unchanged after the span was
      opened, and nothing else happens: no span end, no log, no metric. */
  lemma ProcessHookNextFailed(ctx: Context, cmd: Command, nextErr: Option<Error>,
                              stampedAt: int, now: int, threshold: int)
    requires nextErr != None
    ensures var run := ProcessHookRun(ctx, cmd, nextErr, stampedAt, now, threshold);
      && run.err == nextErr
      && run.events == [SpanStart(SpanName, [cmd.name])]
      && Count(run.events, SpanEndKind) == 0
      && Count(run.events, SlowLogKind) == Count(run.events, ObserveKind) == Count(run.events, ErrCountKind) == 0
  {
    assert Names([cmd]) == [cmd.name];
    CountSingle(SpanStart(SpanName, [cmd.name]));
  }

  /** red.Nil as the command's own result is a success: the span ends and the latency is
      observed. red.Nil returned by next takes the early return like any other error:
      the span is not ended and nothing is observed. */
  lemma NilReplyFromNextIsNotObserved(ctx: Context, cmd: Command, stampedAt: int, now: int, threshold: int)
    ensures var answered := ProcessHookRun(ctx, cmd.(err := Some(RedisNil)), None, stampedAt, now, threshold);
      Count(answered.events, SpanEndKind) == 1 && Count(answered.events, ObserveKind) == 1
    ensures var failed := ProcessHookRun(ctx, cmd, Some(RedisNil), stampedAt, now, threshold);
      && failed.err == Some(RedisNil)
      && Count(failed.events, SpanEndKind) == 0 && Count(failed.events, ObserveKind) == 0
  {
    var answeredCmd := cmd.(err := Some(RedisNil));
    ProcessHookCount(ctx, answeredCmd, stampedAt, now, threshold, SpanEndKind);
    ProcessHookCount(ctx, answeredCmd, stampedAt, now, threshold, ObserveKind);
    ProcessHookNextFailed(ctx, cmd, Some(RedisNil), stampedAt, now, threshold);
  }

  /** When next returns nil, ProcessHook returns nil, opens one span tagged with the
      command's name and then does what AfterProcess does on a context stamped at
      stampedAt: right after the span start come its status and then either the span end
      (success) or the recorded error (failure). */
  lemma ProcessHookCompleted(ctx: Context, cmd: Command, stampedAt: int, now: int, threshold: int)
    ensures var run := ProcessHookRun(ctx, cmd, None, stampedAt, now, threshold);
      var stamped := ctx.(start := At(stampedAt));
      && run.err == None
      && run.events == [SpanStart(SpanName, [cmd.name])] + AfterProcessEvents(stamped, cmd, now, threshold)
      && run.events[1] == SpanStatus(StatusOf(cmd.err))
      && run.events[2] == if IsSuccess(cmd.err) then SpanEnd else SpanRecordError(cmd.err.value)
  {
    assert Names([cmd]) == [cmd.name];
    EndSpanOrder(cmd.err);
  }

  /** The census of a completed ProcessHook, d = now - stampedAt: one span opened and one
      ended; since the start time is always there, the latency is observed exactly once;
      slow log and slow counter iff d is strictly above the threshold; error counter iff
      the command's label is not empty. */
  lemma ProcessHookCount(ctx: Context, cmd: Command, stampedAt: int, now: int, threshold: int, k: Kind)
    ensures var d := now - stampedAt;
      Count(ProcessHookRun(ctx, cmd, None, stampedAt, now, threshold).events, k)
      == (if k == SpanStartKind || k == StatusKind || k == SpanEndKind then 1 else 0)
       + (if k == RecordErrorKind && !IsSuccess(cmd.err) then 1 else 0)
       + (if (k == SlowLogKind || k == SlowCountKind) && d > threshold then 1 else 0)
       + (if k == ObserveKind then 1 else 0)
       + (if k == ErrCountKind && FormatError(cmd.err) != NoLabel then 1 else 0)
  {
    var stamped := ctx.(start := At(stampedAt));
    var first := SpanStart(SpanName, [cmd.name]);
    ProcessHookCompleted(ctx, cmd, stampedAt, now, threshold);
    CountAppend([first], AfterProcessEvents(stamped, cmd, now, threshold), k);
    CountSingle(first);
    AfterProcessCount(stamped, stampedAt, cmd, now, threshold, k);
  }

  /** The metrics of a completed ProcessHook carry the command's name and the time since
      the stamp. */
  lemma ProcessHookEmits(ctx: Context, cmd: Command, stampedAt: int, now: int, threshold: int)
    ensures var evs := ProcessHookRun(ctx, cmd, None, stampedAt, now, threshold).events;
      var d := now - stampedAt;
      && Observe(cmd.name, ExactMillis(d)) in evs
      && (d > threshold ==> SlowLog(d, SlowCallText([cmd])) in evs && SlowCount(cmd.name) in evs)
      && (FormatError(cmd.err) != NoLabel ==> ErrCount(cmd.name, FormatError(cmd.err)) in evs)
  {
    var stamped := ctx.(start := At(stampedAt));
    var after := AfterProcessEvents(stamped, cmd, now, threshold);
    ProcessHookCompleted(ctx, cmd, stampedAt, now, threshold);
    AfterProcessEmits(stamped, stampedAt, cmd, now, threshold);
    assert forall x | x in after :: x in [SpanStart(SpanName, [cmd.name])] + after;
  }


  // ---------------------------------------------------------------------------------
  // Properties of AfterProcessPipeline

  /** Without a time.Duration start time, a non-empty batch ends its span and emits
      nothing else. */
  lemma AfterPipelineWithoutStartTime(ctx: Context, cmds: seq<Command>, combine: seq<Error> -> Option<Error>,
                                      now: int, threshold: int)
    requires cmds != [] && !ctx.start.At?
    ensures AfterPipelineEvents(ctx, cmds, combine, now, threshold) == EndSpanEvents(BatchErr(cmds, combine))
  {
    assert EndSpanEvents(BatchErr(cmds, combine)) + [] == EndSpanEvents(BatchErr(cmds, combine));
  }

  /** With a start time, the span end of a non-empty batch is followed by the metrics of
      the elapsed time. */
  lemma AfterPipelineMeasured(ctx: Context, start: int, cmds: seq<Command>, combine: seq<Error> -> Option<Error>,
                              now: int, threshold: int)
    requires cmds != [] && ctx.start == At(start)
    ensures AfterPipelineEvents(ctx, cmds, combine, now, threshold)
         == EndSpanEvents(BatchErr(cmds, combine))
            + PipelineMetrics(cmds, BatchErr(cmds, combine), now - start, threshold)
  {
    var batchErr := BatchErr(cmds, combine);
    assert Elapsed(ctx, now) == Some(now - start);
    assert AfterPipelineMetrics(ctx, cmds, batchErr, now, threshold) == PipelineMetrics(cmds, batchErr, now - start, threshold);
  }


  /** The census of AfterProcessPipeline on a non-empty batch with a start time,
      d = now - start: one status and one span end for the combined error, that error
      recorded iff it is a failure; one slow log iff d is strictly above the threshold
      times the batch size; never a slow counter; exactly one latency observation; one
      error count iff the combined error has a label. */
  lemma AfterPipelineCount(ctx: Context, start: int, cmds: seq<Command>, combine: seq<Error> -> Option<Error>,
                           now: int, threshold: int, k: Kind)
    requires cmds != [] && ctx.start == At(start)
    ensures var d := now - start;
      var batchErr := BatchErr(cmds, combine);
      Count(AfterPipelineEvents(ctx, cmds, combine, now, threshold), k)
      == (if k == StatusKind || k == SpanEndKind then 1 else 0)
       + (if k == RecordErrorKind && !IsSuccess(batchErr) then 1 else 0)
       + (if k == SlowLogKind && d > threshold * |cmds| then 1 else 0)
       + (if k == ObserveKind then 1 else 0)
       + (if k == ErrCountKind && FormatError(batchErr) != NoLabel then 1 else 0)
  {
    var d := now - start;
    var batchErr := BatchErr(cmds, combine);
    AfterPipelineMeasured(ctx, start, cmds, combine, now, threshold);
    CountAppend(EndSpanEvents(batchErr), PipelineMetrics(cmds, batchErr, d, threshold), k);
    EndSpanCount(batchErr, k);
    PipelineMetricsCount(cmds, batchErr, d, threshold, k);
  }

  /** What those metrics carry: the latency in whole milliseconds under "Pipeline"; on a
      slow batch the record of every command; on a failure the counter under "Pipeline"
      and the label of the combined error. */
  lemma AfterPipelineEmits(ctx: Context, start: int, cmds: seq<Command>, combine: seq<Error> -> Option<Error>,
                           now: int, threshold: int)
    requires cmds != [] && ctx.start == At(start)
    ensures var evs := AfterPipelineEvents(ctx, cmds, combine, now, threshold);
      var d := now - start;
      var reason := FormatError(BatchErr(cmds, combine));
      && Observe(PipelineLabel, Milliseconds(d) as real) in evs
      && (d > threshold * |cmds| ==> SlowLog(d, SlowCallText(cmds)) in evs)
      && (reason != NoLabel ==> ErrCount(PipelineLabel, reason) in evs)
  {
    AfterPipelineMeasured(ctx, start, cmds, combine, now, threshold);
    PipelineMetricsMembers(cmds, BatchErr(cmds, combine), now - start, threshold);
  }

  // ---------------------------------------------------------------------------------
  // Properties of ProcessPipelineHook

  /** An empty batch opens no span, stamps no start time and emits nothing after next;
      next's error is still returned unchanged. */
  lemma EmptyPipelineIsSilent(ctx: Context, nextErr: Option<Error>,
                              combine: seq<Error> -> Option<Error>,
                              stampedAt: int, now: int, threshold: int)
    ensures PipelineContext(ctx, [], stampedAt) == ctx
    ensures AfterPipelineEvents(ctx, [], combine, now, threshold) == []
    ensures ProcessPipelineHookRun(ctx, [], nextErr, combine, stampedAt, now, threshold)
         == Run(nextErr, [])
  {
  }

  /** Any error next returns for a non-empty batch is returned unchanged, after the span was
      opened with the command names in order, and nothing else happens. */
  lemma ProcessPipelineNextFailed(ctx: Context, cmds: seq<Command>, nextErr: Option<Error>,
                                  combine: seq<Error> -> Option<Error>,
                                  stampedAt: int, now: int, threshold: int)
    requires cmds != [] && nextErr != None
    ensures var run := ProcessPipelineHookRun(ctx, cmds, nextErr, combine, stampedAt, now, threshold);
      && run.err == nextErr
      && run.events == [SpanStart(SpanName, Names(cmds))]
      && Count(run.events, SpanEndKind) == 0
      && Count(run.events, SlowLogKind) == Count(run.events, ObserveKind) == Count(run.events, ErrCountKind) == 0
  {
    CountSingle(SpanStart(SpanName, Names(cmds)));
  }

  /** When next returns nil, a non-empty batch returns nil, opens one span tagged
      with the command names in order and then does what AfterProcessPipeline does on a
      context stamped at stampedAt: the endSpan events come right after the span start. */
  lemma ProcessPipelineCompleted(ctx: Context, cmds: seq<Command>, combine: seq<Error> -> Option<Error>,
                                 stampedAt: int, now: int, threshold: int)
    requires cmds != []
    ensures var run := ProcessPipelineHookRun(ctx, cmds, None, combine, stampedAt, now, threshold);
      var stamped := ctx.(start := At(stampedAt));
      && run.err == None
      && run.events == [SpanStart(SpanName, Names(cmds))] + AfterPipelineEvents(stamped, cmds, combine, now, threshold)
      && run.events[1] == SpanStatus(StatusOf(BatchErr(cmds, combine)))
  {
    EndSpanOrder(BatchErr(cmds, combine));
  }

  /** The census of a completed ProcessPipelineHook on a non-empty batch,
      d = now - stampedAt: one span opened and one ended; the latency observed exactly
      once; one slow log iff d is strictly above the threshold times the batch size;
      never a slow counter; one error count iff the combined error has a label. */
  lemma ProcessPipelineCount(ctx: Context, cmds: seq<Command>, combine: seq<Error> -> Option<Error>,
                             stampedAt: int, now: int, threshold: int, k: Kind)
    requires cmds != []
    ensures var d := now - stampedAt;
      var batchErr := BatchErr(cmds, combine);
      Count(ProcessPipelineHookRun(ctx, cmds, None, combine, stampedAt, now, threshold).events, k)
      == (if k == SpanStartKind || k == StatusKind || k == SpanEndKind then 1 else 0)
       + (if k == RecordErrorKind && !IsSuccess(batchErr) then 1 else 0)
       + (if k == SlowLogKind && d > threshold * |cmds| then 1 else 0)
       + (if k == ObserveKind then 1 else 0)
       + (if k == ErrCountKind && FormatError(batchErr) != NoLabel then 1 else 0)
  {
    var stamped := ctx.(start := At(stampedAt));
    var first := SpanStart(SpanName, Names(cmds));
    ProcessPipelineCompleted(ctx, cmds, combine, stampedAt, now, threshold);
    CountAppend([first], AfterPipelineEvents(stamped, cmds, combine, now, threshold), k);
    CountSingle(first);
    AfterPipelineCount(stamped, stampedAt, cmds, combine, now, threshold, k);
  }

  /** The metrics of a completed pipeline carry the "Pipeline" label and the time since
      the stamp. */
  lemma ProcessPipelineEmits(ctx: Context, cmds: seq<Command>, combine: seq<Error> -> Option<Error>,
                             stampedAt: int, now: int, threshold: int)
    requires cmds != []
    ensures var evs := ProcessPipelineHookRun(ctx, cmds, None, combine, stampedAt, now, threshold).events;
      var d := now - stampedAt;
      var reason := FormatError(BatchErr(cmds, combine));
      && Observe(PipelineLabel, Milliseconds(d) as real) in evs
      && (d > threshold * |cmds| ==> SlowLog(d, SlowCallText(cmds)) in evs)
      && (reason != NoLabel ==> ErrCount(PipelineLabel, reason) in evs)
  {
    var stamped := ctx.(start := At(stampedAt));
    var after := AfterPipelineEvents(stamped, cmds, combine, now, threshold);
    ProcessPipelineCompleted(ctx, cmds, combine, stampedAt, now, threshold);
    AfterPipelineEmits(stamped, stampedAt, cmds, combine, now, threshold);
    assert forall x | x in after :: x in [SpanStart(SpanName, Names(cmds))] + after;
  }


  /** When combine gives nil for the empty list and only for it, as BatchError.Err does,
      the batch error is nil exactly when every command's error is nil. */
  lemma BatchErrNilIffAllNil(cmds: seq<Command>, combine: seq<Error> -> Option<Error>)
    requires forall errs :: combine(errs) == None <==> errs == []
    ensures BatchErr(cmds, combine) == None <==> forall i | 0 <= i < |cmds| :: cmds[i].err == None
  {
    NonNilErrorsMembers(cmds);
  }

  /** A completed batch whose commands all returned nil ends its span with status Ok and
      neither records nor counts an error, when combine gives nil for the empty list. */
  lemma AllNilPipelineIsOk(ctx: Context, cmds: seq<Command>, combine: seq<Error> -> Option<Error>,
                           stampedAt: int, now: int, threshold: int)
    requires cmds != [] && combine([]) == None
    requires forall i | 0 <= i < |cmds| :: cmds[i].err == None
    ensures var evs := ProcessPipelineHookRun(ctx, cmds, None, combine, stampedAt, now, threshold).events;
      && |evs| > 1 && evs[1] == SpanStatus(Ok)
      && Count(evs, RecordErrorKind) == 0
      && Count(evs, ErrCountKind) == 0
  {
    NonNilErrorsMembers(cmds);
    assert BatchErr(cmds, combine) == None;
    ProcessPipelineCompleted(ctx, cmds, combine, stampedAt, now, threshold);
    ProcessPipelineCount(ctx, cmds, combine, stampedAt, now, threshold, RecordErrorKind);
    ProcessPipelineCount(ctx, cmds, combine, stampedAt, now, threshold, ErrCountKind);
  }

  /** The not-found sentinel is not filtered before the errors are combined: a batch
      whose commands all answered red.Nil hands combine one red.Nil per command, so the
      span status and error counter of that batch are whatever combine makes of them. */
  lemma {:induction false} PipelineSentinelsReachCombine(cmds: seq<Command>)
    requires forall i | 0 <= i < |cmds| :: cmds[i].err == Some(RedisNil)
    ensures NonNilErrors(cmds) == seq(|cmds|, _ => RedisNil)
  {
    if cmds != [] {
      PipelineSentinelsReachCombine(cmds[1..]);
    }
  }

  // ---------------------------------------------------------------------------------
  // The hook's loops

  /** The batchError accumulation of AfterProcessPipeline: nil errors are skipped. */
  method CollectErrors(cmds: seq<Command>) returns (batch: seq<Error>)
    ensures batch == NonNilErrors(cmds)
  {
    batch := [];
    for k := 0 to |cmds|
      invariant batch == NonNilErrors(cmds[..k])
    {
      assert cmds[..k + 1] == cmds[..k] + [cmds[k]];
      NonNilErrorsAppend(cmds[..k], [cmds[k]]);
      assert [cmds[k]][1..] == [];
      match cmds[k].err {
        case None =>
        case Some(e) =>
          batch := batch + [e];
      }
    }
    assert cmds[..|cmds|] == cmds;
  }

  // ---------------------------------------------------------------------------------
  // The hook

  /** The hook value. emitted is what it has handed to the tracer, the logger and the
      metric sinks so far, in order. */
  class Hook {
    var emitted: seq<Event>

    constructor ()
      ensures emitted == []
    {
      emitted := [];
    }

    /** startSpan: open a client span named "redis", tagged with the command names. */
    method StartSpan(ctx: Context, cmds: seq<Command>) returns (ctx': Context)
      modifies this
      ensures ctx' == ctx
      ensures emitted == old(emitted) + [SpanStart(SpanName, Names(cmds))]
    {
      var cmdStrs := CommandNames(cmds);
      emitted := emitted + [SpanStart(SpanName, cmdStrs)];
      ctx' := ctx;
    }

    /** endSpan: status Ok for success, else Error plus the recorded error; End deferred. */
    method EndSpan(ctx: Context, err: Option<Error>)
      modifies this
      ensures emitted == old(emitted) + EndSpanEvents(err)
    {
      if err == None || err == Some(RedisNil) {
        emitted := emitted + [SpanStatus(Ok)];
      } else {
        emitted := emitted + [SpanStatus(Failed(err.value)), SpanRecordError(err.value)];
      }
      emitted := emitted + [SpanEnd];
    }

    /** logDuration: one slow-call record carrying the duration. */
    method LogDuration(ctx: Context, cmds: seq<Command>, duration: int)
      modifies this
      ensures emitted == old(emitted) + [SlowLog(duration, SlowCallText(cmds))]
    {
      var msg := BuildSlowCallMessage(cmds);
      emitted := emitted + [SlowLog(duration, msg)];
    }

    /** BeforeProcess: stamp the start time read from the clock, then open the span. */
    method BeforeProcess(ctx: Context, cmd: Command, now: int) returns (ctx': Context)
      modifies this
      ensures ctx' == ctx.(start := At(now))
      ensures emitted == old(emitted) + [SpanStart(SpanName, [cmd.name])]
    {
      ctx' := StartSpan(ctx.(start := At(now)), [cmd]);
      assert Names([cmd]) == [cmd.name];
    }

    /** AfterProcess, at clock reading now with the threshold loaded at that point. */
    method AfterProcess(ctx: Context, cmd: Command, now: int, threshold: int)
      modifies this
      ensures emitted == old(emitted) + AfterProcessEvents(ctx, cmd, now, threshold)
    {
      var err := cmd.err;
      EndSpan(ctx, err);
      match ctx.start {
        case Unset =>
          return;
        case NotDuration =>
          return;
        case At(start) =>
          ghost var spanned := emitted;
          var duration := now - start;
          if duration > threshold {
            LogDuration(ctx, [cmd], duration);
            emitted := emitted + [SlowCount(cmd.name)];
          }
          assert emitted == spanned + CommandSlowEvents(cmd, duration, threshold);
          emitted := emitted + [Observe(cmd.name, ExactMillis(duration))];
          var msg := FormatError(err);
          if |msg| > 0 {
            emitted := emitted + [ErrCount(cmd.name, msg)];
          }
          assert emitted == spanned + CommandMetrics(cmd, duration, threshold);
          assert Elapsed(ctx, now) == Some(duration);
      }
    }

    /** ProcessHook around a next step that ran cmd and returned nextErr. The clock
        reads enteredAt on entry (a stamp BeforeProcess overwrites), stampedAt in
        BeforeProcess and now in AfterProcess. */
    method ProcessHook(ctx: Context, cmd: Command, nextErr: Option<Error>,
                       enteredAt: int, stampedAt: int, now: int, threshold: int)
      returns (err: Option<Error>)
      modifies this
      ensures var run := ProcessHookRun(ctx, cmd, nextErr, stampedAt, now, threshold);
        err == run.err && emitted == old(emitted) + run.events
    {
      var ctx' := BeforeProcess(ctx.(start := At(enteredAt)), cmd, stampedAt);
      assert Names([cmd]) == [cmd.name];
      if nextErr != None {
        return nextErr;
      }
      ghost var before := emitted;
      AfterProcess(ctx', cmd, now, threshold);
      ghost var after := AfterProcessEvents(ctx', cmd, now, threshold);
      assert emitted == old(emitted) + ([SpanStart(SpanName, [cmd.name])] + after) by {
        assert before + after == old(emitted) + ([SpanStart(SpanName, [cmd.name])] + after);
      }
      return None;
    }

    /** BeforeProcessPipeline: nothing for an empty batch, else stamp and open the span. */
    method BeforeProcessPipeline(ctx: Context, cmds: seq<Command>, now: int) returns (ctx': Context)
      modifies this
      ensures ctx' == PipelineContext(ctx, cmds, now)
      ensures emitted == old(emitted) + PipelineSpanStart(cmds)
    {
      if |cmds| == 0 {
        return ctx;
      }
      ctx' := StartSpan(ctx.(start := At(now)), cmds);
    }

    /** AfterProcessPipeline; combine stands for errorx.BatchError.Err(). */
    method AfterProcessPipeline(ctx: Context, cmds: seq<Command>, combine: seq<Error> -> Option<Error>,
                                now: int, threshold: int)
      modifies this
      ensures emitted == old(emitted) + AfterPipelineEvents(ctx, cmds, combine, now, threshold)
    {
      if |cmds| == 0 {
        return;
      }
      var batchError := CollectErrors(cmds);
      EndSpan(ctx, combine(batchError));
      assert combine(batchError) == BatchErr(cmds, combine);
      match ctx.start {
        case Unset =>
          return;
        case NotDuration =>
          return;
        case At(start) =>
          ghost var spanned := emitted;
          var duration := now - start;
          if duration > threshold * |cmds| {
            LogDuration(ctx, cmds, duration);
          }
          assert emitted == spanned + PipelineSlowEvents(cmds, duration, threshold);
          emitted := emitted + [Observe(PipelineLabel, Milliseconds(duration) as real)];
          var msg := FormatError(combine(batchError));
          if |msg| > 0 {
            emitted := emitted + [ErrCount(PipelineLabel, msg)];
          }
          assert emitted == spanned + PipelineMetrics(cmds, combine(batchError), duration, threshold);
          assert Elapsed(ctx, now) == Some(duration);
      }
    }

    /** ProcessPipelineHook around a next step that ran cmds and returned nextErr. */
    method ProcessPipelineHook(ctx: Context, cmds: seq<Command>, nextErr: Option<Error>,
                               combine: seq<Error> -> Option<Error>,
                               stampedAt: int, now: int, threshold: int)
      returns (err: Option<Error>)
      modifies this
      ensures var run := ProcessPipelineHookRun(ctx, cmds, nextErr, combine, stampedAt, now, threshold);
        err == run.err && emitted == old(emitted) + run.events
    {
      var ctx' := BeforeProcessPipeline(ctx, cmds, stampedAt);
      if nextErr != None {
        return nextErr;
      }
      ghost var before := emitted;
      AfterProcessPipeline(ctx', cmds, combine, now, threshold);
      ghost var after := AfterPipelineEvents(ctx', cmds, combine, now, threshold);
      assert emitted == old(emitted) + (PipelineSpanStart(cmds) + after) by {
        assert before + after == old(emitted) + (PipelineSpanStart(cmds) + after);
      }
      return None;
    }
  }
}
