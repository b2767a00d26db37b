/** Span management of the Redis hook: startSpan opens one client span per logical call,
    tagged with the command names; endSpan sets its status and ends it. */
module Span {
  import opened Optional
  import opened Classifier
  import opened Trace

  /** The span name of the redis calls. */
  const SpanName: string := "redis"

  /** The status endSpan sets: Ok for nil and for the not-found sentinel, else Error. */
  function StatusOf(err: Option<Error>): (s: Status)
    ensures s == Ok <==> FormatError(err) == NoLabel
    ensures s.Failed? ==> err == Some(s.err)
  {
    if IsSuccess(err) then Ok else Failed(err.value)
  }

  /** What endSpan hands the tracer: the status, the error only on failure, and the
      deferred End last. */
  function EndSpanEvents(err: Option<Error>): seq<Event> {
    if IsSuccess(err) then [SpanStatus(Ok), SpanEnd]
    else [SpanStatus(Failed(err.value)), SpanRecordError(err.value), SpanEnd]
  }

  /** endSpan sets the status first and ends the span last; the error is recorded iff
      the call failed, and it is the call's own error. */
  lemma EndSpanOrder(err: Option<Error>)
    ensures var evs := EndSpanEvents(err);
      && |evs| >= 2 && evs[0] == SpanStatus(StatusOf(err)) && evs[|evs| - 1] == SpanEnd
      && forall e :: SpanRecordError(e) in evs <==> !IsSuccess(err) && err == Some(e)
  {
  }

  /** endSpan sets one status and ends the span once, records at most the one error and
      emits nothing else. */
  lemma EndSpanCount(err: Option<Error>, k: Kind)
    ensures Count(EndSpanEvents(err), k)
         == if k == StatusKind || k == SpanEndKind || (k == RecordErrorKind && !IsSuccess(err)) then 1 else 0
  {
    if IsSuccess(err) {
      CountPair(SpanStatus(Ok), SpanEnd);
    } else {
      var e := err.value;
      assert [SpanStatus(Failed(e)), SpanRecordError(e), SpanEnd] == [SpanStatus(Failed(e))] + [SpanRecordError(e), SpanEnd];
      CountAppend([SpanStatus(Failed(e))], [SpanRecordError(e), SpanEnd], k);
      CountSingle(SpanStatus(Failed(e)));
      CountPair(SpanRecordError(e), SpanEnd);
    }
  }

  /** The redis.cmds tag startSpan builds, one append per command. */
  method CommandNames(cmds: seq<Command>) returns (cmdStrs: seq<string>)
    ensures cmdStrs == Names(cmds)
  {
    cmdStrs := [];
    for k := 0 to |cmds|
      invariant |cmdStrs| == k
      invariant forall i | 0 <= i < k :: cmdStrs[i] == cmds[i].name
    {
      cmdStrs := cmdStrs + [cmds[k].name];
    }
  }
}
