/** What the hook reads from a command and what it hands to its collaborators (tracer,
    slow-call logger, metric sinks), recorded as one ordered trace of events. */
module Trace {
  import opened Optional
  import opened Classifier

  /** The hook's view of a go-redis Cmder after it has run: its name, its arguments as
      mapping.Repr renders them, and the error it recorded (None for nil). */
  datatype Command = Command(name: string, args: seq<string>, err: Option<Error>)

  /** A span status: codes.Ok, or codes.Error carrying the error whose Error() text
      becomes the status description. */
  datatype Status = Ok | Failed(err: Error)

  datatype Event =
    | SpanStart(name: string, cmds: seq<string>)  // tracer.Start(name, client kind) tagged redis.cmds
    | SpanStatus(status: Status)                  // span.SetStatus
    | SpanRecordError(err: Error)                 // span.RecordError
    | SpanEnd                                     // span.End
    | SlowLog(duration: int, msg: string)         // logx ... WithDuration(duration).Slowf
    | SlowCount(cmd: string)                      // metricSlowCount.Inc(cmd)
    | Observe(cmd: string, ms: real)              // metricReqDur observation, in milliseconds
    | ErrCount(cmd: string, reason: string)       // metricReqErr.Inc(cmd, reason)
  {
    function Kind(): Kind {
      match this
      case SpanStart(_, _) => SpanStartKind
      case SpanStatus(_) => StatusKind
      case SpanRecordError(_) => RecordErrorKind
      case SpanEnd => SpanEndKind
      case SlowLog(_, _) => SlowLogKind
      case SlowCount(_) => SlowCountKind
      case Observe(_, _) => ObserveKind
      case ErrCount(_, _) => ErrCountKind
    }
  }

  datatype Kind =
    | SpanStartKind | StatusKind | RecordErrorKind | SpanEndKind
    | SlowLogKind | SlowCountKind | ObserveKind | ErrCountKind

  /** How many events of kind k a trace holds. */
  function Count(evs: seq<Event>, k: Kind): (n: nat)
    ensures n <= |evs|
  {
    if evs == [] then 0
    else (if evs[0].Kind() == k then 1 else 0) + Count(evs[1..], k)
  }

  /** Counting distributes over the concatenation of traces. */
  lemma {:induction false} CountAppend(a: seq<Event>, b: seq<Event>, k: Kind)
    ensures Count(a + b, k) == Count(a, k) + Count(b, k)
  {
    if a != [] {
      assert (a + b)[1..] == a[1..] + b;
      CountAppend(a[1..], b, k);
    } else {
      assert a + b == b;
    }
  }

  /** CountAppend over three traces. */
  lemma CountConcat3(a: seq<Event>, b: seq<Event>, c: seq<Event>, k: Kind)
    ensures Count(a + b + c, k) == Count(a, k) + Count(b, k) + Count(c, k)
  {
    CountAppend(a + b, c, k);
    CountAppend(a, b, k);
  }

  /** CountAppend for every kind at once. */
  lemma CountAppendAll(a: seq<Event>, b: seq<Event>)
    ensures forall k :: Count(a + b, k) == Count(a, k) + Count(b, k)
  {
    forall k {
      CountAppend(a, b, k);
    }
  }

  /** A trace of one event holds one event of its kind and none of any other. */
  lemma CountSingle(e: Event)
    ensures forall k :: Count([e], k) == if e.Kind() == k then 1 else 0
  {
    assert [e][1..] == [];
  }

  /** A trace of two events counts each of them. */
  lemma CountPair(e: Event, f: Event)
    ensures forall k :: Count([e, f], k) == (if e.Kind() == k then 1 else 0) + (if f.Kind() == k then 1 else 0)
  {
    assert [e, f] == [e] + [f];
    CountAppendAll([e], [f]);
    CountSingle(e);
    CountSingle(f);
  }

  /** The cmdStrs tag of startSpan: every command's name, in command order. */
  function Names(cmds: seq<Command>): (names: seq<string>)
    ensures |names| == |cmds|
    ensures forall i | 0 <= i < |cmds| :: names[i] == cmds[i].name
  {
    if cmds == [] then [] else [cmds[0].name] + Names(cmds[1..])
  }

  /** The errors a pipeline's batchError collects: the non-nil ones, in command order. */
  function NonNilErrors(cmds: seq<Command>): (errs: seq<Error>)
    ensures |errs| <= |cmds|
  {
    if cmds == [] then []
    else
      var rest := NonNilErrors(cmds[1..]);
      match cmds[0].err
      case Some(e) => [e] + rest
      case None => rest
  }

  /** batchError holds exactly the errors of the commands that failed: it is empty iff
      every command's error is nil, and an error is in it iff some command returned it. */
  lemma {:induction false} NonNilErrorsMembers(cmds: seq<Command>)
    ensures NonNilErrors(cmds) == [] <==> forall i | 0 <= i < |cmds| :: cmds[i].err == None
    ensures forall e :: e in NonNilErrors(cmds) <==> exists i | 0 <= i < |cmds| :: cmds[i].err == Some(e)
  {
    if cmds != [] {
      NonNilErrorsMembers(cmds[1..]);
      assert forall i | 1 <= i < |cmds| :: cmds[i] == cmds[1..][i - 1];
    }
  }

  /** Collecting keeps command order: the errors of a longer list extend those of its prefix. */
  lemma {:induction false} NonNilErrorsAppend(a: seq<Command>, b: seq<Command>)
    ensures NonNilErrors(a + b) == NonNilErrors(a) + NonNilErrors(b)
  {
    if a != [] {
      assert (a + b)[1..] == a[1..] + b;
      NonNilErrorsAppend(a[1..], b);
    } else {
      assert a + b == b;
    }
  }

  /** time.Duration.Milliseconds: whole milliseconds, truncated toward zero. */
  function Milliseconds(d: int): (ms: int)
    ensures d >= 0 ==> 0 <= ms && ms * 1000000 <= d < (ms + 1) * 1000000
    ensures d < 0 ==> ms <= 0 && (ms - 1) * 1000000 < d <= ms * 1000000
  {
    if d >= 0 then d / 1000000 else -((-d) / 1000000)
  }
}
