/**
 * The record model of the competitive log handler: the two kinds of record
 * held back while log output is disabled, and the two calls the handler
 * makes on the logger it wraps.
 *
 * Exceptions, Unity objects (the log context, possibly null) and the format
 * arguments are never inspected by the handler, so they are the type
 * parameters Exc, Ctx and Arg throughout.
 */
module LogRecords {

  /** Unity's log categories; the handler only carries them through. */
  datatype LogType = Error | Assert | Warning | Log | Exception

  /** One logging call captured for later replay (ExceptionRecord / RegularRecord). */
  datatype LogRecord<Exc, Ctx, Arg> =
    | ExceptionRecord(exception: Exc, context: Ctx)
    | RegularRecord(logType: LogType, context: Ctx, format: string, args: seq<Arg>)

  /** One call received by the wrapped logger: LogException or LogFormat. */
  datatype SinkCall<Exc, Ctx, Arg> =
    | ExceptionCall(exception: Exc, context: Ctx)
    | FormatCall(logType: LogType, context: Ctx, format: string, args: seq<Arg>)

  /**
   * The record a disabled handler enqueues instead of making `call`:
   * an exception becomes an ExceptionRecord, a formatted message a
   * RegularRecord, and replaying it makes exactly `call` again.
   */
  function Capture<Exc, Ctx, Arg>(call: SinkCall<Exc, Ctx, Arg>): (r: LogRecord<Exc, Ctx, Arg>)
    ensures r.RegularRecord? <==> call.FormatCall?
    ensures Replay(r) == call
  {
    match call
    case ExceptionCall(exception, context) => ExceptionRecord(exception, context)
    case FormatCall(logType, context, format, args) => RegularRecord(logType, context, format, args)
  }

  /**
   * The call the cache dump makes for a dequeued record, chosen by the
   * record's variant: a RegularRecord goes to LogFormat and an
   * ExceptionRecord to LogException, each with the captured values.
   */
  function Replay<Exc, Ctx, Arg>(r: LogRecord<Exc, Ctx, Arg>): (call: SinkCall<Exc, Ctx, Arg>)
    ensures call.FormatCall? <==> r.RegularRecord?
    ensures call.ExceptionCall? <==> r.ExceptionRecord?
    ensures call.context == r.context
  {
    match r
    case RegularRecord(logType, context, format, args) => FormatCall(logType, context, format, args)
    case ExceptionRecord(exception, context) => ExceptionCall(exception, context)
  }

  /** Capturing a replayed record gives the record back: nothing is lost either way. */
  lemma ReplayIsLossless<Exc, Ctx, Arg>(r: LogRecord<Exc, Ctx, Arg>)
    ensures Capture(Replay(r)) == r
  {
  }

  /** The calls made, in order, when `records` are replayed front to back. */
  function ReplayAll<Exc, Ctx, Arg>(records: seq<LogRecord<Exc, Ctx, Arg>>): (calls: seq<SinkCall<Exc, Ctx, Arg>>)
    ensures |calls| == |records|
  {
    if |records| == 0 then [] else [Replay(records[0])] + ReplayAll(records[1..])
  }

  /** The k-th call of a replay is the replay of the k-th record. */
  lemma {:induction false} ReplayAllAt<Exc, Ctx, Arg>(records: seq<LogRecord<Exc, Ctx, Arg>>, k: nat)
    requires k < |records|
    ensures ReplayAll(records)[k] == Replay(records[k])
    decreases k
  {
    if k > 0 {
      ReplayAllAt(records[1..], k - 1);
    }
  }

  /** Replaying a non-empty queue makes the call for its oldest record first. */
  lemma ReplayAllFront<Exc, Ctx, Arg>(records: seq<LogRecord<Exc, Ctx, Arg>>)
    requires |records| > 0
    ensures ReplayAll(records) == [Replay(records[0])] + ReplayAll(records[1..])
  {
  }

  /** The records enqueued, in order, for `calls` made while output is disabled. */
  function CaptureAll<Exc, Ctx, Arg>(calls: seq<SinkCall<Exc, Ctx, Arg>>): (records: seq<LogRecord<Exc, Ctx, Arg>>)
    ensures |records| == |calls|
    ensures ReplayAll(records) == calls
  {
    if |calls| == 0 then [] else [Capture(calls[0])] + CaptureAll(calls[1..])
  }

  /** Capturing two runs of calls one after the other is capturing their concatenation. */
  lemma {:induction false} CaptureAllAppend<Exc, Ctx, Arg>(x: seq<SinkCall<Exc, Ctx, Arg>>, y: seq<SinkCall<Exc, Ctx, Arg>>)
    ensures CaptureAll(x + y) == CaptureAll(x) + CaptureAll(y)
  {
    if |x| == 0 {
      assert x + y == y;
    } else {
      assert (x + y)[0] == x[0];
      assert (x + y)[1..] == x[1..] + y;
      CaptureAllAppend(x[1..], y);
    }
  }

  /** Replaying two queue segments one after the other is replaying their concatenation. */
  lemma {:induction false} ReplayAllAppend<Exc, Ctx, Arg>(a: seq<LogRecord<Exc, Ctx, Arg>>, b: seq<LogRecord<Exc, Ctx, Arg>>)
    ensures ReplayAll(a + b) == ReplayAll(a) + ReplayAll(b)
  {
    if |a| == 0 {
      assert a + b == b;
    } else {
      assert (a + b)[0] == a[0];
      assert (a + b)[1..] == a[1..] + b;
      ReplayAllAppend(a[1..], b);
    }
  }

  /** Different queues never replay to the same calls. */
  lemma {:induction false} ReplayAllInjective<Exc, Ctx, Arg>(a: seq<LogRecord<Exc, Ctx, Arg>>, b: seq<LogRecord<Exc, Ctx, Arg>>)
    requires ReplayAll(a) == ReplayAll(b)
    ensures a == b
  {
    forall i | 0 <= i < |a|
      ensures a[i] == b[i]
    {
      ReplayAllAt(a, i);
      ReplayAllAt(b, i);
      ReplayIsLossless(a[i]);
      ReplayIsLossless(b[i]);
    }
  }
}
