/**
 * CompetitiveLogHandler: the log handler installed in place of Unity's
 * default one. While log output is enabled every call goes straight to the
 * wrapped logger; while it is disabled calls are captured in a FIFO cache,
 * and enabling output replays the cache through the same entry points.
 *
 * The wrapped logger is represented by `forwarded`, the calls it has
 * received so far, in order.
 */
module LogHandler {
  import opened LogRecords
  import opened HandlerModel

  class CompetitiveLogHandler<Exc, Ctx, Arg> {
    /** The calls the wrapped logger (oldLogger) has received, oldest first. */
    var forwarded: seq<SinkCall<Exc, Ctx, Arg>>
    /** Records held back while output is disabled; the front is dequeued first. */
    var cache: seq<LogRecord<Exc, Ctx, Arg>>
    var isLogOutputEnabled: bool

    /** The handler's state as a value of the reference model. */
    function State(): HandlerState<Exc, Ctx, Arg>
      reads this
    {
      HandlerState(isLogOutputEnabled, cache, forwarded)
    }

    constructor ()
      ensures State() == Initial()
      ensures isLogOutputEnabled && cache == [] && forwarded == []
    {
      forwarded := [];
      cache := [];
      isLogOutputEnabled := true;
    }

    method LogException(exception: Exc, context: Ctx)
      modifies this
      ensures State() == Submit(old(State()), ExceptionCall(exception, context))
      ensures isLogOutputEnabled == old(isLogOutputEnabled)
      ensures old(isLogOutputEnabled) ==>
        forwarded == old(forwarded) + [ExceptionCall(exception, context)] && cache == old(cache)
      ensures !old(isLogOutputEnabled) ==>
        cache == old(cache) + [ExceptionRecord(exception, context)] && forwarded == old(forwarded)
    {
      if isLogOutputEnabled {
        forwarded := forwarded + [ExceptionCall(exception, context)];
      } else {
        cache := cache + [ExceptionRecord(exception, context)];
      }
    }

    method LogFormat(logType: LogType, context: Ctx, format: string, args: seq<Arg>)
      modifies this
      ensures State() == Submit(old(State()), FormatCall(logType, context, format, args))
      ensures isLogOutputEnabled == old(isLogOutputEnabled)
      ensures old(isLogOutputEnabled) ==>
        forwarded == old(forwarded) + [FormatCall(logType, context, format, args)] && cache == old(cache)
      ensures !old(isLogOutputEnabled) ==>
        cache == old(cache) + [RegularRecord(logType, context, format, args)] && forwarded == old(forwarded)
    {
      if isLogOutputEnabled {
        forwarded := forwarded + [FormatCall(logType, context, format, args)];
      } else {
        cache := cache + [RegularRecord(logType, context, format, args)];
      }
    }

    /**
     * Dequeue the records one by one and send each back through LogFormat or
     * LogException, according to its kind. Output must be enabled: the
     * replayed call is then forwarded rather than queued again (with output
     * disabled, DrainStep shows the record only moves to the back).
     */
    method DumpCache()
      requires isLogOutputEnabled
      modifies this
      ensures State() == Drain(old(State()))
      ensures isLogOutputEnabled && cache == []
      ensures forwarded == old(forwarded) + ReplayAll(old(cache))
    {
      if |cache| > 0 {
        while |cache| > 0
          invariant isLogOutputEnabled
          invariant forwarded + ReplayAll(cache) == old(forwarded) + ReplayAll(old(cache))
          decreases |cache|
        {
          var theRecord := cache[0];
          ReplayAllFront(cache);
          cache := cache[1..];
          match theRecord
          case RegularRecord(logType, context, format, args) =>
            LogFormat(logType, context, format, args);
          case ExceptionRecord(exception, context) =>
            LogException(exception, context);
        }
      }
    }

    /** Set the flag, then dump everything cached while output was disabled. */
    method EnableLogOutput()
      modifies this
      ensures State() == Enable(old(State()))
      ensures isLogOutputEnabled && cache == []
      ensures forwarded == old(forwarded) + ReplayAll(old(cache))
    {
      isLogOutputEnabled := true;
      DumpCache();
    }

    method DisableLogOutput()
      modifies this
      ensures State() == Disable(old(State()))
      ensures !isLogOutputEnabled && cache == old(cache) && forwarded == old(forwarded)
    {
      isLogOutputEnabled := false;
    }
  }

  /**
   * A client run: disable output, log an Info-level and an Error-level
   * message, enable output. The wrapped logger receives both messages, in
   * the order they were logged, only once output is enabled again.
   */
  method BufferedMessagesArriveInOrder<Exc, Ctx, Arg>(context: Ctx, first: string, second: string)
    returns (beforeEnable: seq<SinkCall<Exc, Ctx, Arg>>, afterEnable: seq<SinkCall<Exc, Ctx, Arg>>)
    ensures beforeEnable == []
    ensures afterEnable == [FormatCall(Log, context, first, []), FormatCall(Error, context, second, [])]
  {
    var handler := new CompetitiveLogHandler<Exc, Ctx, Arg>();
    handler.DisableLogOutput();
    handler.LogFormat(Log, context, first, []);
    handler.LogFormat(Error, context, second, []);
    beforeEnable := handler.forwarded;
    handler.EnableLogOutput();
    afterEnable := handler.forwarded;
  }

  /**
   * A client run: with output enabled an exception reaches the wrapped logger
   * at once and nothing is cached; disabling and re-enabling right away
   * forwards nothing more.
   */
  method LiveExceptionIsForwardedAtOnce<Exc, Ctx, Arg>(exception: Exc, context: Ctx)
    returns (atOnce: seq<SinkCall<Exc, Ctx, Arg>>, cachedAtOnce: seq<LogRecord<Exc, Ctx, Arg>>,
             received: seq<SinkCall<Exc, Ctx, Arg>>, cached: seq<LogRecord<Exc, Ctx, Arg>>)
    ensures atOnce == [ExceptionCall(exception, context)] && cachedAtOnce == []
    ensures received == atOnce && cached == []
  {
    var handler := new CompetitiveLogHandler<Exc, Ctx, Arg>();
    handler.LogException(exception, context);
    atOnce, cachedAtOnce := handler.forwarded, handler.cache;
    handler.DisableLogOutput();
    handler.EnableLogOutput();
    received, cached := handler.forwarded, handler.cache;
  }
}
