/**
 * A reference model of CompetitiveLogHandler as a value: its three pieces of
 * state and one function per operation. The class in LogHandler.dfy is
 * proved to follow these functions; the lemmas here state what a sequence
 * of operations does.
 *
 * The central quantity is Eventual(s): the calls the wrapped logger has
 * received followed by the replay of everything still queued. Logging
 * appends to it, disabling and enabling leave it alone, and enabling makes
 * the wrapped logger's trace equal to it. Buffering therefore only delays
 * calls: it never loses, duplicates or reorders them.
 */
module HandlerModel {
  import opened LogRecords

  /**
   * The handler's state: the isLogOutputEnabled flag, the FIFO cache of
   * held-back records (front = oldest), and the calls the wrapped logger has
   * received so far, in order.
   */
  datatype HandlerState<Exc, Ctx, Arg> = HandlerState(
    enabled: bool,
    cache: seq<LogRecord<Exc, Ctx, Arg>>,
    forwarded: seq<SinkCall<Exc, Ctx, Arg>>)

  /** A freshly constructed handler: output enabled, nothing queued, nothing forwarded. */
  function Initial<Exc, Ctx, Arg>(): HandlerState<Exc, Ctx, Arg>
  {
    HandlerState(true, [], [])
  }

  /** Every state the handler can reach: while output is enabled the cache is empty. */
  ghost predicate Consistent<Exc, Ctx, Arg>(s: HandlerState<Exc, Ctx, Arg>)
  {
    s.enabled ==> s.cache == []
  }

  /** What the wrapped logger will have received once everything queued is replayed. */
  function Eventual<Exc, Ctx, Arg>(s: HandlerState<Exc, Ctx, Arg>): seq<SinkCall<Exc, Ctx, Arg>>
  {
    s.forwarded + ReplayAll(s.cache)
  }

  /**
   * LogFormat / LogException with the arguments of `call`: forwarded at once
   * while output is enabled, otherwise captured at the back of the cache.
   * The flag never changes, nothing is queued while enabled and nothing is
   * forwarded while disabled; on a consistent state the call is appended to
   * what the wrapped logger will eventually receive.
   */
  function Submit<Exc, Ctx, Arg>(s: HandlerState<Exc, Ctx, Arg>, call: SinkCall<Exc, Ctx, Arg>): (r: HandlerState<Exc, Ctx, Arg>)
    ensures r.enabled == s.enabled
    ensures s.enabled ==> r.cache == s.cache && r.forwarded == s.forwarded + [call]
    ensures !s.enabled ==> r.forwarded == s.forwarded && r.cache == s.cache + [Capture(call)]
    ensures Consistent(s) ==> Consistent(r) && Eventual(r) == Eventual(s) + [call]
  {
    if s.enabled then
      s.(forwarded := s.forwarded + [call])
    else
      ReplayAllAppend(s.cache, [Capture(call)]);
      s.(cache := s.cache + [Capture(call)])
  }

  /**
   * One iteration of the cache dump: dequeue the oldest record and submit its
   * replay. With output enabled the record reaches the wrapped logger and
   * the cache shrinks by one; with output disabled the record is only moved
   * to the back of the cache, so a dump started while disabled never ends.
   */
  function DrainStep<Exc, Ctx, Arg>(s: HandlerState<Exc, Ctx, Arg>): (r: HandlerState<Exc, Ctx, Arg>)
    requires |s.cache| > 0
    ensures r.enabled == s.enabled
    ensures s.enabled ==> r.cache == s.cache[1..] && r.forwarded == s.forwarded + [Replay(s.cache[0])]
    ensures !s.enabled ==> r.cache == s.cache[1..] + [s.cache[0]] && r.forwarded == s.forwarded
  {
    ReplayIsLossless(s.cache[0]);
    Submit(s.(cache := s.cache[1..]), Replay(s.cache[0]))
  }

  /**
   * dumpCache: repeat DrainStep until the cache is empty. Started with output
   * enabled, it ends with an empty cache, having forwarded every queued
   * record once, oldest first.
   */
  function Drain<Exc, Ctx, Arg>(s: HandlerState<Exc, Ctx, Arg>): (r: HandlerState<Exc, Ctx, Arg>)
    requires s.enabled
    ensures r.enabled && r.cache == []
    ensures r.forwarded == s.forwarded + ReplayAll(s.cache)
    decreases |s.cache|
  {
    if |s.cache| > 0 then
      var t := DrainStep(s);
      ReplayAllFront(s.cache);
      assert t.forwarded + ReplayAll(t.cache) == s.forwarded + ReplayAll(s.cache);
      Drain(t)
    else
      s
  }

  /**
   * enableLogOutput: set the flag, then dump the cache. Afterwards the state is
   * consistent, nothing is queued, and the wrapped logger has received
   * exactly what it would eventually have received.
   */
  function Enable<Exc, Ctx, Arg>(s: HandlerState<Exc, Ctx, Arg>): (r: HandlerState<Exc, Ctx, Arg>)
    ensures r.enabled && r.cache == [] && Consistent(r)
    ensures r.forwarded == Eventual(s) == Eventual(r)
  {
    Drain(s.(enabled := true))
  }

  /** disableLogOutput: clear the flag; the cache and the wrapped logger are untouched. */
  function Disable<Exc, Ctx, Arg>(s: HandlerState<Exc, Ctx, Arg>): (r: HandlerState<Exc, Ctx, Arg>)
    ensures !r.enabled && Consistent(r)
    ensures r.cache == s.cache && r.forwarded == s.forwarded
  {
    s.(enabled := false)
  }

  /** Disabling twice is disabling once. */
  lemma DisableIdempotent<Exc, Ctx, Arg>(s: HandlerState<Exc, Ctx, Arg>)
    ensures Disable(Disable(s)) == Disable(s)
  {
  }

  /** Enabling twice is enabling once: the second dump finds an empty cache. */
  lemma EnableIdempotent<Exc, Ctx, Arg>(s: HandlerState<Exc, Ctx, Arg>)
    ensures Enable(Enable(s)) == Enable(s)
  {
  }

  /** Enabling with an empty cache forwards nothing: only the flag changes. */
  lemma EnableWithEmptyCacheForwardsNothing<Exc, Ctx, Arg>(s: HandlerState<Exc, Ctx, Arg>)
    requires s.cache == []
    ensures Enable(s) == s.(enabled := true)
  {
  }

  /**
   * Disabling right before enabling is invisible: in particular, from a
   * consistent enabled state the pair forwards nothing and queues nothing.
   */
  lemma DisableThenEnable<Exc, Ctx, Arg>(s: HandlerState<Exc, Ctx, Arg>)
    ensures Enable(Disable(s)) == Enable(s)
    ensures Consistent(s) && s.enabled ==> Enable(Disable(s)) == s
  {
  }

  /** Sequence concatenation regroups freely; stated once to keep the cache proofs small. */
  lemma AppendAssociative<T>(a: seq<T>, b: seq<T>, c: seq<T>)
    ensures a + b + c == a + (b + c)
  {
  }

  /** The operations a client of the handler can perform. */
  datatype Event<Exc, Ctx, Arg> =
    | Logged(call: SinkCall<Exc, Ctx, Arg>)  // LogFormat or LogException
    | Disabled                               // disableLogOutput
    | Enabled                                // enableLogOutput

  function Step<Exc, Ctx, Arg>(s: HandlerState<Exc, Ctx, Arg>, e: Event<Exc, Ctx, Arg>): HandlerState<Exc, Ctx, Arg>
  {
    match e
    case Logged(call) => Submit(s, call)
    case Disabled => Disable(s)
    case Enabled => Enable(s)
  }

  /** The state after performing `events` in order, starting from `s`. */
  function Run<Exc, Ctx, Arg>(s: HandlerState<Exc, Ctx, Arg>, events: seq<Event<Exc, Ctx, Arg>>): HandlerState<Exc, Ctx, Arg>
    decreases |events|
  {
    if |events| == 0 then s else Run(Step(s, events[0]), events[1..])
  }

  /** The logging calls among `events`, in the order they were made. */
  function CallsOf<Exc, Ctx, Arg>(events: seq<Event<Exc, Ctx, Arg>>): seq<SinkCall<Exc, Ctx, Arg>>
  {
    if |events| == 0 then []
    else (if events[0].Logged? then [events[0].call] else []) + CallsOf(events[1..])
  }

  /**
   * Buffering only delays: from a consistent state, any sequence of
   * operations keeps the state consistent and appends exactly its logging
   * calls, in order, to what the wrapped logger will eventually receive.
   */
  lemma {:induction false} RunOnlyDelays<Exc, Ctx, Arg>(s: HandlerState<Exc, Ctx, Arg>, events: seq<Event<Exc, Ctx, Arg>>)
    requires Consistent(s)
    ensures Consistent(Run(s, events))
    ensures Eventual(Run(s, events)) == Eventual(s) + CallsOf(events)
    decreases |events|
  {
    if |events| == 0 {
      assert Eventual(s) + CallsOf(events) == Eventual(s);
    } else {
      var t := Step(s, events[0]);
      var now := if events[0].Logged? then [events[0].call] else [];
      assert Consistent(t) && Eventual(t) == Eventual(s) + now by {
        match events[0]
        case Logged(call) =>
        case Disabled =>
        case Enabled =>
      }
      RunOnlyDelays(t, events[1..]);
      assert CallsOf(events) == now + CallsOf(events[1..]);
      assert Eventual(s) + now + CallsOf(events[1..]) == Eventual(s) + CallsOf(events);
    }
  }


  /**
   * The wrapped logger's trace only grows: no operation takes back a call it
   * has already received.
   */
  lemma {:induction false} ForwardedOnlyGrows<Exc, Ctx, Arg>(s: HandlerState<Exc, Ctx, Arg>, events: seq<Event<Exc, Ctx, Arg>>)
    ensures |s.forwarded| <= |Run(s, events).forwarded|
    ensures Run(s, events).forwarded[..|s.forwarded|] == s.forwarded
    decreases |events|
  {
    if |events| > 0 {
      var t := Step(s, events[0]);
      assert t.forwarded[..|s.forwarded|] == s.forwarded;
      ForwardedOnlyGrows(t, events[1..]);
    }
  }

  /**
   * Every call logged since construction reaches the wrapped logger exactly
   * once and in order by the end of the next enableLogOutput, whatever the
   * interleaving of disables and enables in between.
   */
  lemma DeliveredInOrderAfterEnable<Exc, Ctx, Arg>(events: seq<Event<Exc, Ctx, Arg>>)
    ensures Enable(Run(Initial(), events)).forwarded == CallsOf(events)
    ensures Enable(Run(Initial(), events)).cache == []
  {
    RunOnlyDelays(Initial(), events);
  }

  /**
   * While output stays disabled nothing reaches the wrapped logger: every
   * logging call only appends its record, in order, to the back of the cache.
   */
  lemma {:induction false} NothingForwardedWhileDisabled<Exc, Ctx, Arg>(s: HandlerState<Exc, Ctx, Arg>, events: seq<Event<Exc, Ctx, Arg>>)
    requires !s.enabled
    requires forall i :: 0 <= i < |events| ==> !events[i].Enabled?
    ensures !Run(s, events).enabled
    ensures Run(s, events).forwarded == s.forwarded
    ensures Run(s, events).cache == s.cache + CaptureAll(CallsOf(events))
    decreases |events|
  {
    if |events| == 0 {
      assert s.cache + CaptureAll(CallsOf(events)) == s.cache;
    } else {
      var t := Step(s, events[0]);
      var now := if events[0].Logged? then [events[0].call] else [];
      assert !t.enabled && t.forwarded == s.forwarded && t.cache == s.cache + CaptureAll(now) by {
        assert !events[0].Enabled?;
        if events[0].Logged? {
          assert CaptureAll(now) == [Capture(events[0].call)];
        }
      }
      assert forall i :: 0 <= i < |events[1..]| ==> !events[1..][i].Enabled? by {
        forall i | 0 <= i < |events[1..]|
          ensures !events[1..][i].Enabled?
        {
          assert events[1..][i] == events[i + 1];
        }
      }
      NothingForwardedWhileDisabled(t, events[1..]);
      assert CallsOf(events) == now + CallsOf(events[1..]);
      CaptureAllAppend(now, CallsOf(events[1..]));
      var earlier, later := CaptureAll(now), CaptureAll(CallsOf(events[1..]));
      assert CaptureAll(CallsOf(events)) == earlier + later;
      AppendAssociative(s.cache, earlier, later);
    }
  }

}
