# Competitive logger: a verified model of the log-buffering handler

The competitive logger is a Keep Talking and Nobody Explodes mod. It
replaces Unity's default logger with a `CompetitiveLogHandler`. The handler
passes every log call to the logger it wraps while log output is enabled.
While output is disabled (during gameplay) it holds the calls back in a FIFO
cache. Enabling output again replays the cache, oldest first. Each record
goes back through `LogFormat` or `LogException`, according to its kind.

This project models that handler in Dafny and proves what it promises:

- `LogRecords.dfy` holds the two record kinds (`ExceptionRecord`,
  `RegularRecord`) and the two calls the wrapped logger receives. `Capture`
  turns a call into the record that is enqueued for it. `Replay` turns a
  record into the call the cache dump makes for it. Each undoes the other.
- `HandlerModel.dfy` is a reference model of the handler as a value: the
  flag, the cache, and the calls the wrapped logger has received. It has one
  function per operation. `Eventual(s)` is the forwarded calls followed by
  the replay of the cache. Logging appends to it. Disabling and enabling
  leave it alone. Enabling makes the forwarded trace equal to it. From this
  follows the main theorem, `DeliveredInOrderAfterEnable`: every call logged
  since construction reaches the wrapped logger exactly once, in order, by
  the end of the next enable, whatever disables and enables come between.
- `LogHandler.dfy` is the handler itself, as a class that updates its
  fields in place. `DumpCache` is the `while` loop that dequeues and
  re-submits records. Each method is proved to follow the reference model.
- `LoggerService.dfy` holds the service around it. The
  `hasLoggerBeenReplaced` guard makes installing and removing the handler
  happen once each. Removing the handler first enables its output. Entering
  gameplay disables output, and any other game state enables it.

Exceptions, Unity objects (the log context, which may be null) and format
arguments are never looked at by the handler. They are the type parameters
`Exc`, `Ctx` and `Arg`. The wrapped logger (`oldLogger`) is represented by
`forwarded`, the calls it has received, in order.

`dumpCache` is public, but only `enableLogOutput` calls it, right after
setting the flag. The model therefore gives `DumpCache` the precondition
that output is enabled (see "## Left out").

The handler forwards every argument list unchanged. Nothing in the code
rewrites or redacts arguments, and nothing in the model does either.

## Model

| member | source | states |
|---|---|---|
| `LogRecords.Capture` | Assets/CompetitiveLoggerService.cs:62-78 | the record enqueued for a held-back call is a RegularRecord exactly for LogFormat, and replaying it gives back that same call |
| `LogRecords.Replay` | Assets/CompetitiveLoggerService.cs:89-96 | a dequeued record is sent by its kind: a RegularRecord to LogFormat and an ExceptionRecord to LogException, with the same context |
| `LogRecords.ReplayIsLossless` | Assets/CompetitiveLoggerService.cs:18-21 | a record captures all of a call's values: capturing the call a record replays to gives the record back |
| `LogRecords.ReplayAll` | Assets/CompetitiveLoggerService.cs:86-97 | replaying a queue makes exactly one call per record |
| `LogRecords.ReplayAllAt` | Assets/CompetitiveLoggerService.cs:86-97 | the k-th call of a replay is the call for the k-th record of the queue (FIFO) |
| `LogRecords.CaptureAll` | Assets/CompetitiveLoggerService.cs:42-47 | the records enqueued for a run of calls replay to exactly those calls, one record per call |
| `LogRecords.CaptureAllAppend` | Assets/CompetitiveLoggerService.cs:76 | appending to the queue: the records for two runs of calls are the records for each run, one after the other |
| `LogRecords.ReplayAllAppend` | Assets/CompetitiveLoggerService.cs:86-87 | replaying a queue front to back: the calls for two queue segments come one after the other |
| `LogRecords.ReplayAllInjective` | Assets/CompetitiveLoggerService.cs:90-96 | two queues that replay to the same calls are equal: the replay loses nothing |
| `HandlerModel.Submit` | Assets/CompetitiveLoggerService.cs:62-78 | a log call never changes the flag; enabled, it is forwarded once and nothing is queued; disabled, its record is appended at the back and nothing is forwarded; on a reachable state the call is appended to what the wrapped logger will eventually receive |
| `HandlerModel.DrainStep` | Assets/CompetitiveLoggerService.cs:86-96 | one dump iteration with output enabled forwards the oldest record and shortens the cache by one; with output disabled it only moves that record to the back, so the dump cannot end |
| `HandlerModel.Drain` | Assets/CompetitiveLoggerService.cs:80-101 | a dump started with output enabled ends with an empty cache, having forwarded every queued record once, oldest first |
| `HandlerModel.Enable` | Assets/CompetitiveLoggerService.cs:103-107 | after enabling, output is enabled, the cache is empty, and the wrapped logger has received its previous calls followed by every cached record, in FIFO order |
| `HandlerModel.Disable` | Assets/CompetitiveLoggerService.cs:109-112 | disabling clears the flag and leaves the cache and the forwarded calls unchanged |
| `HandlerModel.DisableIdempotent` | Assets/CompetitiveLoggerService.cs:109-112 | disabling twice gives the same handler state as disabling once (status messages aside, see "## Left out") |
| `HandlerModel.EnableIdempotent` | Assets/CompetitiveLoggerService.cs:103-107 | enabling twice gives the same state as enabling once; the second dump finds nothing to forward |
| `HandlerModel.EnableWithEmptyCacheForwardsNothing` | Assets/CompetitiveLoggerService.cs:80-82 | enabling with an empty cache changes only the flag: nothing is forwarded |
| `HandlerModel.DisableThenEnable` | Assets/CompetitiveLoggerService.cs:103-112 | a disable directly followed by an enable is the same as the enable alone; from a reachable enabled state the pair changes nothing |
| `HandlerModel.RunOnlyDelays` | Assets/CompetitiveLoggerService.cs:62-112 | from a reachable state, any sequence of operations keeps "enabled implies empty cache" and appends exactly its log calls, in order, to what the wrapped logger will eventually receive |
| `HandlerModel.ForwardedOnlyGrows` | Assets/CompetitiveLoggerService.cs:62-112 | no sequence of operations removes or changes a call the wrapped logger has already received |
| `HandlerModel.DeliveredInOrderAfterEnable` | Assets/CompetitiveLoggerService.cs:56-112 | from construction, after any sequence of operations and one enable, the wrapped logger has received exactly the logged calls, in the order they were made, and the cache is empty |
| `HandlerModel.NothingForwardedWhileDisabled` | Assets/CompetitiveLoggerService.cs:62-78 | while output stays disabled nothing is forwarded, and the cache grows by exactly the records of the logged calls, in order |
| `LogHandler.CompetitiveLogHandler.constructor` | Assets/CompetitiveLoggerService.cs:56-60 | a new handler has output enabled, an empty cache, and has forwarded nothing |
| `LogHandler.CompetitiveLogHandler.LogException` | Assets/CompetitiveLoggerService.cs:62-69 | enabled: forwards exactly (exception, context) once, cache unchanged; disabled: appends ExceptionRecord(exception, context) at the back, forwards nothing |
| `LogHandler.CompetitiveLogHandler.LogFormat` | Assets/CompetitiveLoggerService.cs:71-78 | enabled: forwards exactly (logType, context, format, args) once, cache unchanged; disabled: appends the RegularRecord of those values at the back, forwards nothing |
| `LogHandler.CompetitiveLogHandler.DumpCache` | Assets/CompetitiveLoggerService.cs:80-101 | with output enabled the loop terminates with an empty cache, having forwarded the old cache's records in FIFO order, each through the entry point for its kind |
| `LogHandler.CompetitiveLogHandler.EnableLogOutput` | Assets/CompetitiveLoggerService.cs:103-107 | output ends enabled with an empty cache, and the forwarded calls grow by exactly the replay of the old cache |
| `LogHandler.CompetitiveLogHandler.DisableLogOutput` | Assets/CompetitiveLoggerService.cs:109-112 | output ends disabled; the cache and the forwarded calls are unchanged |
| `LogHandler.BufferedMessagesArriveInOrder` | Assets/CompetitiveLoggerService.cs:71-107 | disable, log an Info message and an Error message, enable: nothing arrives before the enable, then both arrive in the order logged |
| `LogHandler.LiveExceptionIsForwardedAtOnce` | Assets/CompetitiveLoggerService.cs:62-112 | an exception logged while enabled is forwarded at once and nothing is cached; a disable followed directly by an enable then forwards nothing more and leaves the cache empty |
| `LoggerService.CompetitiveLoggerService.constructor` | Assets/CompetitiveLoggerService.cs:116-119 | the service starts with no handler and the logger not replaced |
| `LoggerService.CompetitiveLoggerService.ReplaceLogger` | Assets/CompetitiveLoggerService.cs:121-134 | the first call installs a fresh handler in its initial state and marks the logger replaced; later calls change nothing |
| `LoggerService.CompetitiveLoggerService.ResetLogger` | Assets/CompetitiveLoggerService.cs:136-149 | if the logger was replaced, the handler's output is enabled (its cache dumped) before the logger is marked not replaced; otherwise nothing changes |
| `LoggerService.CompetitiveLoggerService.OnStateChange` | Assets/CompetitiveLoggerService.cs:189-195 | entering Gameplay disables the handler's output; any other state enables it |
| `LoggerService.MessageDuringGameplayArrivesAfterwards` | Assets/CompetitiveLoggerService.cs:121-195 | a message logged during gameplay is not forwarded until gameplay ends, then arrives once; uninstalling afterwards forwards nothing more |

## Left out

- The reflective swap of Unity's `Debug.s_Logger` field and its restore
  (`Assets/CompetitiveLoggerService.cs:124-130`, `142-145`). It patches a
  Unity type whose code is not part of this model. Only the
  `hasLoggerBeenReplaced` guard around it is modelled. Log calls made after
  the reset reach the restored logger directly, and that is not modelled
  either.
- The `[CompetitiveLogger]` status messages written with `Debug.Log`. They
  go through Unity's `Logger`, whose code is not part of this model, and the
  model drops all of them. Once the handler is installed
  (`Assets/CompetitiveLoggerService.cs:128-130`), they re-enter `LogFormat`.
  Most are written while output is enabled and are forwarded. Some are
  written while output is disabled, and the program caches those. One is the
  message at line 110 when `disableLogOutput` runs while output is already
  disabled, for example on two Gameplay state changes in a row. Another is
  the teardown message at line 173 when `OnDestroy` runs during gameplay,
  which the enable in `resetLogger` then flushes.
- HandlerModel.DisableIdempotent: holds only for the handler without its
  status messages. In the program a second `disableLogOutput` call caches
  its own status message, so the cache grows by one record.
- Unity's `Logger`, which wraps the handler and may filter calls by log type
  before they reach it. It is not part of this model.
- `Awake`, `OnDestroy`, `OnBombExplodes` and `OnBombDefused`. These are event
  wiring to the game's `KMBombInfo` and `KMGameInfo`, which are not part of
  this model. The two bomb handlers only call `enableLogOutput`, which is
  modelled.
- `GameState`: the game's state enumeration is not part of this model. Only
  the difference between `Gameplay` and every other state, which is the only
  one `OnStateChange` makes, is kept.
- Exceptions thrown by the wrapped logger. The code neither catches nor
  retries them, and the model treats forwarding as always succeeding.
- Capture by reference. A record holds the caller's `args` array and context
  object by reference, so changes made to them after the call show up on
  replay. The model holds them as values.
- Concurrency. The handler takes no locks, and the model is sequential.
- LogHandler.CompetitiveLogHandler.DumpCache: requires output to be
  enabled, which is what its only caller (`enableLogOutput`, lines 104-106)
  guarantees. If the program called `dumpCache` with output disabled and a
  non-empty cache, it would never end: each replayed record goes back to the
  end of the cache. `HandlerModel.DrainStep` models that loop step as
  written, and its output-disabled case is this rotation, which leaves the
  length of the cache unchanged. `HandlerModel.Drain` and `DumpCache` model
  the intended run, with output enabled.
- Null format strings and argument arrays. In C#, `format` and `args` can be
  null, and the handler passes them through unchanged. The model's `string`
  and `seq<Arg>` cannot be null. The handler never reads them, so no
  branch of the model depends on this.
- LogRecords.Replay: its contract states the routing by kind and the
  context. That every other captured value is carried over is stated
  separately, by `ReplayIsLossless` and `Capture`.
