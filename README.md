# log4net.ext.boost: the accelerating forwarding appender, in Dafny

log4net.ext.boost supplies `AccelerateForwardingAppender`, a log4net forwarding
appender. A log record (`LoggingEvent`) normally resolves its `UserName`
(the OS account) and `Identity` (the thread principal's name) lazily, on first
read, which is expensive. This appender resolves both names once, when it is
built, and writes them into every record it forwards. Downstream appenders
then never trigger the lookup.

The model has three modules:

- `Wrappers` (`wrappers.dfy`): `Option`, standing for a .NET reference that may be null.
- `Logging` (`logging_event.dfy`): the part of log4net's record model that the
  appender touches. `LoggingEventData` is a struct in .NET, so it is a datatype
  here. `LoggingEvent` is a class whose field `data` is the private `m_data`.
  `Snapshot` gives the data blocks of a sequence of events.
- `Boost` (`accelerate_forwarding_appender.dfy`): the appender.
  - It is a class with the four settings `cacheUsername`, `cacheIdentity`,
    `username` and `identity`. The C# auto-properties become public fields.
  - `Accelerate`, `Append` and `AppendBatch` are methods that update the events
    in place.
  - `Accelerated` is the specification of `Accelerate` on one data block.
    `AccelerateEach` is the same on a whole batch.
  - What the base forwarder receives is recorded in the ghost trace `forwarded`.
    Each entry holds the forwarded event or events and the data the sinks see.

`BoostScenarios` (`appender_scenarios.dfy`) is client code that follows the
setup of the repository's unit tests; its assertions come from the contracts.
It also covers a batch that holds one event twice.

A null `UserName` or `Identity` in a record is `None`: log4net resolves it
lazily. The `Username` and `Identity` settings are `Option<string>` as well,
because the C# setters accept null. The constructor never stores null.

The batch `Append` accelerates every record of the array first, and only
then hands the whole array to the base forwarder in one call
(`AccelerateForwardingAppender.cs:39-46`). `AppendBatch` models this: its
trace entry is a single `Batch` delivery, and every block in it is already
accelerated.

## Model

| member | source | states |
|---|---|---|
| `Boost.DefaultUsername` | src/log4net.ext.boost/AccelerateForwardingAppender.cs:24 | the default user name is the OS account name when there is one, and the empty string when that name is null |
| `Boost.DefaultIdentity` | src/log4net.ext.boost/AccelerateForwardingAppender.cs:25 | the default identity is the thread principal identity's name, and the empty string when the identity or its name is null |
| `Boost.AccelerateForwardingAppender.constructor` | src/log4net.ext.boost/AccelerateForwardingAppender.cs:20-26 | a new appender caches both names; `username` and `identity` are the environment defaults and never null; nothing has been forwarded yet |
| `Boost.Accelerated` | src/log4net.ext.boost/AccelerateForwardingAppender.cs:49-64 | after acceleration, the user name is the cached one exactly when `cacheUsername` is on and is unchanged otherwise; the same holds for the identity under `cacheIdentity`; every other field of the block is preserved; with both flags off the block is unchanged |
| `Boost.AcceleratedIdempotent` | src/log4net.ext.boost/AccelerateForwardingAppender.cs:49-64 | accelerating a block twice with the same settings gives the same block as accelerating it once |
| `Boost.FlagsIndependent` | src/log4net.ext.boost/AccelerateForwardingAppender.cs:54-61 | the resulting identity does not depend on the user-name setting, and the resulting user name does not depend on the identity setting |
| `Boost.AccelerateForwardingAppender.Accelerate` | src/log4net.ext.boost/AccelerateForwardingAppender.cs:49-64 | the event's data block becomes `Accelerated` of its old block under the appender's current settings; the appender's settings and every other object are unchanged |
| `Boost.AccelerateForwardingAppender.Append` | src/log4net.ext.boost/AccelerateForwardingAppender.cs:33-37 | the event is accelerated first; then that same event is forwarded, carrying its accelerated block |
| `Boost.AccelerateForwardingAppender.AppendBatch` | src/log4net.ext.boost/AccelerateForwardingAppender.cs:39-46 | every element ends in the state that single acceleration gives, even when an event appears more than once; the array, its length and its element order are unchanged; the whole array is forwarded once, after the loop, and the blocks forwarded with it are `AccelerateEach` of the blocks the events held before the call |
| `Boost.AccelerateEach` | src/log4net.ext.boost/AccelerateForwardingAppender.cs:41-44 | accelerating a batch gives a batch of the same length in which each block is that block accelerated on its own |
| `Boost.AccelerateEachSplits` | src/log4net.ext.boost/AccelerateForwardingAppender.cs:39-46 | records in a batch do not interact: accelerating `xs + ys` as one batch is the same as accelerating `xs` and `ys` separately and concatenating the results |
| `Boost.AccelerateEachIdempotent` | src/log4net.ext.boost/AccelerateForwardingAppender.cs:39-46 | accelerating a batch twice with the same settings gives the same blocks as accelerating it once |

## Left out

- The static accessor field and the static constructor that builds it (lines 13-18), and the `FieldAccessor` and `FieldReflection` classes (lines 66-97), compile expression trees that read and write the private `m_data` field. The model reads and writes `LoggingEvent.data` directly. The static constructor's load-time failure, when the field is missing, is also not modelled.
- The body of `base.Append` lives in log4net's `ForwardingAppender`, which is not part of this model. The attached appenders, the order in which they are called and their error isolation are not modelled. Forwarding is recorded only as an entry in the ghost trace `forwarded`.
- Append, AppendBatch and the constructor: the paths on which the source throws a `NullReferenceException` are outside the model, because events, arrays and the thread principal are non-null references here. `Append(null)` throws in the getter at line 53. A null `loggingEvents` throws at line 41. A null element throws at line 43, after the earlier elements were changed in place and before `base.Append` at line 45 runs. A null `Thread.CurrentPrincipal` makes the constructor throw at line 25, where only `.Identity` is null-conditional; the constructor's parameter is the principal's identity, not the principal. log4net's `DoAppend` rejects a null event before `Append` is reached.
- `WindowsIdentity.GetCurrent().Name` and `Thread.CurrentPrincipal.Identity` are environment lookups. They are the constructor's parameters.
- `LoggingEvent.UserName` and `LoggingEvent.Identity` resolve a null field lazily on read. That is log4net behaviour, and the model leaves the field `None`. The tests' `NotEqual` branches rely on this lazy lookup. The scenarios check only that the field is still null.
- Tests call log4net's `DoAppend`, which applies thresholds and filters before calling `Append`. That code is not part of this model. The model calls `Append` directly.
- The `LocationInfo` and `Properties` fields of `LoggingEventData` are not modelled. The appender never touches them. The fields that are modelled show that untouched fields are preserved.
- `AggressiveInlining` has no meaning in the model. Concurrent reconfiguration during dispatch is not modelled, because the model is sequential.
- The wall-clock performance test and the benchmark program measure time and write to the console. They have no functional contract to model.
