/**
 * The parts of log4net's record model that the appender touches.
 * `LoggingEventData` is a .NET struct, so it is a value here; `LoggingEvent`
 * is the reference type that owns one in its private field `m_data`.
 */
module Logging {
  import opened Wrappers

  /** log4net's `Level`: a severity value and its display name. */
  datatype Level = Level(value: int, name: string)

  /**
   * The value block of one log record. Every reference-typed field may be
   * null (`None`). A null `userName` or `identity` means "not resolved yet":
   * log4net then looks the name up from the environment on first read.
   * `timeStamp` is the DateTime in ticks.
   */
  datatype LoggingEventData = LoggingEventData(
    loggerName: Option<string>,
    level: Option<Level>,
    message: Option<string>,
    threadName: Option<string>,
    timeStamp: int,
    userName: Option<string>,
    identity: Option<string>,
    exceptionString: Option<string>,
    domain: Option<string>)

  /** `new LoggingEventData()`: every reference null, the time stamp zero. */
  const EmptyEventData := LoggingEventData(None, None, None, None, 0, None, None, None, None)

  /** One log record, passed by reference through the appender chain. */
  class LoggingEvent {
    /** The private field `m_data`. */
    var data: LoggingEventData

    constructor (data: LoggingEventData)
      ensures this.data == data
    {
      this.data := data;
    }
  }

  /** The data blocks of `events`, in order, as they are now. */
  ghost function Snapshot(events: seq<LoggingEvent>): (r: seq<LoggingEventData>)
    reads events
    ensures |r| == |events|
    ensures forall k :: 0 <= k < |events| ==> r[k] == events[k].data
  {
    seq(|events|, k requires 0 <= k < |events| reads events => events[k].data)
  }
}
