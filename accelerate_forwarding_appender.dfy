/**
 * The forwarding appender of log4net.ext.boost. Before a record reaches the
 * attached appenders, it writes the cached user name and identity into the
 * record, so that no downstream reader triggers log4net's costly lookup.
 */
module Boost {
  import opened Wrappers
  import opened Logging

  /** The four settings of the appender, as one value. */
  datatype AccelerationConfig = AccelerationConfig(
    cacheUsername: bool,
    cacheIdentity: bool,
    username: Option<string>,
    identity: Option<string>)

  /** The identity object of a thread's principal, whose name may be null. */
  datatype PrincipalIdentity = PrincipalIdentity(name: Option<string>)

  /** The default `Username`: the OS account name, or "" when it is null. */
  function DefaultUsername(osUserName: Option<string>): (r: string)
    ensures osUserName.Some? ==> r == osUserName.value
    ensures osUserName.None? ==> r == ""
  {
    osUserName.GetOr("")
  }

  /**
   * The default `Identity`: the name of the thread principal's identity, or ""
   * when the identity or its name is null.
   */
  function DefaultIdentity(principalIdentity: Option<PrincipalIdentity>): (r: string)
    ensures principalIdentity.Some? && principalIdentity.value.name.Some? ==>
              r == principalIdentity.value.name.value
    ensures principalIdentity.None? || principalIdentity.value.name.None? ==> r == ""
  {
    match principalIdentity
    case None => ""
    case Some(id) => id.name.GetOr("")
  }

  /**
   * The data block after acceleration under `c`: each identity field takes the
   * cached value when its flag is on and keeps its own value otherwise, and
   * nothing else in the block changes.
   */
  function Accelerated(d: LoggingEventData, c: AccelerationConfig): (r: LoggingEventData)
    ensures c.cacheUsername ==> r.userName == c.username
    ensures !c.cacheUsername ==> r.userName == d.userName
    ensures c.cacheIdentity ==> r.identity == c.identity
    ensures !c.cacheIdentity ==> r.identity == d.identity
    ensures r.(userName := d.userName, identity := d.identity) == d
    ensures !c.cacheUsername && !c.cacheIdentity ==> r == d
  {
    var user := if c.cacheUsername then c.username else d.userName;
    var id := if c.cacheIdentity then c.identity else d.identity;
    d.(userName := user, identity := id)
  }

  /** Accelerating a block a second time under the same settings changes nothing. */
  lemma AcceleratedIdempotent(d: LoggingEventData, c: AccelerationConfig)
    ensures Accelerated(Accelerated(d, c), c) == Accelerated(d, c)
  {
  }

  /**
   * The two flags act independently: the identity field does not depend on
   * the user-name flag or value, and the user-name field does not depend on
   * the identity flag or value.
   */
  lemma FlagsIndependent(d: LoggingEventData, c: AccelerationConfig, c': AccelerationConfig)
    ensures c'.cacheIdentity == c.cacheIdentity && c'.identity == c.identity ==>
              Accelerated(d, c').identity == Accelerated(d, c).identity
    ensures c'.cacheUsername == c.cacheUsername && c'.username == c.username ==>
              Accelerated(d, c').userName == Accelerated(d, c).userName
  {
  }

  /** Every block of a batch accelerated on its own, in order. */
  function AccelerateEach(ds: seq<LoggingEventData>, c: AccelerationConfig): (r: seq<LoggingEventData>)
    ensures |r| == |ds|
    ensures forall k :: 0 <= k < |ds| ==> r[k] == Accelerated(ds[k], c)
  {
    if ds == [] then [] else [Accelerated(ds[0], c)] + AccelerateEach(ds[1..], c)
  }

  /**
   * Records do not interact within a batch: accelerating `xs + ys` as one
   * batch gives the same blocks as accelerating `xs` and then `ys`.
   */
  lemma AccelerateEachSplits(xs: seq<LoggingEventData>, ys: seq<LoggingEventData>, c: AccelerationConfig)
    ensures AccelerateEach(xs + ys, c) == AccelerateEach(xs, c) + AccelerateEach(ys, c)
  {
  }

  /** Accelerating a whole batch twice under the same settings changes nothing. */
  lemma AccelerateEachIdempotent(ds: seq<LoggingEventData>, c: AccelerationConfig)
    ensures AccelerateEach(AccelerateEach(ds, c), c) == AccelerateEach(ds, c)
  {
  }

  /**
   * What the base forwarder received: one record or a whole batch, with the
   * data block(s) as they were at the moment of forwarding.
   */
  datatype Delivery =
    | Single(event: LoggingEvent, seen: LoggingEventData)
    | Batch(events: seq<LoggingEvent>, seenAll: seq<LoggingEventData>)

  class AccelerateForwardingAppender {
    var cacheUsername: bool
    var cacheIdentity: bool
    var username: Option<string>
    var identity: Option<string>

    /** Everything handed to the base forwarder, oldest first. */
    ghost var forwarded: seq<Delivery>

    /** The current settings. */
    function Config(): AccelerationConfig
      reads this
    {
      AccelerationConfig(cacheUsername, cacheIdentity, username, identity)
    }

    /**
     * `osUserName` is `WindowsIdentity.GetCurrent().Name` and
     * `principalIdentity` is `Thread.CurrentPrincipal.Identity`, both read
     * from the environment at construction.
     */
    constructor (osUserName: Option<string>, principalIdentity: Option<PrincipalIdentity>)
      ensures cacheUsername && cacheIdentity
      ensures username == Some(DefaultUsername(osUserName))
      ensures identity == Some(DefaultIdentity(principalIdentity))
      ensures forwarded == []
    {
      cacheUsername := true;
      cacheIdentity := true;
      username := Some(DefaultUsername(osUserName));
      identity := Some(DefaultIdentity(principalIdentity));
      forwarded := [];
    }

    /** Overwrites the event's identity fields whose flags are on; the settings stay as they are. */
    method Accelerate(loggingEvent: LoggingEvent)
      modifies loggingEvent
      ensures loggingEvent.data == Accelerated(old(loggingEvent.data), Config())
    {
      if cacheUsername || cacheIdentity {
        var data := loggingEvent.data;
        if cacheUsername {
          data := data.(userName := username);
        }
        if cacheIdentity {
          data := data.(identity := identity);
        }
        loggingEvent.data := data;
      }
    }

    /** Accelerates one event, then forwards that same event. */
    method Append(loggingEvent: LoggingEvent)
      modifies loggingEvent, this`forwarded
      ensures loggingEvent.data == Accelerated(old(loggingEvent.data), Config())
      ensures forwarded == old(forwarded) + [Single(loggingEvent, loggingEvent.data)]
    {
      Accelerate(loggingEvent);
      forwarded := forwarded + [Single(loggingEvent, loggingEvent.data)];
    }

    /**
     * Accelerates every event of the batch in index order, then forwards the
     * batch. An event that occurs twice in the array ends up accelerated once.
     */
    method AppendBatch(loggingEvents: array<LoggingEvent>)
      modifies set k | 0 <= k < loggingEvents.Length :: loggingEvents[k], this`forwarded
      ensures forall k :: 0 <= k < loggingEvents.Length ==>
                loggingEvents[k].data == Accelerated(old(loggingEvents[k].data), Config())
      ensures forwarded == old(forwarded) + [Batch(loggingEvents[..], AccelerateEach(old(Snapshot(loggingEvents[..])), Config()))]
    {
      for i := 0 to loggingEvents.Length
        invariant forall k :: 0 <= k < i ==>
                    loggingEvents[k].data == Accelerated(old(loggingEvents[k].data), Config())
        invariant forall k :: i <= k < loggingEvents.Length ==>
                    loggingEvents[k].data == old(loggingEvents[k].data) ||
                    loggingEvents[k].data == Accelerated(old(loggingEvents[k].data), Config())
        invariant forwarded == old(forwarded)
      {
        AcceleratedIdempotent(old(loggingEvents[i].data), Config());
        Accelerate(loggingEvents[i]);
      }
      assert Snapshot(loggingEvents[..]) == AccelerateEach(old(Snapshot(loggingEvents[..])), Config());
      forwarded := forwarded + [Batch(loggingEvents[..], Snapshot(loggingEvents[..]))];
    }
  }
}
