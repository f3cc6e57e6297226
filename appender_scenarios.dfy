/**
 * Client code that follows the setup of the repository's unit tests of the
 * appender; the assertions come from the appender's contracts alone.
 */
module BoostScenarios {
  import opened Wrappers
  import opened Logging
  import opened Boost

  /** A new appender caches both names, taken from the environment. */
  method ConstructorScenario(osUserName: string, principalName: string)
  {
    var appender := new AccelerateForwardingAppender(Some(osUserName), Some(PrincipalIdentity(Some(principalName))));
    assert appender.cacheUsername && appender.cacheIdentity;
    assert appender.username == Some(osUserName);
    assert appender.identity == Some(principalName);

    appender.username := Some("USER_NAME");
    appender.identity := Some("IDENTITY_NAME");
    assert appender.username == Some("USER_NAME") && appender.identity == Some("IDENTITY_NAME");

    var bare := new AccelerateForwardingAppender(None, Some(PrincipalIdentity(None)));
    assert bare.username == Some("") && bare.identity == Some("");
  }

  /**
   * With the flag on, a fresh event carries the configured user name after
   * `Append`; with it off, its user name stays null, to be resolved later.
   */
  method UserNameScenario(accelerate: bool, osUserName: Option<string>, principalIdentity: Option<PrincipalIdentity>)
  {
    var appender := new AccelerateForwardingAppender(osUserName, principalIdentity);
    appender.cacheUsername := accelerate;
    appender.username := Some("TEST_USER_NAME");
    var loggingEvent := new LoggingEvent(EmptyEventData);
    appender.Append(loggingEvent);
    if accelerate {
      assert loggingEvent.data.userName == Some("TEST_USER_NAME");
    } else {
      assert loggingEvent.data.userName == None;
    }
    assert loggingEvent.data.identity == appender.identity;
    assert appender.forwarded == [Single(loggingEvent, loggingEvent.data)];
  }

  /** The same for the identity flag, which acts on its own. */
  method IdentityScenario(accelerate: bool, osUserName: Option<string>, principalIdentity: Option<PrincipalIdentity>)
  {
    var appender := new AccelerateForwardingAppender(osUserName, principalIdentity);
    appender.cacheIdentity := accelerate;
    appender.identity := Some("TEST_IDENTITY");
    var loggingEvent := new LoggingEvent(EmptyEventData);
    appender.Append(loggingEvent);
    if accelerate {
      assert loggingEvent.data.identity == Some("TEST_IDENTITY");
    } else {
      assert loggingEvent.data.identity == None;
    }
    assert loggingEvent.data.userName == appender.username;
  }

  /** A batch that holds the same event twice, next to another event. */
  method BatchScenario(stamp: int)
  {
    var appender := new AccelerateForwardingAppender(Some("alice"), None);
    var first := new LoggingEvent(EmptyEventData.(timeStamp := stamp, message := Some("TEST")));
    var second := new LoggingEvent(EmptyEventData.(userName := Some("bob")));
    var batch := new LoggingEvent[3](_ => first);
    batch[1] := second;
    appender.AppendBatch(batch);
    assert batch[0] == first && batch[1] == second;
    assert first.data == EmptyEventData.(timeStamp := stamp, message := Some("TEST"), userName := Some("alice"), identity := Some(""));
    assert second.data.userName == Some("alice");
  }

  /** The batch is forwarded once, as it is, after every event was accelerated. */
  method BatchForwardingScenario()
  {
    var appender := new AccelerateForwardingAppender(Some("alice"), None);
    var first := new LoggingEvent(EmptyEventData);
    var second := new LoggingEvent(EmptyEventData.(userName := Some("bob")));
    var batch := new LoggingEvent[3](_ => first);
    batch[1] := second;
    appender.AppendBatch(batch);
    assert |appender.forwarded| == 1 && appender.forwarded[0].events == batch[..];
    assert appender.forwarded[0].seenAll[1].userName == Some("alice");
  }
}
