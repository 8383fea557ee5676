/**
  The publisher: a thin sender that holds the session it was given and puts
  short `{type, data: {name, message: {key: value}}}` messages on one of four
  fixed topics.
 */
module Publisher {
  import opened JsonValue
  import opened Envelope

  /** `Publisher.topic`: the only topics this publisher knows. */
  const PublisherAliases: map<string, string> := map[
    "frontend" := "com.opentrons.frontend",
    "driver" := "com.opentrons.driver",
    "labware" := "com.opentrons.labware",
    "bootloader" := "com.opentrons.bootloader"]

  /** `self.topic.get(topic)` for a hashable topic: the alias's URL, or None
      for any other value. */
  function TopicUrl(topic: Json): (url: Option<string>)
    ensures url.Some? <==> topic.JStr? && topic.s in PublisherAliases
    ensures url.Some? ==> url.value == PublisherAliases[topic.s]
  {
    if topic.JStr? && topic.s in PublisherAliases then Some(PublisherAliases[topic.s]) else None
  }

  /** The router session messages are published through. */
  class AppSession {
    /** What was published: the topic URL (None when the alias was unknown)
        and the message. */
    var published: seq<(Option<string>, Json)>

    constructor ()
      ensures published == []
    {
      published := [];
    }
  }

  /** The object handed to the publisher as its caller. */
  class Caller {
    /** `_myAppSession`. */
    var appSession: AppSession?

    constructor (session: AppSession?)
      ensures appSession == session
    {
      appSession := session;
    }
  }

  class Publisher {
    var caller: Caller?

    /** `__init__`: the caller is set only from a non-None session. */
    constructor (session: Caller?)
      ensures caller == session
    {
      caller := null;
      if session != null {
        caller := session;
      }
    }

    /** `set_caller`: replaces the caller, None included. */
    method SetCaller(session: Caller?)
      modifies this
      ensures caller == session
    {
      caller := session;
    }

    /** `publish(topic, type_, name, message, param)`. `sessionFails` says
        whether the session's own `publish` raises. Any failure inside the
        `try` ends in the handler's `sys.exc_info()`, which raises NameError
        since `sys` is not imported. */
    method Publish(topic: Json, kind: Option<string>, name: Json, message: Option<string>, param: Param,
                   sessionFails: bool) returns (out: Outcome)
      modifies if caller != null && caller.appSession != null then {caller.appSession} else {}
      // The guards: nothing happens without a caller, a topic, a type and a session.
      ensures caller == null || topic == JNull || kind.None? || caller.appSession == null ==> out == Normal
      ensures caller != null && caller.appSession != null && (topic == JNull || kind.None?) ==>
        caller.appSession.published == old(caller.appSession.published)
      // Past the guards: one message, or NameError and none.
      ensures caller != null && caller.appSession != null && topic != JNull && kind.Some? ==>
        var value := Dump(NormParam(param));
        var sent := Hashable(topic) && value.Some? && !sessionFails;
        && out == (if sent then Normal else Raised(NameError))
        && caller.appSession.published == old(caller.appSession.published)
             + (if sent then [(TopicUrl(topic), Brief(kind.value, DefaultIfNull(name, NoName), if message.Some? then message.value else "", value.value))] else [])
    {
      out := Normal;
      if caller != null && topic != JNull && kind.Some? {
        var name' := DefaultIfNull(name, NoName);
        var key := if message.None? then "" else message.value;
        var param' := NormParam(param);
        if caller.appSession != null {
          if !Hashable(topic) {
            return Raised(NameError);
          }
          var url := TopicUrl(topic);
          var value := Dump(param');
          if value.None? || sessionFails {
            return Raised(NameError);
          }
          caller.appSession.published := caller.appSession.published + [(url, Brief(kind.value, name', key, value.value))];
        }
      }
    }
  }

  /** What the publisher sends never goes to a client's private topic: the
      URL is one of the four fixed ones or None. */
  lemma OnlyFixedTopics(topic: Json)
    ensures TopicUrl(topic).Some? ==>
      TopicUrl(topic).value in {"com.opentrons.frontend", "com.opentrons.driver", "com.opentrons.labware", "com.opentrons.bootloader"}
  {
  }
}
