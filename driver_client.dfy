/**
  The driver client: the registry of clients that have shaken hands, the
  registry of driver objects, and the handlers that answer bus messages by
  calling drivers and publishing replies.

  What the outside world sees is kept in two logs: `bus`, every message put
  on the bus, and `deviceLog`, every call made on a driver object. A driver
  object's answer to the one call a handler may make is a parameter
  (`reply`), as are the identity of the client (`id`) and the fresh ids
  `uuid4` would produce.
 */
module DriverClient {
  import opened JsonValue
  import opened OrderedMap
  import opened Envelope
  import opened Routing

  class DriverClient {
    /** `self.id`. */
    const id: string
    /** `self.clients`. */
    var clients: Clients
    /** `self.driver_dict`. */
    var drivers: Drivers
    /** Whether `session_factory._myAppSession` holds a session. */
    var live: bool
    /** The messages published on the bus, in order. */
    var bus: seq<Delivery>
    /** The calls made on driver objects, in order. */
    var deviceLog: seq<DeviceCall>

    ghost predicate Valid()
      reads this
    {
      ClientsValid(clients) && DriversValid(drivers)
    }

    /** What one `publish` call adds to the bus in the current state. */
    function Sent(r: Reply): (out: seq<Delivery>)
      reads this
      ensures |out| <= 1
    {
      match Deliver(live, clients, id, r)
      case Some(d) => [d]
      case None => []
    }

    constructor (selfId: string)
      ensures Valid()
      ensures id == selfId && clients == Empty() && drivers == Empty()
      ensures !live && bus == [] && deviceLog == []
    {
      id := selfId;
      clients := Empty();
      drivers := Empty();
      live := false;
      bus := [];
      deviceLog := [];
    }

    /** The session joined the router and became the factory's session. */
    method SessionJoined()
      modifies this`live
      ensures live
    {
      live := true;
    }

    /** The factory's session left the router. */
    method SessionLeft()
      modifies this`live
      ensures !live
    {
      live := false;
    }

    /** `publish`: at most one message, exactly the one `Deliver` builds. */
    method Publish(r: Reply)
      modifies this`bus
      ensures bus == old(bus) + Sent(r)
    {
      var d := Deliver(live, clients, id, r);
      if d.Some? {
        bus := bus + [d.value];
      }
    }

    // -------------------------------------------------------------------
    // Handshake

    /** The effect of `gen_client_id` from registry `c0` and bus `bus0`: a
        refusal leaves the registry as it was and tells the frontend `fail`;
        otherwise the fresh id is registered and the frontend is told
        `success`. */
    ghost predicate Generated(c0: Clients, bus0: seq<Delivery>, freshId: string)
      requires ClientsValid(c0)
      reads this
    {
      match Admit(c0, freshId)
      case None => clients == c0 && bus == bus0 + Sent(FailReply)
      case Some(c1) => clients == c1 && bus == bus0 + Sent(SuccessReply(freshId))
    }

    /** `gen_client_id`, with `freshId` standing for `str(uuid.uuid4())`. */
    method GenClientId(freshId: string) returns (retId: string)
      requires Valid()
      modifies this`clients, this`bus
      ensures Valid()
      ensures Generated(old(clients), old(bus), freshId)
      ensures retId == if Size(old(clients)) > MaxClients then "" else freshId
    {
      retId := "";
      var admitted := Admit(clients, freshId);
      if admitted.None? {
        Publish(FailReply);
      } else {
        clients := admitted.value;
        Publish(SuccessReply(freshId));
        retId := freshId;
      }
    }

    /** `publish_client_ids`: the registered ids, sent to the client itself
        when it is registered and to the frontend otherwise. */
    method PublishClientIds(who: Json, sid: Json) returns (ids: Result<seq<string>>)
      modifies this`bus
      ensures KnownClient(clients, who).Err? ==> ids == Err(TypeError) && bus == old(bus)
      ensures KnownClient(clients, who).Ok? ==>
        ids == Ok(Keys(clients)) && bus == old(bus) + Sent(IdsReply(clients, who, sid, KnownClient(clients, who).value))
    {
      var known := KnownClient(clients, who);
      if known.Err? {
        return Err(known.error);
      }
      Publish(IdsReply(clients, who, sid, known.value));
      ids := Ok(Keys(clients));
    }

    /** A registered client shakes hands again (`'extend'` and `'shake'` in
        its message): the registry stays as it was; `extend` answers
        `already_connected` and `shake` the id list, both on the client's own
        topic. */
    ghost predicate Reacquainted(c0: Clients, bus0: seq<Delivery>, cid: string, fs: seq<(string, Json)>)
      reads this
    {
      && clients == c0
      && match Probe(fs)
         case Err(_) => bus == bus0
         case Ok((extend, shake)) =>
           bus == bus0 + (if extend then Sent(ExtendReply(cid)) else [])
                       + (if shake then Sent(IdsReply(c0, JStr(cid), JStr(cid), true)) else [])
    }

    /** An unregistered client shakes hands: refused when the registry is
        over capacity, a fresh id for an empty `from`, and otherwise exactly
        the claimed id is registered, which has to be a string. */
    ghost predicate Welcomed(c0: Clients, bus0: seq<Delivery>, cid: Json, freshId: string)
      requires ClientsValid(c0)
      reads this
    {
      if Size(c0) > MaxClients then clients == c0 && bus == bus0 + Sent(FailReply)
      else if cid == JStr("") then Generated(c0, bus0, freshId)
      else if !cid.JStr? then clients == c0 && bus == bus0
      else clients == Put(c0, cid.s, ClientTopic(cid.s)) && bus == bus0 + Sent(SuccessReply(cid.s))
    }

    /** The effect of `handshake` from registry `c0` and bus `bus0`. Every
        branch that gets past the tests of the message ends with the
        `get_ids` test, which raises NameError after the branch's changes. */
    ghost predicate Shaken(c0: Clients, bus0: seq<Delivery>, parsed: Option<Json>, rawHasFrom: bool,
                           freshId: string, out: Outcome)
      requires ClientsValid(c0)
      reads this
    {
      var ending := if AsksIds(parsed) then Raised(NameError) else Normal;
      match ReadGreeting(parsed, rawHasFrom)
      case Unparsable => clients == c0 && bus == bus0 && out == Raised(ValueError)
      case NoFromKey => clients == c0 && bus == bus0 && out == Raised(KeyError)
      case Anonymous => Generated(c0, bus0, freshId) && out == ending
      case Claims(cid) =>
        match KnownClient(c0, cid)
        case Err(e) => clients == c0 && bus == bus0 && out == Raised(e)
        case Ok(known) =>
          if known then
            && Reacquainted(c0, bus0, cid.s, parsed.value.fields)
            && out == (if Probe(parsed.value.fields).Err? then Raised(Probe(parsed.value.fields).error) else ending)
          else
            && Welcomed(c0, bus0, cid, freshId)
            && out == (if Size(c0) <= MaxClients && cid != JStr("") && !cid.JStr? then Raised(TypeError) else ending)
    }

    /** The registered-client branch of `handshake`. */
    method Reacquaint(cid: string, fs: seq<(string, Json)>) returns (out: Outcome)
      requires Valid() && cid in clients.entries
      modifies this`bus
      ensures Reacquainted(old(clients), old(bus), cid, fs)
      ensures out == if Probe(fs).Err? then Raised(Probe(fs).error) else Normal
    {
      var probe := Probe(fs);
      if probe.Err? {
        return Raised(probe.error);
      }
      if probe.value.0 {
        Publish(ExtendReply(cid));
      }
      if probe.value.1 {
        var ids := PublishClientIds(JStr(cid), JStr(cid));
      }
      out := Normal;
    }

    /** The unregistered-client branch of `handshake`. */
    method Welcome(cid: Json, freshId: string) returns (out: Outcome)
      requires Valid()
      modifies this`clients, this`bus
      ensures Valid()
      ensures Welcomed(old(clients), old(bus), cid, freshId)
      ensures out == if Size(old(clients)) <= MaxClients && cid != JStr("") && !cid.JStr? then Raised(TypeError) else Normal
    {
      out := Normal;
      if Size(clients) > MaxClients {
        Publish(FailReply);
      } else if cid == JStr("") {
        var retId := GenClientId(freshId);
      } else if !cid.JStr? {
        out := Raised(TypeError);
      } else {
        clients := Put(clients, cid.s, ClientTopic(cid.s));
        Publish(SuccessReply(cid.s));
      }
    }

    /** `handshake`. `parsed` is what `json.loads` made of the text (None when
        it raised), `rawHasFrom` whether the text contains `from`, and
        `freshId` the id `gen_client_id` would draw. */
    method Handshake(parsed: Option<Json>, rawHasFrom: bool, freshId: string) returns (out: Outcome)
      requires Valid()
      modifies this`clients, this`bus
      ensures Valid()
      ensures Shaken(old(clients), old(bus), parsed, rawHasFrom, freshId, out)
    {
      match ReadGreeting(parsed, rawHasFrom) {
        case Unparsable =>
          return Raised(ValueError);
        case NoFromKey =>
          return Raised(KeyError);
        case Anonymous =>
          var retId := GenClientId(freshId);
        case Claims(clientId) =>
          var known := KnownClient(clients, clientId);
          if known.Err? {
            return Raised(known.error);
          }
          var branch;
          if known.value {
            branch := Reacquaint(clientId.s, parsed.value.fields);
          } else {
            branch := Welcome(clientId, freshId);
          }
          if branch.Raised? {
            return branch;
          }
      }
      out := if AsksIds(parsed) then Raised(NameError) else Normal;
    }

    // -------------------------------------------------------------------
    // Meta-command handlers

    /** Nothing changed. */
    ghost predicate Unmoved(drivers0: Drivers, bus0: seq<Delivery>, log0: seq<DeviceCall>)
      reads this
    {
      drivers == drivers0 && bus == bus0 && deviceLog == log0
    }

    /** A handler that forwards to a driver: the calls `Forward` makes are
        logged, and the driver's result is published as `answer` (when the
        handler publishes at all) only when no exception left the handler. */
    ghost predicate Relayed(log0: seq<DeviceCall>, bus0: seq<Delivery>, h: Result<Handle>, op: Result<DeviceOp>,
                            reply: DriverReply, answer: Option<Answering>, out: Outcome)
      reads this
    {
      var (calls, result) := Forward(h, op, reply);
      && deviceLog == log0 + calls
      && out == (if result.Ok? then Normal else Raised(result.error))
      && bus == bus0 + (if result.Ok? && answer.Some? then Sent(Answer(answer.value, result.value)) else [])
    }

    /** The effect of `add_driver(from_, session_id, name, h)`: one key set,
        the others untouched, and the new name list published. */
    ghost predicate DriverAdded(drivers0: Drivers, bus0: seq<Delivery>, log0: seq<DeviceCall>,
                                from: Json, sid: Json, name: Json, h: Handle, out: Outcome)
      requires DriversValid(drivers0)
      reads this
    {
      && deviceLog == log0
      && if Hashable(name) then
           && drivers == Put(drivers0, name, h) && out == Normal
           && bus == bus0 + Sent(Answer(Answering(from, sid, "driver", name, "drivers", true), Value(DriverNameList(drivers))))
         else
           drivers == drivers0 && bus == bus0 && out == Raised(TypeError)
    }

    /** The effect of `remove_driver`: one key deleted and the remaining
        names published; KeyError when it is absent. */
    ghost predicate DriverRemoved(drivers0: Drivers, bus0: seq<Delivery>, log0: seq<DeviceCall>,
                                  from: Json, sid: Json, name: Json, out: Outcome)
      requires DriversValid(drivers0)
      reads this
    {
      && deviceLog == log0
      && if !Hashable(name) then
           drivers == drivers0 && bus == bus0 && out == Raised(TypeError)
         else if name !in drivers0.entries then
           drivers == drivers0 && bus == bus0 && out == Raised(KeyError)
         else
           && drivers == Remove(drivers0, name) && out == Normal
           && bus == bus0 + Sent(Answer(Answering(from, sid, "driver", name, "drivers", true), Value(DriverNameList(drivers))))
    }

    /** What each entry of `self.meta_dict` does when called with
        `(from_, session_id, name, param)`. */
    ghost predicate MetaRan(drivers0: Drivers, bus0: seq<Delivery>, log0: seq<DeviceCall>, cmd: MetaCommand,
                            from: Json, sid: Json, name: Json, params: Json, reply: DriverReply, out: Outcome)
      requires DriversValid(drivers0)
      reads this
    {
      match cmd
      case CmdDrivers =>
        && drivers == drivers0 && deviceLog == log0 && out == Normal
        && bus == bus0 + Sent(Answer(Answering(from, sid, "driver", name, "drivers", true), Value(DriverNameList(drivers0))))
      case CmdAddDriver =>
        DriverAdded(drivers0, bus0, log0, from, sid, name, Inert(params), out)
      case CmdRemoveDriver =>
        DriverRemoved(drivers0, bus0, log0, from, sid, name, out)
      case CmdCallbacks =>
        drivers == drivers0 && Relayed(log0, bus0, HandleAt(drivers0, name, true), Ok(OpCallbacks), reply,
                                       Some(Answering(from, sid, "driver", name, "callbacks", true)), out)
      case CmdMetaCallbacks =>
        drivers == drivers0 && Relayed(log0, bus0, HandleAt(drivers0, name, true), Ok(OpMetaCallbacks), reply,
                                       Some(Answering(from, sid, "driver", name, "meta_callbacks", false)), out)
      case CmdSetMetaCallback =>
        drivers == drivers0 && Relayed(log0, bus0, HandleAt(drivers0, name, false), SetMetaCallbackOp(params), reply,
                                       Some(Answering(from, sid, "driver", name, "meta_callback", false)), out)
      case CmdAddCallback =>
        drivers == drivers0 && Relayed(log0, bus0, HandleAt(drivers0, name, false), AddCallbackOp(params), reply,
                                       Some(Answering(from, sid, "driver", name, "callbacks", true)), out)
      case CmdRemoveCallback =>
        drivers == drivers0 && Relayed(log0, bus0, HandleAt(drivers0, name, true), Ok(OpRemoveCallback(params)), reply,
                                       Some(Answering(from, sid, "driver", name, "callbacks", true)), out)
      case CmdFlow =>
        drivers == drivers0 && Relayed(log0, bus0, HandleAt(drivers0, name, false), Ok(OpFlow), reply,
                                       Some(Answering(from, sid, "driver", name, "flow", true)), out)
      case CmdClearQueue =>
        drivers == drivers0 && Relayed(log0, bus0, HandleAt(drivers0, name, false), Ok(OpClearQueue), reply,
                                       Some(Answering(from, sid, "labware", name, "clear_queue", true)), out)
      case CmdConnect =>
        drivers == drivers0 && Relayed(log0, bus0, HandleAt(drivers0, name, true), Ok(OpConnect(from, sid)), reply,
                                       None, out)
      case CmdDisconnect =>
        Unmoved(drivers0, bus0, log0) && out == Raised(TypeError)
      case CmdCommands =>
        drivers == drivers0 && Relayed(log0, bus0, HandleAt(drivers0, name, false), Ok(OpCommands), reply,
                                       Some(Answering(from, sid, "driver", name, "commands", false)), out)
      case CmdConfigs =>
        drivers == drivers0 && Relayed(log0, bus0, HandleAt(drivers0, name, false), Ok(OpConfigs), reply,
                                       Some(Answering(from, sid, "driver", name, "configs", true)), out)
      case CmdSetConfig =>
        drivers == drivers0 && Relayed(log0, bus0, HandleAt(drivers0, name, false), SetConfigOp(params), reply,
                                       Some(Answering(from, sid, "driver", name, "configs", true)), out)
      case CmdMetaCommands =>
        && drivers == drivers0 && deviceLog == log0 && out == Normal
        && bus == bus0 + Sent(Answer(Answering(from, sid, "driver", name, "meta_commands", true), Value(MetaCommandList())))
    }

    /** `self.meta_dict[command](from_, session_id, name, param)`: KeyError
        for a command the table does not hold. */
    ghost predicate Ran(drivers0: Drivers, bus0: seq<Delivery>, log0: seq<DeviceCall>, command: string,
                        from: Json, sid: Json, name: Json, params: Json, reply: DriverReply, out: Outcome)
      requires DriversValid(drivers0)
      reads this
    {
      match LookupMeta(command)
      case None => Unmoved(drivers0, bus0, log0) && out == Raised(KeyError)
      case Some(cmd) => MetaRan(drivers0, bus0, log0, cmd, from, sid, name, params, reply, out)
    }

    /** Shared by the forwarding handlers: look up, call, and answer. */
    method Relay(h: Result<Handle>, op: Result<DeviceOp>, reply: DriverReply, answer: Option<Answering>) returns (out: Outcome)
      modifies this`bus, this`deviceLog
      ensures Relayed(old(deviceLog), old(bus), h, op, reply, answer, out)
    {
      var (calls, result) := Forward(h, op, reply);
      deviceLog := deviceLog + calls;
      if result.Err? {
        return Raised(result.error);
      }
      if answer.Some? {
        Publish(Answer(answer.value, result.value));
      }
      out := Normal;
    }

    /** `drivers`: publishes the driver names in insertion order. */
    method Drivers(from: Json, sid: Json, name: Json, params: Json) returns (out: Outcome)
      requires Valid()
      modifies this`bus
      ensures Valid()
      ensures MetaRan(old(drivers), old(bus), old(deviceLog), CmdDrivers, from, sid, name, params, Raises, out)
    {
      Publish(Answer(Answering(from, sid, "driver", name, "drivers", true), Value(DriverNameList(drivers))));
      out := Normal;
    }

    /** `add_driver`: `h` is the object stored under `name`. */
    method AddDriver(from: Json, sid: Json, name: Json, h: Handle) returns (out: Outcome)
      requires Valid()
      modifies this`drivers, this`bus
      ensures Valid()
      ensures DriverAdded(old(drivers), old(bus), old(deviceLog), from, sid, name, h, out)
    {
      if !Hashable(name) {
        return Raised(TypeError);
      }
      drivers := Put(drivers, name, h);
      Publish(Answer(Answering(from, sid, "driver", name, "drivers", true), Value(DriverNameList(drivers))));
      out := Normal;
    }

    /** `remove_driver`. */
    method RemoveDriver(from: Json, sid: Json, name: Json, params: Json) returns (out: Outcome)
      requires Valid()
      modifies this`drivers, this`bus
      ensures Valid()
      ensures DriverRemoved(old(drivers), old(bus), old(deviceLog), from, sid, name, out)
    {
      if !Hashable(name) {
        return Raised(TypeError);
      }
      if name !in drivers.entries {
        return Raised(KeyError);
      }
      drivers := Remove(drivers, name);
      Publish(Answer(Answering(from, sid, "driver", name, "drivers", true), Value(DriverNameList(drivers))));
      out := Normal;
    }

    /** `callbacks`. */
    method Callbacks(from: Json, sid: Json, name: Json, params: Json, reply: DriverReply) returns (out: Outcome)
      requires Valid()
      modifies this`bus, this`deviceLog
      ensures Valid()
      ensures MetaRan(old(drivers), old(bus), old(deviceLog), CmdCallbacks, from, sid, name, params, reply, out)
    {
      out := Relay(HandleAt(drivers, name, true), Ok(OpCallbacks), reply,
                   Some(Answering(from, sid, "driver", name, "callbacks", true)));
    }

    /** `meta_callbacks`. */
    method MetaCallbacks(from: Json, sid: Json, name: Json, params: Json, reply: DriverReply) returns (out: Outcome)
      requires Valid()
      modifies this`bus, this`deviceLog
      ensures Valid()
      ensures MetaRan(old(drivers), old(bus), old(deviceLog), CmdMetaCallbacks, from, sid, name, params, reply, out)
    {
      out := Relay(HandleAt(drivers, name, true), Ok(OpMetaCallbacks), reply,
                   Some(Answering(from, sid, "driver", name, "meta_callbacks", false)));
    }

    /** `set_meta_callback`. */
    method SetMetaCallback(from: Json, sid: Json, name: Json, params: Json, reply: DriverReply) returns (out: Outcome)
      requires Valid()
      modifies this`bus, this`deviceLog
      ensures Valid()
      ensures MetaRan(old(drivers), old(bus), old(deviceLog), CmdSetMetaCallback, from, sid, name, params, reply, out)
    {
      out := Relay(HandleAt(drivers, name, false), SetMetaCallbackOp(params), reply,
                   Some(Answering(from, sid, "driver", name, "meta_callback", false)));
    }

    /** `add_callback`. */
    method AddCallback(from: Json, sid: Json, name: Json, params: Json, reply: DriverReply) returns (out: Outcome)
      requires Valid()
      modifies this`bus, this`deviceLog
      ensures Valid()
      ensures MetaRan(old(drivers), old(bus), old(deviceLog), CmdAddCallback, from, sid, name, params, reply, out)
    {
      out := Relay(HandleAt(drivers, name, false), AddCallbackOp(params), reply,
                   Some(Answering(from, sid, "driver", name, "callbacks", true)));
    }

    /** `remove_callback`. */
    method RemoveCallback(from: Json, sid: Json, name: Json, params: Json, reply: DriverReply) returns (out: Outcome)
      requires Valid()
      modifies this`bus, this`deviceLog
      ensures Valid()
      ensures MetaRan(old(drivers), old(bus), old(deviceLog), CmdRemoveCallback, from, sid, name, params, reply, out)
    {
      out := Relay(HandleAt(drivers, name, true), Ok(OpRemoveCallback(params)), reply,
                   Some(Answering(from, sid, "driver", name, "callbacks", true)));
    }

    /** `flow`. */
    method Flow(from: Json, sid: Json, name: Json, params: Json, reply: DriverReply) returns (out: Outcome)
      requires Valid()
      modifies this`bus, this`deviceLog
      ensures Valid()
      ensures MetaRan(old(drivers), old(bus), old(deviceLog), CmdFlow, from, sid, name, params, reply, out)
    {
      out := Relay(HandleAt(drivers, name, false), Ok(OpFlow), reply,
                   Some(Answering(from, sid, "driver", name, "flow", true)));
    }

    /** `clear_queue`: the answer is a `labware` message. */
    method ClearQueue(from: Json, sid: Json, name: Json, params: Json, reply: DriverReply) returns (out: Outcome)
      requires Valid()
      modifies this`bus, this`deviceLog
      ensures Valid()
      ensures MetaRan(old(drivers), old(bus), old(deviceLog), CmdClearQueue, from, sid, name, params, reply, out)
    {
      out := Relay(HandleAt(drivers, name, false), Ok(OpClearQueue), reply,
                   Some(Answering(from, sid, "labware", name, "clear_queue", true)));
    }

    /** `driver_connect`: connects the driver and publishes nothing itself. */
    method DriverConnect(from: Json, sid: Json, name: Json, params: Json, reply: DriverReply) returns (out: Outcome)
      requires Valid()
      modifies this`bus, this`deviceLog
      ensures Valid()
      ensures MetaRan(old(drivers), old(bus), old(deviceLog), CmdConnect, from, sid, name, params, reply, out)
    {
      out := Relay(HandleAt(drivers, name, true), Ok(OpConnect(from, sid)), reply, None);
    }

    /** The `disconnect` entry of the table: it passes four arguments to
        `driver_disconnect`, which takes three, so the call raises TypeError
        before the handler runs. */
    method DriverDisconnect(from: Json, sid: Json, name: Json, params: Json) returns (out: Outcome)
      requires Valid()
      ensures MetaRan(drivers, bus, deviceLog, CmdDisconnect, from, sid, name, params, Raises, out)
    {
      out := Raised(TypeError);
    }

    /** `commands`. */
    method Commands(from: Json, sid: Json, name: Json, params: Json, reply: DriverReply) returns (out: Outcome)
      requires Valid()
      modifies this`bus, this`deviceLog
      ensures Valid()
      ensures MetaRan(old(drivers), old(bus), old(deviceLog), CmdCommands, from, sid, name, params, reply, out)
    {
      out := Relay(HandleAt(drivers, name, false), Ok(OpCommands), reply,
                   Some(Answering(from, sid, "driver", name, "commands", false)));
    }

    /** `configs`. */
    method Configs(from: Json, sid: Json, name: Json, params: Json, reply: DriverReply) returns (out: Outcome)
      requires Valid()
      modifies this`bus, this`deviceLog
      ensures Valid()
      ensures MetaRan(old(drivers), old(bus), old(deviceLog), CmdConfigs, from, sid, name, params, reply, out)
    {
      out := Relay(HandleAt(drivers, name, false), Ok(OpConfigs), reply,
                   Some(Answering(from, sid, "driver", name, "configs", true)));
    }

    /** `set_config`: with a dict parameter it raises before reaching the
        driver; otherwise it reads and publishes the configuration. */
    method SetConfig(from: Json, sid: Json, name: Json, params: Json, reply: DriverReply) returns (out: Outcome)
      requires Valid()
      modifies this`bus, this`deviceLog
      ensures Valid()
      ensures MetaRan(old(drivers), old(bus), old(deviceLog), CmdSetConfig, from, sid, name, params, reply, out)
    {
      out := Relay(HandleAt(drivers, name, false), SetConfigOp(params), reply,
                   Some(Answering(from, sid, "driver", name, "configs", true)));
    }

    /** `meta_commands`: publishes the keys of the meta table. */
    method MetaCommands(from: Json, sid: Json, name: Json, params: Json) returns (out: Outcome)
      requires Valid()
      modifies this`bus
      ensures Valid()
      ensures MetaRan(old(drivers), old(bus), old(deviceLog), CmdMetaCommands, from, sid, name, params, Raises, out)
    {
      Publish(Answer(Answering(from, sid, "driver", name, "meta_commands", true), Value(MetaCommandList())));
      out := Normal;
    }

    /** The handlers that keep to the registries and the meta table. */
    method InvokeLocal(cmd: MetaCommand, from: Json, sid: Json, name: Json, params: Json, reply: DriverReply) returns (out: Outcome)
      requires Valid()
      requires cmd in {CmdDrivers, CmdAddDriver, CmdRemoveDriver, CmdDisconnect, CmdMetaCommands}
      modifies this`drivers, this`bus
      ensures Valid()
      ensures MetaRan(old(drivers), old(bus), old(deviceLog), cmd, from, sid, name, params, reply, out)
    {
      match cmd
      case CmdDrivers => out := Drivers(from, sid, name, params);
      case CmdAddDriver => out := AddDriver(from, sid, name, Inert(params));
      case CmdRemoveDriver => out := RemoveDriver(from, sid, name, params);
      case CmdDisconnect => out := DriverDisconnect(from, sid, name, params);
      case CmdMetaCommands => out := MetaCommands(from, sid, name, params);
    }

    /** The handlers that forward to a driver object. */
    method InvokeDriver(cmd: MetaCommand, from: Json, sid: Json, name: Json, params: Json, reply: DriverReply) returns (out: Outcome)
      requires Valid()
      requires cmd !in {CmdDrivers, CmdAddDriver, CmdRemoveDriver, CmdDisconnect, CmdMetaCommands}
      modifies this`bus, this`deviceLog
      ensures Valid()
      ensures MetaRan(old(drivers), old(bus), old(deviceLog), cmd, from, sid, name, params, reply, out)
    {
      match cmd
      case CmdCallbacks => out := Callbacks(from, sid, name, params, reply);
      case CmdMetaCallbacks => out := MetaCallbacks(from, sid, name, params, reply);
      case CmdSetMetaCallback => out := SetMetaCallback(from, sid, name, params, reply);
      case CmdAddCallback => out := AddCallback(from, sid, name, params, reply);
      case CmdRemoveCallback => out := RemoveCallback(from, sid, name, params, reply);
      case CmdFlow => out := Flow(from, sid, name, params, reply);
      case CmdClearQueue => out := ClearQueue(from, sid, name, params, reply);
      case CmdConnect => out := DriverConnect(from, sid, name, params, reply);
      case CmdCommands => out := Commands(from, sid, name, params, reply);
      case CmdConfigs => out := Configs(from, sid, name, params, reply);
      case CmdSetConfig => out := SetConfig(from, sid, name, params, reply);
    }

    /** `self.meta_dict[command](from_, session_id, name, param)`. */
    method RunMeta(command: string, from: Json, sid: Json, name: Json, params: Json, reply: DriverReply) returns (out: Outcome)
      requires Valid()
      modifies this`drivers, this`bus, this`deviceLog
      ensures Valid()
      ensures Ran(old(drivers), old(bus), old(deviceLog), command, from, sid, name, params, reply, out)
    {
      match LookupMeta(command) {
        case None =>
          out := Raised(KeyError);
        case Some(cmd) =>
          if cmd in {CmdDrivers, CmdAddDriver, CmdRemoveDriver, CmdDisconnect, CmdMetaCommands} {
            out := InvokeLocal(cmd, from, sid, name, params, reply);
          } else {
            out := InvokeDriver(cmd, from, sid, name, params, reply);
          }
      }
    }

    // -------------------------------------------------------------------
    // Incoming messages

    /** The effect of `meta_command`: errors in reading the message are
        raised with nothing changed; otherwise the handler runs with the
        command, name and parameters `ParseMeta` reads, and whatever it
        raises is caught. The error reply built then carries the exception
        being handled and never reaches the bus. */
    ghost predicate MetaHandled(drivers0: Drivers, bus0: seq<Delivery>, log0: seq<DeviceCall>,
                                from: Json, sid: Json, data: Json, reply: DriverReply, out: Outcome)
      requires DriversValid(drivers0)
      reads this
    {
      match ParseMeta(drivers0, data)
      case Err(e) => Unmoved(drivers0, bus0, log0) && out == Raised(e)
      case Ok(None) => Unmoved(drivers0, bus0, log0) && out == Normal
      case Ok(Some(q)) =>
        out == Normal && exists handled: Outcome :: Ran(drivers0, bus0, log0, q.command, from, sid, q.name, q.params, reply, handled)
    }

    /** `meta_command`. */
    method MetaCommand(from: Json, sid: Json, data: Json, reply: DriverReply) returns (out: Outcome)
      requires Valid()
      modifies this`drivers, this`bus, this`deviceLog
      ensures Valid()
      ensures MetaHandled(old(drivers), old(bus), old(deviceLog), from, sid, data, reply, out)
    {
      var request := ParseMeta(drivers, data);
      if request.Err? {
        return Raised(request.error);
      }
      if request.value.None? {
        return Normal;
      }
      var q := request.value.value;
      var handled := RunMeta(q.command, from, sid, q.name, q.params, reply);
      ghost var handledBus := bus;
      if handled.Raised? {
        Publish(Answer(Answering(from, sid, "driver", q.errorName, "error", true), ExcInfo(true)));
      }
      assert bus == handledBus;
      assert Ran(old(drivers), old(bus), old(deviceLog), q.command, from, sid, q.name, q.params, reply, handled);
      out := Normal;
    }

    /** The effect of `send_command`. A registered driver gets exactly one
        `send_command` call with the message; if that raises, the error reply
        (built while the exception is handled, so never delivered) is
        followed by a TypeError from the log line. An unregistered name gets
        an error reply named `None` carrying `(None, None, None)`, which is
        delivered, and the same TypeError. */
    ghost predicate CommandSent(bus0: seq<Delivery>, log0: seq<DeviceCall>,
                                from: Json, sid: Json, data: Json, reply: DriverReply, out: Outcome)
      reads this
    {
      if !data.JObj? then bus == bus0 && deviceLog == log0 && out == Normal
      else if !HasKey(data.fields, "name") || !HasKey(data.fields, "message") then
        bus == bus0 && deviceLog == log0 && out == Raised(KeyError)
      else
        var name, value := Lookup(data.fields, "name"), Lookup(data.fields, "message");
        if !Hashable(name) then bus == bus0 && deviceLog == log0 && out == Raised(TypeError)
        else if name in drivers.entries then
          var (calls, result) := Forward(Ok(drivers.entries[name]), Ok(OpSendCommand(from, sid, value)), reply);
          && deviceLog == log0 + calls
          && out == (if result.Ok? then Normal else Raised(TypeError))
          && bus == bus0 + (if result.Ok? then [] else Sent(Answer(Answering(from, sid, "driver", name, "error", true), ExcInfo(true))))
        else
          && deviceLog == log0 && out == Raised(TypeError)
          && bus == bus0 + Sent(Answer(Answering(from, sid, "driver", JStr("None"), "error", true), ExcInfo(false)))
    }

    /** `send_command`. */
    method SendCommand(from: Json, sid: Json, data: Json, reply: DriverReply) returns (out: Outcome)
      requires Valid()
      modifies this`bus, this`deviceLog
      ensures Valid()
      ensures CommandSent(old(bus), old(deviceLog), from, sid, data, reply, out)
    {
      if !data.JObj? {
        return Normal;
      }
      if !HasKey(data.fields, "name") || !HasKey(data.fields, "message") {
        return Raised(KeyError);
      }
      var name, value := Lookup(data.fields, "name"), Lookup(data.fields, "message");
      if !Hashable(name) {
        return Raised(TypeError);
      }
      if name in drivers.entries {
        var handled := Relay(Ok(drivers.entries[name]), Ok(OpSendCommand(from, sid, value)), reply, None);
        if handled.Raised? {
          Publish(Answer(Answering(from, sid, "driver", name, "error", true), ExcInfo(true)));
          return Raised(TypeError);
        }
        out := Normal;
      } else {
        Publish(Answer(Answering(from, sid, "driver", JStr("None"), "error", true), ExcInfo(false)));
        out := Raised(TypeError);
      }
    }

    /** `dispatch_message`, given what the text decodes to (None when it is
        not JSON). Every exception is swallowed. */
    method DispatchMessage(decoded: Option<Json>, reply: DriverReply)
      requires Valid()
      modifies this`drivers, this`bus, this`deviceLog
      ensures Valid()
      ensures Classify(clients, decoded).Dropped? ==> Unmoved(old(drivers), old(bus), old(deviceLog))
      ensures Classify(clients, decoded).ToCommand? ==>
        var route := Classify(clients, decoded);
        drivers == old(drivers)
        && exists out: Outcome :: CommandSent(old(bus), old(deviceLog), route.from, route.sessionId, route.data, reply, out)
      ensures Classify(clients, decoded).ToMeta? ==>
        var route := Classify(clients, decoded);
        exists out: Outcome :: MetaHandled(old(drivers), old(bus), old(deviceLog), route.from, route.sessionId, route.data, reply, out)
    {
      match Classify(clients, decoded) {
        case Dropped =>
        case ToCommand(from, sid, data) =>
          var out := SendCommand(from, sid, data, reply);
        case ToMeta(from, sid, data) =>
          var out := MetaCommand(from, sid, data, reply);
      }
    }
  }
}
