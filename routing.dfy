/**
  The decisions `DriverClient` takes without changing anything: which bus
  topic a reply goes to and what envelope it carries, whether a new client
  fits in the registry, whether a decoded message is routed or dropped, how
  a meta message names its command, and what a call forwarded to a driver
  object does.
 */
module Routing {
  import opened JsonValue
  import opened OrderedMap
  import opened Envelope

  /** Every topic of the system lives under this prefix. */
  const Namespace: string := "com.opentrons."

  /** `self.max_clients`. */
  const MaxClients: nat := 4

  /** `self.topic`: the fixed aliases a reply can be addressed to. */
  const Aliases: map<string, string> := map[
    "frontend" := "com.opentrons.frontend",
    "driver" := "com.opentrons.driver",
    "labware" := "com.opentrons.labware",
    "bootstrapper" := "com.opentrons.bootstrapper"]

  /** The private topic of a client: `'com.opentrons.' + id`. */
  function ClientTopic(id: string): (t: string)
    ensures Namespace <= t && t[|Namespace|..] == id
  {
    Namespace + id
  }

  // ---------------------------------------------------------------------
  // The client registry

  /** `self.clients`: client id to its private topic, in registration order. */
  type Clients = OMap<string, string>

  /** What registration keeps true of the registry: every client maps to its
      own topic, and the capacity test (`len > max_clients`) lets it grow to
      one more than `MaxClients` and no further. */
  ghost predicate ClientsValid(c: Clients) {
    && Valid(c)
    && Size(c) <= MaxClients + 1
    && forall k :: k in c.entries ==> c.entries[k] == ClientTopic(k)
  }

  /** The capacity test and insertion of `gen_client_id` and of a handshake
      from an unknown id: refused only when the registry already holds more
      than `MaxClients` clients, otherwise the id is added with its topic. */
  function Admit(c: Clients, id: string): (r: Option<Clients>)
    requires ClientsValid(c)
    ensures r.None? <==> Size(c) > MaxClients
    ensures r.Some? ==> ClientsValid(r.value)
    ensures r.Some? ==> id in r.value.entries && r.value.entries[id] == ClientTopic(id)
    ensures r.Some? ==> forall k :: k != id ==> (k in r.value.entries <==> k in c.entries)
    ensures r.Some? && id !in c.entries ==> Size(r.value) == Size(c) + 1 && Keys(r.value) == Keys(c) + [id]
  {
    if Size(c) > MaxClients then None
    else Some(Put(c, id, ClientTopic(id)))
  }

  /** A run of registrations, one per id, in order: which were accepted, and
      the registry afterwards. */
  function Enrol(c: Clients, ids: seq<string>): (r: (seq<bool>, Clients))
    requires ClientsValid(c)
    ensures |r.0| == |ids| && ClientsValid(r.1)
    decreases |ids|
  {
    if ids == [] then ([], c)
    else
      match Admit(c, ids[0])
      case None =>
        var rest := Enrol(c, ids[1..]);
        ([false] + rest.0, rest.1)
      case Some(c') =>
        var rest := Enrol(c', ids[1..]);
        ([true] + rest.0, rest.1)
  }

  /** Registering fresh ids one after another accepts the i-th exactly when
      the registry then holds at most `MaxClients` clients, so it fills up to
      `MaxClients + 1` and then refuses every further id. */
  lemma {:induction false} EnrolAcceptsUpToBound(c: Clients, ids: seq<string>)
    requires ClientsValid(c)
    requires Distinct(ids)
    requires forall i :: 0 <= i < |ids| ==> ids[i] !in c.entries
    ensures forall i :: 0 <= i < |ids| ==> Enrol(c, ids).0[i] == (Size(c) + i <= MaxClients)
    ensures Size(Enrol(c, ids).1) == if Size(c) + |ids| <= MaxClients + 1 then Size(c) + |ids| else MaxClients + 1
    decreases |ids|
  {
    if ids != [] {
      var tail := ids[1..];
      assert Distinct(tail) by {
        forall i, j | 0 <= i < j < |tail| ensures tail[i] != tail[j] {
          assert tail[i] == ids[i + 1] && tail[j] == ids[j + 1];
        }
      }
      match Admit(c, ids[0])
      case None =>
        EnrolAcceptsUpToBound(c, tail);
        forall i | 0 <= i < |ids| ensures Enrol(c, ids).0[i] == (Size(c) + i <= MaxClients) {
          if i > 0 { assert Enrol(c, ids).0[i] == Enrol(c, tail).0[i - 1]; }
        }
      case Some(c') =>
        assert Size(c') == Size(c) + 1;
        forall i | 0 <= i < |tail| ensures tail[i] !in c'.entries {
          assert tail[i] == ids[i + 1] && ids[i + 1] != ids[0];
        }
        EnrolAcceptsUpToBound(c', tail);
        forall i | 0 <= i < |ids| ensures Enrol(c, ids).0[i] == (Size(c) + i <= MaxClients) {
          if i > 0 { assert Enrol(c, ids).0[i] == Enrol(c', tail).0[i - 1]; }
        }
    }
  }

  /** From an empty registry, five clients are accepted and the sixth is
      refused: the capacity test is off by one against `max_clients = 4`. */
  lemma SixthClientRefused(ids: seq<string>)
    requires |ids| == 6 && Distinct(ids)
    ensures Enrol(Empty(), ids).0 == [true, true, true, true, true, false]
    ensures Size(Enrol(Empty(), ids).1) == MaxClients + 1
  {
    EnrolAcceptsUpToBound(Empty(), ids);
  }

  /** `client_check`: `id_ in self.clients`, which raises TypeError when the
      id cannot be a dict key. */
  function KnownClient(c: Clients, id: Json): (r: Result<bool>)
    ensures r.Err? <==> !Hashable(id)
    ensures r.Err? ==> r.error == TypeError
    ensures r.Ok? ==> (r.value <==> id.JStr? && id.s in c.entries)
  {
    if !Hashable(id) then Err(TypeError)
    else Ok(id.JStr? && id.s in c.entries)
  }

  /** `list(self.clients)` as it is published. */
  function ClientIdList(c: Clients): (j: Json)
    ensures j.JArr? && |j.items| == Size(c)
    ensures forall i :: 0 <= i < Size(c) ==> j.items[i] == JStr(Keys(c)[i])
  {
    JArr(seq(|c.order|, i requires 0 <= i < |c.order| => JStr(c.order[i])))
  }

  // ---------------------------------------------------------------------
  // The driver registry

  /** A value stored in `self.driver_dict`: a driver object, known here only
      by an identity, or any other value (a meta `add_driver` stores its JSON
      parameter), on which every driver method is missing. */
  datatype Handle = Device(dev: nat) | Inert(value: Json)

  /** `self.driver_dict`: driver name (any hashable value, None included) to
      its handle, in insertion order. */
  type Drivers = OMap<Json, Handle>

  ghost predicate DriversValid(d: Drivers) {
    Valid(d) && forall n :: n in d.entries ==> Hashable(n)
  }

  /** `list(self.driver_dict)` as it is published. */
  function DriverNameList(d: Drivers): (j: Json)
    ensures j.JArr? && j.items == Keys(d)
  {
    JArr(d.order)
  }

  /** The handle a handler looks up: `driver_dict[name]` (`subscript`) raises
      KeyError for a missing name, `driver_dict.get(name)` yields None and the
      method lookup on it raises AttributeError. */
  function HandleAt(d: Drivers, name: Json, subscript: bool): (r: Result<Handle>)
    ensures r.Ok? <==> Hashable(name) && name in d.entries
    ensures r.Ok? ==> r.value == d.entries[name]
    ensures r.Err? && Hashable(name) ==> r.error == (if subscript then KeyError else AttributeError)
    ensures !Hashable(name) ==> r == Err(TypeError)
  {
    if !Hashable(name) then Err(TypeError)
    else if name in d.entries then Ok(d.entries[name])
    else Err(if subscript then KeyError else AttributeError)
  }

  /** A call on a driver object and its arguments. */
  datatype DeviceOp =
    | OpSendCommand(from: Json, sessionId: Json, payload: Json)
    | OpCallbacks
    | OpMetaCallbacks
    | OpSetMetaCallback(event: string, callback: Json)
    | OpAddCallback(handler: string, messages: Json)
    | OpRemoveCallback(callbackName: Json)
    | OpFlow
    | OpClearQueue
    | OpConnect(from: Json, sessionId: Json)
    | OpCommands
    | OpConfigs

  /** One call made on the driver object `dev`. */
  datatype DeviceCall = DeviceCall(dev: nat, op: DeviceOp)

  /** How a driver object answers a call: it returns a value or raises. */
  datatype DriverReply = Returns(result: Param) | Raises

  /** The arguments of `set_meta_callback`: a dict parameter names one
      meta-callback (`list(param)[0]`, IndexError when empty), anything else
      asks for the current ones. */
  function SetMetaCallbackOp(params: Json): (r: Result<DeviceOp>)
    ensures !params.JObj? ==> r == Ok(OpMetaCallbacks)
    ensures params.JObj? && |params.fields| == 0 ==> r == Err(IndexError)
    ensures params.JObj? && |params.fields| > 0 ==> (r.Ok? && r.value.OpSetMetaCallback?
      && r.value.event == params.fields[0].0 && r.value.callback == Lookup(params.fields, r.value.event))
  {
    if !params.JObj? then Ok(OpMetaCallbacks)
    else match FirstEntry(params)
      case Ok((event, callback)) => Ok(OpSetMetaCallback(event, callback))
      case Err(e) => Err(e)
  }

  /** The arguments of `add_callback`: the first key of the parameter and
      its value; the parameter has to be a non-empty dict. */
  function AddCallbackOp(params: Json): (r: Result<DeviceOp>)
    ensures r.Ok? <==> params.JObj? && |params.fields| > 0
    ensures r.Ok? ==> (r.value.OpAddCallback? && r.value.handler == params.fields[0].0
      && r.value.messages == Lookup(params.fields, r.value.handler))
  {
    match FirstEntry(params)
    case Ok((callback, messages)) => Ok(OpAddCallback(callback, messages))
    case Err(e) => Err(e)
  }

  /** The call `set_config` makes: with a dict parameter it never reaches
      the driver, since `list(param)[0]` fails on an empty dict and
      `list(param.values)` on the method object otherwise; any other
      parameter reads the configuration. */
  function SetConfigOp(params: Json): (r: Result<DeviceOp>)
    ensures r.Ok? <==> !params.JObj?
    ensures r.Ok? ==> r.value == OpConfigs
    ensures r.Err? ==> r.error == (if |params.fields| == 0 then IndexError else TypeError)
  {
    if !params.JObj? then Ok(OpConfigs)
    else if |params.fields| == 0 then Err(IndexError)
    else Err(TypeError)
  }

  /** One handler call forwarded to a driver: the handle lookup, the method
      lookup and the argument evaluation, in that order, and at most one call
      on the device. Returns the calls made and what the handler goes on
      with: the driver's result, or the exception that left it. */
  function Forward(h: Result<Handle>, op: Result<DeviceOp>, reply: DriverReply): (r: (seq<DeviceCall>, Result<Param>))
    ensures |r.0| <= 1
    ensures |r.0| == 1 <==> h.Ok? && h.value.Device? && op.Ok?
    ensures |r.0| == 1 ==> r.0[0] == DeviceCall(h.value.dev, op.value)
    ensures r.1.Ok? <==> |r.0| == 1 && reply.Returns?
    ensures r.1.Ok? ==> r.1.value == reply.result
    ensures h.Err? ==> r.1 == Err(h.error)
    ensures h.Ok? && h.value.Inert? ==> r.1 == Err(AttributeError)
    ensures |r.0| == 1 && reply.Raises? ==> r.1 == Err(DriverError)
    ensures h.Ok? && h.value.Device? && op.Err? ==> r == ([], Err(op.error))
  {
    match h
    case Err(e) => ([], Err(e))
    case Ok(Inert(_)) => ([], Err(AttributeError))
    case Ok(Device(dev)) =>
      match op
      case Err(e) => ([], Err(e))
      case Ok(o) => ([DeviceCall(dev, o)], if reply.Returns? then Ok(reply.result) else Err(DriverError))
  }

  // ---------------------------------------------------------------------
  // Replies and their delivery

  /** One call of `DriverClient.publish(topic, to, session_id, type_, name,
      message, param)`. */
  datatype Reply = Reply(topic: Json, to: Json, sessionId: Json, kind: string, name: Json, key: string, param: Param)

  /** One message on the bus: the topic URL and the envelope. */
  datatype Delivery = Delivery(topic: string, env: Envelope)

  /** The topic URL `publish` sends to: an alias first, then a client's own
      topic; TypeError when the topic cannot be a dict key, or when it names
      a client and `to` is not a string (`'com.opentrons.'+to` is evaluated
      before sending); nothing when it is neither. */
  function Resolve(c: Clients, topic: Json, to: Json): (r: Result<Option<string>>)
    ensures !Hashable(topic) ==> r == Err(TypeError)
    ensures topic.JStr? && topic.s in Aliases ==> r == Ok(Some(Aliases[topic.s]))
    ensures topic.JStr? && topic.s !in Aliases && topic.s in c.entries ==>
      r == (if to.JStr? then Ok(Some(c.entries[topic.s])) else Err(TypeError))
    ensures Hashable(topic) && !(topic.JStr? && (topic.s in Aliases || topic.s in c.entries)) ==> r == Ok(None)
  {
    if !Hashable(topic) then Err(TypeError)
    else if topic.JStr? && topic.s in Aliases then Ok(Some(Aliases[topic.s]))
    else if topic.JStr? && topic.s in c.entries then
      if to.JStr? then Ok(Some(c.entries[topic.s])) else Err(TypeError)
    else Ok(None)
  }

  /** What one `publish` call puts on the bus, if anything. `live` says
      whether the session factory holds an application session; `selfId`
      is `self.id`. Any failure while resolving or serialising is swallowed
      and sends nothing. */
  function Deliver(live: bool, c: Clients, selfId: string, r: Reply): (d: Option<Delivery>)
    // what is sent
    ensures d.Some? ==> live && r.topic.JStr?
    ensures d.Some? && r.topic.s in Aliases ==> d.value.topic == Aliases[r.topic.s]
    ensures d.Some? && r.topic.s !in Aliases ==> r.topic.s in c.entries && d.value.topic == c.entries[r.topic.s]
    ensures d.Some? ==> var e := d.value.env;
      && e.kind == r.kind && e.to == r.to && e.sender == selfId && e.sessionId == r.sessionId
      && e.name == DefaultIfNull(r.name, NoName) && e.key == r.key && Dump(NormParam(r.param)) == Some(e.value)
    // when nothing is sent
    ensures !live ==> d.None?
    ensures r.param == ExcInfo(true) || r.param.Unserialisable? ==> d.None?
    ensures !(r.topic.JStr? && (r.topic.s in Aliases || r.topic.s in c.entries)) ==> d.None?
    // and when something is
    ensures live && r.topic.JStr? && r.topic.s in Aliases && Dump(NormParam(r.param)).Some? ==> d.Some?
    ensures live && r.topic.JStr? && r.topic.s in c.entries && r.to.JStr? && Dump(NormParam(r.param)).Some? ==> d.Some?
  {
    if r.topic == JNull || !live then None
    else
      match (Resolve(c, r.topic, r.to), Dump(NormParam(r.param)))
      case (Ok(Some(t)), Some(v)) =>
        Some(Delivery(t, Envelope(r.kind, r.to, selfId, r.sessionId, DefaultIfNull(r.name, NoName), r.key, v)))
      case _ => None
  }

  /** Who a handler answers and with what: `from_`, the session, the
      envelope type, the driver name and the reply key. With `fallback` the
      handler sends to `frontend` when `from_` is empty
      (`if from_ == "": publish('frontend', ...)`); without it the answer
      always goes to `from_`. */
  datatype Answering = Answering(from: Json, sessionId: Json, kind: string, name: Json, key: string, fallback: bool)

  function Answer(a: Answering, p: Param): (r: Reply)
    ensures r.to == a.from && r.sessionId == a.sessionId && r.kind == a.kind && r.name == a.name && r.key == a.key && r.param == p
    ensures r.topic == JStr("frontend") <==> (a.fallback && a.from == JStr("")) || a.from == JStr("frontend")
    ensures r.topic != a.from ==> a.fallback && a.from == JStr("")
  {
    Reply(if a.fallback && a.from == JStr("") then JStr("frontend") else a.from, a.from, a.sessionId, a.kind, a.name, a.key, p)
  }

  /** An error reply built inside an `except` block carries `sys.exc_info()`
      of the exception being handled, which `json.dumps` cannot serialise:
      no such reply ever reaches the bus. */
  lemma ErrorReplyNeverDelivered(live: bool, c: Clients, selfId: string, a: Answering)
    ensures Deliver(live, c, selfId, Answer(a, ExcInfo(true))).None?
  {
  }

  /** Outside an `except` block `sys.exc_info()` is `(None, None, None)`:
      such an error reply is delivered whenever its topic resolves, carrying
      `[null, null, null]`. */
  lemma BareErrorReplyDelivered(c: Clients, selfId: string, a: Answering)
    requires a.from.JStr? && ((a.fallback && a.from.s == "") || a.from.s in Aliases)
    ensures var d := Deliver(true, c, selfId, Answer(a, ExcInfo(false)));
      d.Some? && d.value.env.value == JArr([JNull, JNull, JNull])
  {
  }

  // Handshake replies.

  /** `result: fail` to the frontend, with empty `to` and session. */
  const FailReply: Reply :=
    Reply(JStr("frontend"), JStr(""), JStr(""), "handshake", JStr("driver"), "result", Value(JStr("fail")))

  /** `result: success` to the frontend, with `to` and session the new id. */
  function SuccessReply(id: string): Reply {
    Reply(JStr("frontend"), JStr(id), JStr(id), "handshake", JStr("driver"), "result", Value(JStr("success")))
  }

  /** `result: already_connected` on the client's own topic. */
  function ExtendReply(id: string): Reply {
    Reply(JStr(id), JStr(id), JStr(id), "handshake", JStr("driver"), "result", Value(JStr("already_connected")))
  }

  /** `publish_client_ids`: the id list to the client itself when `known`,
      to the frontend otherwise. */
  function IdsReply(c: Clients, id: Json, sessionId: Json, known: bool): Reply {
    if known then Reply(id, id, sessionId, "handshake", JStr("driver"), "ids", Value(ClientIdList(c)))
    else Reply(JStr("frontend"), JStr(""), sessionId, "handshake", JStr("driver"), "ids", Value(ClientIdList(c)))
  }

  /** Handshake replies to the frontend reach `com.opentrons.frontend`;
      replies to a registered client reach its own topic. */
  lemma HandshakeRepliesReachTheirTopic(c: Clients, selfId: string, id: string)
    requires ClientsValid(c)
    ensures Deliver(true, c, selfId, FailReply) == Some(Delivery("com.opentrons.frontend",
      Envelope("handshake", JStr(""), selfId, JStr(""), JStr("driver"), "result", JStr("fail"))))
    ensures Deliver(true, c, selfId, SuccessReply(id)) == Some(Delivery("com.opentrons.frontend",
      Envelope("handshake", JStr(id), selfId, JStr(id), JStr("driver"), "result", JStr("success"))))
    ensures id in c.entries && id !in Aliases ==> Deliver(true, c, selfId, ExtendReply(id)) == Some(Delivery(ClientTopic(id),
      Envelope("handshake", JStr(id), selfId, JStr(id), JStr("driver"), "result", JStr("already_connected"))))
  {
  }

  // ---------------------------------------------------------------------
  // The handshake

  /** How `handshake` reads its argument before looking at the registry.
      `rawHasFrom` is `'from' in data` on the raw text, which is not the
      same as the parsed dict having a `from` key. */
  datatype Greeting =
    | Unparsable       // json.loads raised
    | Anonymous        // not a dict, or no "from" in the text: gen_client_id
    | NoFromKey        // "from" in the text, not a key of the dict
    | Claims(id: Json) // data_dict['from']

  function ReadGreeting(parsed: Option<Json>, rawHasFrom: bool): (g: Greeting)
    ensures g.Unparsable? <==> parsed.None?
    ensures g.Anonymous? <==> parsed.Some? && (!parsed.value.JObj? || !rawHasFrom)
    ensures g.NoFromKey? <==> parsed.Some? && parsed.value.JObj? && rawHasFrom && !HasKey(parsed.value.fields, "from")
    ensures g.Claims? ==> (parsed.Some? && parsed.value.JObj? && HasKey(parsed.value.fields, "from")
      && g.id == Lookup(parsed.value.fields, "from"))
  {
    match parsed
    case None => Unparsable
    case Some(JObj(fs)) =>
      if !rawHasFrom then Anonymous
      else if !HasKey(fs, "from") then NoFromKey
      else Claims(Lookup(fs, "from"))
    case Some(_) => Anonymous
  }

  /** `'get_ids' in data_dict`: the branch that calls an unqualified
      `publish_client_ids` and so raises NameError. */
  predicate AsksIds(parsed: Option<Json>) {
    parsed.Some? && parsed.value.JObj? && HasKey(parsed.value.fields, "get_ids")
  }

  /** The tests a known client's handshake makes: `'message' in
      data_dict['data']`, then `'extend'` and `'shake'` in
      `data_dict['data']['message']`. Each `in` is a key test on a dict, a
      substring test on a string and an element test on a list; on anything
      else, and when `data_dict['data']` is not a dict, it raises TypeError,
      before anything is published. */
  function Probe(fs: seq<(string, Json)>): (r: Result<(bool, bool)>)
    ensures r.Err? ==> r.error == TypeError
    ensures !HasKey(fs, "data") ==> r == Ok((false, false))
    ensures r.Ok? && (r.value.0 || r.value.1) ==>
      HasKey(fs, "data") && Lookup(fs, "data").JObj? && HasKey(Lookup(fs, "data").fields, "message")
    ensures HasKey(fs, "data") && Lookup(fs, "data").JObj? && HasKey(Lookup(fs, "data").fields, "message") ==>
      var m := Lookup(Lookup(fs, "data").fields, "message");
      (r.Ok? <==> Contains(m, "extend").Ok?)
      && (r.Ok? ==> r.value == (Contains(m, "extend").value, Contains(m, "shake").value))
    ensures HasKey(fs, "data") && Lookup(fs, "data").JObj? && !HasKey(Lookup(fs, "data").fields, "message") ==>
      r == Ok((false, false))
    ensures HasKey(fs, "data") && !Lookup(fs, "data").JObj? ==>
      r == (if Contains(Lookup(fs, "data"), "message") == Ok(false) then Ok((false, false)) else Err(TypeError))
  {
    if !HasKey(fs, "data") then Ok((false, false))
    else
      var data := Lookup(fs, "data");
      match Contains(data, "message")
      case Err(e) => Err(e)
      case Ok(false) => Ok((false, false))
      case Ok(true) =>
        match Subscript(data, "message")
        case Err(e) => Err(e)
        case Ok(m) =>
          match Contains(m, "extend")
          case Err(e) => Err(e)
          case Ok(extend) => Ok((extend, Contains(m, "shake").value))
  }

  // ---------------------------------------------------------------------
  // Dispatch of incoming messages

  /** Where `dispatch_message` sends a decoded message. */
  datatype Route =
    | Dropped
    | ToCommand(from: Json, sessionId: Json, data: Json)
    | ToMeta(from: Json, sessionId: Json, data: Json)

  /** The routing of `dispatch_message`: a dict with `type`, `from`,
      `sessionID` and `data`, whose type is `command` or `meta`, and whose
      sender passes `client_check` without raising. Both outcomes of
      `client_check` route the same way. `decoded` is None when the text is
      not JSON or not a dict. */
  function Classify(c: Clients, decoded: Option<Json>): (r: Route)
    ensures !r.Dropped? ==> (
      && decoded.Some? && decoded.value.JObj?
      && var fs := decoded.value.fields;
      && HasKey(fs, "type") && HasKey(fs, "from") && HasKey(fs, "sessionID") && HasKey(fs, "data")
      && Lookup(fs, "type") == JStr(if r.ToCommand? then "command" else "meta")
      && r.from == Lookup(fs, "from") && r.sessionId == Lookup(fs, "sessionID") && r.data == Lookup(fs, "data")
      && Hashable(r.from))
    ensures r.Dropped? ==> (
      || decoded.None? || !decoded.value.JObj?
      || var fs := decoded.value.fields;
      || !(HasKey(fs, "type") && HasKey(fs, "from") && HasKey(fs, "sessionID") && HasKey(fs, "data"))
      || (Lookup(fs, "type") != JStr("command") && Lookup(fs, "type") != JStr("meta"))
      || !Hashable(Lookup(fs, "from")))
  {
    if decoded.None? || !decoded.value.JObj? then Dropped
    else
      var fs := decoded.value.fields;
      if !(HasKey(fs, "type") && HasKey(fs, "from") && HasKey(fs, "sessionID") && HasKey(fs, "data")) then Dropped
      else
        var kind, from, sid, data := Lookup(fs, "type"), Lookup(fs, "from"), Lookup(fs, "sessionID"), Lookup(fs, "data");
        if kind != JStr("command") && kind != JStr("meta") then Dropped
        else
          match KnownClient(c, from)
          case Err(_) => Dropped
          case Ok(known) =>
            if known then
              (if kind == JStr("command") then ToCommand(from, sid, data) else ToMeta(from, sid, data))
            else
              (if kind == JStr("command") then ToCommand(from, sid, data) else ToMeta(from, sid, data))
  }

  /** Whether the sender is a registered client never changes the routing. */
  lemma ClassifyIgnoresRegistry(c1: Clients, c2: Clients, decoded: Option<Json>)
    ensures Classify(c1, decoded) == Classify(c2, decoded)
  {
  }

  /** A reply the driver client publishes on its own `driver` topic comes
      back to `dispatch_message` and is dropped there: its type is neither
      `command` nor `meta`. */
  lemma EchoedReplyDropped(c: Clients, e: Envelope)
    requires e.kind != "command" && e.kind != "meta"
    ensures Classify(c, Some(Encode(e))) == Dropped
  {
  }

  /** Whatever `publish` puts on the bus reads back as the envelope it was
      built from, with the reply's type and key and this client as sender;
      a handler's answer that comes back to this client (type `driver`,
      `labware` or `handshake`) is dropped, whatever the registry holds. */
  lemma DeliveredReplyReadsBack(live: bool, c: Clients, later: Clients, selfId: string, r: Reply)
    requires Deliver(live, c, selfId, r).Some?
    ensures var e := Deliver(live, c, selfId, r).value.env;
      && Decode(Encode(e)) == Some(e)
      && e.kind == r.kind && e.sender == selfId && e.key == r.key && e.to == r.to
    ensures r.kind != "command" && r.kind != "meta" ==>
      Classify(later, Some(Encode(Deliver(live, c, selfId, r).value.env))) == Dropped
  {
    var e := Deliver(live, c, selfId, r).value.env;
    RoundTrip(e);
    if r.kind != "command" && r.kind != "meta" {
      EchoedReplyDropped(later, e);
    }
  }

  // ---------------------------------------------------------------------
  // Meta commands

  /** The handlers of `self.meta_dict`. */
  datatype MetaCommand =
    | CmdDrivers | CmdAddDriver | CmdRemoveDriver | CmdCallbacks | CmdMetaCallbacks
    | CmdSetMetaCallback | CmdAddCallback | CmdRemoveCallback | CmdFlow | CmdClearQueue
    | CmdConnect | CmdDisconnect | CmdCommands | CmdConfigs | CmdSetConfig | CmdMetaCommands

  /** The entries of `self.meta_dict`, in table order. */
  const MetaTable: seq<MetaCommand> := [
    CmdDrivers, CmdAddDriver, CmdRemoveDriver, CmdCallbacks, CmdMetaCallbacks,
    CmdSetMetaCallback, CmdAddCallback, CmdRemoveCallback, CmdFlow, CmdClearQueue,
    CmdConnect, CmdDisconnect, CmdCommands, CmdConfigs, CmdSetConfig, CmdMetaCommands]

  /** The key each handler is filed under in `self.meta_dict`. */
  function MetaKey(cmd: MetaCommand): (k: string)
  {
    match cmd
    case CmdDrivers => "drivers"
    case CmdAddDriver => "add_driver"
    case CmdRemoveDriver => "remove_driver"
    case CmdCallbacks => "callbacks"
    case CmdMetaCallbacks => "meta_callbacks"
    case CmdSetMetaCallback => "set_meta_callback"
    case CmdAddCallback => "add_callback"
    case CmdRemoveCallback => "remove_callback"
    case CmdFlow => "flow"
    case CmdClearQueue => "clear_queue"
    case CmdConnect => "connect"
    case CmdDisconnect => "disconnect"
    case CmdCommands => "commands"
    case CmdConfigs => "configs"
    case CmdSetConfig => "set_config"
    case CmdMetaCommands => "meta_commands"
  }

  /** The keys of `self.meta_dict`, in order; `meta_commands` publishes them. */
  const MetaCommandNames: seq<string> := [
    "drivers", "add_driver", "remove_driver", "callbacks", "meta_callbacks",
    "set_meta_callback", "add_callback", "remove_callback", "flow", "clear_queue",
    "connect", "disconnect", "commands", "configs", "set_config", "meta_commands"]

  /** The names are the table's keys, position by position. */
  lemma NamesAreKeys()
    ensures |MetaCommandNames| == |MetaTable|
    ensures forall i :: 0 <= i < |MetaTable| ==> MetaCommandNames[i] == MetaKey(MetaTable[i])
  {
  }

  /** The first entry of `t` filed under `command`. */
  function FindMeta(t: seq<MetaCommand>, command: string): (r: Option<MetaCommand>)
    ensures r.Some? ==> r.value in t && MetaKey(r.value) == command
    ensures r.None? ==> forall c :: c in t ==> MetaKey(c) != command
    decreases |t|
  {
    if t == [] then None
    else if MetaKey(t[0]) == command then Some(t[0])
    else FindMeta(t[1..], command)
  }

  /** `self.meta_dict[command]`: the handler filed under `command`, None where
      the lookup raises KeyError. */
  function LookupMeta(command: string): (r: Option<MetaCommand>)
    ensures r.Some? <==> command in MetaCommandNames
    ensures r.Some? ==> MetaKey(r.value) == command
  {
    var r := FindMeta(MetaTable, command);
    NamesAreKeys();
    assert r.Some? <==> command in MetaCommandNames by {
      if r.Some? {
        var i :| 0 <= i < |MetaTable| && MetaTable[i] == r.value;
        assert MetaCommandNames[i] == command;
      }
    }
    r
  }

  /** `list(self.meta_dict)` as it is published. */
  function MetaCommandList(): (j: Json)
    ensures j.JArr? && |j.items| == 16
    ensures forall i :: 0 <= i < 16 ==> j.items[i] == JStr(MetaCommandNames[i])
  {
    JArr(seq(|MetaCommandNames|, i requires 0 <= i < |MetaCommandNames| => JStr(MetaCommandNames[i])))
  }

  /** A meta message as `meta_command` reads it: the command, the name the
      handler receives, its parameters, and the name the error reply would
      carry. */
  datatype MetaRequest = MetaRequest(command: string, name: Json, params: Json, errorName: Json)

  /** The reading part of `meta_command`. A dict message names the command
      by its first key and the parameters by that key's value; a string
      message is the command itself with no parameters. The handler gets the
      data's name when it is a registered driver and None otherwise. Errors
      here are raised before the handler's `try`: a missing `name` or
      `message` (KeyError), an unhashable name (TypeError), an empty dict
      message (IndexError). Data that is not a dict, or a message of another
      kind, does nothing. */
  function ParseMeta(d: Drivers, data: Json): (r: Result<Option<MetaRequest>>)
    ensures !data.JObj? ==> r == Ok(None)
    ensures data.JObj? && !(HasKey(data.fields, "name") && HasKey(data.fields, "message")) ==> r == Err(KeyError)
    ensures data.JObj? && HasKey(data.fields, "name") && HasKey(data.fields, "message") ==>
      var name, msg := Lookup(data.fields, "name"), Lookup(data.fields, "message");
      && (!Hashable(name) ==> r == Err(TypeError))
      && (Hashable(name) && (msg.JStr? || (msg.JObj? && |msg.fields| > 0)) ==> r.Ok? && r.value.Some?)
      && (Hashable(name) && msg.JObj? && |msg.fields| == 0 ==> r == Err(IndexError))
      && (Hashable(name) && !msg.JObj? && !msg.JStr? ==> r == Ok(None))
      && (r.Ok? && r.value.Some? ==>
          var q := r.value.value;
          && Hashable(name)
          && q.name == (if name in d.entries then name else JNull)
          && (msg.JStr? ==> q.command == msg.s && q.params == JNull && q.errorName == (if name in d.entries then name else JStr("None")))
          && (msg.JObj? ==> |msg.fields| > 0 && q.command == msg.fields[0].0 && q.params == Lookup(msg.fields, q.command) && q.errorName == name))
    ensures r.Ok? && r.value.None? ==> !data.JObj? || !(Lookup(data.fields, "message").JObj? || Lookup(data.fields, "message").JStr?)
    ensures r.Err? ==> (
      && data.JObj?
      && (|| !(HasKey(data.fields, "name") && HasKey(data.fields, "message"))
          || !Hashable(Lookup(data.fields, "name"))
          || (Lookup(data.fields, "message").JObj? && |Lookup(data.fields, "message").fields| == 0)))
  {
    match data
    case JObj(fs) =>
      if !HasKey(fs, "name") || !HasKey(fs, "message") then Err(KeyError)
      else
        var name, value := Lookup(fs, "name"), Lookup(fs, "message");
        if !Hashable(name) then Err(TypeError)
        else
          var registered := name in d.entries;
          var handlerName := if registered then name else JNull;
          (match value
           case JObj(_) =>
             (match FirstEntry(value)
              case Ok((command, params)) => Ok(Some(MetaRequest(command, handlerName, params, name)))
              case Err(e) => Err(e))
           case JStr(command) =>
             Ok(Some(MetaRequest(command, handlerName, JNull, if registered then name else JStr("None"))))
           case _ => Ok(None))
    case _ => Ok(None)
  }
}
