# Driver client and publisher, modelled in Dafny

This project models the message-bus side of the Opentrons driver process.
`DriverClient` keeps two registries:

- a registry of the clients that have shaken hands with it, mapping each id
  to the private topic `com.opentrons.<id>`, with a capacity test against
  `max_clients = 4`;
- a registry of driver objects, keyed by name.

The handshake channel is handled by `handshake`. Every other incoming message
goes through `dispatch_message`:

- a `command` message reaches a driver's `send_command`;
- a `meta` message runs one of sixteen meta handlers (`drivers`, `add_driver`,
  `remove_driver`, `callbacks`, …, `meta_commands`), named by the message.

The handlers answer through `publish`. `publish` sends an envelope
`{type, to, from, sessionID, data: {name, message: {key: value}}}` to one of
four fixed topics or to a client's private topic. `Publisher` is a thinner
sender: it holds a caller's session and sends `{type, data: {...}}` to one of
its four fixed topics.

Files:

- `json_value.dfy`: decoded JSON values, Python's `in` and subscript on them
  (including the TypeError on unhashable keys), and the exceptions the code
  can raise.
- `ordered_map.dfy`: a Python dict with its insertion order.
- `envelope.dfy`: the envelope, its wire form, and `json.dumps` of a reply
  parameter.
- `routing.dfy`: the decisions that change nothing:
  - admission to the client registry;
  - reply resolution and delivery;
  - classification of incoming messages;
  - reading of handshake and meta messages;
  - the meta table;
  - what a call forwarded to a driver object does.
- `driver_client.dfy`: the `DriverClient` class. Its fields are the two
  registries, whether a session is attached, the log of messages put on the
  bus, and the log of calls made on driver objects. It has one method per
  operation.
- `publisher.dfy`: the `Publisher` class and the session it publishes
  through.

Several paths of the code do not do what their shape suggests, and the
model follows what the code does:

- **Error replies.** The `except` blocks of `meta_command` and
  `send_command` build an `error` reply to the requester
  (driver/driver_client.py:549-553, 605-609), but it never reaches the bus.
  - Those replies carry `sys.exc_info()` of the exception being handled,
    which `json.dumps` cannot serialise. The failure is swallowed inside
    `publish` (`Routing.ErrorReplyNeverDelivered`).
  - The reply for a `command` naming an unregistered driver is built outside
    any `except`. It carries `(None, None, None)` and is delivered as
    `[null, null, null]` with name `None` (`Routing.BareErrorReplyDelivered`).
  - Both `send_command` error paths then raise TypeError, from the log line
    that adds a string and a tuple. `dispatch_message` swallows it.
- **Capacity.** The test is `len(clients) > max_clients`, so the registry
  grows to five clients and the sixth is refused. The model keeps this
  boundary (`Routing.SixthClientRefused`).
- **`disconnect`.** The meta table passes four arguments to
  `driver_disconnect`, which takes three, so `disconnect` always raises.
- **`set_config`.** With a dict parameter, `set_config` raises before
  reaching the driver, because it calls `list(param.values)` on the method
  object.
- **Handshake `get_ids`.** The `get_ids` branch calls an unqualified
  `publish_client_ids` and raises NameError after the branch's other
  effects.

## Model

| member | source | states |
|---|---|---|
| Routing.Admit | driver/driver_client.py:223-229 | refused exactly when the registry already holds more than `max_clients` ids; otherwise the id is added with topic `com.opentrons.<id>`, every other entry is kept, and a fresh id goes last in the order and grows the size by one |
| Routing.EnrolAcceptsUpToBound | driver/driver_client.py:201-206 | registering distinct fresh ids one after another accepts the i-th exactly when `size + i <= max_clients`; the registry ends at `min(size + n, max_clients + 1)` |
| Routing.SixthClientRefused | driver/driver_client.py:142 | from an empty registry, six distinct ids give five acceptances and one refusal; the registry ends with five clients |
| Routing.KnownClient | driver/driver_client.py:233-239 | `client_check` is true exactly for a string id that is registered; an unhashable id raises TypeError |
| Routing.ClientIdList | driver/driver_client.py:246-249 | the published id list holds the registered ids in registration order |
| Routing.HandleAt | driver/driver_client.py:342 | a lookup succeeds exactly for a registered hashable name and yields its handle; a missing name raises KeyError by subscript and AttributeError through `.get`; an unhashable name raises TypeError |
| Routing.Forward | driver/driver_client.py:413-418 | a forwarded handler makes at most one call on the driver, exactly when the handle is a driver object and the arguments evaluate; that call carries the driver and the operation; the handler goes on only when the driver returns; a failed lookup, a non-driver value (AttributeError), a failed argument evaluation or a raising driver decide the exception |
| Routing.SetMetaCallbackOp | driver/driver_client.py:369-372 | a dict parameter names the callback by its first key and that key's value (IndexError when empty); anything else asks for the current meta-callbacks |
| Routing.AddCallbackOp | driver/driver_client.py:384 | the call succeeds exactly for a non-empty dict parameter and carries its first key and that key's value |
| Routing.SetConfigOp | driver/driver_client.py:507-509 | a dict parameter always raises (IndexError when empty, TypeError otherwise) before the driver is called; any other parameter reads the configuration |
| Routing.Resolve | driver/driver_client.py:269-277 | an alias goes to its fixed topic; a registered client goes to its own topic, and only with a string `to`; an unhashable topic raises TypeError; any other topic goes nowhere |
| Routing.Deliver | driver/driver_client.py:257-283 | a message is sent only with a session and a resolving string topic; it carries the reply's type, `to`, session, normalised name, key and serialised parameter, with this client as sender; an unserialisable parameter sends nothing, and a serialisable one to a resolving topic is always sent |
| Routing.Answer | driver/driver_client.py:297-300 | a handler's answer goes to `frontend` exactly when it falls back on an empty `from` or `from` is `frontend`, and otherwise to `from`; every other field is the handler's |
| Routing.ErrorReplyNeverDelivered | driver/driver_client.py:549-553 | an error reply carrying the exception being handled never reaches the bus |
| Routing.BareErrorReplyDelivered | driver/driver_client.py:611-615 | the unregistered-driver error reply to the frontend or an alias is delivered and carries `[null, null, null]` |
| Routing.HandshakeRepliesReachTheirTopic | driver/driver_client.py:196-206 | `fail` and `success` reach `com.opentrons.frontend` with the envelope the handshake builds; `already_connected` reaches the client's own topic |
| Routing.DeliveredReplyReadsBack | driver/driver_client.py:267 | every delivered envelope decodes back to itself, with the reply's type, key and `to` and this client as sender; an answer of type other than `command` or `meta` that comes back is dropped |
| Routing.ReadGreeting | driver/driver_client.py:184-188 | unparsable text raises; a non-dict or a text without `from` is anonymous; `from` in the text but not a key raises KeyError; otherwise the claimed id is the value of `from` |
| Routing.Probe | driver/driver_client.py:192-198 | a registered client's `extend` and `shake` tests are Python `in` on `data.message`; a `data` that is not a dict raises TypeError before anything is published, unless it is a string or list without `message`, which makes no test; no `data` or no `message` key means neither test holds |
| Routing.Classify | driver/driver_client.py:162-172 | a message is routed exactly when it is a dict with `type`, `from`, `sessionID` and `data`, its type is `command` or `meta`, and its `from` is hashable; the route carries those fields |
| Routing.ClassifyIgnoresRegistry | driver/driver_client.py:165-169 | both outcomes of `client_check` route a message the same way |
| Routing.EchoedReplyDropped | driver/driver_client.py:163-172 | an envelope whose type is neither `command` nor `meta` is dropped |
| Routing.LookupMeta | driver/driver_client.py:108-125 | a command runs a handler exactly when it is one of the sixteen keys of the meta table, and the handler it runs is the one filed under that key |
| Routing.NamesAreKeys | driver/driver_client.py:108-125 | the published key list and the handler table agree position by position |
| Routing.MetaCommandList | driver/driver_client.py:477 | `meta_commands` publishes the sixteen table keys in table order |
| Routing.ParseMeta | driver/driver_client.py:540-580 | KeyError for a missing `name` or `message`; TypeError for an unhashable name; IndexError for an empty dict message, and no other error; a hashable name with a string or non-empty dict message is always read; the command is the first key (or the string itself), the handler receives the name only when it is a registered driver, and the error name follows each branch |
| Envelope.RoundTrip | driver/driver_client.py:267 | decoding an encoded envelope gives every field back; its `message` holds exactly one member |
| Envelope.Dump | driver/driver_client.py:272 | `json.dumps` of a parameter fails exactly for an exception triple or an unserialisable value; `(None, None, None)` becomes `[null, null, null]` |
| Envelope.BriefShape | driver/publisher.py:51 | the publisher's message names its type and driver and maps exactly one key to the value |
| JsonValue.Contains | driver/driver_client.py:192-197 | Python `in`: a key test on a dict, a substring test on a string, an element test on a list; TypeError on anything else |
| JsonValue.LaterDuplicateWins | driver/driver_client.py:162 | in a decoded object, a repeated key reads as its last value |
| OrderedMap.Put | driver/driver_client.py:311 | `d[k] = v` sets one key and keeps every other entry; a new key goes last in the order |
| OrderedMap.Remove | driver/driver_client.py:327 | `del d[k]` removes one key and keeps every other entry; the order loses exactly the key's position and is otherwise unchanged |
| OrderedMap.WithoutAt | driver/driver_client.py:327-328 | taking a key out of a duplicate-free order closes the gap at its position |
| OrderedMap.RemoveUndoesPut | driver/driver_client.py:311-327 | deleting a key that was just added leaves the dict as it was before, order included |
| OrderedMap.SizeIsCardinality | driver/driver_client.py:201 | `len(d)` equals the number of keys |
| DriverClient.DriverClient.constructor | driver/driver_client.py:103-155 | both registries start empty, with no session and nothing published |
| DriverClient.DriverClient.Publish | driver/driver_client.py:252-283 | appends to the bus exactly what `Deliver` sends: one message or none |
| DriverClient.DriverClient.GenClientId | driver/driver_client.py:219-230 | refused: registry unchanged, `fail` to the frontend, empty id returned; otherwise the fresh id is registered, `success` sent, and the id returned; the registry invariant holds |
| DriverClient.DriverClient.PublishClientIds | driver/driver_client.py:242-249 | the id list goes to the client itself when it is registered and to the frontend otherwise; the list is returned; an unhashable id raises before anything is sent |
| DriverClient.DriverClient.Reacquaint | driver/driver_client.py:190-198 | a registered client's handshake leaves the registry alone and publishes `already_connected` and/or the id list, as its message asks |
| DriverClient.DriverClient.Welcome | driver/driver_client.py:199-208 | an unknown client: `fail` when over capacity; a generated id for an empty `from`; TypeError for a non-string claim; otherwise exactly the claimed id is registered and `success` sent |
| DriverClient.DriverClient.Handshake | driver/driver_client.py:180-216 | the whole handshake, branch by branch: the registry and the bus after it, and the exception it ends with (ValueError, KeyError, TypeError, NameError from `get_ids`) |
| DriverClient.DriverClient.Drivers | driver/driver_client.py:287-301 | publishes the driver names in insertion order and changes nothing else |
| DriverClient.DriverClient.AddDriver | driver/driver_client.py:304-317 | sets one name to the handle, keeps every other driver, and publishes the new name list; TypeError for an unhashable name |
| DriverClient.DriverClient.RemoveDriver | driver/driver_client.py:320-332 | deletes one name and publishes the remaining names; KeyError when absent; TypeError when unhashable |
| DriverClient.DriverClient.Callbacks | driver/driver_client.py:335-347 | one `callbacks` call on the named driver; its result is published under `callbacks` with the frontend fallback |
| DriverClient.DriverClient.MetaCallbacks | driver/driver_client.py:350-359 | one `meta_callbacks` call; the result goes to `from` with no fallback |
| DriverClient.DriverClient.SetMetaCallback | driver/driver_client.py:362-374 | `set_meta_callback(first key, value)` for a dict parameter, `meta_callbacks()` otherwise; the result goes under `meta_callback` to `from` |
| DriverClient.DriverClient.AddCallback | driver/driver_client.py:377-388 | `add_callback(first key, value)` on the named driver; the result goes under `callbacks` with the fallback |
| DriverClient.DriverClient.RemoveCallback | driver/driver_client.py:391-403 | `remove_callback(param)` on the named driver; the result goes under `callbacks` with the fallback |
| DriverClient.DriverClient.Flow | driver/driver_client.py:406-418 | one `flow` call; the result goes under `flow` with the fallback |
| DriverClient.DriverClient.ClearQueue | driver/driver_client.py:421-433 | one `clear_queue` call; the result goes as a `labware` message under `clear_queue` with the fallback |
| DriverClient.DriverClient.DriverConnect | driver/driver_client.py:436-445 | one `connect(from, session)` call on the named driver; nothing is published |
| DriverClient.DriverClient.DriverDisconnect | driver/driver_client.py:448-455 | always raises TypeError and changes nothing |
| DriverClient.DriverClient.Commands | driver/driver_client.py:458-467 | one `commands` call; the result goes to `from` with no fallback |
| DriverClient.DriverClient.MetaCommands | driver/driver_client.py:470-482 | publishes the meta table's keys and changes nothing else |
| DriverClient.DriverClient.Configs | driver/driver_client.py:485-497 | one `configs` call; the result goes under `configs` with the fallback |
| DriverClient.DriverClient.SetConfig | driver/driver_client.py:500-514 | a dict parameter raises before any driver call; otherwise one `configs` call, published under `configs` |
| DriverClient.DriverClient.RunMeta | driver/driver_client.py:108-125 | an unknown command raises KeyError and changes nothing; a known one has exactly its handler's effect |
| DriverClient.DriverClient.MetaCommand | driver/driver_client.py:517-586 | errors in reading the message are raised with nothing changed; otherwise the named handler runs with the name and parameters `ParseMeta` reads, its exception is caught, and no error reply reaches the bus |
| DriverClient.DriverClient.SendCommand | driver/driver_client.py:589-616 | a registered driver gets exactly one `send_command` with the message; a raising driver leaves no reply on the bus and ends in TypeError; an unregistered name sends the `None` error reply and ends in TypeError |
| DriverClient.DriverClient.DispatchMessage | driver/driver_client.py:158-177 | a dropped message changes nothing; a `command` message has exactly `send_command`'s effect on the bus and the call log, with the drivers unchanged; a `meta` message has exactly `meta_command`'s effect |
| Publisher.TopicUrl | driver/publisher.py:9-14 | a topic has a URL exactly when it is one of the four aliases, and it is that alias's URL |
| Publisher.OnlyFixedTopics | driver/publisher.py:53 | the publisher only ever names one of its four fixed topic URLs, or none |
| Publisher.Publisher.constructor | driver/publisher.py:16-23 | the caller is the session given, `None` when none is given |
| Publisher.Publisher.SetCaller | driver/publisher.py:26-31 | the caller becomes the session given |
| Publisher.Publisher.Publish | driver/publisher.py:34-60 | no caller, topic, type or session: nothing happens; otherwise exactly one message `{type, data: {name, message: {key: value}}}` is published to the alias's URL (or `None`), or, when the topic is unhashable, the value cannot be serialised or the session raises, nothing is published and the handler's own `sys` reference raises NameError |

## Left out

- The WAMP session class, `connect`, `_make_connection`, `disconnect` and the reconnection loop: transport and asyncio. Only a session joining or leaving is modelled (`SessionJoined`, `SessionLeft`), as the `live` flag.
- The program's `__main__` bootstrap and the driver callbacks it installs: process set-up outside the two classes.
- JSON text: `json.loads` and `json.dumps` of text are not modelled. Handlers receive decoded values. `handshake` receives the parsed value, or none when parsing raised, plus whether the raw text contains `from`.
- A top-level JSON array of pairs given to `dispatch_message` (which `OrderedDict` would accept) is modelled as dropped: only decoded objects are routed.
- Floating-point numbers, and Python's `1 == True == 1.0` equality of dict keys: numbers are integers and keys compare structurally.
- The `time` field of the envelope (a clock reading), the `uuid4` draws (a parameter), and all printing and logging.
- What `sys.exc_info()` holds: only whether it is an exception triple, which cannot be serialised, or `(None, None, None)`.
- An exception raised by the session's own `publish` inside `DriverClient.publish`: it is swallowed there, the same as nothing sent.
- Values that handlers return to in-process callers: `drivers`, `add_driver`, `meta_commands` and the forwarding handlers return lists or dicts that `meta_command` discards. Only what they publish and change is modelled; `gen_client_id` and `publish_client_ids` do model their return values.
- In-process arguments that are Python objects, such as a driver object passed to `add_driver` or a callable passed to `add_callback`. Over the bus a parameter is always JSON, so `add_driver` from a meta message stores a value with no driver methods. A driver object is an opaque identity whose answer to a call is a parameter.
- What a driver object does inside its own methods, including callbacks it publishes through: outside these two files.
- Publisher.Publisher.Publish: the message key and type are strings or `None`; other keys are not modelled.
