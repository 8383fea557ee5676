/**
  The reply envelope both publishers put on the bus: what a reply carries,
  how missing names and values are filled in, the wire object
  `DriverClient.publish` builds, the shorter one `Publisher.publish` builds,
  and whether `json.dumps` can serialise a payload at all.
 */
module Envelope {
  import opened JsonValue

  /** The value a reply carries. `ExcInfo` is `sys.exc_info()`: while an
      exception is being handled it is `(type, exception, traceback)`, which
      JSON cannot represent; otherwise it is `(None, None, None)`.
      `Unserialisable` is any other object JSON cannot represent, such as
      whatever a driver object may return. */
  datatype Param =
    | Value(j: Json)
    | ExcInfo(handling: bool)
    | Unserialisable

  /** `if x is None: x = d`, as `publish` fills in a missing name (`'None'`)
      and a missing value (`''`). */
  function DefaultIfNull(j: Json, d: Json): (r: Json)
    ensures j != JNull ==> r == j
    ensures j == JNull ==> r == d
  {
    if j == JNull then d else j
  }

  /** The name a reply carries: `'None'` in place of None. */
  const NoName: Json := JStr("None")

  /** The value a reply carries: `''` in place of None. */
  function NormParam(p: Param): (r: Param)
    ensures r != Value(JNull)
    ensures p.Value? && p.j != JNull ==> r == p
    ensures p.ExcInfo? || p.Unserialisable? ==> r == p
  {
    match p
    case Value(j) => Value(DefaultIfNull(j, JStr("")))
    case _ => p
  }

  /** What `json.dumps` makes of a reply's value: nothing when it raises. */
  function Dump(p: Param): (r: Option<Json>)
    ensures p.Value? ==> r == Some(p.j)
    ensures r.None? <==> p == ExcInfo(true) || p.Unserialisable?
    ensures p == ExcInfo(false) ==> r == Some(JArr([JNull, JNull, JNull]))
  {
    match p
    case Value(j) => Some(j)
    case ExcInfo(handling) => if handling then None else Some(JArr([JNull, JNull, JNull]))
    case Unserialisable => None
  }

  /** One envelope as `DriverClient.publish` builds it, without its
      timestamp: `{type, to, from, sessionID, data: {name, message: {key: value}}}`. */
  datatype Envelope = Envelope(
    kind: string,
    to: Json,
    sender: string,
    sessionId: Json,
    name: Json,
    key: string,
    value: Json)

  /** The wire object of an envelope. */
  function Encode(e: Envelope): Json {
    JObj([
      ("type", JStr(e.kind)),
      ("to", e.to),
      ("from", JStr(e.sender)),
      ("sessionID", e.sessionId),
      ("data", JObj([
        ("name", e.name),
        ("message", JObj([(e.key, e.value)]))]))])
  }

  /** Reads an envelope back from a wire object; nothing when a field is
      missing or of the wrong shape, or when `message` does not hold exactly
      one member. */
  function Decode(j: Json): Option<Envelope> {
    if !j.JObj? then None
    else
      var fs := j.fields;
      if !(HasKey(fs, "type") && HasKey(fs, "to") && HasKey(fs, "from")
           && HasKey(fs, "sessionID") && HasKey(fs, "data")) then None
      else
        var kind, sender, data := Lookup(fs, "type"), Lookup(fs, "from"), Lookup(fs, "data");
        if !kind.JStr? || !sender.JStr? || !data.JObj? then None
        else if !HasKey(data.fields, "name") || !HasKey(data.fields, "message") then None
        else
          var message := Lookup(data.fields, "message");
          if !message.JObj? || |message.fields| != 1 then None
          else Some(Envelope(kind.s, Lookup(fs, "to"), sender.s, Lookup(fs, "sessionID"),
                             Lookup(data.fields, "name"), message.fields[0].0, message.fields[0].1))
  }

  /** Reading back what was written gives every field back: in particular
      `message` of an encoded envelope holds exactly one member. */
  lemma RoundTrip(e: Envelope)
    ensures Decode(Encode(e)) == Some(e)
  {
    var fs := Encode(e).fields;
    assert "from" != "type" by { assert "from"[0] != "type"[0]; }
    assert "data" != "type" by { assert "data"[0] != "type"[0]; }
    assert "data" != "from" by { assert "data"[0] != "from"[0]; }
    assert "to" != "type" && "from" != "to" && "sessionID" != "from";
    LastIndexAt(fs, "type", 0);
    LastIndexAt(fs, "to", 1);
    LastIndexAt(fs, "from", 2);
    assert LastIndex(fs, "sessionID") == 3;
    assert LastIndex(fs, "data") == 4;
    var ds := fs[4].1.fields;
    assert LastIndex(ds, "name") == 0;
    assert LastIndex(ds, "message") == 1;
  }

  /** The object `Publisher.publish` sends: `{type, data: {name, message: {key: value}}}`. */
  function Brief(kind: string, name: Json, key: string, value: Json): Json {
    JObj([("type", JStr(kind)), ("data", JObj([("name", name), ("message", JObj([(key, value)]))]))])
  }

  /** A brief envelope names its type and driver, and its `message` maps
      exactly one key to the value. */
  lemma BriefShape(kind: string, name: Json, key: string, value: Json)
    ensures var b := Brief(kind, name, key, value);
      && HasKey(b.fields, "type") && Lookup(b.fields, "type") == JStr(kind)
      && HasKey(b.fields, "data") && Lookup(b.fields, "data").JObj?
      && var d := Lookup(b.fields, "data").fields;
      && HasKey(d, "name") && Lookup(d, "name") == name
      && HasKey(d, "message") && Lookup(d, "message") == JObj([(key, value)])
  {
    var fs := Brief(kind, name, key, value).fields;
    assert LastIndex(fs, "type") == 0;
    assert LastIndex(fs, "data") == 1;
    var ds := fs[1].1.fields;
    assert LastIndex(ds, "name") == 0;
    assert LastIndex(ds, "message") == 1;
  }
}
