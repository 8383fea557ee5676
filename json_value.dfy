/**
  Decoded JSON values, and the Python operators the driver client applies to
  them: `k in x`, `x[k]`, `list(x)[0]` and the hashability test that dict
  membership performs first.
 */
module JsonValue {

  /** A value as `json.loads` returns it. Objects keep their members in the
      order they were written (duplicates included); numbers are integers. */
  datatype Json =
    | JNull
    | JBool(b: bool)
    | JNum(n: int)
    | JStr(s: string)
    | JArr(items: seq<Json>)
    | JObj(fields: seq<(string, Json)>)

  /** The Python exceptions the modelled code can raise. `DriverError` is
      whatever a driver object raises from one of its own methods;
      `ValueError` is what `json.loads` raises on text that is not JSON. */
  datatype PyError =
    | KeyError
    | TypeError
    | IndexError
    | AttributeError
    | NameError
    | ValueError
    | DriverError

  datatype Option<T> = None | Some(value: T)

  datatype Result<T> = Ok(value: T) | Err(error: PyError)

  /** How a Python call ended: it returned, or an exception left it. */
  datatype Outcome = Normal | Raised(error: PyError)

  /** Lists and dicts are unhashable: using one as a dict key raises TypeError. */
  predicate Hashable(j: Json) {
    !j.JArr? && !j.JObj?
  }

  /** Position of the last member named `k`, or -1. A decoded dict keeps the
      value written last for a repeated key. */
  function LastIndex(fields: seq<(string, Json)>, k: string): (i: int)
    ensures -1 <= i < |fields|
    ensures i >= 0 ==> fields[i].0 == k
    ensures forall j :: i < j < |fields| ==> fields[j].0 != k
    decreases |fields|
  {
    if |fields| == 0 then -1
    else if fields[|fields| - 1].0 == k then |fields| - 1
    else LastIndex(fields[..|fields| - 1], k)
  }

  /** The member at `i` is the last one named `k`. */
  lemma LastIndexAt(fields: seq<(string, Json)>, k: string, i: int)
    requires 0 <= i < |fields| && fields[i].0 == k
    requires forall j :: i < j < |fields| ==> fields[j].0 != k
    ensures LastIndex(fields, k) == i
  {
  }

  /** `k in d` for a decoded dict `d`. */
  function HasKey(fields: seq<(string, Json)>, k: string): (b: bool)
    ensures b <==> exists j :: 0 <= j < |fields| && fields[j].0 == k
  {
    LastIndex(fields, k) >= 0
  }

  /** `d[k]` for a decoded dict `d` that has `k`. */
  function Lookup(fields: seq<(string, Json)>, k: string): Json
    requires HasKey(fields, k)
  {
    fields[LastIndex(fields, k)].1
  }

  /** `needle` occurs in `s` starting at position `i`. */
  predicate OccursAt(needle: string, s: string, i: nat) {
    i + |needle| <= |s| && s[i..i + |needle|] == needle
  }

  /** `needle in s` for two strings. */
  function IsSubstring(needle: string, s: string): (b: bool)
    ensures b <==> exists i: nat :: OccursAt(needle, s, i)
    decreases |s|
  {
    if needle <= s then
      assert OccursAt(needle, s, 0);
      true
    else if |s| == 0 then
      false
    else
      var r := IsSubstring(needle, s[1..]);
      assert r ==> exists i: nat :: OccursAt(needle, s, i) by {
        if r {
          var i: nat :| OccursAt(needle, s[1..], i);
          assert s[i + 1..i + 1 + |needle|] == s[1..][i..i + |needle|];
          assert OccursAt(needle, s, i + 1);
        }
      }
      assert (exists i: nat :: OccursAt(needle, s, i)) ==> r by {
        if exists i: nat :: OccursAt(needle, s, i) {
          var i: nat :| OccursAt(needle, s, i);
          if i > 0 {
            assert s[1..][i - 1..i - 1 + |needle|] == s[i..i + |needle|];
            assert OccursAt(needle, s[1..], i - 1);
          }
        }
      }
      r
  }

  /** `needle in c` with a string needle: a key test on a dict, a substring
      test on a string, an element test on a list, and TypeError on
      None, booleans and numbers. */
  function Contains(c: Json, needle: string): (r: Result<bool>)
    ensures r.Err? <==> c.JNull? || c.JBool? || c.JNum?
    ensures r.Err? ==> r.error == TypeError
    ensures c.JObj? ==> r == Ok(exists j :: 0 <= j < |c.fields| && c.fields[j].0 == needle)
    ensures c.JStr? ==> r == Ok(exists i: nat :: OccursAt(needle, c.s, i))
    ensures c.JArr? ==> r == Ok(JStr(needle) in c.items)
  {
    match c
    case JObj(fs) => Ok(HasKey(fs, needle))
    case JStr(s) => Ok(IsSubstring(needle, s))
    case JArr(xs) => Ok(JStr(needle) in xs)
    case _ => Err(TypeError)
  }

  /** `c[k]` with a string key: KeyError on a dict without `k`, TypeError on
      anything that is not a dict. */
  function Subscript(c: Json, k: string): (r: Result<Json>)
    ensures r.Ok? <==> c.JObj? && HasKey(c.fields, k)
    ensures r.Ok? ==> r.value == Lookup(c.fields, k)
    ensures r.Err? ==> r.error == (if c.JObj? then KeyError else TypeError)
  {
    match c
    case JObj(fs) => if HasKey(fs, k) then Ok(Lookup(fs, k)) else Err(KeyError)
    case _ => Err(TypeError)
  }

  /** `(list(p)[0], list(p.values())[0])`: the first key of a dict and its
      value. A string or list gets past `list(p)[0]` when non-empty and then
      has no `values`; None, booleans and numbers are not iterable. */
  function FirstEntry(p: Json): (r: Result<(string, Json)>)
    ensures r.Ok? <==> p.JObj? && |p.fields| > 0
    ensures r.Ok? ==> HasKey(p.fields, p.fields[0].0)
    ensures r.Ok? ==> r.value == (p.fields[0].0, Lookup(p.fields, p.fields[0].0))
  {
    match p
    case JObj(fs) =>
      if |fs| == 0 then Err(IndexError)
      else
        assert HasKey(fs, fs[0].0);
        Ok((fs[0].0, Lookup(fs, fs[0].0)))
    case JStr(s) => if |s| == 0 then Err(IndexError) else Err(AttributeError)
    case JArr(xs) => if |xs| == 0 then Err(IndexError) else Err(AttributeError)
    case _ => Err(TypeError)
  }

  /** The last occurrence decides: a later duplicate key overrides an
      earlier one, as it does when `json.loads` builds a dict. */
  lemma LaterDuplicateWins(fields: seq<(string, Json)>, k: string, v: Json)
    ensures HasKey(fields + [(k, v)], k)
    ensures Lookup(fields + [(k, v)], k) == v
  {
  }
}
