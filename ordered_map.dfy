/**
  A Python dict as the driver client uses it: a mapping together with the
  order in which its keys were first inserted, which is what `list(d)`
  returns.
 */
module OrderedMap {

  datatype OMap<K(==, !new), V> = OMap(order: seq<K>, entries: map<K, V>)

  predicate Distinct<K(==, !new)>(s: seq<K>) {
    forall i, j :: 0 <= i < j < |s| ==> s[i] != s[j]
  }

  /** The order lists every key once, and nothing else. */
  ghost predicate Valid<K(!new), V>(m: OMap<K, V>) {
    Distinct(m.order) && forall k :: k in m.entries <==> k in m.order
  }

  /** `{}` */
  function Empty<K(==, !new), V>(): (m: OMap<K, V>)
    ensures Valid(m) && Size(m) == 0 && m.entries == map[]
  {
    OMap([], map[])
  }

  /** `len(d)` */
  function Size<K(==, !new), V>(m: OMap<K, V>): nat {
    |m.order|
  }

  /** `list(d)`: the keys in insertion order. */
  function Keys<K(==, !new), V>(m: OMap<K, V>): seq<K> {
    m.order
  }

  /** `d[k] = v`: sets one key and leaves every other entry as it was; a new
      key goes to the end of the order, an existing key keeps its place. */
  function Put<K(==, !new), V>(m: OMap<K, V>, k: K, v: V): (r: OMap<K, V>)
    requires Valid(m)
    ensures Valid(r)
    ensures k in r.entries && r.entries[k] == v
    ensures forall j :: j != k ==> (j in r.entries <==> j in m.entries)
    ensures forall j :: j != k && j in m.entries ==> r.entries[j] == m.entries[j]
    ensures m.order <= r.order
    ensures k !in m.entries ==> r.order == m.order + [k]
    ensures Size(r) == if k in m.entries then Size(m) else Size(m) + 1
  {
    if k in m.entries then OMap(m.order, m.entries[k := v])
    else OMap(m.order + [k], m.entries[k := v])
  }

  /** The elements of `s` other than `k`, in their order. */
  function Without<K(==, !new)>(s: seq<K>, k: K): (r: seq<K>)
    ensures forall x :: x in r <==> x in s && x != k
    ensures Distinct(s) ==> Distinct(r)
    ensures Distinct(s) ==> |r| == if k in s then |s| - 1 else |s|
    ensures k !in s ==> r == s
    decreases |s|
  {
    if s == [] then []
    else if s[0] == k then
      assert Distinct(s) ==> k !in s[1..];
      Without(s[1..], k)
    else
      var rest := Without(s[1..], k);
      assert Distinct(s) ==> Distinct([s[0]] + rest) by {
        if Distinct(s) {
          assert s[0] !in s[1..];
          assert s[0] !in rest;
          forall i, j | 0 <= i < j < |[s[0]] + rest| ensures ([s[0]] + rest)[i] != ([s[0]] + rest)[j] {
            if i > 0 {
              assert ([s[0]] + rest)[i] == rest[i - 1];
            } else {
              assert ([s[0]] + rest)[j] in rest;
            }
          }
        }
      }
      assert k !in s ==> [s[0]] + rest == s;
      [s[0]] + rest
  }

  /** Taking out a key that stands at `i` of a sequence without duplicates
      closes the gap at `i` and keeps everything else in its order. */
  lemma {:induction false} WithoutAt<K(!new)>(s: seq<K>, k: K, i: nat)
    requires Distinct(s) && i < |s| && s[i] == k
    ensures Without(s, k) == s[..i] + s[i + 1..]
    decreases |s|
  {
    if i == 0 {
      assert k !in s[1..];
      assert s[..0] + s[1..] == s[1..];
    } else {
      var tail := s[1..];
      assert s[0] != s[i];
      assert Distinct(tail) by {
        forall a, b | 0 <= a < b < |tail| ensures tail[a] != tail[b] {
          assert tail[a] == s[a + 1] && tail[b] == s[b + 1];
        }
      }
      assert tail[i - 1] == k;
      WithoutAt(tail, k, i - 1);
      assert Without(s, k) == [s[0]] + Without(tail, k);
      assert s[..i] == [s[0]] + tail[..i - 1];
      assert s[i + 1..] == tail[i..];
    }
  }

  /** `del d[k]` for a key that is present (the caller raises KeyError
      otherwise): removes that key and leaves every other entry and the
      order of the remaining keys as they were. */
  function Remove<K(==, !new), V>(m: OMap<K, V>, k: K): (r: OMap<K, V>)
    requires Valid(m)
    ensures Valid(r)
    ensures k !in r.entries
    ensures forall j :: j != k ==> (j in r.entries <==> j in m.entries)
    ensures forall j :: j != k && j in m.entries ==> r.entries[j] == m.entries[j]
    ensures Size(r) == if k in m.entries then Size(m) - 1 else Size(m)
    ensures r.order == Without(m.order, k)
    ensures forall i :: 0 <= i < |m.order| && m.order[i] == k ==> r.order == m.order[..i] + m.order[i + 1..]
    ensures k !in m.entries ==> r.order == m.order
  {
    forall i | 0 <= i < |m.order| && m.order[i] == k
      ensures Without(m.order, k) == m.order[..i] + m.order[i + 1..]
    {
      WithoutAt(m.order, k, i);
    }
    OMap(Without(m.order, k), m.entries - {k})
  }

  /** Taking out a key that was appended last, and nowhere else, gives back
      the sequence it was appended to. */
  lemma {:induction false} WithoutLast<K(!new)>(s: seq<K>, k: K)
    requires k !in s
    ensures Without(s + [k], k) == s
    decreases |s|
  {
    if s == [] {
      assert (s + [k])[1..] == [];
    } else {
      assert (s + [k])[0] == s[0];
      assert (s + [k])[1..] == s[1..] + [k];
      WithoutLast(s[1..], k);
    }
  }

  /** `del d[k]` undoes `d[k] = v` for a key that was absent: the dict is
      back as it was, order included. */
  lemma RemoveUndoesPut<K(!new), V>(m: OMap<K, V>, k: K, v: V)
    requires Valid(m) && k !in m.entries
    ensures Remove(Put(m, k, v), k) == m
  {
    assert k !in m.order;
    WithoutLast(m.order, k);
    assert m.entries[k := v] - {k} == m.entries;
  }

  /** Every key stands at exactly one place in the order, so a dict never has
      more entries than its order has positions. */
  lemma {:induction false} SizeIsCardinality<K(!new), V>(m: OMap<K, V>)
    requires Valid(m)
    ensures |m.entries| == Size(m)
    decreases |m.order|
  {
    if m.order != [] {
      var k := m.order[|m.order| - 1];
      var rest := OMap(m.order[..|m.order| - 1], m.entries - {k});
      assert Valid(rest) by {
        forall x ensures x in rest.entries <==> x in rest.order {
          if x in m.order && x != k {
            var i :| 0 <= i < |m.order| && m.order[i] == x;
            assert i < |m.order| - 1;
            assert x == rest.order[i];
          }
        }
      }
      SizeIsCardinality(rest);
    } else {
      assert m.entries.Keys == {};
    }
  }
}
