/** Flat settings documents. A configuration (internal users, roles mapping, action groups,
    ...) is a map from dotted keys to strings: every entry of the user "alice" sits under a
    key that starts with "alice.". This module holds the request body as the handlers see
    it, the mutable settings builder, and the key-prefix operations both generations of the
    API action base build on. */
module Settings {
  import opened Common
  import opened Json

  /** A request body: none at all (a null or zero-length reference), one the settings loader
      rejects, or a document that is read both as flat settings and as a JSON tree. */
  datatype Body =
    | Absent
    | Unparseable
    | Document(settings: map<string, string>, tree: Json)

  /** The top-level names of a document's keys. */
  function Names(m: map<string, string>): set<string>
  {
    set k | k in m :: FirstSegment(k)
  }

  lemma NamesEmpty(m: map<string, string>)
    ensures Names(m) == {} <==> m == map[]
  {
    if m != map[] {
      var k :| k in m;
      assert FirstSegment(k) in Names(m);
    }
  }

  /** The entries whose key starts with `p`. */
  function WithPrefix(m: map<string, string>, p: string): map<string, string>
  {
    map k | k in m && p <= k :: m[k]
  }

  /** The entries whose key does not start with `p`. */
  function WithoutPrefix(m: map<string, string>, p: string): map<string, string>
  {
    map k | k in m && !(p <= k) :: m[k]
  }

  /** Every entry of a document keeps its key and value in exactly one of the two halves. */
  lemma PrefixSplit(m: map<string, string>, p: string)
    ensures WithPrefix(m, p).Keys !! WithoutPrefix(m, p).Keys
    ensures WithPrefix(m, p) + WithoutPrefix(m, p) == m
  {
  }

  /** Every key of `m` with `p` put in front of it, each value kept. */
  function Prepend(m: map<string, string>, p: string): (r: map<string, string>)
    ensures forall k :: k in m ==> p + k in r && r[p + k] == m[k]
    ensures forall k :: k in r ==> p <= k && k[|p|..] in m
  {
    assert forall k1, k2 :: k1 in m && k2 in m && p + k1 == p + k2 ==> k1 == k2 by {
      forall k1, k2 | k1 in m && k2 in m && p + k1 == p + k2 ensures k1 == k2 {
        assert k1 == (p + k1)[|p|..];
        assert k2 == (p + k2)[|p|..];
      }
    }
    map k | k in m :: p + k := m[k]
  }

  /** The entries under `p`, with `p` taken off their keys. */
  function StripPrefix(m: map<string, string>, p: string): (r: map<string, string>)
  {
    assert forall k1, k2 :: k1 in m && k2 in m && p <= k1 && p <= k2 && k1[|p|..] == k2[|p|..] ==> k1 == k2 by {
      forall k1, k2 | k1 in m && k2 in m && p <= k1 && p <= k2 && k1[|p|..] == k2[|p|..] ensures k1 == k2 {
        assert k1 == p + k1[|p|..];
        assert k2 == p + k2[|p|..];
      }
    }
    map k | k in m && p <= k :: k[|p|..] := m[k]
  }

  /** Stripping the prefix undoes prepending it, and the prepended document lies entirely
      under the prefix. */
  lemma PrependRoundTrip(m: map<string, string>, p: string)
    ensures StripPrefix(Prepend(m, p), p) == m
    ensures WithPrefix(Prepend(m, p), p) == Prepend(m, p)
  {
    var r := Prepend(m, p);
    var s := StripPrefix(r, p);
    forall k | k in m ensures k in s && s[k] == m[k] {
      assert (p + k)[|p|..] == k;
    }
    forall k | k in s ensures k in m {
      var k' :| k' in r && p <= k' && k'[|p|..] == k;
    }
  }

  /** The mutable settings builder: a map the handlers fill, prune and write back. */
  class Builder {
    var settings: map<string, string>

    constructor (initial: map<string, string>)
      ensures settings == initial
    {
      settings := initial;
    }

    /** `put(Map)`: every entry of `m` is added, replacing an entry with the same key. */
    method PutAll(m: map<string, string>)
      modifies this
      ensures settings == old(settings) + m
    {
      settings := settings + m;
    }

    method Put(k: string, v: string)
      modifies this
      ensures settings == old(settings)[k := v]
    {
      settings := settings[k := v];
    }

    method Remove(k: string)
      modifies this
      ensures settings == old(settings) - {k}
    {
      settings := settings - {k};
    }

    function Get(k: string): Option<string>
      reads this
    {
      if k in settings then Some(settings[k]) else None
    }
  }

  /** The loop both action bases use to put a prefix in front of every key of a payload;
      an empty payload or prefix comes back as it is. */
  method PrependValueToEachKey(m: map<string, string>, prepend: string) returns (r: map<string, string>)
    ensures r == Prepend(m, prepend)
  {
    if m == map[] || prepend == [] {
      assert Prepend(m, prepend) == m by {
        forall k | k in Prepend(m, prepend) ensures k in m {
          assert k == prepend + k[|prepend|..];
        }
      }
      return m;
    }
    r := map[];
    var keys := m.Keys;
    while keys != {}
      invariant keys <= m.Keys
      invariant r == Prepend(m - keys, prepend)
      decreases |keys|
    {
      var k :| k in keys;
      assert (m - (keys - {k})) == (m - keys)[k := m[k]];
      PrependInsert(m - keys, prepend, k, m[k]);
      r := r[prepend + k := m[k]];
      keys := keys - {k};
    }
    assert m - keys == m;
  }

  lemma PrependInsert(m: map<string, string>, p: string, k: string, v: string)
    ensures Prepend(m[k := v], p) == Prepend(m, p)[p + k := v]
  {
    var l := Prepend(m[k := v], p);
    var r := Prepend(m, p)[p + k := v];
    forall x | x in l ensures x in r && l[x] == r[x] {
      assert x == p + x[|p|..];
    }
    forall x | x in r ensures x in l {
      if x != p + k {
        assert x == p + x[|p|..];
      }
    }
  }

  /** Updating a merged document is updating the map merged in last. */
  lemma MergeUpdate(a: map<string, string>, b: map<string, string>, k: string, v: string)
    ensures (a + b)[k := v] == a + b[k := v]
  {
  }
}
