/** Insertion-ordered dictionaries, the model of Python's `OrderedDict`:
    iteration follows the order in which keys were first inserted, assigning
    to a present key keeps its position, and `update` assigns the other
    map's keys one by one in that map's order. */
module OrderedMaps {
  import opened Wrappers

  /** The keys of every dictionary the pipeline handles are strings. */
  type Key = string

  /** `keys` is the iteration order, `values` the contents. */
  datatype OrderedMap<V> = OrderedMap(keys: seq<Key>, values: map<Key, V>)

  ghost predicate NoDup(ks: seq<Key>) {
    forall i, j :: 0 <= i < j < |ks| ==> ks[i] != ks[j]
  }

  /** Every key appears once in the order, and the order lists exactly the keys present. */
  ghost predicate Valid<V>(m: OrderedMap<V>) {
    NoDup(m.keys) && forall k :: k in m.values <==> k in m.keys
  }

  function Empty<V>(): (m: OrderedMap<V>)
    ensures Valid(m)
    ensures m.keys == [] && forall k :: Get(m, k) == None
  {
    OrderedMap([], map[])
  }

  function Get<V>(m: OrderedMap<V>, k: Key): Option<V> {
    if k in m.values then Some(m.values[k]) else None
  }

  /** `m[k] = v`: a key already present keeps its place, a new key goes last. */
  function Put<V>(m: OrderedMap<V>, k: Key, v: V): (r: OrderedMap<V>)
    ensures Get(r, k) == Some(v)
    ensures forall k' :: k' != k ==> Get(r, k') == Get(m, k')
    ensures Valid(m) ==> Valid(r) && r.keys == if k in m.keys then m.keys else m.keys + [k]
  {
    OrderedMap(if k in m.values then m.keys else m.keys + [k], m.values[k := v])
  }

  /** Assigns `vals[k]` for each `k` of `ks`, in the order of `ks`. */
  function PutAll<V>(m: OrderedMap<V>, vals: map<Key, V>, ks: seq<Key>): OrderedMap<V>
    decreases |ks|
  {
    if ks == [] then m
    else PutAll(if ks[0] in vals then Put(m, ks[0], vals[ks[0]]) else m, vals, ks[1..])
  }

  /** `m.update(o)`. */
  function Update<V>(m: OrderedMap<V>, o: OrderedMap<V>): OrderedMap<V> {
    PutAll(m, o.values, o.keys)
  }

  /** The keys of `ks` that are not in `xs`, in the order of `ks`. */
  function Fresh(xs: seq<Key>, ks: seq<Key>): seq<Key>
    decreases |ks|
  {
    if ks == [] then []
    else (if ks[0] in xs then [] else [ks[0]]) + Fresh(xs, ks[1..])
  }

  lemma {:induction false} FreshMembers(xs: seq<Key>, ks: seq<Key>, k: Key)
    ensures k in Fresh(xs, ks) <==> k in ks && k !in xs
    decreases |ks|
  {
    if ks != [] {
      FreshMembers(xs, ks[1..], k);
      assert ks == [ks[0]] + ks[1..];
    }
  }

  lemma {:induction false} FreshSkip(xs: seq<Key>, k: Key, ks: seq<Key>)
    requires k !in ks
    ensures Fresh(xs + [k], ks) == Fresh(xs, ks)
    decreases |ks|
  {
    if ks != [] {
      FreshSkip(xs, k, ks[1..]);
    }
  }

  lemma {:induction false} PutAllValid<V>(m: OrderedMap<V>, vals: map<Key, V>, ks: seq<Key>)
    requires Valid(m)
    ensures Valid(PutAll(m, vals, ks))
    decreases |ks|
  {
    if ks != [] {
      PutAllValid(if ks[0] in vals then Put(m, ks[0], vals[ks[0]]) else m, vals, ks[1..]);
    }
  }

  lemma {:induction false} PutAllGet<V>(m: OrderedMap<V>, vals: map<Key, V>, ks: seq<Key>, k: Key)
    requires forall x :: x in ks ==> x in vals
    ensures Get(PutAll(m, vals, ks), k) == if k in ks then Some(vals[k]) else Get(m, k)
    decreases |ks|
  {
    if ks != [] {
      PutAllGet(Put(m, ks[0], vals[ks[0]]), vals, ks[1..], k);
    }
  }

  lemma NoDupTail(ks: seq<Key>)
    requires ks != [] && NoDup(ks)
    ensures NoDup(ks[1..]) && ks[0] !in ks[1..]
  {
    var rest := ks[1..];
    forall i, j | 0 <= i < j < |rest| ensures rest[i] != rest[j] {
      assert rest[i] == ks[i + 1] && rest[j] == ks[j + 1];
    }
  }

  /** One step of `PutAll` on the key order: a present key stays, a new key goes last. */
  lemma PutKeysStep<V>(m: OrderedMap<V>, k: Key, v: V, rest: seq<Key>)
    requires Valid(m) && k !in rest
    ensures Put(m, k, v).keys + Fresh(Put(m, k, v).keys, rest) == m.keys + Fresh(m.keys, [k] + rest)
  {
    assert ([k] + rest)[1..] == rest;
    if k !in m.keys {
      FreshSkip(m.keys, k, rest);
      assert m.keys + [k] + Fresh(m.keys, rest) == m.keys + ([k] + Fresh(m.keys, rest));
    }
  }

  lemma {:induction false} PutAllKeys<V>(m: OrderedMap<V>, vals: map<Key, V>, ks: seq<Key>)
    requires Valid(m) && NoDup(ks)
    requires forall x :: x in ks ==> x in vals
    ensures PutAll(m, vals, ks).keys == m.keys + Fresh(m.keys, ks)
    decreases |ks|
  {
    if ks != [] {
      var k, rest := ks[0], ks[1..];
      assert ks == [k] + rest;
      NoDupTail(ks);
      var m' := Put(m, k, vals[k]);
      PutAllKeys(m', vals, rest);
      PutKeysStep(m, k, vals[k], rest);
    }
  }

  /** What `m.update(o)` does: every key of `o` takes `o`'s value, every other
      key keeps its value, the keys of `m` keep their positions and the new
      keys follow them in `o`'s order. */
  lemma UpdateSpec<V>(m: OrderedMap<V>, o: OrderedMap<V>)
    requires Valid(m) && Valid(o)
    ensures Valid(Update(m, o))
    ensures Update(m, o).keys == m.keys + Fresh(m.keys, o.keys)
    ensures forall k :: Get(Update(m, o), k) == if k in o.values then Some(o.values[k]) else Get(m, k)
  {
    PutAllValid(m, o.values, o.keys);
    PutAllKeys(m, o.values, o.keys);
    forall k ensures Get(Update(m, o), k) == if k in o.values then Some(o.values[k]) else Get(m, k) {
      PutAllGet(m, o.values, o.keys, k);
    }
  }
}
