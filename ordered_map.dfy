/**
 * A JavaScript `Map<string, V>`: a finite map whose entries remember the order
 * in which their keys were first inserted. `Array.from(m.values())` lists the
 * values in that order.
 */
module OrderedMap {
  import opened Keyed

  datatype OMap<V> = OMap(keys: seq<string>, vals: map<string, V>)

  /** The keys are listed once each, and exactly the keys of `vals` are listed. */
  ghost predicate Valid<V>(m: OMap<V>)
  {
    && (forall i, j :: 0 <= i < j < |m.keys| ==> m.keys[i] != m.keys[j])
    && (forall k :: k in m.vals <==> k in m.keys)
  }

  /** Every entry is stored under its own key. */
  predicate KeyedBy<V>(m: OMap<V>, key: V -> string)
  {
    forall k :: k in m.vals ==> key(m.vals[k]) == k
  }

  /** `new Map()`. */
  function Empty<V>(): (m: OMap<V>)
    ensures Valid(m) && m.keys == [] && m.vals == map[]
  {
    OMap([], map[])
  }

  /** `m.set(k, v)`: a new key is placed last, an existing key keeps its place. */
  function Put<V>(m: OMap<V>, k: string, v: V): (r: OMap<V>)
    requires Valid(m)
    ensures Valid(r)
    ensures r.vals == m.vals[k := v]
    ensures r.keys == if k in m.vals then m.keys else m.keys + [k]
  {
    if k in m.vals then OMap(m.keys, m.vals[k := v]) else OMap(m.keys + [k], m.vals[k := v])
  }

  /** `Array.from(m.values())`. */
  function Values<V>(m: OMap<V>): (vs: seq<V>)
    requires Valid(m)
    ensures |vs| == |m.keys|
    ensures forall i :: 0 <= i < |vs| ==> vs[i] == m.vals[m.keys[i]]
  {
    seq(|m.keys|, i requires 0 <= i < |m.keys| => m.vals[m.keys[i]])
  }

  /** The values of a map whose entries sit under their own keys carry those keys, once each. */
  lemma ValuesKeys<V>(m: OMap<V>, key: V -> string)
    requires Valid(m) && KeyedBy(m, key)
    ensures KeysOf(Values(m), key) == m.keys
    ensures UniqueKeys(Values(m), key)
    ensures forall k :: HasKey(Values(m), key, k) <==> k in m.vals
  {
    var vs := Values(m);
    forall k ensures HasKey(vs, key, k) <==> k in m.vals {
      if k in m.vals {
        var i :| 0 <= i < |m.keys| && m.keys[i] == k;
        assert key(vs[i]) == k;
      }
    }
  }

  /** `xs.forEach(x => m.set(key(x), x))`, starting from an empty map. */
  function LoadAll<V>(xs: seq<V>, key: V -> string): (m: OMap<V>)
    ensures Valid(m) && KeyedBy(m, key)
    ensures forall k :: k in m.vals <==> HasKey(xs, key, k)
    decreases |xs|
  {
    if xs == [] then Empty()
    else
      var prev := LoadAll(xs[..|xs| - 1], key);
      var x := xs[|xs| - 1];
      var m := Put(prev, key(x), x);
      assert forall k :: HasKey(xs, key, k) <==> HasKey(xs[..|xs| - 1], key, k) || k == key(x) by {
        forall k ensures HasKey(xs, key, k) <==> HasKey(xs[..|xs| - 1], key, k) || k == key(x) {
          HasKeySnoc(xs, key, k);
        }
      }
      m
  }

  /** Loading one more element puts it into the map loaded so far. */
  lemma LoadAllSnoc<V>(xs: seq<V>, x: V, key: V -> string)
    ensures LoadAll(xs + [x], key) == Put(LoadAll(xs, key), key(x), x)
  {
    assert (xs + [x])[..|xs|] == xs;
  }

  /** Loading a list with unique keys lists the keys in the list's order. */
  lemma {:induction false} LoadAllKeys<V>(xs: seq<V>, key: V -> string)
    requires UniqueKeys(xs, key)
    ensures LoadAll(xs, key).keys == KeysOf(xs, key)
    decreases |xs|
  {
    if xs != [] {
      var init, x := xs[..|xs| - 1], xs[|xs| - 1];
      UniqueInit(xs, key);
      LoadAllKeys(init, key);
      var prev := LoadAll(init, key);
      assert key(x) !in prev.vals;
      assert LoadAll(xs, key).keys == prev.keys + [key(x)];
      assert KeysOf(xs, key) == KeysOf(init, key) + [key(x)];
    }
  }

  /** Loading a list with unique keys maps each key to its element. */
  lemma {:induction false} LoadAllVals<V>(xs: seq<V>, key: V -> string, i: nat)
    requires UniqueKeys(xs, key) && i < |xs|
    ensures LoadAll(xs, key).vals[key(xs[i])] == xs[i]
    decreases |xs|
  {
    var init := xs[..|xs| - 1];
    if i < |xs| - 1 {
      UniqueInit(xs, key);
      LoadAllVals(init, key, i);
      assert init[i] == xs[i];
      assert key(xs[i]) != key(xs[|xs| - 1]);
    }
  }

  /** Loading a list with unique keys and listing the values gives the list back. */
  lemma LoadAllValues<V>(xs: seq<V>, key: V -> string)
    requires UniqueKeys(xs, key)
    ensures Values(LoadAll(xs, key)) == xs
  {
    LoadAllKeys(xs, key);
    var m := LoadAll(xs, key);
    var vs := Values(m);
    forall i | 0 <= i < |xs| ensures vs[i] == xs[i] {
      assert m.keys[i] == key(xs[i]);
      LoadAllVals(xs, key, i);
    }
  }

  /** `xs.forEach(x => m.set(key(x), x))` on a fresh map, as the loop it is. */
  method Load<V>(xs: seq<V>, key: V -> string) returns (m: OMap<V>)
    ensures m == LoadAll(xs, key)
  {
    m := Empty();
    var i := 0;
    while i < |xs|
      invariant 0 <= i <= |xs|
      invariant m == LoadAll(xs[..i], key)
    {
      assert xs[..i + 1][..i] == xs[..i];
      m := Put(m, key(xs[i]), xs[i]);
      i := i + 1;
    }
    assert xs[..i] == xs;
  }
}
