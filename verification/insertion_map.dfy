/**
 A string-keyed JavaScript object whose key order is observed: `Object.keys`
 and `Object.values` report keys in the order they were first written. The
 record is the list of keys in that order plus the key-to-value map.
 */
module InsertionMap {

  /** No key is listed twice. */
  ghost predicate NoDup(s: seq<string>) {
    forall i, j :: 0 <= i < j < |s| ==> s[i] != s[j]
  }

  /** Some occurrence of `a` in `seen` comes before every occurrence of `b`. */
  ghost predicate Precedes(seen: seq<string>, a: string, b: string) {
    exists p :: 0 <= p < |seen| && seen[p] == a && b !in seen[..p + 1]
  }

  /**
   `order` lists the distinct values of `seen`, each once, in the order of
   their first appearance.
   */
  ghost predicate FirstOccurrenceOrder(order: seq<string>, seen: seq<string>) {
    && NoDup(order)
    && (forall k :: k in order <==> k in seen)
    && (forall i, j :: 0 <= i < j < |order| ==> Precedes(seen, order[i], order[j]))
  }

  lemma PrecedesGrows(seen: seq<string>, a: string, b: string, k: string)
    requires Precedes(seen, a, b)
    ensures Precedes(seen + [k], a, b)
  {
    var p :| 0 <= p < |seen| && seen[p] == a && b !in seen[..p + 1];
    assert (seen + [k])[..p + 1] == seen[..p + 1];
  }

  lemma PrecedesNewcomer(seen: seq<string>, a: string, k: string)
    requires a in seen && k !in seen
    ensures Precedes(seen + [k], a, k)
  {
    var p :| 0 <= p < |seen| && seen[p] == a;
    assert (seen + [k])[..p + 1] == seen[..p + 1];
  }

  datatype IMap<V> = IMap(keys: seq<string>, vals: map<string, V>) {

    /** The key list and the map describe the same set of keys. */
    ghost predicate Valid() {
      NoDup(keys) && forall k :: k in keys <==> k in vals
    }

    /** `obj[k] ?? default`. */
    function GetOr(k: string, default: V): V {
      if k in vals then vals[k] else default
    }

    /** `obj[k] = v`: a new key goes to the end of the key order, an existing one keeps its place. */
    function Put(k: string, v: V): (r: IMap<V>)
      ensures r.vals == vals[k := v]
    {
      if k in vals then IMap(keys, vals[k := v]) else IMap(keys + [k], vals[k := v])
    }

    /**
     A write keeps the record well formed; earlier keys keep their places,
     and only a new key is added, at the end.
     */
    lemma PutValid(k: string, v: V)
      requires Valid()
      ensures Put(k, v).Valid()
      ensures keys <= Put(k, v).keys
      ensures |Put(k, v).keys| == |keys| + (if k in vals then 0 else 1)
    {
    }

    /** `Object.values(obj)`, in key order. */
    function Values(): (r: seq<V>)
      requires Valid()
      ensures |r| == |keys|
      ensures forall i :: 0 <= i < |keys| ==> keys[i] in vals && r[i] == vals[keys[i]]
    {
      seq(|keys|, i requires 0 <= i < |keys| => vals[keys[i]])
    }
  }

  function Empty<V>(): (r: IMap<V>)
    ensures r.Valid() && |r.keys| == 0
  {
    IMap([], map[])
  }

  /**
   Reference definition of the key order: the distinct values of `seen`, each
   kept where it first appears.
   */
  function FirstOccurrences(seen: seq<string>): seq<string> {
    if |seen| == 0 then []
    else
      var order, k := FirstOccurrences(seen[..|seen| - 1]), seen[|seen| - 1];
      if k in order then order else order + [k]
  }

  /** The reference order holds exactly the values of `seen`. */
  lemma {:induction false} FirstOccurrencesMembers(seen: seq<string>, x: string)
    ensures x in FirstOccurrences(seen) <==> x in seen
  {
    if |seen| > 0 {
      var init, k := seen[..|seen| - 1], seen[|seen| - 1];
      assert seen == init + [k];
      FirstOccurrencesMembers(init, x);
      FirstOccurrencesMembers(init, k);
    }
  }

  lemma FirstOccurrencesAppend(seen: seq<string>, k: string)
    ensures FirstOccurrences(seen + [k])
            == if k in seen then FirstOccurrences(seen) else FirstOccurrences(seen) + [k]
  {
    assert (seen + [k])[..|seen|] == seen;
    FirstOccurrencesMembers(seen, k);
  }

  /** Appending one more value keeps an order that lists `seen` by first occurrence. */
  lemma AppendKeepsOrder(order: seq<string>, seen: seq<string>, k: string)
    requires FirstOccurrenceOrder(order, seen)
    ensures FirstOccurrenceOrder(if k in order then order else order + [k], seen + [k])
  {
    var order', seen' := if k in order then order else order + [k], seen + [k];
    forall x ensures x in order' <==> x in seen' {
      assert x in seen' <==> x in seen || x == k;
    }
    forall i, j | 0 <= i < j < |order'| ensures Precedes(seen', order'[i], order'[j]) {
      assert order'[i] == order[i];
      if j < |order| {
        assert order'[j] == order[j];
        PrecedesGrows(seen, order[i], order[j], k);
      } else {
        assert order[i] in order;
        PrecedesNewcomer(seen, order[i], k);
      }
    }
  }

  /** The reference order lists each distinct value once, ordered by first appearance. */
  lemma {:induction false} FirstOccurrencesOrder(seen: seq<string>)
    ensures FirstOccurrenceOrder(FirstOccurrences(seen), seen)
  {
    if |seen| > 0 {
      var init, k := seen[..|seen| - 1], seen[|seen| - 1];
      assert seen == init + [k];
      FirstOccurrencesOrder(init);
      AppendKeepsOrder(FirstOccurrences(init), init, k);
    }
  }

  /**
   Writing the keys of `seen` one after another, in order, leaves the record's
   key list equal to the first occurrences of `seen`.
   */
  lemma PutFollowsFirstOccurrences<V>(m: IMap<V>, seen: seq<string>, k: string, v: V)
    requires m.Valid() && m.keys == FirstOccurrences(seen)
    ensures m.Put(k, v).keys == FirstOccurrences(seen + [k])
  {
    FirstOccurrencesAppend(seen, k);
  }

  /** Sum of `f` over the values of the listed keys (missing keys add nothing). */
  function SumKeys<V>(keys: seq<string>, vals: map<string, V>, f: V -> nat): nat {
    if |keys| == 0 then 0
    else
      var k := keys[|keys| - 1];
      SumKeys(keys[..|keys| - 1], vals, f) + (if k in vals then f(vals[k]) else 0)
  }

  function SumBy<V>(m: IMap<V>, f: V -> nat): nat {
    SumKeys(m.keys, m.vals, f)
  }

  lemma {:induction false} SumKeysOther<V>(keys: seq<string>, vals: map<string, V>, f: V -> nat, k: string, v: V)
    requires k !in keys
    ensures SumKeys(keys, vals[k := v], f) == SumKeys(keys, vals, f)
  {
    if |keys| > 0 {
      SumKeysOther(keys[..|keys| - 1], vals, f, k, v);
    }
  }

  lemma {:induction false} SumKeysUpdate<V>(keys: seq<string>, vals: map<string, V>, f: V -> nat, k: string, v: V)
    requires NoDup(keys) && k in keys && k in vals
    ensures SumKeys(keys, vals[k := v], f) == SumKeys(keys, vals, f) - f(vals[k]) + f(v)
  {
    var n := |keys| - 1;
    var init := keys[..n];
    assert NoDup(init);
    if keys[n] == k {
      assert k !in init;
      SumKeysOther(init, vals, f, k, v);
    } else {
      assert k in init by {
        var i :| 0 <= i < |keys| && keys[i] == k;
        assert i < n;
        assert init[i] == k;
      }
      SumKeysUpdate(init, vals, f, k, v);
    }
  }

  /** Writing `k := v` replaces k's contribution to the sum (none if k was new) by f(v). */
  lemma SumByPut<V>(m: IMap<V>, f: V -> nat, k: string, v: V)
    requires m.Valid()
    ensures SumBy(m.Put(k, v), f) == SumBy(m, f) + f(v) - (if k in m.vals then f(m.vals[k]) else 0)
  {
    if k in m.vals {
      SumKeysUpdate(m.keys, m.vals, f, k, v);
    } else {
      var keys' := m.keys + [k];
      assert keys'[..|keys'| - 1] == m.keys;
      SumKeysOther(m.keys, m.vals, f, k, v);
    }
  }
}
