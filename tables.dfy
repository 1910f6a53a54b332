/** A Python `dict`: a finite map that remembers the order in which its keys were first
    inserted, which is the order `.values()` yields. Assigning to a key that is already
    present replaces its value and keeps its position. */
module Tables {
  import opened Wrappers

  datatype Table<K(!new), V> = Table(rows: map<K, V>, order: seq<K>) {

    /** Every key appears in `order` exactly once. */
    ghost predicate Valid() {
      && (forall i, j :: 0 <= i < j < |order| ==> order[i] != order[j])
      && (forall k :: k in rows <==> k in order)
    }

    /** `d.get(k)`. */
    function Get(k: K): (r: Option<V>)
      ensures r.Some? <==> k in rows
      ensures r.Some? ==> r.value == rows[k]
    {
      if k in rows then Some(rows[k]) else None
    }

    /** `list(d.values())`: the values in insertion order of their keys. */
    function Values(): (vs: seq<V>)
      requires Valid()
      ensures |vs| == |order|
      ensures forall i :: 0 <= i < |order| ==> vs[i] == rows[order[i]]
    {
      seq(|order|, i requires 0 <= i < |order| => rows[order[i]])
    }

    /** `d[k] = v`. */
    function Put(k: K, v: V): (t: Table<K, V>)
      requires Valid()
      ensures t.Valid()
      ensures t.rows == rows[k := v]
      ensures k in rows ==> t.order == order
      ensures k !in rows ==> t.order == order + [k]
    {
      if k in rows then Table(rows[k := v], order) else Table(rows[k := v], order + [k])
    }
  }

  function Empty<K(!new), V>(): (t: Table<K, V>)
    ensures t.Valid() && t.Values() == []
  {
    Table(map[], [])
  }

  /** Inserting under a new key appends its value to `.values()`. */
  lemma PutFreshValues<K(!new), V>(t: Table<K, V>, k: K, v: V)
    requires t.Valid() && k !in t.rows
    ensures t.Put(k, v).Values() == t.Values() + [v]
  {
    var t' := t.Put(k, v);
    assert forall i :: 0 <= i < |t.order| ==> t.order[i] != k;
    assert forall i :: 0 <= i < |t.order| ==> t'.Values()[i] == t.Values()[i];
  }

  /** Assigning to a present key replaces its value in place in `.values()`. */
  lemma PutExistingValues<K(!new), V>(t: Table<K, V>, k: K, v: V, pos: nat)
    requires t.Valid() && pos < |t.order| && t.order[pos] == k
    ensures t.Put(k, v).Values() == t.Values()[pos := v]
  {
    assert k in t.rows;
  }

  /** Assigning twice to the same key leaves what the second assignment wrote. */
  lemma PutTwice<K(!new), V>(t: Table<K, V>, k: K, a: V, b: V)
    requires t.Valid()
    ensures t.Put(k, a).Put(k, b) == t.Put(k, b)
  {
    assert t.Put(k, a).Put(k, b).rows == t.Put(k, b).rows;
  }

  /** Keys that are new to the table and pairwise distinct. */
  ghost predicate FreshKeys<K(!new), V>(t: Table<K, V>, ks: seq<K>) {
    && (forall i :: 0 <= i < |ks| ==> ks[i] !in t.rows)
    && (forall i, j :: 0 <= i < j < |ks| ==> ks[i] != ks[j])
  }
}
