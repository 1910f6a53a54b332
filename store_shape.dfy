/** The shape of the backend's five tables and the consistency invariant that ties them
    together: every row sits under its own id, every stored interaction dictionary carries
    exactly the interaction keys, and every child row points at a stored interaction. */
module StoreShape {
  import opened Schemas
  import opened Tables

  /** A stored interaction dictionary: it has every interaction key (`Field` lists exactly
      the keys `create_interaction` writes) and its `id` entry is its own key. */
  ghost predicate IsRecord(d: map<Field, Value>, k: Id) {
    (forall f: Field :: f in d) && d[IdKey] == Str(k)
  }

  /** The keys whose stored value `get_interaction` replaces by a join over the child tables. */
  const ChildKeys: set<Field> := {MaterialsKey, SamplesKey, FollowUpsKey}

  /** The keys a patch may never overwrite. */
  const FrozenKeys: set<Field> := {IdKey, CreatedAtKey}

  // ---------------------------------------------------------------- table invariants

  ghost predicate HcpsValid(t: Table<Id, Hcp>) {
    t.Valid() && forall k :: k in t.rows ==> t.rows[k].id == k
  }

  ghost predicate InteractionsValid(t: Table<Id, map<Field, Value>>) {
    t.Valid() && forall k :: k in t.rows ==> IsRecord(t.rows[k], k)
  }

  /** A child table: each row sits under its own id and belongs to one of `owners`. */
  ghost predicate ChildrenValid<T>(t: Table<Id, Stored<T>>, owners: set<Id>) {
    t.Valid() && forall k :: k in t.rows ==> t.rows[k].id == k && t.rows[k].interactionId in owners
  }

  lemma ChildrenValidPut<T>(t: Table<Id, Stored<T>>, owners: set<Id>, row: Stored<T>)
    requires ChildrenValid(t, owners) && row.interactionId in owners
    ensures ChildrenValid(t.Put(row.id, row), owners)
  {
  }

  lemma ChildrenValidWiden<T>(t: Table<Id, Stored<T>>, owners: set<Id>, owners': set<Id>)
    requires ChildrenValid(t, owners) && owners <= owners'
    ensures ChildrenValid(t, owners')
  {
  }

  lemma InteractionsValidPut(t: Table<Id, map<Field, Value>>, k: Id, d: map<Field, Value>)
    requires InteractionsValid(t) && IsRecord(d, k)
    ensures InteractionsValid(t.Put(k, d))
    ensures t.Put(k, d).rows.Keys == t.rows.Keys + {k}
  {
  }

  ghost predicate StoreValid(hcps: Table<Id, Hcp>, interactions: Table<Id, map<Field, Value>>,
                             materials: Table<Id, Stored<MaterialCreate>>, samples: Table<Id, Stored<SampleCreate>>,
                             followUps: Table<Id, Stored<FollowUpCreate>>)
  {
    && HcpsValid(hcps)
    && InteractionsValid(interactions)
    && ChildrenValid(materials, interactions.rows.Keys)
    && ChildrenValid(samples, interactions.rows.Keys)
    && ChildrenValid(followUps, interactions.rows.Keys)
  }

  /** Storing an interaction dictionary with the interaction keys under its own id keeps the
      store consistent. */
  lemma PutInteractionKeepsValid(hcps: Table<Id, Hcp>, interactions: Table<Id, map<Field, Value>>,
                          materials: Table<Id, Stored<MaterialCreate>>, samples: Table<Id, Stored<SampleCreate>>,
                          followUps: Table<Id, Stored<FollowUpCreate>>, k: Id, d: map<Field, Value>)
    requires StoreValid(hcps, interactions, materials, samples, followUps)
    requires IsRecord(d, k)
    ensures StoreValid(hcps, interactions.Put(k, d), materials, samples, followUps)
  {
    InteractionsValidPut(interactions, k, d);
    ChildrenValidWiden(materials, interactions.rows.Keys, interactions.Put(k, d).rows.Keys);
    ChildrenValidWiden(samples, interactions.rows.Keys, interactions.Put(k, d).rows.Keys);
    ChildrenValidWiden(followUps, interactions.rows.Keys, interactions.Put(k, d).rows.Keys);
  }

  /** No id occurs twice. */
  ghost predicate Distinct(s: seq<Id>) {
    forall i, j :: 0 <= i < j < |s| ==> s[i] != s[j]
  }

  lemma ValuesAreRows<V>(t: Table<Id, V>)
    requires t.Valid()
    ensures forall v :: v in t.Values() <==> v in t.rows.Values
  {
    forall v | v in t.rows.Values ensures v in t.Values() {
      var k :| k in t.rows && t.rows[k] == v;
      var i :| 0 <= i < |t.order| && t.order[i] == k;
      assert t.Values()[i] == v;
    }
  }
}
