/** The backend's in-memory store (`crud.py`): five module-level dictionaries keyed by uuid,
    modelled as the fields of one `Store` object. HCPs and child rows are typed records; a
    stored interaction is the plain dictionary the source builds, because `update_interaction`
    assigns arbitrary values to whichever of its keys a patch names. */
module Crud {
  import opened Wrappers
  import opened Schemas
  import opened Tables
  import opened Text
  import opened Seqs
  import opened StoreShape

  // ---------------------------------------------------------------- dictionary encodings

  function OptText(o: Option<string>): Value {
    match o
    case None => Null
    case Some(s) => Str(s)
  }

  function MaterialValue(m: Stored<MaterialCreate>): Value {
    Dict([("id", Str(m.id)), ("interaction_id", Str(m.interactionId)),
          ("material_type", Str(m.body.materialType)), ("quantity", Int(m.body.quantity)),
          ("notes", OptText(m.body.notes))])
  }

  function SampleValue(s: Stored<SampleCreate>): Value {
    Dict([("id", Str(s.id)), ("interaction_id", Str(s.interactionId)),
          ("product_code", Str(s.body.productCode)), ("quantity", Int(s.body.quantity)),
          ("lot", OptText(s.body.lot))])
  }

  function FollowUpValue(f: Stored<FollowUpCreate>): Value {
    Dict([("id", Str(f.id)), ("interaction_id", Str(f.interactionId)),
          ("due_date", OptText(f.body.dueDate)), ("action_item", Str(f.body.actionItem)),
          ("owner", OptText(f.body.owner)), ("status", OptText(f.body.status))])
  }

  function ListOf<T>(rows: seq<T>, enc: T -> Value): Value {
    List(seq(|rows|, i requires 0 <= i < |rows| => enc(rows[i])))
  }

  // ---------------------------------------------------------------- create_interaction rules

  /** Python's `x or default` on an optional string: the default replaces `None` and "". */
  function OrDefault(o: Option<string>, default: string): (s: string)
    ensures o.Some? && o.value != "" ==> s == o.value
    ensures o.None? || o.value == "" ==> s == default
  {
    if o.Some? && o.value != "" then o.value else default
  }

  function OrEmpty<T>(o: Option<seq<T>>): seq<T> {
    o.GetOr([])
  }

  /** The follow-up as stored: its `status` falls back to "open" when absent or empty. */
  function StoredFollowUp(f: FollowUpCreate): (g: FollowUpCreate)
    ensures g.actionItem == f.actionItem && g.dueDate == f.dueDate && g.owner == f.owner
    ensures g.status == Some(OrDefault(f.status, "open")) && g.status.value != ""
  {
    f.(status := Some(OrDefault(f.status, "open")))
  }

  function StoredFollowUps(fs: seq<FollowUpCreate>): (gs: seq<FollowUpCreate>)
    ensures |gs| == |fs|
    ensures forall i :: 0 <= i < |fs| ==> gs[i] == StoredFollowUp(fs[i])
  {
    seq(|fs|, i requires 0 <= i < |fs| => StoredFollowUp(fs[i]))
  }

  /** The value `create_interaction` stores under key `f` before it attaches children. */
  function RecordValue(x: InteractionCreate, id: Id, now: DateTime, f: Field): Value {
    match f
    case IdKey => Str(id)
    case HcpIdKey => OptText(x.hcpId)
    case RepIdKey => OptText(x.repId)
    case ModeKey => Str(OrDefault(x.mode, "conversational"))
    case DatetimeKey => OptText(x.datetime)
    case SummaryKey => OptText(x.summary)
    case SentimentKey => if x.sentiment.Some? then Str(x.sentiment.value.Text()) else Null
    case TopicsKey =>
      if x.topics.Some? then List(seq(|x.topics.value|, i requires 0 <= i < |x.topics.value| => Str(x.topics.value[i])))
      else Null
    case OutcomeKey => OptText(x.outcome)
    case SourceRawKey => OptText(x.sourceRaw)
    case CreatedAtKey => Str(now)
    case UpdatedAtKey => Str(now)
    case MaterialsKey => List([])
    case SamplesKey => List([])
    case FollowUpsKey => List([])
  }

  /** The dictionary `create_interaction` stores before it attaches children. */
  function InteractionRecord(x: InteractionCreate, id: Id, now: DateTime): (d: map<Field, Value>)
    ensures IsRecord(d, id)
    ensures forall f :: d[f] == RecordValue(x, id, now, f)
  {
    AllFieldsListed();
    map f | f in AllFields :: RecordValue(x, id, now, f)
  }

  /** The stored dictionary carries its own id, both timestamps set to the time of the call,
      the mode defaulted to "conversational", the sentiment's text or `None`, and empty child
      lists. */
  lemma InteractionRecordDefaults(x: InteractionCreate, id: Id, now: DateTime)
    ensures var d := InteractionRecord(x, id, now);
            && d[IdKey] == Str(id) && d[CreatedAtKey] == Str(now) && d[UpdatedAtKey] == Str(now)
            && d[ModeKey] == Str(OrDefault(x.mode, "conversational"))
            && d[SentimentKey] == (if x.sentiment.Some? then Str(x.sentiment.value.Text()) else Null)
            && forall k :: k in ChildKeys ==> d[k] == List([])
  {
  }

  /** The stored dictionary once `create_interaction` has attached the child rows it created. */
  function WithChildren(record: map<Field, Value>, v: InteractionView): (d: map<Field, Value>)
    ensures d.Keys == record.Keys + ChildKeys
    ensures forall f :: f in record && f !in ChildKeys ==> d[f] == record[f]
    ensures d - ChildKeys == record - ChildKeys
  {
    record[MaterialsKey := ListOf(v.materials, MaterialValue)][SamplesKey := ListOf(v.samples, SampleValue)][FollowUpsKey := ListOf(v.followUps, FollowUpValue)]
  }

  /** Writing the child lists into a stored dictionary keeps it a stored dictionary. */
  lemma RecordWithChildren(record: map<Field, Value>, v: InteractionView, iid: Id)
    requires IsRecord(record, iid)
    ensures IsRecord(WithChildren(record, v), iid)
  {
    assert IdKey !in ChildKeys;
  }

  /** The `uuid4()` calls `create_interaction` makes: one for the interaction, then one per
      material, sample and follow-up. */
  function UuidCalls(x: InteractionCreate): nat {
    1 + |OrEmpty(x.materials)| + |OrEmpty(x.samples)| + |OrEmpty(x.followUps)|
  }

  /** The rows of a child table that belong to one interaction, in table order
      (`[m for m in _materials.values() if m["interaction_id"] == interaction_id]`). */
  function ChildrenOf<T>(rows: seq<Stored<T>>, interactionId: Id): seq<Stored<T>> {
    Filter(rows, BelongsTo(interactionId))
  }

  /** A patch applied to a stored interaction dictionary: a key is overwritten when the
      dictionary already has it and it is not `id` or `created_at`; other keys are ignored. */
  function Patched(d: map<Field, Value>, patch: map<string, Value>): (e: map<Field, Value>)
    ensures e.Keys == d.Keys
    ensures forall f :: f in d && f.Name() in patch && f !in FrozenKeys ==> e[f] == patch[f.Name()]
    ensures forall f :: f in d && (f.Name() !in patch || f in FrozenKeys) ==> e[f] == d[f]
  {
    map f | f in d :: if f.Name() in patch && f !in FrozenKeys then patch[f.Name()] else d[f]
  }

  /** The dictionary `update_interaction` stores: the patch applied, then `updated_at`
      stamped with the current time. */
  function Updated(d: map<Field, Value>, patch: map<string, Value>, now: DateTime): map<Field, Value> {
    Patched(d, patch)[UpdatedAtKey := Str(now)]
  }

  /** What an update does to a stored dictionary: it keeps the keys, `id` and `created_at`,
      stamps `updated_at`, takes every other key the patch names from the patch and leaves
      the rest alone; a patch key that names no stored key changes nothing. */
  lemma UpdatedFields(d: map<Field, Value>, patch: map<string, Value>, now: DateTime)
    requires forall f: Field :: f in d
    ensures Updated(d, patch, now).Keys == d.Keys
    ensures Updated(d, patch, now)[UpdatedAtKey] == Str(now)
    ensures forall f :: f in FrozenKeys ==> Updated(d, patch, now)[f] == d[f]
    ensures forall f :: f in d && f.Name() !in patch && f != UpdatedAtKey ==> Updated(d, patch, now)[f] == d[f]
    ensures forall f :: f in d && f.Name() in patch && f !in FrozenKeys && f != UpdatedAtKey ==> Updated(d, patch, now)[f] == patch[f.Name()]
    ensures forall k :: k in patch && FieldNamed(k).None? ==> Updated(d, patch, now) == Updated(d, patch - {k}, now)
  {
    forall k | k in patch && FieldNamed(k).None?
      ensures Updated(d, patch, now) == Updated(d, patch - {k}, now)
    {
      assert Patched(d, patch) == Patched(d, patch - {k});
    }
  }

  /** An update keeps the interaction keys and the id. */
  lemma UpdatedKeepsShape(d: map<Field, Value>, patch: map<string, Value>, now: DateTime, k: Id)
    requires IsRecord(d, k)
    ensures IsRecord(Updated(d, patch, now), k)
  {
    assert IdKey in FrozenKeys;
  }

  /** `search_hcp_by_name`'s test: the lower-cased query occurs in the lower-cased name. */
  function NameMatches(query: string): Hcp -> bool {
    (h: Hcp) => IsInfix(Lower(query), Lower(h.name))
  }

  /** The rows of one interaction, as `get_interaction` selects them. */
  function BelongsTo<T>(interactionId: Id): Stored<T> -> bool {
    (m: Stored<T>) => m.interactionId == interactionId
  }

  /** The join of a child table holds exactly its rows that point at `interactionId`. */
  lemma ChildrenExactly<T>(t: Table<Id, Stored<T>>, interactionId: Id)
    requires t.Valid()
    ensures forall m :: m in ChildrenOf(t.Values(), interactionId) <==> m in t.rows.Values && m.interactionId == interactionId
  {
    ValuesAreRows(t);
    FilterMembers(t.Values(), BelongsTo(interactionId));
  }

  /** A table whose rows all belong to other interactions has no children of `interactionId`. */
  lemma NoChildren<T>(t: Table<Id, Stored<T>>, owners: set<Id>, interactionId: Id)
    requires ChildrenValid(t, owners) && interactionId !in owners
    ensures ChildrenOf(t.Values(), interactionId) == []
  {
    forall i | 0 <= i < |t.Values()| ensures !BelongsTo(interactionId)(t.Values()[i]) {
      assert t.order[i] in t.rows;
    }
    FilterNone(t.Values(), BelongsTo(interactionId));
  }

  /** Rows appended under `interactionId` come last in its join, in the order they were appended. */
  lemma ChildrenOfAppend<T>(rows: seq<Stored<T>>, added: seq<Stored<T>>, interactionId: Id)
    requires forall i :: 0 <= i < |added| ==> added[i].interactionId == interactionId
    ensures ChildrenOf(rows + added, interactionId) == ChildrenOf(rows, interactionId) + added
  {
    FilterConcat(rows, added, BelongsTo(interactionId));
    FilterAll(added, BelongsTo(interactionId));
  }

  /** The join `get_interaction` performs: the stored dictionary without its child lists,
      plus the rows of each child table that point at the interaction. */
  function JoinView(interactions: Table<Id, map<Field, Value>>, materials: Table<Id, Stored<MaterialCreate>>,
                    samples: Table<Id, Stored<SampleCreate>>, followUps: Table<Id, Stored<FollowUpCreate>>,
                    interactionId: Id): Option<InteractionView>
    requires materials.Valid() && samples.Valid() && followUps.Valid()
  {
    if interactionId !in interactions.rows then None
    else Some(InteractionView(
      interactions.rows[interactionId] - ChildKeys,
      ChildrenOf(materials.Values(), interactionId),
      ChildrenOf(samples.Values(), interactionId),
      ChildrenOf(followUps.Values(), interactionId)))
  }

  /** The `count` `uuid4()` results from position `start` on. */
  function Ids(uuids: seq<Id>, start: nat, count: nat): (ids: seq<Id>)
    requires start + count <= |uuids|
    ensures |ids| == count
    ensures forall j :: 0 <= j < count ==> ids[j] == uuids[start + j]
  {
    seq(count, j requires 0 <= j < count => uuids[start + j])
  }

  /** `rows` are `bodies` in order, each stored under the interaction `interactionId` with the
      `uuid4()` result at position `start` onwards as its id. */
  ghost predicate StoredFrom<T>(rows: seq<Stored<T>>, uuids: seq<Id>, start: nat, interactionId: Id, bodies: seq<T>)
  {
    && |rows| == |bodies| && start + |bodies| <= |uuids|
    && forall i :: 0 <= i < |rows| ==> rows[i] == Stored(uuids[start + i], interactionId, bodies[i])
  }

  /** The `uuid4()` results from position `start` on are unused in `t` when every result
      after the first is, and they are distinct when all the results are. */
  lemma FreshIds<V>(uuids: seq<Id>, start: nat, count: nat, t: Table<Id, V>)
    requires Distinct(uuids) && 0 < start && start + count <= |uuids|
    requires forall i :: 0 < i < |uuids| ==> uuids[i] !in t.rows
    ensures FreshKeys(t, Ids(uuids, start, count))
  {
  }

  /** One of the three child loops of `create_interaction`: each body, in input order, gets
      the next `uuid4()` result as its id and the new interaction's id, and is appended to the
      table. */
  method AttachChildren<T>(t: Table<Id, Stored<T>>, ghost owners: set<Id>, bodies: seq<T>, uuids: seq<Id>, start: nat, interactionId: Id)
    returns (rows: seq<Stored<T>>, t': Table<Id, Stored<T>>)
    requires start + |bodies| <= |uuids| && FreshKeys(t, Ids(uuids, start, |bodies|))
    requires ChildrenValid(t, owners) && interactionId in owners
    ensures StoredFrom(rows, uuids, start, interactionId, bodies)
    ensures ChildrenValid(t', owners)
    ensures t'.Values() == t.Values() + rows
  {
    var ids := Ids(uuids, start, |bodies|);
    rows, t' := [], t;
    var i := 0;
    while i < |bodies|
      invariant 0 <= i <= |bodies|
      invariant |rows| == i
      invariant forall j :: 0 <= j < i ==> rows[j] == Stored(ids[j], interactionId, bodies[j])
      invariant ChildrenValid(t', owners)
      invariant t'.rows.Keys == t.rows.Keys + set j | 0 <= j < i :: ids[j]
      invariant t'.Values() == t.Values() + rows
    {
      var row := Stored(ids[i], interactionId, bodies[i]);
      PutFreshValues(t', row.id, row);
      ChildrenValidPut(t', owners, row);
      t' := t'.Put(row.id, row);
      rows := rows + [row];
      i := i + 1;
    }
  }

  /** The body of `update_interaction` on the stored dictionary: the patch loop, then the
      `updated_at` stamp. Python visits the patch's keys in insertion order; each step touches
      a different key, so the order does not matter. */
  method ApplyUpdate(orig: map<Field, Value>, patch: map<string, Value>, now: DateTime) returns (d: map<Field, Value>)
    ensures d == Updated(orig, patch, now)
  {
    d := orig;
    var todo := patch.Keys;
    while todo != {}
      invariant todo <= patch.Keys
      invariant d.Keys == orig.Keys
      invariant forall f :: f in d ==> d[f] == if f.Name() in patch && f.Name() !in todo && f !in FrozenKeys then patch[f.Name()] else orig[f]
      decreases |todo|
    {
      var k :| k in todo;
      var key := FieldNamed(k);
      if key.Some? && key.value in d && key.value !in FrozenKeys {
        d := d[key.value := patch[k]];
      }
      forall f: Field ensures FieldNamed(f.Name()) == Some(f) {
        FieldNamedName(f);
      }
      todo := todo - {k};
    }
    assert d == Patched(orig, patch);
    d := d[UpdatedAtKey := Str(now)];
  }

  class Store {
    var hcps: Table<Id, Hcp>
    var interactions: Table<Id, map<Field, Value>>
    var materials: Table<Id, Stored<MaterialCreate>>
    var samples: Table<Id, Stored<SampleCreate>>
    var followUps: Table<Id, Stored<FollowUpCreate>>

    /** Each table is a well-formed dictionary, every record sits under its own id, every
        interaction dictionary has exactly the interaction keys, and every child row belongs
        to a stored interaction. */
    ghost predicate Valid()
      reads this
    {
      StoreValid(hcps, interactions, materials, samples, followUps)
    }

    /** The `uuid4()` results are pairwise distinct and unused: the first in the interaction
        table, the others in every child table. */
    ghost predicate FreshFor(uuids: seq<Id>)
      reads this
    {
      && (|uuids| > 0 ==> uuids[0] !in interactions.rows)
      && FreshChildIds(uuids)
    }

    /** The `uuid4()` results are pairwise distinct and those after the first are unused in
        every child table. */
    ghost predicate FreshChildIds(uuids: seq<Id>)
      reads this
    {
      && Distinct(uuids)
      && forall i :: 0 < i < |uuids| ==> uuids[i] !in materials.rows && uuids[i] !in samples.rows && uuids[i] !in followUps.rows
    }

    /** The module starts with five empty dictionaries. */
    constructor ()
      ensures Valid()
      ensures hcps.Values() == [] && interactions.Values() == []
      ensures materials.Values() == [] && samples.Values() == [] && followUps.Values() == []
    {
      hcps, interactions := Empty(), Empty();
      materials, samples, followUps := Empty(), Empty(), Empty();
    }

    /** `get_hcp_by_id`. */
    function GetHcpById(hcpId: Id): (r: Option<Hcp>)
      reads this
      requires Valid()
      ensures r.Some? <==> hcpId in hcps.rows
      ensures r.Some? ==> r.value.id == hcpId && r.value == hcps.rows[hcpId]
    {
      hcps.Get(hcpId)
    }

    /** The stored HCPs whose name contains `query`, ignoring case, in insertion order. */
    function Matching(query: string): seq<Hcp>
      reads this
      requires Valid()
    {
      Filter(hcps.Values(), NameMatches(query))
    }

    /** `search_hcp_by_name`: a prefix of the matching HCPs in insertion order, cut by Python's
        `[:limit]` slice. */
    function SearchHcpByName(query: string, limit: int := 10): (r: seq<Hcp>)
      reads this
      requires Valid()
      ensures forall i :: 0 <= i < |r| ==> r[i] in hcps.rows.Values && IsInfix(Lower(query), Lower(r[i].name))
      ensures r <= Matching(query)
      ensures limit >= 0 ==> |r| == Min(limit, |Matching(query)|)
      ensures limit < 0 ==> |r| == if |Matching(query)| + limit > 0 then |Matching(query)| + limit else 0
      ensures limit >= |hcps.order| ==> forall k :: k in hcps.rows && IsInfix(Lower(query), Lower(hcps.rows[k].name)) ==> hcps.rows[k] in r
    {
      var all := hcps.Values();
      var m := Matching(query);
      ValuesAreRows(hcps);
      FilterMembers(all, NameMatches(query));
      assert forall i :: 0 <= i < |m| ==> m[i] in all;
      Take(m, limit)
    }

    /** `get_interaction`: the stored dictionary with its three child lists re-joined from the
        child tables; `None` for an unknown id. */
    function GetInteraction(interactionId: Id): (r: Option<InteractionView>)
      reads this
      requires Valid()
      ensures r.Some? <==> interactionId in interactions.rows
      ensures r.Some? ==> (forall f :: f in r.value.fields <==> f !in ChildKeys) && r.value.fields[IdKey] == Str(interactionId)
      ensures r.Some? ==> forall k :: k in r.value.fields ==> r.value.fields[k] == interactions.rows[interactionId][k]
    {
      JoinView(interactions, materials, samples, followUps, interactionId)
    }

    /** The child lists `get_interaction` returns hold exactly the stored rows that point at
        the interaction. */
    lemma GetInteractionChildren(interactionId: Id)
      requires Valid() && interactionId in interactions.rows
      ensures forall m :: m in GetInteraction(interactionId).value.materials <==> m in materials.rows.Values && m.interactionId == interactionId
      ensures forall s :: s in GetInteraction(interactionId).value.samples <==> s in samples.rows.Values && s.interactionId == interactionId
      ensures forall f :: f in GetInteraction(interactionId).value.followUps <==> f in followUps.rows.Values && f.interactionId == interactionId
    {
      ChildrenExactly(materials, interactionId);
      ChildrenExactly(samples, interactionId);
      ChildrenExactly(followUps, interactionId);
    }

    /** `create_hcp`: the record is stored under the id of its one `uuid4()` call (`hcpId`),
        with both timestamps set to `now`; nothing else changes. */
    method CreateHcp(x: HcpCreate, hcpId: Id, now: DateTime) returns (h: Hcp)
      requires Valid()
      modifies this`hcps
      ensures Valid()
      ensures h == Hcp(hcpId, x.name, x.title, x.speciality, x.organisation, x.contact, now, now)
      ensures hcps == old(hcps).Put(hcpId, h)
      ensures hcpId !in old(hcps.rows) ==> hcps.Values() == old(hcps.Values()) + [h]
      ensures GetHcpById(hcpId) == Some(h)
      ensures forall k :: k in old(hcps.rows) && k != hcpId ==> k in hcps.rows && hcps.rows[k] == old(hcps.rows[k])
    {
      h := Hcp(hcpId, x.name, x.title, x.speciality, x.organisation, x.contact, now, now);
      if hcpId !in hcps.rows { PutFreshValues(hcps, hcpId, h); }
      hcps := hcps.Put(hcpId, h);
    }

    /** `create_interaction`. `uuids` are the results of its `uuid4()` calls in order: the
        first names the interaction, the next ones its materials, samples and follow-ups in
        input order. The interaction is appended to the interaction table and each child to its
        table; the returned view is what `get_interaction` gives for the new id afterwards. */
    method CreateInteraction(x: InteractionCreate, uuids: seq<Id>, now: DateTime) returns (v: InteractionView)
      requires Valid() && |uuids| == UuidCalls(x) && FreshFor(uuids)
      modifies this`interactions, this`materials, this`samples, this`followUps
      ensures Valid()
      ensures v.fields == InteractionRecord(x, uuids[0], now) - ChildKeys
      ensures StoredFrom(v.materials, uuids, 1, uuids[0], OrEmpty(x.materials))
      ensures StoredFrom(v.samples, uuids, 1 + |OrEmpty(x.materials)|, uuids[0], OrEmpty(x.samples))
      ensures StoredFrom(v.followUps, uuids, 1 + |OrEmpty(x.materials)| + |OrEmpty(x.samples)|, uuids[0], StoredFollowUps(OrEmpty(x.followUps)))
      ensures interactions.order == old(interactions.order) + [uuids[0]]
      ensures interactions == old(interactions).Put(uuids[0], WithChildren(InteractionRecord(x, uuids[0], now), v))
      ensures materials.Values() == old(materials.Values()) + v.materials
      ensures samples.Values() == old(samples.Values()) + v.samples
      ensures followUps.Values() == old(followUps.Values()) + v.followUps
      ensures GetInteraction(uuids[0]) == Some(v)
    {
      v := InsertInteraction(uuids[0], InteractionRecord(x, uuids[0], now), OrEmpty(x.materials), OrEmpty(x.samples), StoredFollowUps(OrEmpty(x.followUps)), uuids);
    }

    /** The store side of `create_interaction` for a prepared interaction dictionary `record`
        and the bodies of its children, each child list with the ids its loop draws. */
    method InsertInteraction(iid: Id, record: map<Field, Value>, ms: seq<MaterialCreate>, ss: seq<SampleCreate>, fs: seq<FollowUpCreate>,
                             uuids: seq<Id>)
      returns (v: InteractionView)
      requires Valid() && IsRecord(record, iid) && |uuids| == 1 + |ms| + |ss| + |fs| && uuids[0] == iid && FreshFor(uuids)
      modifies this`interactions, this`materials, this`samples, this`followUps
      ensures Valid()
      ensures v.fields == record - ChildKeys
      ensures StoredFrom(v.materials, uuids, 1, iid, ms)
      ensures StoredFrom(v.samples, uuids, 1 + |ms|, iid, ss)
      ensures StoredFrom(v.followUps, uuids, 1 + |ms| + |ss|, iid, fs)
      ensures interactions.order == old(interactions.order) + [iid]
      ensures interactions == old(interactions).Put(iid, WithChildren(record, v))
      ensures materials.Values() == old(materials.Values()) + v.materials
      ensures samples.Values() == old(samples.Values()) + v.samples
      ensures followUps.Values() == old(followUps.Values()) + v.followUps
      ensures GetInteraction(iid) == Some(v)
    {
      NoChildren(materials, interactions.rows.Keys, iid);
      NoChildren(samples, interactions.rows.Keys, iid);
      NoChildren(followUps, interactions.rows.Keys, iid);
      SetInteraction(iid, record);
      var mats, samps, fus := AttachAll(iid, ms, ss, fs, uuids);
      v := InteractionView(record - ChildKeys, mats, samps, fus);
      AttachViewLists(iid, record, v);
      PutTwice(old(interactions), iid, record, WithChildren(record, v));
    }

    /** The tail of `create_interaction`: `inter` is the dictionary already stored under
        `iid`, so writing the three child lists into it updates the stored entry in place (its
        position in the table does not change), and the entry then reads back as `v`. */
    method AttachViewLists(iid: Id, record: map<Field, Value>, v: InteractionView)
      requires Valid() && IsRecord(record, iid) && iid in interactions.rows
      requires v.fields == record - ChildKeys
      requires v.materials == ChildrenOf(materials.Values(), iid)
      requires v.samples == ChildrenOf(samples.Values(), iid)
      requires v.followUps == ChildrenOf(followUps.Values(), iid)
      modifies this`interactions
      ensures Valid()
      ensures interactions == old(interactions).Put(iid, WithChildren(record, v))
      ensures GetInteraction(iid) == Some(v)
    {
      var final := WithChildren(record, v);
      RecordWithChildren(record, v, iid);
      SetInteraction(iid, final);
      assert interactions.rows[iid] - ChildKeys == v.fields;
      JoinedView(iid, v);
    }

    /** The three child loops of `create_interaction`, in source order. */
    method AttachAll(interactionId: Id, ms: seq<MaterialCreate>, ss: seq<SampleCreate>, fs: seq<FollowUpCreate>,
                     uuids: seq<Id>)
      returns (mats: seq<Stored<MaterialCreate>>, samps: seq<Stored<SampleCreate>>, fus: seq<Stored<FollowUpCreate>>)
      requires Valid() && interactionId in interactions.rows && |uuids| == 1 + |ms| + |ss| + |fs| && FreshChildIds(uuids)
      modifies this`materials, this`samples, this`followUps
      ensures Valid()
      ensures StoredFrom(mats, uuids, 1, interactionId, ms)
      ensures StoredFrom(samps, uuids, 1 + |ms|, interactionId, ss)
      ensures StoredFrom(fus, uuids, 1 + |ms| + |ss|, interactionId, fs)
      ensures materials.Values() == old(materials.Values()) + mats
      ensures samples.Values() == old(samples.Values()) + samps
      ensures followUps.Values() == old(followUps.Values()) + fus
      ensures ChildrenOf(materials.Values(), interactionId) == ChildrenOf(old(materials.Values()), interactionId) + mats
      ensures ChildrenOf(samples.Values(), interactionId) == ChildrenOf(old(samples.Values()), interactionId) + samps
      ensures ChildrenOf(followUps.Values(), interactionId) == ChildrenOf(old(followUps.Values()), interactionId) + fus
    {
      mats := AttachMaterials(ms, uuids, 1, interactionId);
      samps := AttachSamples(ss, uuids, 1 + |ms|, interactionId);
      fus := AttachFollowUps(fs, uuids, 1 + |ms| + |ss|, interactionId);
    }

    /** The materials loop of `create_interaction`. */
    method AttachMaterials(bodies: seq<MaterialCreate>, uuids: seq<Id>, start: nat, interactionId: Id)
      returns (rows: seq<Stored<MaterialCreate>>)
      requires Valid() && interactionId in interactions.rows
      requires Distinct(uuids) && 0 < start && start + |bodies| <= |uuids|
      requires forall i :: 0 < i < |uuids| ==> uuids[i] !in materials.rows
      modifies this`materials
      ensures Valid()
      ensures StoredFrom(rows, uuids, start, interactionId, bodies)
      ensures materials.Values() == old(materials.Values()) + rows
      ensures ChildrenOf(materials.Values(), interactionId) == ChildrenOf(old(materials.Values()), interactionId) + rows
    {
      FreshIds(uuids, start, |bodies|, materials);
      rows, materials := AttachChildren(materials, interactions.rows.Keys, bodies, uuids, start, interactionId);
      ChildrenOfAppend(old(materials.Values()), rows, interactionId);
    }

    /** The samples loop of `create_interaction`. */
    method AttachSamples(bodies: seq<SampleCreate>, uuids: seq<Id>, start: nat, interactionId: Id)
      returns (rows: seq<Stored<SampleCreate>>)
      requires Valid() && interactionId in interactions.rows
      requires Distinct(uuids) && 0 < start && start + |bodies| <= |uuids|
      requires forall i :: 0 < i < |uuids| ==> uuids[i] !in samples.rows
      modifies this`samples
      ensures Valid()
      ensures StoredFrom(rows, uuids, start, interactionId, bodies)
      ensures samples.Values() == old(samples.Values()) + rows
      ensures ChildrenOf(samples.Values(), interactionId) == ChildrenOf(old(samples.Values()), interactionId) + rows
    {
      FreshIds(uuids, start, |bodies|, samples);
      rows, samples := AttachChildren(samples, interactions.rows.Keys, bodies, uuids, start, interactionId);
      ChildrenOfAppend(old(samples.Values()), rows, interactionId);
    }

    /** The follow-ups loop of `create_interaction` (its bodies already carry the stored
        defaults). */
    method AttachFollowUps(bodies: seq<FollowUpCreate>, uuids: seq<Id>, start: nat, interactionId: Id)
      returns (rows: seq<Stored<FollowUpCreate>>)
      requires Valid() && interactionId in interactions.rows
      requires Distinct(uuids) && 0 < start && start + |bodies| <= |uuids|
      requires forall i :: 0 < i < |uuids| ==> uuids[i] !in followUps.rows
      modifies this`followUps
      ensures Valid()
      ensures StoredFrom(rows, uuids, start, interactionId, bodies)
      ensures followUps.Values() == old(followUps.Values()) + rows
      ensures ChildrenOf(followUps.Values(), interactionId) == ChildrenOf(old(followUps.Values()), interactionId) + rows
    {
      FreshIds(uuids, start, |bodies|, followUps);
      rows, followUps := AttachChildren(followUps, interactions.rows.Keys, bodies, uuids, start, interactionId);
      ChildrenOfAppend(old(followUps.Values()), rows, interactionId);
    }

    /** A view whose fields are the stored dictionary without its child lists and whose child
        lists are the joins is what `get_interaction` returns. */
    lemma JoinedView(interactionId: Id, v: InteractionView)
      requires Valid() && interactionId in interactions.rows
      requires v.fields == interactions.rows[interactionId] - ChildKeys
      requires v.materials == ChildrenOf(materials.Values(), interactionId)
      requires v.samples == ChildrenOf(samples.Values(), interactionId)
      requires v.followUps == ChildrenOf(followUps.Values(), interactionId)
      ensures GetInteraction(interactionId) == Some(v)
    {
    }

    /** `update_interaction`: an unknown id gives `None` and changes nothing; otherwise the
        patch overwrites the keys the dictionary already has except `id` and `created_at`,
        `updated_at` becomes `now`, and the result is re-read with `get_interaction`, so its
        child lists come from the child tables whatever the patch said about them. */
    method UpdateInteraction(interactionId: Id, patch: map<string, Value>, now: DateTime) returns (r: Option<InteractionView>)
      requires Valid()
      modifies this`interactions
      ensures Valid()
      ensures interactionId !in old(interactions.rows) ==> r == None && interactions == old(interactions)
      ensures interactionId in old(interactions.rows) ==>
        interactions == old(interactions).Put(interactionId, Updated(old(interactions.rows[interactionId]), patch, now))
      ensures r == GetInteraction(interactionId)
      ensures r.Some? ==>
        && r.value.fields == Updated(old(interactions.rows[interactionId]), patch, now) - ChildKeys
        && r.value.materials == ChildrenOf(materials.Values(), interactionId)
        && r.value.samples == ChildrenOf(samples.Values(), interactionId)
        && r.value.followUps == ChildrenOf(followUps.Values(), interactionId)
    {
      if interactionId !in interactions.rows {
        return None;
      }
      var orig := interactions.rows[interactionId];
      var d := ApplyUpdate(orig, patch, now);
      UpdatedKeepsShape(orig, patch, now, interactionId);
      SetInteraction(interactionId, d);
      r := GetInteraction(interactionId);
    }

    /** Stores an interaction dictionary of the right shape under its own id
        (`_interactions[k] = d`); the other tables do not change. */
    method SetInteraction(k: Id, d: map<Field, Value>)
      requires Valid() && IsRecord(d, k)
      modifies this`interactions
      ensures Valid()
      ensures interactions == old(interactions).Put(k, d)
    {
      PutInteractionKeepsValid(hcps, interactions, materials, samples, followUps, k, d);
      interactions := interactions.Put(k, d);
    }
  }
}
