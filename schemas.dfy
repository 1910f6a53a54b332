/** The record types of the backend (`schemas.py`): what a client may send to create an HCP or
    an interaction, with the defaults pydantic fills in, and the stored shapes the store hands
    back. Constructor parameters with `:=` carry exactly the defaults of the pydantic models. */
module Schemas {
  import opened Wrappers

  /** A `uuid4` rendered as text. */
  type Id = string

  /** A timestamp, represented by its ISO-8601 text. */
  type DateTime = string

  /** A JSON-like dynamic value: what a Python `dict` entry may hold. A dictionary is its
      list of entries in insertion order, which is the order Python iterates and prints it in;
      a key given twice counts with its last value, as `json.loads` keeps it. */
  datatype Value =
    | Null
    | Bool(b: bool)
    | Int(i: int)
    | Str(s: string)
    | List(items: seq<Value>)
    | Dict(entries: seq<(string, Value)>)

  /** `Sentiment(str, Enum)`: exactly three members. */
  datatype Sentiment = Positive | Neutral | Negative {
    /** The enum member's `.value`. */
    function Text(): (s: string)
      ensures s in {"positive", "neutral", "negative"}
    {
      match this
      case Positive => "positive"
      case Neutral => "neutral"
      case Negative => "negative"
    }
  }

  /** Pydantic's coercion of a string to `Sentiment`: it succeeds exactly for the three member
      values and then yields the member with that value. */
  function ParseSentiment(s: string): (r: Option<Sentiment>)
    ensures r.Some? <==> s in {"positive", "neutral", "negative"}
    ensures r.Some? ==> r.value.Text() == s
  {
    if s == "positive" then Some(Positive)
    else if s == "neutral" then Some(Neutral)
    else if s == "negative" then Some(Negative)
    else None
  }

  /** Every member parses back from its value, so `Text` is injective. */
  lemma SentimentRoundTrip(x: Sentiment)
    ensures ParseSentiment(x.Text()) == Some(x)
  {
  }

  /** `MaterialSharedCreate`: `material_type` is required; `quantity` (no lower bound) and
      `notes` have defaults. */
  datatype MaterialCreate = MaterialCreate(materialType: string, quantity: int := 0, notes: Option<string> := None)

  /** `SampleCreate`: `product_code` is required. */
  datatype SampleCreate = SampleCreate(productCode: string, quantity: int := 0, lot: Option<string> := None)

  /** `FollowUpCreate`: `action_item` is required; `status` defaults to "open". */
  datatype FollowUpCreate = FollowUpCreate(
    actionItem: string,
    dueDate: Option<DateTime> := None,
    owner: Option<string> := None,
    status: Option<string> := Some("open"))

  /** `HCPCreate`: only `name` is required. */
  datatype HcpCreate = HcpCreate(
    name: string,
    title: Option<string> := None,
    speciality: Option<string> := None,
    organisation: Option<string> := None,
    contact: Option<Value> := None)

  /** `InteractionCreate`: every scalar is optional, `mode` defaults to "conversational" and
      the three child lists default to empty (an explicit `None` is still admitted). */
  datatype InteractionCreate = InteractionCreate(
    hcpId: Option<Id> := None,
    repId: Option<string> := None,
    mode: Option<string> := Some("conversational"),
    datetime: Option<DateTime> := None,
    summary: Option<string> := None,
    sentiment: Option<Sentiment> := None,
    topics: Option<seq<string>> := None,
    outcome: Option<string> := None,
    sourceRaw: Option<string> := None,
    materials: Option<seq<MaterialCreate>> := Some([]),
    samples: Option<seq<SampleCreate>> := Some([]),
    followUps: Option<seq<FollowUpCreate>> := Some([]))

  /** A stored child row (`MaterialShared`, `Sample`, `FollowUp`): the create shape plus its
      own `id` and the `interaction_id` it belongs to. */
  datatype Stored<T> = Stored(id: Id, interactionId: Id, body: T)

  /** A stored HCP (`HCP`). */
  datatype Hcp = Hcp(
    id: Id,
    name: string,
    title: Option<string>,
    speciality: Option<string>,
    organisation: Option<string>,
    contact: Option<Value>,
    createdAt: DateTime,
    updatedAt: DateTime)

  /** The keys of a stored interaction dictionary: the fields of `InteractionBase`, its `id`,
      the two timestamps and the three child lists. */
  datatype Field =
    | IdKey | HcpIdKey | RepIdKey | ModeKey | DatetimeKey | SummaryKey | SentimentKey | TopicsKey
    | OutcomeKey | SourceRawKey | CreatedAtKey | UpdatedAtKey | MaterialsKey | SamplesKey | FollowUpsKey
  {
    /** The key as the Python dictionary spells it. */
    function Name(): string {
      match this
      case IdKey => "id"
      case HcpIdKey => "hcp_id"
      case RepIdKey => "rep_id"
      case ModeKey => "mode"
      case DatetimeKey => "datetime"
      case SummaryKey => "summary"
      case SentimentKey => "sentiment"
      case TopicsKey => "topics"
      case OutcomeKey => "outcome"
      case SourceRawKey => "source_raw"
      case CreatedAtKey => "created_at"
      case UpdatedAtKey => "updated_at"
      case MaterialsKey => "materials"
      case SamplesKey => "samples"
      case FollowUpsKey => "follow_ups"
    }
  }

  /** The stored key a dictionary key names, if any. */
  function FieldNamed(s: string): (r: Option<Field>)
    ensures r.Some? ==> r.value.Name() == s
    ensures r.None? ==> forall f: Field :: f.Name() != s
  {
    if s == "id" then Some(IdKey)
    else if s == "hcp_id" then Some(HcpIdKey)
    else if s == "rep_id" then Some(RepIdKey)
    else if s == "mode" then Some(ModeKey)
    else if s == "datetime" then Some(DatetimeKey)
    else if s == "summary" then Some(SummaryKey)
    else if s == "sentiment" then Some(SentimentKey)
    else if s == "topics" then Some(TopicsKey)
    else if s == "outcome" then Some(OutcomeKey)
    else if s == "source_raw" then Some(SourceRawKey)
    else if s == "created_at" then Some(CreatedAtKey)
    else if s == "updated_at" then Some(UpdatedAtKey)
    else if s == "materials" then Some(MaterialsKey)
    else if s == "samples" then Some(SamplesKey)
    else if s == "follow_ups" then Some(FollowUpsKey)
    else None
  }

  /** Every stored key is found again by its spelling, so two keys never share a name. */
  lemma FieldNamedName(f: Field)
    ensures FieldNamed(f.Name()) == Some(f)
  {
  }

  /** The fifteen keys of a stored interaction dictionary. */
  const AllFields: set<Field> := {
    IdKey, HcpIdKey, RepIdKey, ModeKey, DatetimeKey, SummaryKey, SentimentKey, TopicsKey,
    OutcomeKey, SourceRawKey, CreatedAtKey, UpdatedAtKey, MaterialsKey, SamplesKey, FollowUpsKey
  }

  /** `AllFields` lists every key. */
  lemma AllFieldsListed()
    ensures forall f: Field :: f in AllFields
  {
    forall f: Field ensures f in AllFields {
      assert
        || f.IdKey? || f.HcpIdKey? || f.RepIdKey? || f.ModeKey? || f.DatetimeKey? || f.SummaryKey?
        || f.SentimentKey? || f.TopicsKey? || f.OutcomeKey? || f.SourceRawKey? || f.CreatedAtKey?
        || f.UpdatedAtKey? || f.MaterialsKey? || f.SamplesKey? || f.FollowUpsKey?;
    }
  }

  /** An interaction as the store returns it (`Interaction`): its own keys, with the three child
      lists taken from the child tables. */
  datatype InteractionView = InteractionView(
    fields: map<Field, Value>,
    materials: seq<Stored<MaterialCreate>>,
    samples: seq<Stored<SampleCreate>>,
    followUps: seq<Stored<FollowUpCreate>>)

  /** The defaults of the create shapes, as a client omitting the optional keys gets them. */
  lemma CreateDefaults(materialType: string, productCode: string, actionItem: string, name: string)
    ensures MaterialCreate(materialType) == MaterialCreate(materialType, 0, None)
    ensures SampleCreate(productCode) == SampleCreate(productCode, 0, None)
    ensures FollowUpCreate(actionItem) == FollowUpCreate(actionItem, None, None, Some("open"))
    ensures HcpCreate(name) == HcpCreate(name, None, None, None, None)
    ensures InteractionCreate() == InteractionCreate(None, None, Some("conversational"), None, None, None, None, None, None, Some([]), Some([]), Some([]))
  {
  }
}
