/** The service layer between the HTTP routes and the agent (`agent_service.py`): it runs the
    agent (or, when the agent raises, a direct three-call extraction), finds or creates the
    HCP, validates the extracted data into an `InteractionCreate` and stores it; and it
    applies a natural-language edit to a stored interaction. The API key's presence, the model
    answers, the `uuid4()` results and the current time are parameters. */
module AgentService {
  import opened Wrappers
  import opened Schemas
  import opened Text
  import opened Tables
  import opened StoreShape
  import opened Json
  import opened AgentGraph
  import opened Crud

  /** What the agent's three model calls answer. */
  datatype AgentReplies = AgentReplies(extract: Reply, sentiment: Reply, followups: Reply)

  /** The direct client of the fallback path: `init` is `str(e)` when `ChatGroq(...)` raises,
      then what its three calls answer. */
  datatype FallbackReplies = FallbackReplies(init: Option<string>, extract: Reply, sentiment: Reply, followups: Reply)

  /** The extracted dictionary and the conversation, or why there is none. */
  datatype Extraction =
    | Extracted(data: Value, messages: seq<Message>)
    | ClientFailed(reason: string)
    | ExtractionFailed(cause: Exc)

  /** The dictionary `process_conversational_input` returns, by case. */
  datatype ServiceResult =
    | MissingApiKey
    | ClientUnavailable(reason: string)
    | Failed(cause: Exc)
    | Logged(extracted: Value, aiResponse: string, interaction: InteractionView, sentiment: Value, suggested: Value)

  const MissingKeyError := "GROQ_API_KEY environment variable is not set. Please create a .env file in the backend directory with: GROQ_API_KEY=your_api_key_here"
  const MissingKeyReply := "\U{26A0}\U{FE0F} AI features require GROQ_API_KEY. Please set it in your .env file. Get your key from: https://console.groq.com/"
  const ClientReply := "\U{26A0}\U{FE0F} Could not connect to Groq API. Please check your API key."

  /** The `success` flag of the returned dictionary. */
  predicate Succeeded(r: ServiceResult) {
    r.Logged?
  }

  /** The `error` entry, where its text does not come from `str(e)` of an exception the
      model keeps only the kind of. */
  function ErrorText(r: ServiceResult): (e: Option<string>)
    ensures e.Some? ==> !Succeeded(r)
    ensures r.Logged? ==> e.None?
  {
    match r
    case MissingApiKey => Some(MissingKeyError)
    case ClientUnavailable(reason) => Some("Failed to initialize LLM: " + reason)
    case _ => None
  }

  // ---------------------------------------------------------------- extraction

  /** The dictionary the fallback path uses when the extraction answer is not JSON. */
  function FallbackDefault(input: string): Value {
    Dict([("hcp_name", Str("")), ("summary", Str(input)), ("materials", List([])), ("samples", List([])), ("topics", List([]))])
  }

  /** `content.lower().strip().split()[0]`, or "neutral" for an empty answer; a word other
      than the three sentiments becomes "neutral". An answer of spaces only raises
      `IndexError`. */
  function FallbackSentiment(content: string): (r: Result<string, Exc>)
    ensures r.Ok? ==> ParseSentiment(r.value).Some?
    ensures r.Err? <==> content != "" && forall i :: 0 <= i < |content| ==> IsPySpace(content[i])
    ensures r.Err? ==> r.error == IndexError
    ensures content == "" ==> r == Ok("neutral")
    ensures r.Ok? && content != "" ==>
              var w := FirstWord(Lower(content)).value;
              r.value == if w in {"positive", "neutral", "negative"} then w else "neutral"
  {
    if content == "" then Ok("neutral")
    else
      match FirstWord(Lower(content))
      case None => Err(IndexError)
      case Some(w) => Ok(if w == "positive" || w == "neutral" || w == "negative" then w else "neutral")
  }

  function FallbackResponse(e: Entries, sentiment: string): string {
    "Extracted information:\n- HCP: " + Show(Lookup(e, "hcp_name").GetOr(Str("Not specified")))
    + "\n- Summary: " + Show(Lookup(e, "summary").GetOr(Str("N/A")))
    + "\n- Sentiment: " + sentiment
  }

  /** The fallback path: a client that cannot be built gives up at once; otherwise the
      extraction must be a dictionary, its `sentiment` is always one of the three values, its
      `suggested_follow_ups` is always set, and the conversation is the input and one reply. */
  function FallbackPath(input: string, fb: FallbackReplies): (r: Extraction)
    ensures fb.init.Some? <==> r.ClientFailed?
    ensures r.Extracted? ==>
      && r.data.Dict? && |r.messages| == 2 && r.messages[0] == Human(input) && r.messages[1].Ai?
      && Lookup(r.data.entries, "sentiment").Some? && Lookup(r.data.entries, "sentiment").value.Str?
      && ParseSentiment(Lookup(r.data.entries, "sentiment").value.s).Some?
      && Lookup(r.data.entries, "suggested_follow_ups").Some?
  {
    if fb.init.Some? then ClientFailed(fb.init.value)
    else
      match fb.extract
      case Raised(e) => ExtractionFailed(ModelError(e))
      case Answered(_, parsed) =>
        var e0 := if parsed.Some? then parsed.value else FallbackDefault(input);
        if !e0.Dict? then ExtractionFailed(AttributeError)
        else
          match fb.sentiment
          case Raised(e) => ExtractionFailed(ModelError(e))
          case Answered(content, _) =>
            match FallbackSentiment(content)
            case Err(e) => ExtractionFailed(e)
            case Ok(s) =>
              var e1 := Assign(e0.entries, "sentiment", Str(s));
              match fb.followups
              case Raised(e) => ExtractionFailed(ModelError(e))
              case Answered(_, fparsed) =>
                var fus := if fparsed.Some? then fparsed.value else List([Suggestion("Follow up on discussed topics", "medium")]);
                var e2 := Assign(e1, "suggested_follow_ups", fus);
                Extracted(Dict(e2), [Human(input), Ai(FallbackResponse(e2, s))])
  }

  /** Lines 52-124: the agent's final state when it completes, the fallback path when any of
      its nodes raises. What comes out is always a dictionary. */
  function Extract(input: string, agent: AgentReplies, fb: FallbackReplies): (r: Extraction)
    ensures r.Extracted? ==> r.data.Dict?
    ensures AgentRun([Human(input)], agent.extract, agent.sentiment, agent.followups).Ok? ==>
      r == Extracted(AgentRun([Human(input)], agent.extract, agent.sentiment, agent.followups).value.0,
                     AgentRun([Human(input)], agent.extract, agent.sentiment, agent.followups).value.1)
    ensures AgentRun([Human(input)], agent.extract, agent.sentiment, agent.followups).Err? ==> r == FallbackPath(input, fb)
  {
    match AgentRun([Human(input)], agent.extract, agent.sentiment, agent.followups)
    case Ok((d, ms)) => Extracted(d, ms)
    case Err(_) => FallbackPath(input, fb)
  }

  // ---------------------------------------------------------------- the reply

  /** The content of the last message that is not the user's, or "Processing complete". */
  function LastReply(ms: seq<Message>): string {
    if ms == [] then "Processing complete"
    else if !ms[|ms| - 1].Human? then ms[|ms| - 1].content
    else LastReply(ms[..|ms| - 1])
  }

  /** The reply is "Processing complete" exactly when every message is the user's, and
      otherwise the content of a message that is not the user's and that only the user's
      messages follow. */
  lemma {:induction false} LastReplyIsLatest(ms: seq<Message>)
    ensures (forall i :: 0 <= i < |ms| ==> ms[i].Human?) ==> LastReply(ms) == "Processing complete"
    ensures (exists i :: 0 <= i < |ms| && !ms[i].Human?) ==>
      exists i :: 0 <= i < |ms| && !ms[i].Human? && LastReply(ms) == ms[i].content && forall j :: i < j < |ms| ==> ms[j].Human?
  {
    if ms != [] && ms[|ms| - 1].Human? {
      var p := ms[..|ms| - 1];
      LastReplyIsLatest(p);
      assert forall i :: 0 <= i < |p| ==> p[i] == ms[i];
      if exists i :: 0 <= i < |ms| && !ms[i].Human? {
        var k :| 0 <= k < |ms| && !ms[k].Human?;
        assert k < |p| && !p[k].Human?;
        var i :| 0 <= i < |p| && !p[i].Human? && LastReply(p) == p[i].content && forall j :: i < j < |p| ==> p[j].Human?;
        assert !ms[i].Human? && LastReply(ms) == ms[i].content;
      }
    }
  }

  /** Lines 131-137: the loop over the messages in reverse. */
  method FindReply(ms: seq<Message>) returns (text: string)
    ensures text == LastReply(ms)
  {
    var i := |ms|;
    assert ms[..i] == ms;
    while i > 0
      invariant 0 <= i <= |ms|
      invariant LastReply(ms[..i]) == LastReply(ms)
    {
      if !ms[i - 1].Human? {
        return ms[i - 1].content;
      }
      assert ms[..i][..i - 1] == ms[..i - 1];
      i := i - 1;
    }
    return "Processing complete";
  }

  /** When the agent completes, the reply is the response its last node wrote. */
  lemma AgentReplyIsResponse(input: string, agent: AgentReplies)
    requires AgentRun([Human(input)], agent.extract, agent.sentiment, agent.followups).Ok?
    ensures var (e, ms) := AgentRun([Human(input)], agent.extract, agent.sentiment, agent.followups).value;
      LastReply(ms) == ResponseText(e).value
  {
    AgentRunAppendsOne([Human(input)], agent.extract, agent.sentiment, agent.followups);
  }

  // ---------------------------------------------------------------- the HCP

  /** What lines 140-155 do about the HCP. */
  datatype HcpAction = NoHcp | Existing(id: Id) | Create(hcp: HcpCreate)

  /** The name searched for (only text is searched). */
  function HcpName(d: Entries): string {
    var name := Lookup(d, "hcp_name").GetOr(Str(""));
    if name.Str? then name.s else ""
  }

  /** The HCP step, given what `search_hcp_by_name(hcp_name, limit=1)` finds: no name, no
      HCP; a found name, the first hit; otherwise an `HCPCreate` from the name and the
      optional `title`, `speciality` and `organisation`. A name that is not text cannot be
      searched (`.lower()` raises). */
  function HcpPlan(d: Entries, hits: seq<Hcp>): (r: Result<HcpAction, Exc>)
    ensures r == Ok(NoHcp) <==> !Truthy(Lookup(d, "hcp_name").GetOr(Str("")))
    ensures r.Ok? && r.value.Existing? ==> hits != [] && r.value.id == hits[0].id
    ensures r.Ok? && r.value.Create? ==> hits == [] && r.value.hcp.name == HcpName(d) && r.value.hcp.name != ""
  {
    var name := Lookup(d, "hcp_name").GetOr(Str(""));
    if !Truthy(name) then Ok(NoHcp)
    else if !name.Str? then Err(AttributeError)
    else if hits != [] then Ok(Existing(hits[0].id))
    else
      var title := OptTextField(Lookup(d, "title").GetOr(Null));
      var speciality := OptTextField(Lookup(d, "speciality").GetOr(Null));
      var organisation := OptTextField(Lookup(d, "organisation").GetOr(Null));
      if title.Err? || speciality.Err? || organisation.Err? then Err(ValidationError)
      else Ok(Create(HcpCreate(name.s, title.value, speciality.value, organisation.value)))
  }

  /** The `hcp_id` the interaction gets: a created HCP is stored under `hcpUuid`. */
  function HcpIdOf(a: HcpAction, hcpUuid: Id): Option<Id> {
    match a
    case NoHcp => None
    case Existing(id) => Some(id)
    case Create(_) => Some(hcpUuid)
  }

  // ---------------------------------------------------------------- validation

  /** A field the keyword arguments may leave out: the default when absent. */
  function Optional<T>(d: Entries, key: string, parse: Value -> Result<T, Exc>, default: T): Result<T, Exc> {
    match Lookup(d, key)
    case None => Ok(default)
    case Some(v) => parse(v)
  }

  /** `MaterialSharedCreate(**m)`: `m` must be a dictionary (else `TypeError`) whose
      `material_type` is text, `quantity` an integer and `notes` text or `None`. */
  function MaterialFrom(m: Value): (r: Result<MaterialCreate, Exc>)
    ensures r.Ok? ==> m.Dict? && Lookup(m.entries, "material_type") == Some(Str(r.value.materialType))
    ensures r.Ok? && Lookup(m.entries, "quantity").None? ==> r.value.quantity == 0
    ensures !m.Dict? ==> r == Err(TypeError)
  {
    if !m.Dict? then Err(TypeError)
    else
      var kind := TextField(Lookup(m.entries, "material_type"));
      var quantity := Optional(m.entries, "quantity", IntField, 0);
      var notes := Optional(m.entries, "notes", OptTextField, None);
      if kind.Err? || quantity.Err? || notes.Err? then Err(ValidationError)
      else Ok(MaterialCreate(kind.value, quantity.value, notes.value))
  }

  /** `SampleCreate(**s)`, in the same way with `product_code` and `lot`. */
  function SampleFrom(s: Value): (r: Result<SampleCreate, Exc>)
    ensures r.Ok? ==> s.Dict? && Lookup(s.entries, "product_code") == Some(Str(r.value.productCode))
    ensures r.Ok? && Lookup(s.entries, "quantity").None? ==> r.value.quantity == 0
    ensures !s.Dict? ==> r == Err(TypeError)
  {
    if !s.Dict? then Err(TypeError)
    else
      var code := TextField(Lookup(s.entries, "product_code"));
      var quantity := Optional(s.entries, "quantity", IntField, 0);
      var lot := Optional(s.entries, "lot", OptTextField, None);
      if code.Err? || quantity.Err? || lot.Err? then Err(ValidationError)
      else Ok(SampleCreate(code.value, quantity.value, lot.value))
  }

  /** The follow-up made from one suggestion: its `action_item` ("" when absent), owned by
      the representative and open; a suggestion that is not a dictionary has no `get`. */
  function FollowUpFrom(suggestion: Value, repId: string): (r: Result<FollowUpCreate, Exc>)
    ensures r.Ok? ==> r.value.owner == Some(repId) && r.value.status == Some("open") && r.value.dueDate == None
    ensures r.Ok? ==> suggestion.Dict? && Lookup(suggestion.entries, "action_item").GetOr(Str("")) == Str(r.value.actionItem)
  {
    if !suggestion.Dict? then Err(AttributeError)
    else
      var item := Lookup(suggestion.entries, "action_item").GetOr(Str(""));
      if item.Str? then Ok(FollowUpCreate(item.s, owner := Some(repId), status := Some("open")))
      else Err(ValidationError)
  }

  function FollowUpMaker(repId: string): Value -> Result<FollowUpCreate, Exc> {
    s => FollowUpFrom(s, repId)
  }

  /** The follow-ups of lines 174-179 for the suggestions `suggested`. */
  function FollowUpsFrom(suggested: Value, repId: string): (r: Result<seq<FollowUpCreate>, Exc>)
    ensures Items(suggested).Err? ==> r == Err(Items(suggested).error)
    ensures r.Ok? ==>
              && Items(suggested).Ok? && |r.value| == |Items(suggested).value|
              && forall i :: 0 <= i < |r.value| ==> FollowUpFrom(Items(suggested).value[i], repId) == Ok(r.value[i])
    ensures r.Err? && Items(suggested).Ok? ==>
              exists i :: 0 <= i < |Items(suggested).value| && FollowUpFrom(Items(suggested).value[i], repId) == Err(r.error)
  {
    match Items(suggested)
    case Err(e) => Err(e)
    case Ok(xs) => MapAll(xs, FollowUpMaker(repId))
  }

  /** Lines 174-179: the loop that appends one follow-up per suggestion. */
  method SuggestedFollowUps(suggested: Value, repId: string) returns (r: Result<seq<FollowUpCreate>, Exc>)
    ensures r == FollowUpsFrom(suggested, repId)
  {
    var items := Items(suggested);
    if items.Err? {
      return Err(items.error);
    }
    var xs := items.value;
    var fus: seq<FollowUpCreate> := [];
    var i := 0;
    while i < |xs|
      invariant 0 <= i <= |xs|
      invariant MapAll(xs[..i], FollowUpMaker(repId)) == Ok(fus)
    {
      MapAllStep(xs, i, FollowUpMaker(repId));
      var fu := FollowUpFrom(xs[i], repId);
      if fu.Err? {
        MapAllPrefixErr(xs, i + 1, FollowUpMaker(repId));
        return Err(fu.error);
      }
      fus := fus + [fu.value];
      i := i + 1;
    }
    assert xs[..i] == xs;
    return Ok(fus);
  }


  /** `Optional[datetime]`: text is taken as a date-time (its format is not checked). */
  function DateTimeField(v: Value): Result<Option<DateTime>, Exc> {
    match v
    case Null => Ok(None)
    case Str(s) => Ok(Some(s))
    case _ => Err(ValidationError)
  }

  /** `Optional[Sentiment]`: one of the three values, or `None`. */
  function SentimentField(v: Value): (r: Result<Option<Sentiment>, Exc>)
    ensures r.Ok? && r.value.Some? ==> v == Str(r.value.value.Text())
    ensures v.Null? ==> r == Ok(None)
  {
    match v
    case Null => Ok(None)
    case Str(s) => if ParseSentiment(s).Some? then Ok(ParseSentiment(s)) else Err(ValidationError)
    case _ => Err(ValidationError)
  }

  /** `Optional[List[str]]`: a list of texts, or `None`. */
  function TopicsField(v: Value): (r: Result<Option<seq<string>>, Exc>)
    ensures v.Null? ==> r == Ok(None)
    ensures v == List([]) ==> r == Ok(Some([]))
    ensures r.Ok? && r.value.Some? ==> v.List? && |r.value.value| == |v.items| && forall i :: 0 <= i < |v.items| ==> v.items[i] == Str(r.value.value[i])
  {
    match v
    case Null => Ok(None)
    case List(xs) => if AllText(xs) then Ok(Some(Texts(xs))) else Err(ValidationError)
    case _ => Err(ValidationError)
  }

  function Children<T>(v: Value, make: Value -> Result<T, Exc>): Result<seq<T>, Exc> {
    match Items(v)
    case Err(e) => Err(e)
    case Ok(xs) => MapAll(xs, make)
  }

  /** Lines 158-182 up to the store: the materials, samples and follow-ups in that order,
      then `InteractionCreate(**interaction_data)`. The result is conversational, carries the
      representative and the raw input, one material per listed material, and one open
      follow-up owned by the representative per suggestion. */
  function Assemble(d: Entries, hcpId: Option<Id>, repId: string, input: string): (r: Result<InteractionCreate, Exc>)
    ensures r.Ok? ==>
      && r.value.hcpId == hcpId && r.value.repId == Some(repId) && r.value.mode == Some("conversational")
      && r.value.sourceRaw == Some(input)
      && r.value.materials.Some? && r.value.samples.Some? && r.value.followUps.Some?
      && Items(Lookup(d, "materials").GetOr(List([]))).Ok?
      && |r.value.materials.value| == |Items(Lookup(d, "materials").GetOr(List([]))).value|
      && Items(Lookup(d, "suggested_follow_ups").GetOr(List([]))).Ok?
      && |r.value.followUps.value| == |Items(Lookup(d, "suggested_follow_ups").GetOr(List([]))).value|
      && forall i :: 0 <= i < |r.value.followUps.value| ==>
           r.value.followUps.value[i].owner == Some(repId) && r.value.followUps.value[i].status == Some("open")
    ensures r.Ok? && Lookup(d, "topics").None? ==> r.value.topics == Some([])
  {
    var materials := Children(Lookup(d, "materials").GetOr(List([])), MaterialFrom);
    var samples := Children(Lookup(d, "samples").GetOr(List([])), SampleFrom);
    var followUps := FollowUpsFrom(Lookup(d, "suggested_follow_ups").GetOr(List([])), repId);
    var datetime := DateTimeField(Lookup(d, "datetime").GetOr(Null));
    var summary := OptTextField(Lookup(d, "summary").GetOr(Null));
    var sentiment := SentimentField(Lookup(d, "sentiment").GetOr(Null));
    var topics := TopicsField(Lookup(d, "topics").GetOr(List([])));
    var outcome := OptTextField(Lookup(d, "outcome").GetOr(Null));
    if materials.Err? then Err(materials.error)
    else if samples.Err? then Err(samples.error)
    else if followUps.Err? then Err(followUps.error)
    else if datetime.Err? || summary.Err? || sentiment.Err? || topics.Err? || outcome.Err? then Err(ValidationError)
    else
      Ok(InteractionCreate(hcpId, Some(repId), Some("conversational"), datetime.value, summary.value, sentiment.value,
                           topics.value, outcome.value, Some(input), Some(materials.value), Some(samples.value), Some(followUps.value)))
  }

  /** What the stored interaction takes from the extracted dictionary: material `i`, sample
      `i` and follow-up `i` are made from item `i` of their lists, the scalar fields and the
      topics are the dictionary's entries as their fields accept them, and validation fails
      exactly when one of those is rejected. */
  lemma AssembleFromEntries(d: Entries, hcpId: Option<Id>, repId: string, input: string)
    ensures var r := Assemble(d, hcpId, repId, input);
      var ms := Items(Lookup(d, "materials").GetOr(List([])));
      r.Ok? ==> forall i :: 0 <= i < |ms.value| ==> MaterialFrom(ms.value[i]) == Ok(r.value.materials.value[i])
    ensures var r := Assemble(d, hcpId, repId, input);
      var ss := Items(Lookup(d, "samples").GetOr(List([])));
      r.Ok? ==>
        && ss.Ok? && |r.value.samples.value| == |ss.value|
        && forall i :: 0 <= i < |ss.value| ==> SampleFrom(ss.value[i]) == Ok(r.value.samples.value[i])
    ensures var r := Assemble(d, hcpId, repId, input);
      var fs := Items(Lookup(d, "suggested_follow_ups").GetOr(List([])));
      r.Ok? ==> forall i :: 0 <= i < |fs.value| ==> FollowUpFrom(fs.value[i], repId) == Ok(r.value.followUps.value[i])
    ensures var r := Assemble(d, hcpId, repId, input);
      r.Ok? ==>
        && TopicsField(Lookup(d, "topics").GetOr(List([]))) == Ok(r.value.topics)
        && DateTimeField(Lookup(d, "datetime").GetOr(Null)) == Ok(r.value.datetime)
        && OptTextField(Lookup(d, "summary").GetOr(Null)) == Ok(r.value.summary)
        && SentimentField(Lookup(d, "sentiment").GetOr(Null)) == Ok(r.value.sentiment)
        && OptTextField(Lookup(d, "outcome").GetOr(Null)) == Ok(r.value.outcome)
    ensures Assemble(d, hcpId, repId, input).Err? <==>
      || Children(Lookup(d, "materials").GetOr(List([])), MaterialFrom).Err?
      || Children(Lookup(d, "samples").GetOr(List([])), SampleFrom).Err?
      || FollowUpsFrom(Lookup(d, "suggested_follow_ups").GetOr(List([])), repId).Err?
      || DateTimeField(Lookup(d, "datetime").GetOr(Null)).Err?
      || OptTextField(Lookup(d, "summary").GetOr(Null)).Err?
      || SentimentField(Lookup(d, "sentiment").GetOr(Null)).Err?
      || TopicsField(Lookup(d, "topics").GetOr(List([]))).Err?
      || OptTextField(Lookup(d, "outcome").GetOr(Null)).Err?
  {
  }

  /** A suggestion without an `action_item` becomes a follow-up with an empty action item,
      owned by the representative and open, and is stored that way. */
  lemma MissingActionItemStoredEmpty(d: Entries, hcpId: Option<Id>, repId: string, input: string, i: nat)
    requires Assemble(d, hcpId, repId, input).Ok?
    requires var fs := Items(Lookup(d, "suggested_follow_ups").GetOr(List([])));
      fs.Ok? && i < |fs.value| && fs.value[i].Dict? && Lookup(fs.value[i].entries, "action_item").None?
    ensures var x := Assemble(d, hcpId, repId, input).value;
      && i < |x.followUps.value|
      && x.followUps.value[i] == FollowUpCreate("", None, Some(repId), Some("open"))
      && StoredFollowUps(OrEmpty(x.followUps))[i] == FollowUpCreate("", None, Some(repId), Some("open"))
  {
    AssembleFromEntries(d, hcpId, repId, input);
  }

  /** The HCP step followed by the validation, for the search result `hits`. */
  function Planned(d: Entries, hits: seq<Hcp>, repId: string, input: string, hcpUuid: Id): Result<InteractionCreate, Exc> {
    match HcpPlan(d, hits)
    case Err(e) => Err(e)
    case Ok(a) => Assemble(d, HcpIdOf(a, hcpUuid), repId, input)
  }

  // ---------------------------------------------------------------- identifiers

  /** The `uuid4()` results `create_interaction` draws, in order: pairwise distinct, the
      first unused as an interaction id and the others unused as child ids. */
  ghost predicate FreshStream(store: Store, uuid: nat -> Id)
    reads store
  {
    && (forall i: nat, j: nat :: i < j ==> uuid(i) != uuid(j))
    && uuid(0) !in store.interactions.rows
    && forall i: nat :: 0 < i ==> uuid(i) !in store.materials.rows && uuid(i) !in store.samples.rows && uuid(i) !in store.followUps.rows
  }

  function Draw(uuid: nat -> Id, n: nat): (ids: seq<Id>)
    ensures |ids| == n && forall i :: 0 <= i < n ==> ids[i] == uuid(i)
  {
    seq(n, i requires 0 <= i < n => uuid(i))
  }

  lemma DrawFresh(store: Store, uuid: nat -> Id, n: nat)
    requires FreshStream(store, uuid)
    ensures store.FreshFor(Draw(uuid, n))
  {
    var ids := Draw(uuid, n);
    forall i, j | 0 <= i < j < |ids| ensures ids[i] != ids[j] {
      assert ids[i] == uuid(i) && ids[j] == uuid(j);
    }
  }

  // ---------------------------------------------------------------- the two requests

  /** The child rows `create_interaction` stores for `x` with the `uuid4()` results `uuids`:
      the materials, then the samples, then the follow-ups as stored, each under the
      interaction's id and in input order. */
  ghost predicate RowsStored(v: InteractionView, x: InteractionCreate, uuids: seq<Id>) {
    var m, s := |OrEmpty(x.materials)|, |OrEmpty(x.samples)|;
    && |uuids| > 0
    && StoredFrom(v.materials, uuids, 1, uuids[0], OrEmpty(x.materials))
    && StoredFrom(v.samples, uuids, 1 + m, uuids[0], OrEmpty(x.samples))
    && StoredFrom(v.followUps, uuids, 1 + m + s, uuids[0], StoredFollowUps(OrEmpty(x.followUps)))
  }

  /** The row `create_hcp` stores for `x` under `hcpId` at time `now`. */
  function NewHcp(x: HcpCreate, hcpId: Id, now: DateTime): Hcp {
    Hcp(hcpId, x.name, x.title, x.speciality, x.organisation, x.contact, now, now)
  }

  /** The HCP step on the store: a created HCP is stored under `hcpUuid`; nothing else
      changes. */
  method ResolveHcp(store: Store, d: Entries, hcpUuid: Id, now: DateTime) returns (r: Result<HcpAction, Exc>)
    requires store.Valid()
    modifies store`hcps
    ensures store.Valid()
    ensures r == HcpPlan(d, old(store.SearchHcpByName(HcpName(d), 1)))
    ensures r.Ok? && r.value.Create? ==> store.hcps == old(store.hcps).Put(hcpUuid, NewHcp(r.value.hcp, hcpUuid, now))
    ensures !(r.Ok? && r.value.Create?) ==> store.hcps == old(store.hcps)
  {
    var name := Lookup(d, "hcp_name").GetOr(Str(""));
    if !Truthy(name) {
      return Ok(NoHcp);
    }
    if !name.Str? {
      return Err(AttributeError);
    }
    var hits := store.SearchHcpByName(name.s, 1);
    r := HcpPlan(d, hits);
    if r.Ok? && r.value.Create? {
      var h := store.CreateHcp(r.value.hcp, hcpUuid, now);
    }
  }

  /** Line 182: `create_interaction` with the `uuid4()` results `uuid` draws. */
  method StoreInteraction(store: Store, x: InteractionCreate, uuid: nat -> Id, now: DateTime) returns (v: InteractionView)
    requires store.Valid() && FreshStream(store, uuid)
    modifies store`interactions, store`materials, store`samples, store`followUps
    ensures store.Valid()
    ensures v.fields == InteractionRecord(x, uuid(0), now) - ChildKeys
    ensures store.interactions == old(store.interactions).Put(uuid(0), WithChildren(InteractionRecord(x, uuid(0), now), v))
    ensures store.GetInteraction(uuid(0)) == Some(v)
    ensures RowsStored(v, x, Draw(uuid, UuidCalls(x)))
  {
    DrawFresh(store, uuid, UuidCalls(x));
    v := store.CreateInteraction(x, Draw(uuid, UuidCalls(x)), now);
  }

  /** Lines 139-191 for an extracted dictionary `d`: the HCP step, the validation, then
      `create_interaction`. A request that fails validation keeps an HCP it has already
      created. */
  method LogExtracted(store: Store, d: Entries, repId: string, input: string, hcpUuid: Id, uuid: nat -> Id, now: DateTime)
    returns (r: Result<InteractionView, Exc>)
    requires store.Valid() && FreshStream(store, uuid)
    modifies store`hcps, store`interactions, store`materials, store`samples, store`followUps
    ensures store.Valid()
    ensures r.Err? ==> Planned(d, old(store.SearchHcpByName(HcpName(d), 1)), repId, input, hcpUuid) == Err(r.error)
    ensures r.Err? ==>
      && store.interactions == old(store.interactions) && store.materials == old(store.materials)
      && store.samples == old(store.samples) && store.followUps == old(store.followUps)
    ensures r.Ok? ==>
      var x := Planned(d, old(store.SearchHcpByName(HcpName(d), 1)), repId, input, hcpUuid);
      && x.Ok?
      && r.value.fields == InteractionRecord(x.value, uuid(0), now) - ChildKeys
      && store.interactions == old(store.interactions).Put(uuid(0), WithChildren(InteractionRecord(x.value, uuid(0), now), r.value))
      && store.GetInteraction(uuid(0)) == Some(r.value)
      && RowsStored(r.value, x.value, Draw(uuid, UuidCalls(x.value)))
    ensures var p := HcpPlan(d, old(store.SearchHcpByName(HcpName(d), 1)));
      && (p.Ok? && p.value.Create? ==> store.hcps == old(store.hcps).Put(hcpUuid, NewHcp(p.value.hcp, hcpUuid, now)))
      && (!(p.Ok? && p.value.Create?) ==> store.hcps == old(store.hcps))
  {
    ghost var hits := store.SearchHcpByName(HcpName(d), 1);
    var action := ResolveHcp(store, d, hcpUuid, now);
    ghost var hcpsAfter := store.hcps;
    if action.Err? {
      return Err(action.error);
    }
    var x := Assemble(d, HcpIdOf(action.value, hcpUuid), repId, input);
    assert Planned(d, hits, repId, input, hcpUuid) == x;
    if x.Err? {
      return Err(x.error);
    }
    var v := StoreInteraction(store, x.value, uuid, now);
    return Ok(v);
  }

  /** `process_conversational_input`. Without an API key nothing happens; a client that
      cannot be built or an extraction that raises changes nothing; otherwise the HCP step and
      the validation run and the interaction is stored, and the result reports the
      extraction, the reply, the stored interaction, the sentiment ("neutral" when absent) and
      the suggestions. */
  method ProcessConversationalInput(store: Store, apiKeySet: bool, input: string, repId: string,
                                    agent: AgentReplies, fb: FallbackReplies, hcpUuid: Id, uuid: nat -> Id, now: DateTime)
    returns (r: ServiceResult)
    requires store.Valid() && FreshStream(store, uuid)
    modifies store`hcps, store`interactions, store`materials, store`samples, store`followUps
    ensures store.Valid()
    ensures !apiKeySet ==> r == MissingApiKey && unchanged(store)
    ensures apiKeySet && Extract(input, agent, fb).ClientFailed? ==>
      r == ClientUnavailable(Extract(input, agent, fb).reason) && unchanged(store)
    ensures apiKeySet && Extract(input, agent, fb).ExtractionFailed? ==>
      r == Failed(Extract(input, agent, fb).cause) && unchanged(store)
    ensures apiKeySet && Extract(input, agent, fb).Extracted? ==>
      var e := Extract(input, agent, fb);
      var x := Planned(e.data.entries, old(store.SearchHcpByName(HcpName(e.data.entries), 1)), repId, input, hcpUuid);
      && (x.Err? ==>
            && r == Failed(x.error)
            && store.interactions == old(store.interactions) && store.materials == old(store.materials)
            && store.samples == old(store.samples) && store.followUps == old(store.followUps))
      && (x.Ok? ==>
            && r.Logged? && r.extracted == e.data && r.aiResponse == LastReply(e.messages)
            && r.sentiment == Lookup(e.data.entries, "sentiment").GetOr(Str("neutral"))
            && r.suggested == Lookup(e.data.entries, "suggested_follow_ups").GetOr(List([]))
            && r.interaction.fields == InteractionRecord(x.value, uuid(0), now) - ChildKeys
            && store.interactions == old(store.interactions).Put(uuid(0), WithChildren(InteractionRecord(x.value, uuid(0), now), r.interaction))
            && store.GetInteraction(uuid(0)) == Some(r.interaction)
            && RowsStored(r.interaction, x.value, Draw(uuid, UuidCalls(x.value))))
    ensures apiKeySet && Extract(input, agent, fb).Extracted? ==>
      var d := Extract(input, agent, fb).data.entries;
      var p := HcpPlan(d, old(store.SearchHcpByName(HcpName(d), 1)));
      && (p.Ok? && p.value.Create? ==> store.hcps == old(store.hcps).Put(hcpUuid, NewHcp(p.value.hcp, hcpUuid, now)))
      && (!(p.Ok? && p.value.Create?) ==> store.hcps == old(store.hcps))
  {
    if !apiKeySet {
      return MissingApiKey;
    }
    var e := Extract(input, agent, fb);
    if e.ClientFailed? {
      return ClientUnavailable(e.reason);
    }
    if e.ExtractionFailed? {
      return Failed(e.cause);
    }
    var d := e.data.entries;
    var reply := FindReply(e.messages);
    var logged := LogExtracted(store, d, repId, input, hcpUuid, uuid, now);
    if logged.Err? {
      return Failed(logged.error);
    }
    return Logged(e.data, reply, logged.value, Lookup(d, "sentiment").GetOr(Str("neutral")),
                  Lookup(d, "suggested_follow_ups").GetOr(List([])));
  }

  /** A request can fail after creating its HCP. The model names a new HCP and gives
      `topics` as text rather than a list: the agent completes, the HCP is stored, and the
      interaction's validation then rejects the topics, so the request fails with the new HCP
      left in the store and no interaction or child row added. This is one witness of the
      general clauses of `LogExtracted` and `ProcessConversationalInput`, which state the
      stored HCP for every input; the `Rao` lemmas below only evaluate the model on this one
      input. */
  method FailedRequestKeepsHcp(store: Store, hcpUuid: Id, uuid: nat -> Id, now: DateTime) returns (r: ServiceResult)
    requires store.Valid() && FreshStream(store, uuid)
    requires store.SearchHcpByName("Dr. Rao", 1) == []
    modifies store`hcps, store`interactions, store`materials, store`samples, store`followUps
    ensures store.Valid() && r == Failed(ValidationError)
    ensures store.hcps == old(store.hcps).Put(hcpUuid, Hcp(hcpUuid, "Dr. Rao", None, None, None, None, now, now))
    ensures store.GetHcpById(hcpUuid) == Some(Hcp(hcpUuid, "Dr. Rao", None, None, None, None, now, now))
    ensures store.interactions == old(store.interactions) && store.materials == old(store.materials)
    ensures store.samples == old(store.samples) && store.followUps == old(store.followUps)
  {
    var d := [("hcp_name", Str("Dr. Rao")), ("topics", Str("oncology"))];
    var answer := Answered("{\"hcp_name\": \"Dr. Rao\", \"topics\": \"oncology\"}", Some(Dict(d)));
    var agent := AgentReplies(answer, answer, answer);
    var fb := FallbackReplies(None, answer, answer, answer);
    var input := "Met Dr. Rao about oncology";
    RaoExtracted(input, agent, fb, d);
    RaoPlanned(d, "rep-1", input, hcpUuid);
    ghost var hits := store.SearchHcpByName(HcpName(d), 1);
    assert hits == [];
    r := ProcessConversationalInput(store, true, input, "rep-1", agent, fb, hcpUuid, uuid, now);
    assert NewHcp(HcpCreate("Dr. Rao"), hcpUuid, now) == Hcp(hcpUuid, "Dr. Rao", None, None, None, None, now, now);
  }

  /** The agent keeps the model's dictionary as it is when it has no summary. */
  lemma RaoExtracted(input: string, agent: AgentReplies, fb: FallbackReplies, d: Entries)
    requires d == [("hcp_name", Str("Dr. Rao")), ("topics", Str("oncology"))]
    requires agent.extract.Answered? && agent.extract.parsed == Some(Dict(d))
    ensures Extract(input, agent, fb).Extracted? && Extract(input, agent, fb).data == Dict(d)
  {
    RaoEnriched([Human(input)], agent, d);
    RaoResponds(d);
  }

  /** Without a summary the sentiment and follow-up nodes leave the dictionary alone. */
  lemma RaoEnriched(messages: seq<Message>, agent: AgentReplies, d: Entries)
    requires d == [("hcp_name", Str("Dr. Rao")), ("topics", Str("oncology"))]
    requires agent.extract.Answered? && agent.extract.parsed == Some(Dict(d))
    ensures Enriched(messages, agent.extract, agent.sentiment, agent.followups) == Ok(Dict(d))
  {
    assert Lookup(d, "summary") == None;
    assert ExtractStep(messages, agent.extract) == Ok(Dict(d));
    assert SentimentStep(Dict(d), agent.sentiment) == Ok(Dict(d));
  }

  /** The response is the header alone, which builds: the topics text is joined letter by
      letter. */
  lemma RaoResponds(d: Entries)
    requires d == [("hcp_name", Str("Dr. Rao")), ("topics", Str("oncology"))]
    ensures ResponseText(Dict(d)).Ok?
  {
    LookupAt(d, 1);
    assert Lookup(d, "sentiment") == None;
    assert Lookup(d, "materials") == None;
    assert Lookup(d, "samples") == None;
    assert Lookup(d, "suggested_follow_ups") == None;
    assert Items(Str("oncology")).Ok? && AllText(Items(Str("oncology")).value);
  }

  /** The HCP "Dr. Rao" is created when the search finds no one, and the text `topics` fails
      validation. */
  lemma RaoPlanned(d: Entries, repId: string, input: string, hcpUuid: Id)
    requires d == [("hcp_name", Str("Dr. Rao")), ("topics", Str("oncology"))]
    ensures HcpName(d) == "Dr. Rao"
    ensures HcpPlan(d, []) == Ok(Create(HcpCreate("Dr. Rao")))
    ensures Planned(d, [], repId, input, hcpUuid) == Err(ValidationError)
  {
    RaoCreated(d);
    RaoRejected(d, HcpIdOf(Create(HcpCreate("Dr. Rao")), hcpUuid), repId, input);
  }

  /** The name "Dr. Rao" with no other HCP field plans a creation under that name. */
  lemma RaoCreated(d: Entries)
    requires d == [("hcp_name", Str("Dr. Rao")), ("topics", Str("oncology"))]
    ensures HcpName(d) == "Dr. Rao"
    ensures HcpPlan(d, []) == Ok(Create(HcpCreate("Dr. Rao")))
  {
    LookupAt(d, 0);
    assert Lookup(d, "title") == None;
    assert Lookup(d, "speciality") == None;
    assert Lookup(d, "organisation") == None;
  }

  /** Topics given as text are rejected once the child lists, all absent, have passed. */
  lemma RaoRejected(d: Entries, hcpId: Option<Id>, repId: string, input: string)
    requires d == [("hcp_name", Str("Dr. Rao")), ("topics", Str("oncology"))]
    ensures Assemble(d, hcpId, repId, input) == Err(ValidationError)
  {
    LookupAt(d, 1);
    assert Lookup(d, "materials") == None;
    assert Lookup(d, "samples") == None;
    assert Lookup(d, "suggested_follow_ups") == None;
    assert Lookup(d, "datetime") == None;
    assert Lookup(d, "summary") == None;
    assert Lookup(d, "sentiment") == None;
    assert Lookup(d, "outcome") == None;
    assert TopicsField(Str("oncology")) == Err(ValidationError);
  }

  /** The result of `edit_interaction_via_agent`. */
  datatype EditResult = NotFound | EditFailed(cause: Exc) | Unparsable | Edited(interaction: InteractionView)

  /** `edit_interaction_via_agent`: an unknown id, a failed model call and an answer that is
      not a JSON object change nothing; a JSON object is applied with `update_interaction`
      (its last value for a repeated key) and the re-read interaction is returned. */
  method EditInteractionViaAgent(store: Store, interactionId: Id, reply: Reply, now: DateTime) returns (r: EditResult)
    requires store.Valid()
    modifies store`interactions
    ensures store.Valid()
    ensures interactionId !in old(store.interactions.rows) ==> r == NotFound
    ensures !r.Edited? ==> store.interactions == old(store.interactions)
    ensures interactionId in old(store.interactions.rows) && reply.Raised? ==> r == EditFailed(ModelError(reply.reason))
    ensures interactionId in old(store.interactions.rows) && reply.Answered? ==>
      (r.Edited? <==> reply.parsed.Some? && reply.parsed.value.Dict?)
    ensures r.Edited? ==>
      && reply.Answered? && reply.parsed.Some? && reply.parsed.value.Dict?
      && store.interactions == old(store.interactions).Put(interactionId,
           Updated(old(store.interactions.rows[interactionId]), ToMap(reply.parsed.value.entries), now))
      && store.GetInteraction(interactionId) == Some(r.interaction)
    ensures r == Unparsable ==> interactionId in old(store.interactions.rows) && reply.Answered?
  {
    var existing := store.GetInteraction(interactionId);
    if existing.None? {
      return NotFound;
    }
    match reply
    case Raised(e) =>
      return EditFailed(ModelError(e));
    case Answered(_, parsed) =>
      if parsed.None? || !parsed.value.Dict? {
        return Unparsable;
      }
      var updated := store.UpdateInteraction(interactionId, ToMap(parsed.value.entries), now);
      return Edited(updated.value);
  }
}
