/** The structured logging form (`StructuredForm.jsx`): the draft a representative fills in,
    the edits its inputs make, the request body it posts and the submit flow that may create an
    HCP first. */
module StructuredForm {
  import opened Wrappers
  import opened Text
  import opened Seqs
  import Schemas
  import opened Client

  // ---------------------------------------------------------------- draft rows

  /** One cell of a material, sample or follow-up row: the text inputs hold strings and the
      quantity inputs the number `parseInt(value) || 0` yields. */
  datatype Cell = TextCell(s: string) | NumCell(n: int)

  /** A row object of one of the three lists, keyed by field name. */
  type Row = map<string, Cell>

  /** JavaScript truthiness of `row[key]`: an absent key (`undefined`), empty text and zero
      are false. */
  predicate Filled(row: Row, key: string) {
    key in row && match row[key] case TextCell(s) => s != "" case NumCell(n) => n != 0
  }

  /** The three row lists of the form. */
  datatype ListName = Materials | Samples | FollowUps {

    /** The field a row must have filled in to be sent. */
    function KeyField(): (k: string)
      ensures k in {"material_type", "product_code", "action_item"}
    {
      match this
      case Materials => "material_type"
      case Samples => "product_code"
      case FollowUps => "action_item"
    }

    /** The blank row the form starts with and the "+ Add" button appends. */
    function Template(): (row: Row)
      ensures KeyField() in row && !Filled(row, KeyField())
    {
      match this
      case Materials => map["material_type" := TextCell(""), "quantity" := NumCell(0), "notes" := TextCell("")]
      case Samples => map["product_code" := TextCell(""), "quantity" := NumCell(0), "lot" := TextCell("")]
      case FollowUps =>
        map["action_item" := TextCell(""), "due_date" := TextCell(""), "owner" := TextCell(""), "status" := TextCell("open")]
    }
  }

  /** The inputs bound by their `name` attribute to `handleInputChange`. */
  datatype Input = DateTimeInput | InteractionTypeInput | SummaryInput | SentimentInput | TopicsInput | OutcomeInput

  /** `formData`. Topics are the raw comma-separated text of the topics input. */
  datatype Draft = Draft(
    hcpName: string,
    hcpId: string,
    datetime: string,
    interactionType: string,
    summary: string,
    sentiment: string,
    materials: seq<Row>,
    samples: seq<Row>,
    followUps: seq<Row>,
    topics: string,
    outcome: string)
  {
    function Rows(l: ListName): seq<Row> {
      match l
      case Materials => materials
      case Samples => samples
      case FollowUps => followUps
    }

    /** The draft with list `l` replaced by `rows` and everything else as it was. */
    function WithRows(l: ListName, rows: seq<Row>): (d: Draft)
      ensures d.Rows(l) == rows
      ensures forall m :: m != l ==> d.Rows(m) == Rows(m)
      ensures d.Inputs() == Inputs() && d.hcpName == hcpName && d.hcpId == hcpId
    {
      match l
      case Materials => this.(materials := rows)
      case Samples => this.(samples := rows)
      case FollowUps => this.(followUps := rows)
    }

    function Value(f: Input): string {
      match f
      case DateTimeInput => datetime
      case InteractionTypeInput => interactionType
      case SummaryInput => summary
      case SentimentInput => sentiment
      case TopicsInput => topics
      case OutcomeInput => outcome
    }

    /** The six named inputs together. */
    function Inputs(): seq<string> {
      [datetime, interactionType, summary, sentiment, topics, outcome]
    }

    /** `handleInputChange`: `{ ...prev, [name]: value }`. */
    function Set(f: Input, v: string): (d: Draft)
      ensures d.Value(f) == v
      ensures forall g :: g != f ==> d.Value(g) == Value(g)
      ensures forall l :: d.Rows(l) == Rows(l)
      ensures d.hcpName == hcpName && d.hcpId == hcpId
    {
      match f
      case DateTimeInput => this.(datetime := v)
      case InteractionTypeInput => this.(interactionType := v)
      case SummaryInput => this.(summary := v)
      case SentimentInput => this.(sentiment := v)
      case TopicsInput => this.(topics := v)
      case OutcomeInput => this.(outcome := v)
    }
  }

  /** The fresh form: a "meeting" with neutral sentiment, one blank row in each list, and the
      current time (`new Date().toISOString().slice(0, 16)`, passed in as `now`). */
  function InitialDraft(now: string): (d: Draft)
    ensures d.datetime == now && d.hcpName == "" && d.hcpId == ""
    ensures forall l :: d.Rows(l) == [l.Template()]
  {
    Draft("", "", now, "meeting", "", "neutral",
          [Materials.Template()], [Samples.Template()], [FollowUps.Template()], "", "")
  }

  /** What the form keeps true between events: no list is ever empty, because a row's remove
      button is rendered only while its list has more than one row. */
  predicate RowsNonEmpty(d: Draft) {
    |d.Rows(Materials)| >= 1 && |d.Rows(Samples)| >= 1 && |d.Rows(FollowUps)| >= 1
  }

  // ---------------------------------------------------------------- row edits

  /** `handleArrayChange`: the row at `index` gets `field` set to `v`; every other row and every
      other field stay as they were. An index outside the list changes nothing. */
  function UpdateRow(rows: seq<Row>, index: int, field: string, v: Cell): (r: seq<Row>)
    ensures |r| == |rows|
    ensures 0 <= index < |rows| ==> field in r[index] && r[index][field] == v
    ensures 0 <= index < |rows| ==> forall k :: k != field ==> (k in r[index] <==> k in rows[index])
    ensures 0 <= index < |rows| ==> forall k :: k != field && k in rows[index] ==> r[index][k] == rows[index][k]
    ensures forall i :: 0 <= i < |rows| && i != index ==> r[i] == rows[i]
  {
    UpdateAt(rows, index, (row: Row) => row[field := v])
  }

  /** `addArrayItem`: the rows with `template` appended. */
  function AddRow(rows: seq<Row>, template: Row): (r: seq<Row>)
    ensures |r| == |rows| + 1 && r[..|rows|] == rows && r[|rows|] == template
  {
    rows + [template]
  }

  /** `removeArrayItem`: `filter((_, i) => i !== index)`, which drops exactly the row at
      `index`. */
  function RemoveRow(rows: seq<Row>, index: int): (r: seq<Row>)
    ensures 0 <= index < |rows| ==> |r| == |rows| - 1
    ensures 0 <= index < |rows| ==> forall i :: 0 <= i < |r| ==> r[i] == if i < index then rows[i] else rows[i + 1]
    ensures !(0 <= index < |rows|) ==> r == rows
  {
    RemoveAt(rows, index)
  }

  // ---------------------------------------------------------------- topics

  /** `parts.map(f)`. */
  function MapText(parts: seq<string>, f: string -> string): (r: seq<string>)
    ensures |r| == |parts|
  {
    if parts == [] then [] else [f(parts[0])] + MapText(parts[1..], f)
  }

  lemma {:induction false} MapTextAt(parts: seq<string>, f: string -> string, i: int)
    requires 0 <= i < |parts|
    ensures MapText(parts, f)[i] == f(parts[i])
  {
    if i > 0 { MapTextAt(parts[1..], f, i - 1); }
  }

  /** `topics ? topics.split(',').map(t => t.trim()) : []`. */
  function Topics(s: string): (ts: seq<string>)
    ensures s == "" <==> ts == []
  {
    if s == "" then [] else MapText(Split(s, ','), Trim)
  }

  /** Topic `i` is piece `i` of the text, trimmed. */
  lemma TopicAt(s: string, i: int)
    requires s != "" && 0 <= i < |Split(s, ',')|
    ensures |Topics(s)| == |Split(s, ',')| && Topics(s)[i] == Trim(Split(s, ',')[i])
  {
    MapTextAt(Split(s, ','), Trim, i);
  }

  /** A non-empty topics text yields one topic more than it has commas. */
  lemma TopicsCount(s: string)
    requires s != ""
    ensures |Topics(s)| == CountChar(s, ',') + 1
  {
    SplitCount(s, ',');
    TopicAt(s, 0);
  }

  /** Topic `i` is piece `i` of the text (the pieces joined back with commas give the text)
      with the white space around it removed. */
  lemma TopicIsPiece(s: string, i: int)
    requires s != "" && 0 <= i < |Topics(s)|
    ensures |Topics(s)| == |Split(s, ',')| && Join(Split(s, ','), [',']) == s
    ensures exists k :: PaddedAt(Split(s, ',')[i], k, Topics(s)[i])
  {
    JoinSplit(s, ',');
    TopicAt(s, i);
    var piece := Split(s, ',')[i];
    TrimPadded(piece);
    assert PaddedAt(piece, |piece| - |TrimStart(piece)|, Topics(s)[i]);
  }

  /** No white space at either end. */
  predicate CleanEnds(t: string) {
    t != [] ==> !IsJsSpace(t[0]) && !IsJsSpace(t[|t| - 1])
  }

  /** Text with no white space at either end is left alone by `trim`. */
  lemma TrimClean(t: string)
    requires CleanEnds(t)
    ensures Trim(t) == t
  {
    var r := Trim(t);
    TrimPadded(t);
    if t != [] {
      var k := |t| - |TrimStart(t)|;
      assert !IsJsSpace(t[0]) && !IsJsSpace(t[|t| - 1]);
      assert k == 0 && k + |r| == |t|;
      assert t[k..k + |r|] == t;
    }
  }

  /** A topic is clean when typing it into the box and reading it back cannot change it. */
  predicate CleanTopic(t: string) {
    ',' !in t && CleanEnds(t)
  }

  /** Clean topics written into the box separated by commas come back as the same list. */
  lemma TopicsRoundTrip(ts: seq<string>)
    requires |ts| >= 1 && ts != [""]
    requires forall i :: 0 <= i < |ts| ==> CleanTopic(ts[i])
    ensures Topics(Join(ts, [','])) == ts
  {
    JoinNonEmpty(ts);
    CleanSplit(ts);
    CleanPieces(Join(ts, [',']), ts);
  }

  /** Pieces with clean ends are the topics themselves. */
  lemma CleanPieces(s: string, ts: seq<string>)
    requires s != "" && Split(s, ',') == ts
    requires forall i :: 0 <= i < |ts| ==> CleanTopic(ts[i])
    ensures Topics(s) == ts
  {
    TopicAt(s, 0);
    forall i | 0 <= i < |ts| ensures Topics(s)[i] == ts[i] {
      CleanTopicAt(s, ts, i);
    }
  }

  lemma JoinNonEmpty(ts: seq<string>)
    requires |ts| >= 1 && ts != [""]
    ensures Join(ts, [',']) != ""
  {
    if |ts| > 1 {
      assert Join(ts, [',']) == ts[0] + [','] + Join(ts[1..], [',']);
    }
  }

  lemma CleanSplit(ts: seq<string>)
    requires |ts| >= 1
    requires forall i :: 0 <= i < |ts| ==> CleanTopic(ts[i])
    ensures Split(Join(ts, [',']), ',') == ts
  {
    forall p | p in ts ensures ',' !in p {
      var i :| 0 <= i < |ts| && ts[i] == p;
      assert CleanTopic(ts[i]);
    }
    SplitJoin(ts, ',');
  }

  lemma CleanTopicAt(s: string, ts: seq<string>, i: int)
    requires s != "" && Split(s, ',') == ts && 0 <= i < |ts| && CleanTopic(ts[i])
    ensures Topics(s)[i] == ts[i]
  {
    TopicAt(s, i);
    TrimClean(ts[i]);
  }

  /** A blank piece between two commas is not dropped: it stays in the list as an empty
      topic, in its place. */
  lemma BlankPieceKept(s: string, i: int)
    requires s != "" && 0 <= i < |Split(s, ',')| && AllJsSpace(Split(s, ',')[i])
    ensures |Topics(s)| == |Split(s, ',')| && Topics(s)[i] == ""
  {
    TopicAt(s, i);
    TrimEmpty(Split(s, ',')[i]);
  }

  // ---------------------------------------------------------------- payload

  /** The body posted to `/interactions`. The interaction type is not part of it. */
  datatype Payload = Payload(
    hcpId: Option<string>,
    repId: string,
    mode: string,
    datetime: string,
    summary: string,
    sentiment: string,
    topics: seq<string>,
    outcome: string,
    materials: seq<Row>,
    samples: seq<Row>,
    followUps: seq<Row>)
  {
    function Rows(l: ListName): seq<Row> {
      match l
      case Materials => materials
      case Samples => samples
      case FollowUps => followUps
    }
  }

  /** The rows of a list that are sent: those whose key field is filled in, in order. */
  function SentRows(l: ListName, rows: seq<Row>): seq<Row> {
    Filter(rows, (row: Row) => Filled(row, l.KeyField()))
  }

  /** The request body built from the draft (lines 72-84). */
  function BuildPayload(d: Draft): (p: Payload)
    ensures p.hcpId == (if d.hcpId == "" then None else Some(d.hcpId))
    ensures p.repId == RepId && p.mode == "structured"
    ensures p.datetime == d.datetime && p.summary == d.summary && p.sentiment == d.sentiment
    ensures p.outcome == d.outcome && p.topics == Topics(d.topics)
    ensures forall l :: p.Rows(l) == SentRows(l, d.Rows(l))
  {
    Payload(if d.hcpId == "" then None else Some(d.hcpId), RepId, "structured",
            d.datetime, d.summary, d.sentiment, Topics(d.topics), d.outcome,
            SentRows(Materials, d.materials), SentRows(Samples, d.samples), SentRows(FollowUps, d.followUps))
  }

  /** A row is sent exactly when its key field is filled in; rows filled in are sent unchanged
      and in the order the form shows them. */
  lemma {:induction false} SentRowsExactly(l: ListName, rows: seq<Row>)
    ensures forall i :: 0 <= i < |SentRows(l, rows)| ==>
              SentRows(l, rows)[i] in rows && Filled(SentRows(l, rows)[i], l.KeyField())
    ensures forall i :: 0 <= i < |rows| && Filled(rows[i], l.KeyField()) ==> rows[i] in SentRows(l, rows)
    ensures forall i, j :: 0 <= i <= j <= |rows| ==>
              SentRows(l, rows[..j]) == SentRows(l, rows[..i]) + SentRows(l, rows[i..j])
  {
    var p := (row: Row) => Filled(row, l.KeyField());
    FilterMembers(rows, p);
    forall i, j | 0 <= i <= j <= |rows|
      ensures SentRows(l, rows[..j]) == SentRows(l, rows[..i]) + SentRows(l, rows[i..j])
    {
      assert rows[..j] == rows[..i] + rows[i..j];
      FilterConcat(rows[..i], rows[i..j], p);
    }
  }

  /** A form nobody touched sends no materials, samples or follow-ups. */
  lemma BlankFormSendsNoRows(now: string)
    ensures forall l :: BuildPayload(InitialDraft(now)).Rows(l) == []
  {
  }

  /** The HCP name may be typed after an HCP was picked from the search results; the picked
      HCP's id stays in the draft, so the payload names the picked HCP and no new HCP is
      created for the typed name. */
  lemma TypedNameKeepsPickedId(d: Draft, picked: Schemas.Hcp, typed: string)
    requires picked.id != ""
    ensures var e := d.(hcpId := picked.id, hcpName := picked.name).(hcpName := typed);
            !NeedsHcp(e) && BuildPayload(e).hcpId == Some(picked.id)
  {
  }

  // ---------------------------------------------------------------- submit

  /** The browser refuses to submit while a `required` input (HCP name, date and time,
      summary) is empty. */
  predicate RequiredFilled(d: Draft) {
    d.hcpName != "" && d.datetime != "" && d.summary != ""
  }

  /** A name with no id behind it: the HCP is created before the interaction. */
  predicate NeedsHcp(d: Draft) {
    d.hcpName != "" && d.hcpId == ""
  }

  /** The body posted to `/hcps` for a typed name. */
  function NewHcp(name: string): (h: Schemas.HcpCreate)
    ensures h.name == name && h.title == Some("") && h.speciality == Some("") && h.organisation == Some("")
    ensures h.contact == None
  {
    Schemas.HcpCreate(name, Some(""), Some(""), Some(""))
  }

  /** The payload with the id of the HCP just created, when one was. */
  function WithHcp(p: Payload, created: Option<Schemas.Id>): (q: Payload)
    ensures created.Some? ==> q.hcpId == created
    ensures created.None? ==> q == p
    ensures q.(hcpId := p.hcpId) == p
  {
    if created.Some? then p.(hcpId := created) else p
  }

  const SuccessMessage: string := "\U{2705} Interaction logged successfully!"

  /** The state of the component: the draft, the HCP search hits, the search text, the busy
      flag and the banner message. */
  class Form {
    var draft: Draft
    var hcps: seq<Schemas.Hcp>
    var searchQuery: string
    var loading: bool
    var message: string

    /** Between events no list is empty and no request is in flight (a submit runs to its
        end before the next event). */
    predicate Valid()
      reads this
    {
      RowsNonEmpty(draft) && !loading
    }

    constructor(now: string)
      ensures Valid()
      ensures draft == InitialDraft(now)
      ensures hcps == [] && searchQuery == "" && !loading && message == ""
    {
      draft := InitialDraft(now);
      hcps := [];
      searchQuery := "";
      loading := false;
      message := "";
    }

    /** `handleInputChange` for one of the named inputs. */
    method InputChange(f: Input, v: string)
      requires Valid()
      modifies this`draft
      ensures Valid()
      ensures draft == old(draft).Set(f, v)
    {
      draft := draft.Set(f, v);
    }

    /** `handleArrayChange`. */
    method ArrayChange(l: ListName, index: int, field: string, v: Cell)
      requires Valid()
      modifies this`draft
      ensures Valid()
      ensures draft == old(draft).WithRows(l, UpdateRow(old(draft).Rows(l), index, field, v))
    {
      draft := draft.WithRows(l, UpdateRow(draft.Rows(l), index, field, v));
    }

    /** The "+ Add" button of list `l`, which appends that list's blank row. */
    method AddArrayItem(l: ListName)
      requires Valid()
      modifies this`draft
      ensures Valid()
      ensures draft == old(draft).WithRows(l, AddRow(old(draft).Rows(l), l.Template()))
    {
      draft := draft.WithRows(l, AddRow(draft.Rows(l), l.Template()));
    }

    /** The remove button of row `index`, rendered only while the list has more than one row. */
    method RemoveArrayItem(l: ListName, index: int)
      requires Valid()
      requires 0 <= index < |draft.Rows(l)| && |draft.Rows(l)| > 1
      modifies this`draft
      ensures Valid()
      ensures draft == old(draft).WithRows(l, RemoveRow(old(draft).Rows(l), index))
      ensures |draft.Rows(l)| == |old(draft).Rows(l)| - 1
    {
      draft := draft.WithRows(l, RemoveRow(draft.Rows(l), index));
    }

    /** Typing in the HCP name input: the text becomes the search query and the draft's name;
      the id of an HCP picked earlier is kept. */
    method TypeHcpName(v: string)
      requires Valid()
      modifies this`draft, this`searchQuery
      ensures Valid()
      ensures searchQuery == v && draft == old(draft).(hcpName := v)
    {
      searchQuery := v;
      draft := draft.(hcpName := v);
    }

    /** The search effect run after the query changes: a query longer than two characters asks
      the server and shows its answer (a failed search leaves the list as it was); a shorter
      one clears the list. */
    method SearchEffect(response: Result<seq<Schemas.Hcp>, HttpError>)
      modifies this`hcps
      ensures |searchQuery| <= 2 ==> hcps == []
      ensures |searchQuery| > 2 && response.Ok? ==> hcps == response.value
      ensures |searchQuery| > 2 && response.Err? ==> hcps == old(hcps)
    {
      if |searchQuery| > 2 {
        if response.Ok? {
          hcps := response.value;
        }
      } else {
        hcps := [];
      }
    }

    /** `selectHCP`: the picked HCP's id and name go into the draft; the hits and the query are
      cleared. */
    method SelectHcp(h: Schemas.Hcp)
      requires Valid()
      modifies this`draft, this`hcps, this`searchQuery
      ensures Valid()
      ensures draft == old(draft).(hcpId := h.id, hcpName := h.name)
      ensures hcps == [] && searchQuery == ""
    {
      draft := draft.(hcpId := h.id, hcpName := h.name);
      hcps := [];
      searchQuery := "";
    }

    /** `handleSubmit`, with the server's answers to the HCP creation (the new id) and to the
      interaction post given as parameters. It returns the bodies it posted. The form's
      draft is cleared only when the interaction was logged; on a failure the banner shows the
      error and the draft is kept for another try. */
    method Submit(hcpAnswer: Result<Schemas.Id, HttpError>, postFailure: Option<HttpError>, now: string)
      returns (hcpRequest: Option<Schemas.HcpCreate>, sent: Option<Payload>)
      requires Valid()
      modifies this`draft, this`loading, this`message
      ensures Valid()
      ensures !RequiredFilled(old(draft)) ==>
                hcpRequest == None && sent == None && draft == old(draft) && message == old(message)
      ensures RequiredFilled(old(draft)) ==>
                (hcpRequest.Some? <==> NeedsHcp(old(draft)))
                && (hcpRequest.Some? ==> hcpRequest.value == NewHcp(old(draft).hcpName))
                && (sent.Some? <==> !NeedsHcp(old(draft)) || hcpAnswer.Ok?)
      ensures sent.Some? ==>
                sent.value == WithHcp(BuildPayload(old(draft)), if NeedsHcp(old(draft)) then Some(hcpAnswer.value) else None)
      ensures sent.Some? && postFailure.None? ==> message == SuccessMessage && draft == InitialDraft(now)
      ensures RequiredFilled(old(draft)) && sent.None? ==>
                message == ErrorPrefix + ErrorText(hcpAnswer.error) && draft == old(draft)
      ensures sent.Some? && postFailure.Some? ==>
                message == ErrorPrefix + ErrorText(postFailure.value) && draft == old(draft)
    {
      hcpRequest, sent := None, None;
      if !RequiredFilled(draft) {
        return;
      }
      loading := true;
      message := "";
      var payload := BuildPayload(draft);
      if NeedsHcp(draft) {
        hcpRequest := Some(NewHcp(draft.hcpName));
        if hcpAnswer.Err? {
          message := ErrorPrefix + ErrorText(hcpAnswer.error);
          loading := false;
          return;
        }
        payload := WithHcp(payload, Some(hcpAnswer.value));
      }
      sent := Some(payload);
      if postFailure.None? {
        message := SuccessMessage;
        draft := InitialDraft(now);
      } else {
        message := ErrorPrefix + ErrorText(postFailure.value);
      }
      loading := false;
    }
  }
}
