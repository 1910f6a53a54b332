/** The assistant panel (`AssistantPanel.jsx`): one slot holding the latest extracted data
    the conversational panel dispatched, and the view rendered from it. */
module AssistantPanel {
  import opened Wrappers
  import opened Schemas
  import opened Json
  import opened Client
  import ConversationalPanel

  // ---------------------------------------------------------------- view

  /** A material or sample line: its name, then `(xN)` when the quantity is positive. */
  datatype Item = Item(name: Option<Value>, times: Option<Value>)

  /** A suggested follow-up card: its action item and, when present, its priority line. */
  datatype Card = Card(actionItem: Option<Value>, priority: Option<Value>)

  /** The shared-items section with its two sub-lists, each shown only when non-empty. */
  datatype Shared = Shared(materials: Option<seq<Item>>, samples: Option<seq<Item>>)

  /** What the panel shows: the placeholder, or the extracted-information block (HCP,
      date/time, summary and topics lines) followed by the optional sentiment, shared-items,
      follow-up and outcome blocks. `None` is a block or line that is not rendered. */
  datatype View =
    | Placeholder
    | Panel(
        hcp: Option<Value>,
        datetime: Option<Value>,
        summary: Option<Value>,
        topics: Option<seq<Value>>,
        sentiment: Option<string>,
        shared: Option<Shared>,
        followUps: Option<seq<Card>>,
        outcome: Option<Value>)

  /** A value React can show as a child: text and numbers show, `null` and booleans show
      nothing, and an array shows its elements; a plain object throws "Objects are not valid
      as a React child" when the view is mounted. */
  predicate Renderable(v: Value) {
    match v
    case List(xs) => forall i :: 0 <= i < |xs| ==> Renderable(xs[i])
    case Dict(_) => false
    case _ => true
  }

  /** A child that may be `undefined`, which shows nothing. */
  predicate Mountable(o: Option<Value>) {
    o.None? || Renderable(o.value)
  }

  /** `{o && ...}`: the value when it is truthy. */
  function Shown(o: Option<Value>): (r: Option<Value>)
    ensures r.Some? <==> JsTruthy(o)
    ensures r.Some? ==> r == o
  {
    if JsTruthy(o) then o else None
  }

  /** The line of one material or sample, named by the field `nameKey`: `(xN)` is shown
      exactly when the quantity is positive. Building the line throws exactly for a `null`
      element; a name React cannot show throws later, when the panel is mounted
      (`ViewMountable`). */
  function ItemOf(nameKey: string, v: Value): (r: Result<Item, Exc>)
    ensures r.Err? <==> v.Null?
    ensures r.Ok? ==> r.value.name == Prop(v, nameKey)
    ensures r.Ok? ==> (r.value.times.Some? <==> JsPositive(Prop(v, "quantity")))
    ensures r.Ok? && r.value.times.Some? ==> r.value.times == Prop(v, "quantity")
  {
    if v.Null? then Err(TypeError)
    else Ok(Item(Prop(v, nameKey), if JsPositive(Prop(v, "quantity")) then Prop(v, "quantity") else None))
  }

  /** `item => <li>...</li>` for the list keyed by `nameKey`. */
  function ItemMaker(nameKey: string): Value -> Result<Item, Exc> {
    (v: Value) => ItemOf(nameKey, v)
  }

  /** The card of one suggested follow-up. Building it throws exactly for a `null` element;
      an action item or priority React cannot show throws when the panel is mounted. */
  function CardOf(v: Value): (r: Result<Card, Exc>)
    ensures r.Err? <==> v.Null?
    ensures r.Ok? ==> r.value.actionItem == Prop(v, "action_item") && r.value.priority == Shown(Prop(v, "priority"))
  {
    if v.Null? then Err(TypeError) else Ok(Card(Prop(v, "action_item"), Shown(Prop(v, "priority"))))
  }

  /** A topic chip shows the element as it is. */
  function Chip(v: Value): Result<Value, Exc> {
    Ok(v)
  }

  /** A list section: rendered, element by element, only when the value has items. */
  function Listed<T>(o: Option<Value>, f: Value -> Result<T, Exc>): (r: Result<Option<seq<T>>, Exc>)
    ensures !HasItems(o) ==> r == Ok(None)
    ensures HasItems(o) && !o.value.List? ==> r == Err(TypeError)
    ensures r.Ok? && r.value.Some? ==> HasItems(o) && o.value.List? && MapAll(o.value.items, f) == Ok(r.value.value)
    ensures HasItems(o) && o.value.List? && MapAll(o.value.items, f).Ok? ==> r.Ok? && r.value.Some?
  {
    if !HasItems(o) then Ok(None)
    else
      var xs := MapItems(o, f);
      if xs.Err? then Err(xs.error) else Ok(Some(xs.value))
  }

  /** The sentiment badge: a label for each of the three known values and nothing for any
      other. */
  function SentimentLabel(v: Value): (badge: string)
    ensures badge != "" <==> v in {Str("positive"), Str("neutral"), Str("negative")}
  {
    (if v == Str("positive") then "\U{1F60A} Positive" else "")
    + (if v == Str("neutral") then "\U{1F610} Neutral" else "")
    + (if v == Str("negative") then "\U{1F61E} Negative" else "")
  }

  /** Every child the view shows is one React can mount: the HCP, summary and outcome
      lines, each topic chip, each material and sample name, and each card's action item and
      priority. The date is shown as the text of `toLocaleString`, the sentiment as a label
      and the quantities inside a template string, so these always mount. */
  predicate ViewMountable(view: View) {
    view.Placeholder? ||
    (&& Mountable(view.hcp) && Mountable(view.summary) && Mountable(view.outcome)
     && (view.topics.Some? ==> forall i :: 0 <= i < |view.topics.value| ==> Renderable(view.topics.value[i]))
     && (view.shared.Some? ==> NamesMountable(view.shared.value.materials) && NamesMountable(view.shared.value.samples))
     && (view.followUps.Some? ==>
           forall i :: 0 <= i < |view.followUps.value| ==>
             Mountable(view.followUps.value[i].actionItem) && Mountable(view.followUps.value[i].priority)))
  }

  predicate NamesMountable(items: Option<seq<Item>>) {
    items.Some? ==> forall i :: 0 <= i < |items.value| ==> Mountable(items.value[i].name)
  }

  /** The elements the component returns for the slot. An untruthy slot shows the
      placeholder; otherwise each block or line shows exactly when its field is truthy, the
      topics, the lists and the follow-ups exactly when they have items, and the shared-items
      section exactly when materials or samples have items. A list section holding text, or a
      `null` element, makes building them throw. */
  function Elements(insights: Option<Value>): (r: Result<View, Exc>)
    ensures !JsTruthy(insights) <==> r == Ok(Placeholder)
    ensures r.Ok? && r.value.Panel? ==>
              var v := insights.value;
              (r.value.hcp.Some? <==> JsTruthy(Prop(v, "hcp_name")))
              && (r.value.datetime.Some? <==> JsTruthy(Prop(v, "datetime")))
              && (r.value.summary.Some? <==> JsTruthy(Prop(v, "summary")))
              && (r.value.topics.Some? <==> HasItems(Prop(v, "topics")))
              && (r.value.sentiment.Some? <==> JsTruthy(Prop(v, "sentiment")))
              && (r.value.shared.Some? <==> HasItems(Prop(v, "materials")) || HasItems(Prop(v, "samples")))
              && (r.value.shared.Some? ==>
                    (r.value.shared.value.materials.Some? <==> HasItems(Prop(v, "materials")))
                    && (r.value.shared.value.samples.Some? <==> HasItems(Prop(v, "samples"))))
              && (r.value.followUps.Some? <==> HasItems(Prop(v, "suggested_follow_ups")))
              && (r.value.outcome.Some? <==> JsTruthy(Prop(v, "outcome")))
  {
    if !JsTruthy(insights) then Ok(Placeholder)
    else
      var v := insights.value;
      var topics := Listed(Prop(v, "topics"), Chip);
      var materials := Listed(Prop(v, "materials"), ItemMaker("material_type"));
      var samples := Listed(Prop(v, "samples"), ItemMaker("product_code"));
      var followUps := Listed(Prop(v, "suggested_follow_ups"), CardOf);
      if topics.Err? then Err(topics.error)
      else if materials.Err? then Err(materials.error)
      else if samples.Err? then Err(samples.error)
      else if followUps.Err? then Err(followUps.error)
      else
        var sentiment := Prop(v, "sentiment");
        Ok(Panel(
          Shown(Prop(v, "hcp_name")),
          Shown(Prop(v, "datetime")),
          Shown(Prop(v, "summary")),
          topics.value,
          if JsTruthy(sentiment) then Some(SentimentLabel(sentiment.value)) else None,
          if materials.value.Some? || samples.value.Some? then Some(Shared(materials.value, samples.value)) else None,
          followUps.value,
          Shown(Prop(v, "outcome"))))
  }

  /** The panel React shows for the slot: the elements, once every child they show has
      mounted. Building the elements throws first; a shown child that is an object then
      throws while mounting. */
  function Render(insights: Option<Value>): (r: Result<View, Exc>)
    ensures !JsTruthy(insights) <==> r == Ok(Placeholder)
    ensures r.Ok? ==> r == Elements(insights) && ViewMountable(r.value)
    ensures Elements(insights).Err? ==> r == Elements(insights)
    ensures Elements(insights).Ok? && !ViewMountable(Elements(insights).value) ==> r == Err(ObjectChild)
  {
    match Elements(insights)
    case Err(e) => Err(e)
    case Ok(view) => if ViewMountable(view) then Ok(view) else Err(ObjectChild)
  }

  /** A list field the panel can render: absent, or a list of objects whose fields named in
      `keys` React can show. */
  predicate ListOfObjects(o: Option<Value>, keys: seq<string>) {
    o.None? ||
    (o.value.List? && forall i :: 0 <= i < |o.value.items| ==>
       o.value.items[i].Dict? && forall k :: k in keys ==> Mountable(Prop(o.value.items[i], k)))
  }

  /** Extracted data whose list fields are absent or lists of objects, and whose shown
      fields are all values React can show, renders the panel without throwing. */
  lemma RenderTotal(insights: Option<Value>)
    requires JsTruthy(insights)
    requires Mountable(Prop(insights.value, "hcp_name"))
    requires Mountable(Prop(insights.value, "summary"))
    requires Mountable(Prop(insights.value, "outcome"))
    requires Prop(insights.value, "topics").None? ||
             (Prop(insights.value, "topics").value.List? && Renderable(Prop(insights.value, "topics").value))
    requires ListOfObjects(Prop(insights.value, "materials"), ["material_type"])
    requires ListOfObjects(Prop(insights.value, "samples"), ["product_code"])
    requires ListOfObjects(Prop(insights.value, "suggested_follow_ups"), ["action_item", "priority"])
    ensures Render(insights).Ok? && Render(insights).value.Panel?
  {
    var v := insights.value;
    TopicsMount(Prop(v, "topics"));
    NamesMount(Prop(v, "materials"), "material_type");
    NamesMount(Prop(v, "samples"), "product_code");
    CardsMount(Prop(v, "suggested_follow_ups"));
  }

  /** Topics that are absent or a list of showable values build chips that all mount. */
  lemma TopicsMount(o: Option<Value>)
    requires o.None? || (o.value.List? && Renderable(o.value))
    ensures Listed(o, Chip).Ok?
    ensures Listed(o, Chip).value.Some? ==>
              forall i :: 0 <= i < |Listed(o, Chip).value.value| ==> Renderable(Listed(o, Chip).value.value[i])
  {
    ListedTotal(o, Chip);
    var r := Listed(o, Chip);
    if r.value.Some? {
      forall i | 0 <= i < |r.value.value| ensures Renderable(r.value.value[i]) {
        assert Chip(o.value.items[i]) == Ok(r.value.value[i]);
      }
    }
  }

  /** A list of objects whose names React can show builds lines whose names all mount. */
  lemma NamesMount(o: Option<Value>, nameKey: string)
    requires ListOfObjects(o, [nameKey])
    ensures Listed(o, ItemMaker(nameKey)).Ok?
    ensures NamesMountable(Listed(o, ItemMaker(nameKey)).value)
  {
    ListedTotal(o, ItemMaker(nameKey));
    var r := Listed(o, ItemMaker(nameKey));
    if r.value.Some? {
      ItemsInOrder(o.value.items, nameKey, r.value.value);
      assert forall i :: 0 <= i < |o.value.items| ==> Mountable(Prop(o.value.items[i], nameKey)) by {
        assert nameKey in [nameKey];
      }
    }
  }

  /** A list of objects whose action items and priorities React can show builds cards that
      all mount. */
  lemma CardsMount(o: Option<Value>)
    requires ListOfObjects(o, ["action_item", "priority"])
    ensures Listed(o, CardOf).Ok?
    ensures Listed(o, CardOf).value.Some? ==>
              forall i :: 0 <= i < |Listed(o, CardOf).value.value| ==>
                Mountable(Listed(o, CardOf).value.value[i].actionItem) && Mountable(Listed(o, CardOf).value.value[i].priority)
  {
    ListedTotal(o, CardOf);
    var r := Listed(o, CardOf);
    if r.value.Some? {
      var xs := o.value.items;
      forall i | 0 <= i < |r.value.value|
        ensures Mountable(r.value.value[i].actionItem) && Mountable(r.value.value[i].priority)
      {
        assert CardOf(xs[i]) == Ok(r.value.value[i]);
        assert "action_item" in ["action_item", "priority"] && "priority" in ["action_item", "priority"];
      }
    }
  }

  /** An object where the panel shows a child, such as an `hcp_name` of `{}` (which the
      backend treats as no name), makes rendering throw once the lists have been built. */
  lemma ObjectChildThrows(insights: Option<Value>, key: string)
    requires JsTruthy(insights)
    requires key in ["hcp_name", "summary", "outcome"]
    requires Prop(insights.value, key).Some? && Prop(insights.value, key).value.Dict?
    requires Prop(insights.value, "topics").None? || Prop(insights.value, "topics").value.List?
    requires ListOfObjects(Prop(insights.value, "materials"), [])
    requires ListOfObjects(Prop(insights.value, "samples"), [])
    requires ListOfObjects(Prop(insights.value, "suggested_follow_ups"), [])
    ensures Render(insights) == Err(ObjectChild)
  {
    ElementsBuilt(insights);
  }

  /** Truthy data whose list fields are absent or lists of objects builds its elements; the
      shown lines hold the fields and the cards are built from the suggestions. */
  lemma ElementsBuilt(insights: Option<Value>)
    requires JsTruthy(insights)
    requires Prop(insights.value, "topics").None? || Prop(insights.value, "topics").value.List?
    requires ListOfObjects(Prop(insights.value, "materials"), [])
    requires ListOfObjects(Prop(insights.value, "samples"), [])
    requires ListOfObjects(Prop(insights.value, "suggested_follow_ups"), [])
    ensures Elements(insights).Ok? && Elements(insights).value.Panel?
    ensures var view := Elements(insights).value; var v := insights.value;
            && view.hcp == Shown(Prop(v, "hcp_name"))
            && view.summary == Shown(Prop(v, "summary"))
            && view.outcome == Shown(Prop(v, "outcome"))
            && view.followUps == Listed(Prop(v, "suggested_follow_ups"), CardOf).value
  {
    var v := insights.value;
    ListedTotal(Prop(v, "topics"), Chip);
    ListedTotal(Prop(v, "materials"), ItemMaker("material_type"));
    ListedTotal(Prop(v, "samples"), ItemMaker("product_code"));
    ListedTotal(Prop(v, "suggested_follow_ups"), CardOf);
  }

  /** A suggestion whose `priority` is an object, which the backend passes through
      unchecked, makes rendering throw once the lists have been built. */
  lemma ObjectPriorityThrows(insights: Option<Value>, i: nat)
    requires JsTruthy(insights)
    requires Prop(insights.value, "topics").None? || Prop(insights.value, "topics").value.List?
    requires ListOfObjects(Prop(insights.value, "materials"), [])
    requires ListOfObjects(Prop(insights.value, "samples"), [])
    requires ListOfObjects(Prop(insights.value, "suggested_follow_ups"), [])
    requires Prop(insights.value, "suggested_follow_ups").Some?
    requires i < |Prop(insights.value, "suggested_follow_ups").value.items|
    requires var p := Prop(Prop(insights.value, "suggested_follow_ups").value.items[i], "priority");
             p.Some? && p.value.Dict?
    ensures Render(insights) == Err(ObjectChild)
  {
    ElementsBuilt(insights);
    PriorityUnmountable(Prop(insights.value, "suggested_follow_ups"), i);
  }

  /** The card built from a suggestion whose `priority` is an object shows that object. */
  lemma PriorityUnmountable(o: Option<Value>, i: nat)
    requires ListOfObjects(o, []) && o.Some? && i < |o.value.items|
    requires var p := Prop(o.value.items[i], "priority"); p.Some? && p.value.Dict?
    ensures Listed(o, CardOf).Ok? && Listed(o, CardOf).value.Some?
    ensures i < |Listed(o, CardOf).value.value| && !Mountable(Listed(o, CardOf).value.value[i].priority)
  {
    ListedTotal(o, CardOf);
    var cards := Listed(o, CardOf).value.value;
    CardsInOrder(o.value.items, cards);
  }

  /** A list field holding an object whose `length` property compares above 0 passes the
      section's guard and then throws, as the object has no `map`; with the other list
      fields well formed, that is what rendering ends with. */
  lemma LengthObjectThrows(insights: Option<Value>, key: string)
    requires JsTruthy(insights)
    requires key in ["topics", "materials", "samples", "suggested_follow_ups"]
    requires Prop(insights.value, key).Some? && Prop(insights.value, key).value.Dict?
    requires HasItems(Prop(insights.value, key))
    requires key != "topics" ==> Prop(insights.value, "topics").None? || Prop(insights.value, "topics").value.List?
    requires key != "materials" ==> ListOfObjects(Prop(insights.value, "materials"), [])
    requires key != "samples" ==> ListOfObjects(Prop(insights.value, "samples"), [])
    requires key != "suggested_follow_ups" ==> ListOfObjects(Prop(insights.value, "suggested_follow_ups"), [])
    ensures Render(insights) == Err(TypeError)
  {
    var v := insights.value;
    if key != "topics" { ListedTotal(Prop(v, "topics"), Chip); }
    if key != "materials" { ListedTotal(Prop(v, "materials"), ItemMaker("material_type")); }
    if key != "samples" { ListedTotal(Prop(v, "samples"), ItemMaker("product_code")); }
    if key != "suggested_follow_ups" { ListedTotal(Prop(v, "suggested_follow_ups"), CardOf); }
  }

  /** Mapping a list of objects never throws for an `f` that accepts every object. */
  lemma ListedTotal<T>(o: Option<Value>, f: Value -> Result<T, Exc>)
    requires o.None? || o.value.List?
    requires o.Some? ==> forall i :: 0 <= i < |o.value.items| ==> f(o.value.items[i]).Ok?
    ensures Listed(o, f).Ok?
  {
  }

  /** Each material or sample line belongs to the element at the same position, and shows
      `(xN)` exactly when that element's quantity is positive. */
  lemma ItemsInOrder(xs: seq<Value>, nameKey: string, items: seq<Item>)
    requires MapAll(xs, ItemMaker(nameKey)) == Ok(items)
    ensures |items| == |xs|
    ensures forall i :: 0 <= i < |xs| ==>
              items[i].name == Prop(xs[i], nameKey)
              && (items[i].times.Some? <==> JsPositive(Prop(xs[i], "quantity")))
              && (items[i].times.Some? ==> items[i].times == Prop(xs[i], "quantity"))
  {
    forall i | 0 <= i < |xs|
      ensures items[i].name == Prop(xs[i], nameKey)
      ensures items[i].times.Some? <==> JsPositive(Prop(xs[i], "quantity"))
      ensures items[i].times.Some? ==> items[i].times == Prop(xs[i], "quantity")
    {
      assert ItemMaker(nameKey)(xs[i]) == Ok(items[i]);
    }
  }

  /** The follow-up cards come in the order of the suggestions, each with a priority line
      exactly when its priority is truthy. */
  lemma CardsInOrder(xs: seq<Value>, cards: seq<Card>)
    requires MapAll(xs, CardOf) == Ok(cards)
    ensures |cards| == |xs|
    ensures forall i :: 0 <= i < |xs| ==>
              cards[i].actionItem == Prop(xs[i], "action_item")
              && (cards[i].priority.Some? <==> JsTruthy(Prop(xs[i], "priority")))
  {
  }

  // ---------------------------------------------------------------- slot

  /** The panel's state: the latest extracted data, or `None` before any arrived. */
  class Insights {
    var insights: Option<Value>

    /** The slot only ever holds nothing or truthy data. */
    predicate Valid()
      reads this
    {
      insights.None? || JsTruthy(insights)
    }

    constructor()
      ensures Valid() && insights == None
    {
      insights := None;
    }

    /** `handleExtractedData`: an event whose detail has truthy extracted data replaces the
      slot with exactly that data; any other event leaves it as it was. */
    method HandleExtractedData(detail: Option<Detail>)
      requires Valid()
      modifies this
      ensures Valid()
      ensures detail.Some? && JsTruthy(detail.value.extractedData) ==> insights == detail.value.extractedData
      ensures !(detail.Some? && JsTruthy(detail.value.extractedData)) ==> insights == old(insights)
    {
      if detail.Some? && JsTruthy(detail.value.extractedData) {
        insights := detail.value.extractedData;
      }
    }

    /** The placeholder is shown exactly while no data has arrived. */
    lemma PlaceholderUntilData()
      requires Valid()
      ensures Render(insights) == Ok(Placeholder) <==> insights.None?
    {
    }
  }

  /** A send in the conversational panel followed by the delivery of its event: the assistant
      panel ends up showing the extracted data of a successful answer when that data is
      truthy, and keeps what it showed otherwise. */
  method Converse(chat: ConversationalPanel.Chat, panel: Insights, reply: Result<ConversationalPanel.AgentReply, HttpError>)
    requires chat.Valid() && panel.Valid()
    modifies chat, panel
    ensures chat.Valid() && panel.Valid()
    ensures var delivered := ConversationalPanel.Sendable(old(chat.input), old(chat.loading))
                             && ConversationalPanel.Succeeded(reply) && JsTruthy(reply.value.extractedData);
            (delivered ==> panel.insights == reply.value.extractedData)
            && (!delivered ==> panel.insights == old(panel.insights))
  {
    var _, event := chat.Send(reply);
    panel.HandleExtractedData(event);
  }
}
