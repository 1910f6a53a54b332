/** The LangGraph agent (`agent.py`): five nodes that update one state object in place, wired
    in a line by the graph's edges, around three model calls. What a model call answers, and
    what `json.loads` makes of the answer, are parameters. */
module AgentGraph {
  import opened Wrappers
  import opened Schemas
  import opened Text
  import opened Json

  /** A chat message; every kind carries its text as `content`. */
  datatype Message = Human(content: string) | Ai(content: string) | System(content: string)

  /** One model call: it raised (with `str(e)`), or it answered `content`, and `parsed` is
      what `json.loads(content)` returns (`None` when it raises). */
  datatype Reply = Raised(reason: string) | Answered(content: string, parsed: Option<Value>)

  function ErrorOf<T>(r: Result<T, Exc>): Option<Exc> {
    if r.Err? then Some(r.error) else None
  }

  // ---------------------------------------------------------------- the two tools

  /** The keyword fallback of `sentiment_analyzer` when the answer is not JSON: "positive"
      wins over "negative" when the lower-cased answer mentions both; the verdict is always one
      of the three `Sentiment` values. */
  function SentimentFallback(content: string): (verdict: string)
    ensures ParseSentiment(verdict).Some?
    ensures verdict == "positive" <==> IsInfix("positive", Lower(content))
    ensures verdict == "negative" <==> !IsInfix("positive", Lower(content)) && IsInfix("negative", Lower(content))
    ensures verdict == "neutral" <==> !IsInfix("positive", Lower(content)) && !IsInfix("negative", Lower(content))
  {
    var c := Lower(content);
    if IsInfix("positive", c) then "positive" else if IsInfix("negative", c) then "negative" else "neutral"
  }

  /** `sentiment_analyzer`: the parsed answer as it is, or a dictionary with the keyword
      label. (The fallback's `confidence` numbers are floats and are left out.) */
  function SentimentAnalyzer(reply: Reply): (r: Result<Value, Exc>)
    ensures r.Err? <==> reply.Raised?
    ensures reply.Answered? && reply.parsed.Some? ==> r == Ok(reply.parsed.value)
    ensures reply.Answered? && reply.parsed.None? ==> r == Ok(Dict([("sentiment", Str(SentimentFallback(reply.content)))]))
  {
    match reply
    case Raised(e) => Err(ModelError(e))
    case Answered(content, parsed) =>
      Ok(if parsed.Some? then parsed.value else Dict([("sentiment", Str(SentimentFallback(content)))]))
  }

  function Suggestion(actionItem: string, priority: string): Value {
    Dict([("action_item", Str(actionItem)), ("priority", Str(priority))])
  }

  /** `followup_suggestor`: a parsed list as it is; one default item for any other JSON; two
      default items when the answer is not JSON, the second of "high" priority exactly when
      the sentiment is "positive" and of "low" priority otherwise. */
  function FollowupSuggestor(reply: Reply, sentiment: Option<string>): (r: Result<Value, Exc>)
    ensures r.Err? <==> reply.Raised?
    ensures r.Ok? ==> r.value.List?
    ensures reply.Answered? && reply.parsed.Some? && reply.parsed.value.List? ==> r == Ok(reply.parsed.value)
    ensures reply.Answered? && reply.parsed.Some? && !reply.parsed.value.List? ==>
      r == Ok(List([Suggestion("Follow up on discussed topics", "medium")]))
    ensures reply.Answered? && reply.parsed.None? ==>
      && |r.value.items| == 2
      && r.value.items[0] == Suggestion("Schedule next meeting", "medium")
      && (r.value.items[1] == Suggestion("Send requested materials", "high") <==> sentiment == Some("positive"))
      && (r.value.items[1] == Suggestion("Send requested materials", "low") <==> sentiment != Some("positive"))
  {
    match reply
    case Raised(e) => Err(ModelError(e))
    case Answered(_, parsed) =>
      if parsed.None? then
        Ok(List([Suggestion("Schedule next meeting", "medium"),
                 Suggestion("Send requested materials", if sentiment == Some("positive") then "high" else "low")]))
      else if parsed.value.List? then Ok(parsed.value)
      else Ok(List([Suggestion("Follow up on discussed topics", "medium")]))
  }

  // ---------------------------------------------------------------- what each node computes

  function LastText(messages: seq<Message>): string {
    if messages == [] then "" else messages[|messages| - 1].content
  }

  /** The dictionary `extract_entities` falls back to when the answer is not JSON. */
  function ExtractionFallback(last: string): Value {
    Dict([("hcp_name", Str("")), ("summary", Str(last)), ("materials", List([])),
          ("samples", List([])), ("topics", List([])), ("outcome", Null)])
  }

  /** `extract_entities`: the parsed answer, whatever JSON it is, or the fallback built from
      the text of the last message ("" when there is none). */
  function ExtractStep(messages: seq<Message>, reply: Reply): (r: Result<Value, Exc>)
    ensures r.Err? <==> reply.Raised?
    ensures reply.Answered? && reply.parsed.Some? ==> r == Ok(reply.parsed.value)
    ensures reply.Answered? && reply.parsed.None? ==> r == Ok(ExtractionFallback(LastText(messages)))
  {
    match reply
    case Raised(e) => Err(ModelError(e))
    case Answered(_, parsed) => Ok(if parsed.Some? then parsed.value else ExtractionFallback(LastText(messages)))
  }

  /** `analyze_sentiment_node`: with a truthy summary, the `sentiment` the analyzer returns
      ("neutral" when its result has none) is stored in the dictionary and nothing else
      changes; with an empty or missing summary the dictionary is left as it is. */
  function SentimentStep(extracted: Value, reply: Reply): (r: Result<Value, Exc>)
    ensures !extracted.Dict? ==> r == Err(AttributeError)
    ensures extracted.Dict? && !Truthy(Lookup(extracted.entries, "summary").GetOr(Str(""))) ==> r == Ok(extracted)
    ensures r.Ok? ==> r.value.Dict? && forall k :: k != "sentiment" ==> Lookup(r.value.entries, k) == Lookup(extracted.entries, k)
    ensures extracted.Dict? && Truthy(Lookup(extracted.entries, "summary").GetOr(Str(""))) ==>
      var summary := Lookup(extracted.entries, "summary").GetOr(Str(""));
      var result := SentimentAnalyzer(reply);
      && (!summary.Str? ==> r == Err(ValidationError))
      && (summary.Str? && result.Err? ==> r == Err(result.error))
      && (summary.Str? && result.Ok? && !result.value.Dict? ==> r == Err(AttributeError))
      && (summary.Str? && result.Ok? && result.value.Dict? ==>
            r.Ok? && Lookup(r.value.entries, "sentiment") == Some(Lookup(result.value.entries, "sentiment").GetOr(Str("neutral"))))
  {
    match Get(extracted, "summary", Str(""))
    case Err(e) => Err(e)
    case Ok(summary) =>
      if !Truthy(summary) then Ok(extracted)
      else if !summary.Str? then Err(ValidationError)
      else
        match SentimentAnalyzer(reply)
        case Err(e) => Err(e)
        case Ok(result) =>
          match Get(result, "sentiment", Str("neutral"))
          case Err(e) => Err(e)
          case Ok(s) => Ok(Dict(Assign(extracted.entries, "sentiment", s)))
  }

  /** The `sentiment` argument the follow-up tool accepts: text, or `None`. */
  function SentimentArgument(v: Value): (r: Result<Option<string>, Exc>)
    ensures r.Ok? <==> v.Str? || v.Null?
    ensures v.Str? ==> r == Ok(Some(v.s))
  {
    if v.Str? then Ok(Some(v.s)) else if v.Null? then Ok(None) else Err(ValidationError)
  }

  /** `suggest_followups_node`: with a truthy summary, the suggestor's list is stored as
      `suggested_follow_ups` and nothing else changes; otherwise the dictionary is left as it
      is. */
  function FollowupStep(extracted: Value, reply: Reply): (r: Result<Value, Exc>)
    ensures !extracted.Dict? ==> r == Err(AttributeError)
    ensures extracted.Dict? && !Truthy(Lookup(extracted.entries, "summary").GetOr(Str(""))) ==> r == Ok(extracted)
    ensures r.Ok? ==> r.value.Dict? && forall k :: k != "suggested_follow_ups" ==> Lookup(r.value.entries, k) == Lookup(extracted.entries, k)
    ensures r.Ok? && r.value != extracted ==>
      Lookup(r.value.entries, "suggested_follow_ups").Some? && Lookup(r.value.entries, "suggested_follow_ups").value.List?
    ensures extracted.Dict? && Truthy(Lookup(extracted.entries, "summary").GetOr(Str(""))) ==>
      var summary := Lookup(extracted.entries, "summary").GetOr(Str(""));
      var sentiment := SentimentArgument(Lookup(extracted.entries, "sentiment").GetOr(Str("neutral")));
      && (!summary.Str? || sentiment.Err? ==> r == Err(ValidationError))
      && (summary.Str? && sentiment.Ok? && FollowupSuggestor(reply, sentiment.value).Err? ==>
            r == Err(FollowupSuggestor(reply, sentiment.value).error))
      && (summary.Str? && sentiment.Ok? && FollowupSuggestor(reply, sentiment.value).Ok? ==>
            r.Ok? && Lookup(r.value.entries, "suggested_follow_ups") == Some(FollowupSuggestor(reply, sentiment.value).value))
  {
    match Get(extracted, "summary", Str(""))
    case Err(e) => Err(e)
    case Ok(summary) =>
      var sentiment := Get(extracted, "sentiment", Str("neutral")).value;
      if !Truthy(summary) then Ok(extracted)
      else if !summary.Str? then Err(ValidationError)
      else
        match SentimentArgument(sentiment)
        case Err(e) => Err(e)
        case Ok(s) =>
          match FollowupSuggestor(reply, s)
          case Err(e) => Err(e)
          case Ok(fus) => Ok(Dict(Assign(extracted.entries, "suggested_follow_ups", fus)))
  }

  // ---------------------------------------------------------------- the response text

  /** The fixed part of `generate_response`'s text, up to the blank line after the counts. */
  function Header(extracted: Value): (r: Result<string, Exc>)
    ensures r.Ok? <==>
              && extracted.Dict?
              && Lookup(extracted.entries, "sentiment").GetOr(Str("neutral")).Str?
              && JoinText(Lookup(extracted.entries, "topics").GetOr(List([])), ", ").Ok?
              && Len(Lookup(extracted.entries, "materials").GetOr(List([]))).Ok?
              && Len(Lookup(extracted.entries, "samples").GetOr(List([]))).Ok?
  {
    if !extracted.Dict? then Err(AttributeError)
    else
      var d := extracted.entries;
      var sentiment := Lookup(d, "sentiment").GetOr(Str("neutral"));
      var topics := JoinText(Lookup(d, "topics").GetOr(List([])), ", ");
      var materials := Len(Lookup(d, "materials").GetOr(List([])));
      var samples := Len(Lookup(d, "samples").GetOr(List([])));
      if !sentiment.Str? then Err(AttributeError)
      else if topics.Err? then Err(topics.error)
      else if materials.Err? then Err(materials.error)
      else if samples.Err? then Err(samples.error)
      else
        Ok(Intro(d, sentiment.s, topics.value) + CountLines(materials.value, samples.value))
  }

  /** The header's lines up to the topics. */
  function Intro(d: Entries, sentiment: string, topics: string): string {
    "I've extracted the following information:\n\n"
    + "**HCP:** " + Show(Lookup(d, "hcp_name").GetOr(Str("Not specified"))) + "\n"
    + "**Summary:** " + Show(Lookup(d, "summary").GetOr(Str("No summary"))) + "\n"
    + "**Sentiment:** " + Title(sentiment) + "\n"
    + "**Topics:** " + (if topics == "" then "None" else topics) + "\n"
  }

  /** The header's last lines: the number of materials and of samples, then a blank line. */
  function CountLines(materials: nat, samples: nat): string {
    "**Materials:** " + IntText(materials) + " item(s)\n" + "**Samples:** " + IntText(samples) + " item(s)\n\n"
  }

  /** The header ends with the counts: `len` of `materials` and of `samples` (a dictionary
      counting its distinct keys, a text its characters), "0" for a missing list. */
  lemma HeaderReportsCounts(extracted: Value)
    ensures Header(extracted).Ok? ==>
      var h := Header(extracted).value;
      var m := Len(Lookup(extracted.entries, "materials").GetOr(List([]))).value;
      var s := Len(Lookup(extracted.entries, "samples").GetOr(List([]))).value;
      var c := "**Materials:** " + IntText(m) + " item(s)\n" + "**Samples:** " + IntText(s) + " item(s)\n\n";
      |c| <= |h| && h[|h| - |c|..] == c
    ensures Header(extracted).Ok? && Lookup(extracted.entries, "materials").None? ==>
      Len(Lookup(extracted.entries, "materials").GetOr(List([]))) == Ok(0)
  {
    if Header(extracted).Ok? {
      var d := extracted.entries;
      var a := Intro(d, Lookup(d, "sentiment").GetOr(Str("neutral")).s, JoinText(Lookup(d, "topics").GetOr(List([])), ", ").value);
      var c := CountLines(Len(Lookup(d, "materials").GetOr(List([]))).value, Len(Lookup(d, "samples").GetOr(List([]))).value);
      assert Header(extracted).value == a + c;
      assert (a + c)[|a + c| - |c|..] == c;
    }
  }

  /** One numbered line of the follow-up list. */
  function FollowUpLine(number: int, fu: Value): (r: Result<string, Exc>)
    ensures !fu.Dict? <==> r == Err(AttributeError)
    ensures fu.Dict? ==> r.Ok?
    ensures fu.Dict? && Lookup(fu.entries, "action_item").None? && Lookup(fu.entries, "priority").None? ==>
      r == Ok(IntText(number) + ". " + "N/A" + (" (" + "medium" + " priority)\n"))
  {
    if !fu.Dict? then Err(AttributeError)
    else
      Ok(IntText(number) + ". " + Show(Lookup(fu.entries, "action_item").GetOr(Str("N/A")))
         + (" (" + Show(Lookup(fu.entries, "priority").GetOr(Str("medium"))) + " priority)\n"))
  }

  /** A follow-up line starts with its number and the action item ("N/A" when absent) and
      ends with the priority ("medium" when absent). */
  lemma FollowUpLineParts(number: int, fu: Value)
    requires fu.Dict?
    ensures IntText(number) + ". " + Show(Lookup(fu.entries, "action_item").GetOr(Str("N/A"))) <= FollowUpLine(number, fu).value
    ensures var tail := " (" + Show(Lookup(fu.entries, "priority").GetOr(Str("medium"))) + " priority)\n";
      var line := FollowUpLine(number, fu).value;
      |tail| <= |line| && line[|line| - |tail|..] == tail
  {
    var head := IntText(number) + ". " + Show(Lookup(fu.entries, "action_item").GetOr(Str("N/A")));
    var tail := " (" + Show(Lookup(fu.entries, "priority").GetOr(Str("medium"))) + " priority)\n";
    assert FollowUpLine(number, fu).value == head + tail;
    assert (head + tail)[..|head|] == head;
    assert (head + tail)[|head|..] == tail;
  }

  /** What `line` renders for each of `items`, numbered from `first` and concatenated; the
      first item it rejects raises. */
  function Numbered(items: seq<Value>, first: int, line: (int, Value) -> Result<string, Exc>): Result<string, Exc>
    decreases |items|
  {
    if items == [] then Ok("")
    else
      var prev := Numbered(items[..|items| - 1], first, line);
      var last := line(first + |items| - 1, items[|items| - 1]);
      if prev.Err? then prev
      else if last.Err? then Err(last.error)
      else Ok(prev.value + last.value)
  }

  /** A list is numbered on from where the list before it stops: item `j` of `b` carries
      number `first + |a| + j`. */
  lemma {:induction false} NumberedAppend(a: seq<Value>, b: seq<Value>, first: int, line: (int, Value) -> Result<string, Exc>)
    requires Numbered(a + b, first, line).Ok?
    ensures Numbered(a, first, line).Ok? && Numbered(b, first + |a|, line).Ok?
    ensures Numbered(a + b, first, line).value == Numbered(a, first, line).value + Numbered(b, first + |a|, line).value
    decreases |b|
  {
    if b == [] {
      assert a + b == a;
    } else {
      var n := |b| - 1;
      var ab := a + b;
      assert ab[..|ab| - 1] == a + b[..n];
      assert ab[|ab| - 1] == b[n];
      var last := line(first + |a| + n, b[n]);
      NumberedAppend(a, b[..n], first, line);
      var x, y := Numbered(a, first, line).value, Numbered(b[..n], first + |a|, line).value;
      assert (x + y) + last.value == x + (y + last.value);
    }
  }

  /** Once a prefix of the list raises, the whole list raises the same exception. */
  lemma {:induction false} NumberedPrefixErr(items: seq<Value>, k: nat, first: int, line: (int, Value) -> Result<string, Exc>)
    requires k <= |items| && Numbered(items[..k], first, line).Err?
    ensures Numbered(items, first, line) == Numbered(items[..k], first, line)
    decreases |items|
  {
    if k == |items| {
      assert items[..k] == items;
    } else {
      var n := |items| - 1;
      assert items[..n][..k] == items[..k];
      NumberedPrefixErr(items[..n], k, first, line);
    }
  }

  /** The numbered lines of the suggestions, from `first`. */
  function FollowUpLines(fus: seq<Value>, first: int): Result<string, Exc> {
    Numbered(fus, first, FollowUpLine)
  }

  /** The `for` loop of `generate_response` over the suggestions, appending one line per
      item and numbering from 1. */
  method NumberedLines(fus: seq<Value>) returns (r: Result<string, Exc>)
    ensures r == FollowUpLines(fus, 1)
  {
    var text := "";
    var i := 0;
    while i < |fus|
      invariant 0 <= i <= |fus|
      invariant Numbered(fus[..i], 1, FollowUpLine) == Ok(text)
    {
      assert fus[..i + 1][..i] == fus[..i];
      assert fus[..i + 1][i] == fus[i];
      var line := FollowUpLine(i + 1, fus[i]);
      if line.Err? {
        NumberedPrefixErr(fus, i + 1, 1, FollowUpLine);
        return Err(line.error);
      }
      text := text + line.value;
      i := i + 1;
    }
    assert fus[..i] == fus;
    return Ok(text);
  }

  /** `generate_response`'s text: the header, then, when `suggested_follow_ups` is truthy, a
      heading and one numbered line per suggestion from 1. */
  function ResponseText(extracted: Value): Result<string, Exc> {
    match Header(extracted)
    case Err(e) => Err(e)
    case Ok(header) =>
      if !Truthy(Lookup(extracted.entries, "suggested_follow_ups").GetOr(Null)) then Ok(header)
      else
        match Items(Lookup(extracted.entries, "suggested_follow_ups").GetOr(List([])))
        case Err(e) => Err(e)
        case Ok(fus) =>
          match FollowUpLines(fus, 1)
          case Err(e) => Err(e)
          case Ok(lines) => Ok(header + "\n**Suggested Follow-ups:**\n" + lines)
  }

  /** The response starts with the header; without truthy suggestions it is the header alone,
      and with them it raises exactly when the header or a suggestion line does. */
  lemma ResponseExtendsHeader(extracted: Value)
    ensures ResponseText(extracted).Ok? ==> Header(extracted).Ok? && Header(extracted).value <= ResponseText(extracted).value
    ensures Header(extracted).Ok? && !Truthy(Lookup(extracted.entries, "suggested_follow_ups").GetOr(Null)) ==>
              ResponseText(extracted) == Header(extracted)
    ensures Header(extracted).Err? ==> ResponseText(extracted) == Header(extracted)
  {
  }

  // ---------------------------------------------------------------- the graph

  datatype Node = ExtractEntities | AnalyzeSentiment | SuggestFollowups | LogInteraction | GenerateResponse

  /** `set_entry_point`. */
  const Entry: Node := ExtractEntities

  /** The edges `create_agent` adds; `None` is `END`. */
  function Next(n: Node): Option<Node> {
    match n
    case ExtractEntities => Some(AnalyzeSentiment)
    case AnalyzeSentiment => Some(SuggestFollowups)
    case SuggestFollowups => Some(LogInteraction)
    case LogInteraction => Some(GenerateResponse)
    case GenerateResponse => None
  }

  function Remaining(n: Node): nat {
    match n
    case ExtractEntities => 4
    case AnalyzeSentiment => 3
    case SuggestFollowups => 2
    case LogInteraction => 1
    case GenerateResponse => 0
  }

  /** The nodes visited from `n` on, following the edges until `END`. Its contract only
      ties the walk to `Remaining`; what the graph promises is `PipelineIsThePath`. */
  function PathFrom(n: Node): (p: seq<Node>)
    decreases Remaining(n)
    ensures |p| == Remaining(n) + 1 && p[0] == n
  {
    match Next(n)
    case None => [n]
    case Some(m) => [n] + PathFrom(m)
  }

  /** The run order of `AgentState.Run`. */
  const Pipeline: seq<Node> := [ExtractEntities, AnalyzeSentiment, SuggestFollowups, LogInteraction, GenerateResponse]

  /** The graph runs the five nodes from the entry point in the order `Run` runs them, each
      exactly once, and then ends. */
  lemma PipelineIsThePath()
    ensures PathFrom(Entry) == Pipeline
    ensures forall i, j :: 0 <= i < j < |Pipeline| ==> Pipeline[i] != Pipeline[j]
  {
  }

  /** What the compiled graph returns for the conversation `messages`: the final
      `extracted_data` and the messages with the response appended, or the exception a node
      raised. */
  function AgentRun(messages: seq<Message>, extract: Reply, sentiment: Reply, followups: Reply): (r: Result<(Value, seq<Message>), Exc>)
    ensures r.Ok? <==> Enriched(messages, extract, sentiment, followups).Ok? && ResponseText(Enriched(messages, extract, sentiment, followups).value).Ok?
    ensures r.Ok? ==> r.value.0 == Enriched(messages, extract, sentiment, followups).value
  {
    match Enriched(messages, extract, sentiment, followups)
    case Err(e) => Err(e)
    case Ok(e3) =>
      match ResponseText(e3)
      case Err(e) => Err(e)
      case Ok(text) => Ok((e3, messages + [Ai(text)]))
  }

  /** The `extracted_data` the first three nodes leave, or the exception one of them raised;
      it is always a dictionary. */
  function Enriched(messages: seq<Message>, extract: Reply, sentiment: Reply, followups: Reply): (r: Result<Value, Exc>)
    ensures r.Ok? ==> r.value.Dict?
  {
    match ExtractStep(messages, extract)
    case Err(e) => Err(e)
    case Ok(e1) =>
      match SentimentStep(e1, sentiment)
      case Err(e) => Err(e)
      case Ok(e2) => FollowupStep(e2, followups)
  }

  lemma StopsAtExtract(messages: seq<Message>, extract: Reply, sentiment: Reply, followups: Reply)
    requires ExtractStep(messages, extract).Err?
    ensures AgentRun(messages, extract, sentiment, followups) == Err(ExtractStep(messages, extract).error)
  {
  }

  lemma StopsAtSentiment(messages: seq<Message>, extract: Reply, sentiment: Reply, followups: Reply)
    requires ExtractStep(messages, extract).Ok?
    requires SentimentStep(ExtractStep(messages, extract).value, sentiment).Err?
    ensures AgentRun(messages, extract, sentiment, followups) == Err(SentimentStep(ExtractStep(messages, extract).value, sentiment).error)
  {
  }

  lemma StopsAtFollowups(messages: seq<Message>, extract: Reply, sentiment: Reply, followups: Reply)
    requires ExtractStep(messages, extract).Ok?
    requires SentimentStep(ExtractStep(messages, extract).value, sentiment).Ok?
    requires FollowupStep(SentimentStep(ExtractStep(messages, extract).value, sentiment).value, followups).Err?
    ensures AgentRun(messages, extract, sentiment, followups)
            == Err(FollowupStep(SentimentStep(ExtractStep(messages, extract).value, sentiment).value, followups).error)
  {
  }

  lemma Enriches(messages: seq<Message>, extract: Reply, sentiment: Reply, followups: Reply)
    requires ExtractStep(messages, extract).Ok?
    requires SentimentStep(ExtractStep(messages, extract).value, sentiment).Ok?
    requires FollowupStep(SentimentStep(ExtractStep(messages, extract).value, sentiment).value, followups).Ok?
    ensures var e3 := FollowupStep(SentimentStep(ExtractStep(messages, extract).value, sentiment).value, followups).value;
            && ErrorOf(AgentRun(messages, extract, sentiment, followups)) == ErrorOf(ResponseText(e3))
            && (ResponseText(e3).Ok? ==> AgentRun(messages, extract, sentiment, followups).value == (e3, messages + [Ai(ResponseText(e3).value)]))
  {
  }

  /** A run that completes appends exactly one message, the response, to the conversation. */
  lemma AgentRunAppendsOne(messages: seq<Message>, extract: Reply, sentiment: Reply, followups: Reply)
    requires AgentRun(messages, extract, sentiment, followups).Ok?
    ensures var (e, ms) := AgentRun(messages, extract, sentiment, followups).value;
      && |ms| == |messages| + 1 && ms[..|messages|] == messages
      && ms[|messages|] == Ai(ResponseText(e).value)
  {
  }

  /** The graph state (`AgentState`). The CRUD references the source keeps in it are never
      used and are left out. */
  class AgentState {
    var messages: seq<Message>
    var extracted: Value
    var interactionId: Option<string>

    /** The initial state `process_conversational_input` builds. */
    constructor (userInput: string)
      ensures messages == [Human(userInput)] && extracted == Dict([]) && interactionId == None
    {
      messages := [Human(userInput)];
      extracted := Dict([]);
      interactionId := None;
    }

    method ExtractEntitiesNode(reply: Reply) returns (err: Option<Exc>)
      modifies this`extracted
      ensures err == ErrorOf(ExtractStep(messages, reply))
      ensures err.None? ==> extracted == ExtractStep(messages, reply).value
      ensures err.Some? ==> extracted == old(extracted)
    {
      var last := if messages != [] then messages[|messages| - 1].content else "";
      match reply
      case Raised(e) =>
        return Some(ModelError(e));
      case Answered(_, parsed) =>
        if parsed.Some? {
          extracted := parsed.value;
        } else {
          extracted := Dict([("hcp_name", Str("")), ("summary", Str(last)), ("materials", List([])),
                             ("samples", List([])), ("topics", List([])), ("outcome", Null)]);
        }
        return None;
    }

    method AnalyzeSentimentNode(reply: Reply) returns (err: Option<Exc>)
      modifies this`extracted
      ensures err == ErrorOf(SentimentStep(old(extracted), reply))
      ensures err.None? ==> extracted == SentimentStep(old(extracted), reply).value
      ensures err.Some? ==> extracted == old(extracted)
    {
      var summary := Get(extracted, "summary", Str(""));
      if summary.Err? {
        return Some(summary.error);
      }
      if Truthy(summary.value) {
        if !summary.value.Str? {
          return Some(ValidationError);
        }
        var result := SentimentAnalyzer(reply);
        if result.Err? {
          return Some(result.error);
        }
        var s := Get(result.value, "sentiment", Str("neutral"));
        if s.Err? {
          return Some(s.error);
        }
        extracted := Dict(Assign(extracted.entries, "sentiment", s.value));
      }
      return None;
    }

    method SuggestFollowupsNode(reply: Reply) returns (err: Option<Exc>)
      modifies this`extracted
      ensures err == ErrorOf(FollowupStep(old(extracted), reply))
      ensures err.None? ==> extracted == FollowupStep(old(extracted), reply).value
      ensures err.Some? ==> extracted == old(extracted)
    {
      var summary := Get(extracted, "summary", Str(""));
      if summary.Err? {
        return Some(summary.error);
      }
      var sentiment := Get(extracted, "sentiment", Str("neutral")).value;
      if Truthy(summary.value) {
        if !summary.value.Str? {
          return Some(ValidationError);
        }
        var s := SentimentArgument(sentiment);
        if s.Err? {
          return Some(s.error);
        }
        var fus := FollowupSuggestor(reply, s.value);
        if fus.Err? {
          return Some(fus.error);
        }
        extracted := Dict(Assign(extracted.entries, "suggested_follow_ups", fus.value));
      }
      return None;
    }

    method LogInteractionNode()
      modifies this`interactionId
      ensures interactionId == Some("pending")
    {
      interactionId := Some("pending");
    }

    /** `generate_response`: builds the text with one `+=` per suggestion and appends it as
        one message. */
    method GenerateResponseNode() returns (err: Option<Exc>)
      modifies this`messages
      ensures err == ErrorOf(ResponseText(extracted))
      ensures err.None? ==> messages == old(messages) + [Ai(ResponseText(extracted).value)]
      ensures err.Some? ==> messages == old(messages)
    {
      var header := Header(extracted);
      if header.Err? {
        return Some(header.error);
      }
      var text := header.value;
      if Truthy(Lookup(extracted.entries, "suggested_follow_ups").GetOr(Null)) {
        text := text + "\n**Suggested Follow-ups:**\n";
        var items := Items(Lookup(extracted.entries, "suggested_follow_ups").GetOr(List([])));
        if items.Err? {
          return Some(items.error);
        }
        var lines := NumberedLines(items.value);
        if lines.Err? {
          return Some(lines.error);
        }
        text := text + lines.value;
      }
      messages := messages + [Ai(text)];
      return None;
    }

    /** `agent.invoke`: the nodes in graph order on this state, stopping at the first one that
        raises. The state ends as `AgentRun` says. */
    method Run(extract: Reply, sentiment: Reply, followups: Reply) returns (err: Option<Exc>)
      modifies this`messages, this`extracted, this`interactionId
      ensures err == ErrorOf(AgentRun(old(messages), extract, sentiment, followups))
      ensures err.None? ==> (extracted, messages) == AgentRun(old(messages), extract, sentiment, followups).value
      ensures err.None? ==> interactionId == Some("pending")
    {
      ghost var m0 := messages;
      err := ExtractEntitiesNode(extract);
      if err.Some? {
        StopsAtExtract(m0, extract, sentiment, followups);
        return;
      }
      err := AnalyzeSentimentNode(sentiment);
      if err.Some? {
        StopsAtSentiment(m0, extract, sentiment, followups);
        return;
      }
      err := SuggestFollowupsNode(followups);
      if err.Some? {
        StopsAtFollowups(m0, extract, sentiment, followups);
        return;
      }
      Enriches(m0, extract, sentiment, followups);
      LogInteractionNode();
      err := GenerateResponseNode();
    }
  }
}
