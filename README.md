# AI-first CRM: HCP interaction logger, modelled in Dafny

The system logs a pharmaceutical representative's interactions with healthcare
professionals (HCPs). A representative either fills in a structured form or describes the
meeting in a chat. A LangGraph agent then:

- extracts the HCP, summary, topics, materials and samples;
- analyses the sentiment;
- suggests follow-ups;
- composes a reply.

The backend finds or creates the HCP and stores the interaction in five in-memory
dictionaries: HCPs, interactions, materials, samples and follow-ups. An assistant panel
shows the latest extraction.

The model follows the program's structure, one module per file:

| module | file | models |
|---|---|---|
| `Schemas` | `schemas.dfy` | the request and record shapes, the `Sentiment` enum, the interaction keys |
| `Tables` | `tables.dfy` | a Python `dict` (a map plus the insertion order of its keys) |
| `StoreShape` | `store_shape.dfy` | the invariant tying the five tables together |
| `Crud` | `crud.dfy` | `crud.py`: a `Store` class whose methods update the five tables in place |
| `Json` | `json.dfy` | the JSON values the model answers with and their Python handling (`get`, `len`, `join`, pydantic's field coercions) |
| `AgentGraph` | `agent_graph.dfy` | `agent.py`: the tools, the five nodes as methods of an `AgentState` class, the graph's edges |
| `AgentService` | `agent_service.dfy` | `agent_service.py`: the conversational request and the natural-language edit, over a `Store` |
| `Client` | `client.dfy` | JavaScript truthiness, property access and the axios error text |
| `StructuredForm` | `structured_form.dfy` | `StructuredForm.jsx`: a `Form` class holding the draft, the search hits, the busy flag and the banner |
| `ConversationalPanel` | `conversational_panel.dfy` | `ConversationalPanel.jsx`: a `Chat` class holding the transcript, the text box, the busy flag and the recording flag |
| `AssistantPanel` | `assistant_panel.dfy` | `AssistantPanel.jsx`: an `Insights` class holding the latest extraction, and the view rendered from it |
| `Text`, `Seqs`, `Wrappers` | `text.dfy`, `seqs.dfy`, `wrappers.dfy` | `trim`, `split`, `join`, `lower`, `title`, `filter` and `map` as the two languages define them, plus `Option` and `Result` |

Inputs from the outside world are parameters:

- the model's answers (`Reply`: raised, or answered with text and its `json.loads` parse);
- the `uuid4()` results;
- the current time;
- whether the API key is set;
- the server's answers to the browser's requests.

An exception is a `Result` error carrying its kind (`Exc`). A React component's state is
a class, and each event handler is a method on it. An `await` inside a handler is one
step, with the awaited answer as a parameter.

## Model

| member | source | states |
|---|---|---|
| `Text.TrimStart` | crm-ai-task/frontend/src/components/LogInteraction/StructuredForm.jsx:79 | the result is a suffix of the input; everything removed is white space; the result does not start with white space |
| `Text.TrimEnd` | crm-ai-task/frontend/src/components/LogInteraction/StructuredForm.jsx:79 | the result is a prefix of the input; everything removed is white space; the result does not end with white space |
| `Text.TrimPadded` | crm-ai-task/frontend/src/components/LogInteraction/ConversationalPanel.jsx:27-29 | `trim()` returns an infix of its input with only white space around it |
| `Text.TrimEnds` | crm-ai-task/frontend/src/components/LogInteraction/ConversationalPanel.jsx:27-29 | a non-empty `trim()` result starts and ends with a non-space character |
| `Text.TrimEmpty` | crm-ai-task/frontend/src/components/LogInteraction/ConversationalPanel.jsx:27 | `!input.trim()` holds exactly when the input is all white space |
| `Text.Split` | crm-ai-task/frontend/src/components/LogInteraction/StructuredForm.jsx:79 | `split(',')` gives at least one piece, and no piece contains the separator |
| `Text.SplitCount` | crm-ai-task/frontend/src/components/LogInteraction/StructuredForm.jsx:79 | there is one piece more than there are separators |
| `Text.JoinSplit` | crm-ai-task/frontend/src/components/LogInteraction/StructuredForm.jsx:79 | joining the pieces with the separator gives back the input |
| `Text.SplitJoin` | crm-ai-task/frontend/src/components/LogInteraction/StructuredForm.jsx:79 | splitting a join of separator-free pieces gives back the pieces |
| `Text.Lower` | crm-ai-task/backend/app/crud.py:18-21 | `lower()` keeps the length and lower-cases each character |
| `Text.Title` | crm-ai-task/langgraph/tools/agent.py:253 | `title()` keeps the length; a non-letter is kept, the first letter of each run of letters is upper case and the others lower case |
| `Text.CaseKeepsLetters` | crm-ai-task/langgraph/tools/agent.py:253 | changing a character's case keeps it a letter or a non-letter, and case changes of a letter do not stack |
| `Text.TitleIdempotent` | crm-ai-task/langgraph/tools/agent.py:253 | title-casing an already title-cased sentiment changes nothing |
| `Text.TakeWord` | crm-ai-task/backend/app/agent_service.py:110 | the leading run of non-space characters, ended by a space or by the end of the text |
| `Text.FirstWord` | crm-ai-task/backend/app/agent_service.py:110 | `split()[0]` exists exactly when the text has a non-space character, and it is a non-empty word without spaces |
| `Text.LeadingSpaces` | crm-ai-task/backend/app/agent_service.py:110 | the white space `split()` skips before the first word: all space, and followed by a non-space or the end |
| `Text.FirstWordIsFirst` | crm-ai-task/backend/app/agent_service.py:110 | `split()[0]` is the word that starts at the first non-space character, and exists exactly when there is one |
| `Text.NatToString` | crm-ai-task/langgraph/tools/agent.py:255-256 | a count is rendered as non-empty text (with `Json.DigitsRoundTrip`: text that reads back as the count) |
| `Seqs.Filter` | crm-ai-task/backend/app/crud.py:49-51 | a comprehension with a condition is never longer than its input |
| `Seqs.FilterMembers` | crm-ai-task/backend/app/crud.py:49-51 | the kept elements are exactly the input's elements that meet the condition |
| `Seqs.FilterConcat` | crm-ai-task/frontend/src/components/LogInteraction/StructuredForm.jsx:81-83 | filtering distributes over concatenation, so the kept rows keep their order |
| `Seqs.FilterAll` | crm-ai-task/frontend/src/components/LogInteraction/StructuredForm.jsx:81-83 | a condition every element meets keeps the whole list |
| `Seqs.FilterNone` | crm-ai-task/frontend/src/components/LogInteraction/StructuredForm.jsx:81-83 | a condition no element meets keeps nothing |
| `Seqs.UpdateAt` | crm-ai-task/frontend/src/components/LogInteraction/StructuredForm.jsx:45-47 | `map((item, i) => i === index ? f(item) : item)` changes the element at `index` only, and no other |
| `Seqs.RemoveAt` | crm-ai-task/frontend/src/components/LogInteraction/StructuredForm.jsx:61 | `filter((_, i) => i !== index)` removes exactly the element at `index`, and changes nothing for an index out of range |
| `Seqs.Take` | crm-ai-task/backend/app/crud.py:23 | `results[:limit]` is a prefix of at most `limit` elements, and Python's count for a negative limit |
| `Tables.Table.Get` | crm-ai-task/backend/app/crud.py:15 | `dict.get` finds a value exactly for a present key |
| `Tables.Table.Values` | crm-ai-task/backend/app/crud.py:20 | `values()` lists the values in the insertion order of their keys |
| `Tables.Table.Put` | crm-ai-task/backend/app/crud.py:38 | assigning a new key appends it to the order; assigning a present key keeps the order |
| `Tables.Empty` | crm-ai-task/backend/app/crud.py:7-11 | a new dictionary has no values |
| `Tables.PutFreshValues` | crm-ai-task/backend/app/crud.py:88 | a new key's value comes last in `values()` |
| `Tables.PutExistingValues` | crm-ai-task/backend/app/crud.py:132 | re-assigning a key replaces its value in place in `values()` |
| `Tables.PutTwice` | crm-ai-task/backend/app/crud.py:120-122 | assigning a key twice leaves what the second assignment wrote |
| `Schemas.Sentiment.Text` | crm-ai-task/backend/app/schemas.py:6-9 | the value of a `Sentiment` is one of its three strings |
| `Schemas.ParseSentiment` | crm-ai-task/backend/app/schemas.py:6-9 | a string coerces to `Sentiment` exactly when it is one of the three values, and to the member with that value |
| `Schemas.SentimentRoundTrip` | crm-ai-task/backend/app/schemas.py:6-9 | every member parses back from its value |
| `Schemas.FieldNamed` | crm-ai-task/backend/app/crud.py:131 | a patch key names an interaction field, and is ignored exactly when no field has that name |
| `Schemas.FieldNamedName` | crm-ai-task/backend/app/crud.py:131 | every field is found by its own name |
| `Schemas.AllFieldsListed` | crm-ai-task/backend/app/crud.py:58-74 | the stored dictionary's fifteen keys are all the interaction's fields |
| `Schemas.CreateDefaults` | crm-ai-task/backend/app/schemas.py:11-80 | the defaults of the create models: quantity 0, follow-up status "open", mode "conversational", empty child lists |
| `StoreShape.PutInteractionKeepsValid` | crm-ai-task/backend/app/crud.py:75 | storing a well-formed interaction dictionary under its own id keeps the store consistent |
| `StoreShape.ValuesAreRows` | crm-ai-task/backend/app/crud.py:49 | `values()` holds exactly the stored rows |
| `Crud.OrDefault` | crm-ai-task/backend/app/crud.py:62 | `x or default` gives the default exactly for `None` and "" |
| `Crud.StoredFollowUp` | crm-ai-task/backend/app/crud.py:109-116 | a stored follow-up keeps its fields, and its status falls back to a non-empty "open" |
| `Crud.StoredFollowUps` | crm-ai-task/backend/app/crud.py:106-118 | follow-ups are stored one per input, in order |
| `Crud.InteractionRecord` | crm-ai-task/backend/app/crud.py:58-74 | the stored dictionary has every interaction key and its own id, and each key holds the value taken from the request |
| `Crud.InteractionRecordDefaults` | crm-ai-task/backend/app/crud.py:58-74 | the record carries its own id, both timestamps set to the call's time, mode "conversational" when none is given, the sentiment's value or `None`, and empty child lists |
| `Crud.WithChildren` | crm-ai-task/backend/app/crud.py:120-122 | writing the child lists changes the three child keys and no other key |
| `Crud.RecordWithChildren` | crm-ai-task/backend/app/crud.py:120-122 | the dictionary with its child lists written keeps its keys and id |
| `Crud.Patched` | crm-ai-task/backend/app/crud.py:130-132 | a patch overwrites exactly the present keys it names, other than `id` and `created_at` |
| `Crud.UpdatedFields` | crm-ai-task/backend/app/crud.py:125-134 | an update keeps the keys, `id` and `created_at`, and sets `updated_at` to the time of the call; it overwrites the other keys the patch names and keeps the ones it does not; keys naming no field make no difference |
| `Crud.UpdatedKeepsShape` | crm-ai-task/backend/app/crud.py:130-134 | an update keeps a stored dictionary well formed |
| `Crud.ChildrenExactly` | crm-ai-task/backend/app/crud.py:49-51 | a child join holds exactly the rows that point at the interaction |
| `Crud.NoChildren` | crm-ai-task/backend/app/crud.py:71-75 | a new interaction has no child rows yet |
| `Crud.ChildrenOfAppend` | crm-ai-task/backend/app/crud.py:88-89 | rows appended for the interaction come last in its join, in input order |
| `Crud.Ids` | crm-ai-task/backend/app/crud.py:80 | the child loops take consecutive `uuid4()` results |
| `Crud.FreshIds` | crm-ai-task/backend/app/crud.py:80 | distinct, unused `uuid4()` results are fresh keys for a child table |
| `Crud.AttachChildren` | crm-ai-task/backend/app/crud.py:78-89 | one child loop stores one row per body, in order, under consecutive ids and pointing at the interaction; the table's values gain exactly those rows |
| `Crud.ApplyUpdate` | crm-ai-task/backend/app/crud.py:130-134 | the patch loop followed by the `updated_at` assignment computes `Updated` |
| `Crud.Store.constructor` | crm-ai-task/backend/app/crud.py:7-11 | the store starts with five empty tables |
| `Crud.Store.GetHcpById` | crm-ai-task/backend/app/crud.py:14-15 | finds an HCP exactly when it is stored, and returns the one stored under that id |
| `Crud.Store.SearchHcpByName` | crm-ai-task/backend/app/crud.py:17-23 | returns stored HCPs whose lower-cased name contains the lower-cased query, in insertion order, cut by `limit` (Python's slice, also for negative limits); with a large enough limit every match is returned |
| `Crud.Store.GetInteraction` | crm-ai-task/backend/app/crud.py:42-52 | returns a view exactly for a stored id: the stored dictionary minus its child lists, with its own id |
| `Crud.Store.GetInteractionChildren` | crm-ai-task/backend/app/crud.py:49-51 | the returned child lists hold exactly the stored rows that point at the interaction |
| `Crud.Store.CreateHcp` | crm-ai-task/backend/app/crud.py:25-39 | stores the HCP under its `uuid4()` id with both timestamps set to the call's time; `get_hcp_by_id` then finds it, and other HCPs are untouched |
| `Crud.Store.CreateInteraction` | crm-ai-task/backend/app/crud.py:54-123 | stores the record under the first `uuid4()` result, appended to the interaction order; stores materials, samples and follow-ups under the next results, in input order; the returned view is what `get_interaction` reads back |
| `Crud.Store.InsertInteraction` | crm-ai-task/backend/app/crud.py:75-122 | the store side of `create_interaction`: the same guarantees for a prepared record |
| `Crud.Store.AttachViewLists` | crm-ai-task/backend/app/crud.py:120-123 | writing the joined lists into the stored dictionary keeps the store consistent, and the view reads back |
| `Crud.Store.AttachAll` | crm-ai-task/backend/app/crud.py:77-118 | the three child loops in order: each table gains exactly the rows created, which come last in the interaction's join |
| `Crud.Store.AttachMaterials` | crm-ai-task/backend/app/crud.py:78-89 | the materials loop appends one row per body, in order |
| `Crud.Store.AttachSamples` | crm-ai-task/backend/app/crud.py:92-103 | the samples loop appends one row per body, in order |
| `Crud.Store.AttachFollowUps` | crm-ai-task/backend/app/crud.py:106-118 | the follow-ups loop appends one row per body, in order |
| `Crud.Store.JoinedView` | crm-ai-task/backend/app/crud.py:42-52 | a view of the stored fields and the three joins is what `get_interaction` returns |
| `Crud.Store.UpdateInteraction` | crm-ai-task/backend/app/crud.py:125-137 | an unknown id gives `None` and changes nothing; otherwise it stores the patched dictionary (`UpdatedFields`) and returns the re-read interaction |
| `Crud.Store.SetInteraction` | crm-ai-task/backend/app/crud.py:75 | storing a well-formed dictionary under its id keeps the store consistent |
| `Json.Lookup` | crm-ai-task/langgraph/tools/agent.py:212-213 | `d.get(k)` finds a value exactly when the key occurs, and the value is one stored under it |
| `Json.LookupAt` | crm-ai-task/langgraph/tools/agent.py:212-213 | a key's last occurrence is the one `get` sees |
| `Json.LookupReplaceAll` | crm-ai-task/langgraph/tools/agent.py:217 | replacing a key's values changes what `get` finds for that key only |
| `Json.Assign` | crm-ai-task/langgraph/tools/agent.py:217 | `d[k] = v`: `get(k)` then gives `v` and every other key is unchanged; a present key keeps its place, a new one is appended |
| `Json.AssignExisting` | crm-ai-task/langgraph/tools/agent.py:230 | assigning a present key changes what `get` finds for that key alone |
| `Json.ToMap` | crm-ai-task/backend/app/agent_service.py:238-240 | the parsed object as a dictionary holds each key with its last value |
| `Json.IntText` | crm-ai-task/langgraph/tools/agent.py:255 | an integer renders as non-empty text |
| `Json.Quote` | crm-ai-task/backend/app/agent_service.py:122 | `repr` of a string is enclosed in matching quotes |
| `Json.Show` | crm-ai-task/langgraph/tools/agent.py:251-252 | a string is formatted as itself, and `None` as "None" |
| `Json.Keys` | crm-ai-task/langgraph/tools/agent.py:195 | the dictionary `json.loads` builds holds each key of the answer once, and nothing else |
| `Json.LastIndex` | crm-ai-task/langgraph/tools/agent.py:195 | a repeated key holds the value of its last occurrence |
| `Json.KeysWithoutRepeats` | crm-ai-task/langgraph/tools/agent.py:195 | an answer without a repeated key keeps every key, in order |
| `Json.KeysAssign` | crm-ai-task/langgraph/tools/agent.py:217 | `d[k] = v` keeps a present key in its place and puts a new key last |
| `Json.KeysCount` | crm-ai-task/langgraph/tools/agent.py:255-256 | there are as many distinct keys as the dictionary's map has keys |
| `Json.Len` | crm-ai-task/langgraph/tools/agent.py:255-256 | `len` succeeds exactly on text, lists and dictionaries; a dictionary's is its number of distinct keys, a list's its items, a text's its characters |
| `Json.Items` | crm-ai-task/backend/app/agent_service.py:174 | iteration succeeds exactly where `len` does and gives `len` items: a list's own items, or a dictionary's keys, each once |
| `Json.Texts` | crm-ai-task/langgraph/tools/agent.py:254 | the strings of a list of strings, in order |
| `Json.JoinText` | crm-ai-task/langgraph/tools/agent.py:254 | `', '.join(x)` succeeds exactly on an iterable of strings, and on a list it joins its strings |
| `Json.OptTextField` | crm-ai-task/backend/app/schemas.py:71 | an `Optional[str]` field accepts exactly `None` and text |
| `Json.TextField` | crm-ai-task/backend/app/schemas.py:12 | a required `str` field accepts exactly present text |
| `Json.IntField` | crm-ai-task/backend/app/schemas.py:13 | an `int` field takes integers as they are and rejects `None`, lists and objects |
| `Json.DigitsRoundTrip` | crm-ai-task/backend/app/schemas.py:13 | a count's decimal text is digits that read back as the count |
| `Json.IntTextField` | crm-ai-task/backend/app/schemas.py:13 | every integer's text (with its sign) is accepted by an `int` field as that integer |
| `Json.MapAll` | crm-ai-task/backend/app/agent_service.py:168 | the list comprehension gives one result per element, in order, or the error of an element that fails |
| `Json.MapAllStep` | crm-ai-task/backend/app/agent_service.py:174-179 | one more element either keeps an earlier error, stops at this element's error, or appends its result |
| `Json.MapAllPrefixErr` | crm-ai-task/backend/app/agent_service.py:174-179 | once a prefix fails, the whole list fails with the same error |
| `Client.JsVersusPython` | crm-ai-task/frontend/src/components/LogInteraction/AssistantPanel.jsx:34 | JavaScript truthiness differs from Python's exactly on the empty list and the empty object |
| `Client.Prop` | crm-ai-task/frontend/src/components/LogInteraction/AssistantPanel.jsx:65 | a property read finds a value only on an object |
| `Client.HasItemsTruthy` | crm-ai-task/frontend/src/components/LogInteraction/AssistantPanel.jsx:92 | a value with `length > 0` is truthy |
| `Client.Length` | crm-ai-task/frontend/src/components/LogInteraction/AssistantPanel.jsx:92 | `o?.length` is the length of text or of an array, an object's own `length` property, and `undefined` for anything else |
| `Client.HasItemsCases` | crm-ai-task/frontend/src/components/LogInteraction/AssistantPanel.jsx:150 | `o?.length > 0` holds for non-empty text and arrays, and for an object whose `length` property compares above 0 |
| `Client.MapItems` | crm-ai-task/frontend/src/components/LogInteraction/AssistantPanel.jsx:166 | `.map` over a list maps each element; on text, or an object with a `length`, it throws |
| `Client.ErrorText` | crm-ai-task/frontend/src/components/LogInteraction/ConversationalPanel.jsx:74 | the error line shows the server's `detail` when it is non-empty, otherwise the error message |
| `AgentGraph.SentimentFallback` | crm-ai-task/langgraph/tools/agent.py:131-137 | a non-JSON answer gives "positive" exactly when it mentions positive, "negative" when it mentions negative but not positive, otherwise "neutral"; always one of the three values |
| `AgentGraph.SentimentAnalyzer` | crm-ai-task/langgraph/tools/agent.py:108-137 | raises exactly when the model call raises; a JSON answer is returned as it is; otherwise the keyword verdict |
| `AgentGraph.FollowupSuggestor` | crm-ai-task/langgraph/tools/agent.py:140-169 | raises exactly when the model call raises, and otherwise always returns a list: a parsed list as it is, one default item for other JSON, two fallback items for non-JSON |
| `AgentGraph.ExtractStep` | crm-ai-task/langgraph/tools/agent.py:173-208 | raises exactly when the model call raises; a JSON answer becomes the extracted data unchanged, whatever JSON it is; a non-JSON answer falls back to the last message as the summary |
| `AgentGraph.SentimentStep` | crm-ai-task/langgraph/tools/agent.py:210-220 | with an untruthy summary nothing changes; with a truthy one, a non-text summary, a raising analyzer or a result without `get` raises, and otherwise `sentiment` is set to the result's `get("sentiment", "neutral")` and nothing else changes |
| `AgentGraph.SentimentArgument` | crm-ai-task/langgraph/tools/agent.py:140 | the follow-up tool's `sentiment` argument accepts exactly text and `None` |
| `AgentGraph.FollowupStep` | crm-ai-task/langgraph/tools/agent.py:222-233 | with an untruthy summary nothing changes; with a truthy one, `suggested_follow_ups` is set to the suggestor's result for the stored sentiment ("neutral" when absent), or the step raises as the tool does, and nothing else changes |
| `AgentGraph.Header` | crm-ai-task/langgraph/tools/agent.py:249-258 | the response header can be built exactly when the data is a dictionary, its sentiment is text, its topics are joinable strings and its materials and samples have a length |
| `AgentGraph.HeaderReportsCounts` | crm-ai-task/langgraph/tools/agent.py:255-258 | the header ends with the `len` of the materials and of the samples, "0" for a missing list, then a blank line |
| `AgentGraph.FollowUpLine` | crm-ai-task/langgraph/tools/agent.py:263 | a line raises exactly for a suggestion without `get`; a suggestion with neither key reads "N. N/A (medium priority)" |
| `AgentGraph.FollowUpLineParts` | crm-ai-task/langgraph/tools/agent.py:263 | a line starts with its number and the action item ("N/A" when absent) and ends with the priority ("medium" when absent) |
| `AgentGraph.NumberedAppend` | crm-ai-task/langgraph/tools/agent.py:262-263 | numbering a concatenation numbers the second part on from where the first stops |
| `AgentGraph.NumberedPrefixErr` | crm-ai-task/langgraph/tools/agent.py:262-263 | a line that raises makes the whole loop raise the same exception |
| `AgentGraph.NumberedLines` | crm-ai-task/langgraph/tools/agent.py:260-263 | the `for` loop appending one numbered line per suggestion computes the numbered lines from 1 |
| `AgentGraph.ResponseExtendsHeader` | crm-ai-task/langgraph/tools/agent.py:245-266 | the response starts with the header; it is the header alone without truthy suggestions |
| `AgentGraph.PathFrom` | crm-ai-task/langgraph/tools/agent.py:282-289 | the walk from a node along the edges ends at `END` after the node's remaining steps |
| `AgentGraph.PipelineIsThePath` | crm-ai-task/langgraph/tools/agent.py:270-291 | the graph runs the five nodes once each, in the order extract, sentiment, follow-ups, log, respond |
| `AgentGraph.AgentRun` | crm-ai-task/langgraph/tools/agent.py:270-291 | a run completes exactly when the three enriching nodes and the response do, and then returns their extracted data |
| `AgentGraph.Enriched` | crm-ai-task/langgraph/tools/agent.py:173-233 | the extracted data after the first three nodes is a dictionary |
| `AgentGraph.StopsAtExtract` | crm-ai-task/langgraph/tools/agent.py:285 | an extraction that raises ends the run with that exception |
| `AgentGraph.StopsAtSentiment` | crm-ai-task/langgraph/tools/agent.py:286 | a sentiment node that raises ends the run with that exception |
| `AgentGraph.StopsAtFollowups` | crm-ai-task/langgraph/tools/agent.py:287 | a follow-up node that raises ends the run with that exception |
| `AgentGraph.Enriches` | crm-ai-task/langgraph/tools/agent.py:288-289 | after the three enriching nodes, the run's outcome is the response's, appended to the conversation |
| `AgentGraph.AgentRunAppendsOne` | crm-ai-task/langgraph/tools/agent.py:265 | a completed run appends exactly one AI message, the response, to the conversation |
| `AgentGraph.AgentState.constructor` | crm-ai-task/backend/app/agent_service.py:56-65 | the initial state holds the user's message, an empty extraction and no interaction id |
| `AgentGraph.AgentState.ExtractEntitiesNode` | crm-ai-task/langgraph/tools/agent.py:173-208 | the node stores `ExtractStep`'s data, or raises and leaves the state alone |
| `AgentGraph.AgentState.AnalyzeSentimentNode` | crm-ai-task/langgraph/tools/agent.py:210-220 | the node stores `SentimentStep`'s data, or raises and leaves the state alone |
| `AgentGraph.AgentState.SuggestFollowupsNode` | crm-ai-task/langgraph/tools/agent.py:222-233 | the node stores `FollowupStep`'s data, or raises and leaves the state alone |
| `AgentGraph.AgentState.LogInteractionNode` | crm-ai-task/langgraph/tools/agent.py:235-243 | the interaction id becomes "pending" |
| `AgentGraph.AgentState.GenerateResponseNode` | crm-ai-task/langgraph/tools/agent.py:245-266 | appends the response text as an AI message, or raises and leaves the conversation alone |
| `AgentGraph.AgentState.Run` | crm-ai-task/langgraph/tools/agent.py:270-291 | running the nodes in graph order on the state gives `AgentRun`'s outcome, with the interaction id "pending" |
| `AgentService.ErrorText` | crm-ai-task/backend/app/agent_service.py:43-87 | only a failed result carries an error text |
| `AgentService.FallbackSentiment` | crm-ai-task/backend/app/agent_service.py:110-112 | the fallback's sentiment is the first word of the lower-cased answer when that is one of the three values, and "neutral" otherwise or for an empty answer; it raises `IndexError` exactly for a non-empty all-space answer |
| `AgentService.FallbackPath` | crm-ai-task/backend/app/agent_service.py:70-124 | a client that cannot be built gives up; otherwise the result is a dictionary whose sentiment is one of the three values, whose suggestions are always set, and whose conversation is the input and one reply |
| `AgentService.Extract` | crm-ai-task/backend/app/agent_service.py:52-124 | the agent's result when it completes, the fallback path when it raises; always a dictionary |
| `AgentService.LastReplyIsLatest` | crm-ai-task/backend/app/agent_service.py:131-137 | the reply is "Processing complete" when only human messages exist, otherwise the last non-human message's content |
| `AgentService.FindReply` | crm-ai-task/backend/app/agent_service.py:131-137 | the reverse loop with `break` computes `LastReply` |
| `AgentService.AgentReplyIsResponse` | crm-ai-task/backend/app/agent_service.py:131-137 | after a completed agent run, the reply is the response the last node appended |
| `AgentService.HcpPlan` | crm-ai-task/backend/app/agent_service.py:139-155 | no HCP for an untruthy name; the first search hit's id when there is one; otherwise a new HCP of that name |
| `AgentService.MaterialFrom` | crm-ai-task/backend/app/agent_service.py:168 | `MaterialSharedCreate(**m)` takes `material_type` as given, defaults `quantity` to 0, and rejects a non-object |
| `AgentService.SampleFrom` | crm-ai-task/backend/app/agent_service.py:169 | `SampleCreate(**s)` takes `product_code` as given, defaults `quantity` to 0, and rejects a non-object |
| `AgentService.FollowUpFrom` | crm-ai-task/backend/app/agent_service.py:175-179 | a suggestion becomes an open follow-up owned by the representative, with its action item ("" when absent) and no due date |
| `AgentService.SuggestedFollowUps` | crm-ai-task/backend/app/agent_service.py:174-179 | the `append` loop over the suggestions computes `FollowUpsFrom` |
| `AgentService.SentimentField` | crm-ai-task/backend/app/agent_service.py:164 | a sentiment is accepted as the member with that value; `None` stays `None` |
| `AgentService.FollowUpsFrom` | crm-ai-task/backend/app/agent_service.py:174-179 | follow-up `i` is made from suggestion `i`; iteration errors and the first rejected suggestion end it |
| `AgentService.TopicsField` | crm-ai-task/backend/app/agent_service.py:165 | accepted topics are the list's strings, in order; `None` stays `None` and the default `[]` gives no topics |
| `AgentService.Assemble` | crm-ai-task/backend/app/agent_service.py:157-182 | the validated request is conversational and carries the HCP id, the representative and the raw input; it has one material per listed material and one open follow-up owned by the representative per suggestion; missing topics become `[]` |
| `AgentService.AssembleFromEntries` | crm-ai-task/backend/app/agent_service.py:157-182 | material, sample and follow-up `i` are made from item `i` of their lists; the scalar fields and topics are the entries as their fields accept them; validation fails exactly when one of these is rejected |
| `AgentService.MissingActionItemStoredEmpty` | crm-ai-task/backend/app/agent_service.py:174-179 | a suggestion without `action_item` becomes, and is stored as, an open follow-up with an empty action item owned by the representative |
| `AgentService.Draw` | crm-ai-task/backend/app/agent_service.py:182 | the `uuid4()` results of one `create_interaction` call, in call order |
| `AgentService.DrawFresh` | crm-ai-task/backend/app/agent_service.py:182 | results drawn from a stream of fresh ids are fresh for the store |
| `AgentService.StoreInteraction` | crm-ai-task/backend/app/agent_service.py:182 | `create_interaction` stores the interaction under the first fresh id with its child rows, and it reads back as returned |
| `AgentService.ResolveHcp` | crm-ai-task/backend/app/agent_service.py:139-155 | carries out `HcpPlan` on the store: a created HCP is stored under its id, and otherwise the HCPs are untouched |
| `AgentService.LogExtracted` | crm-ai-task/backend/app/agent_service.py:139-182 | a planned new HCP is stored whatever follows, even when validation then fails, and otherwise the HCPs are untouched; a request failing validation leaves the interaction and child tables alone; otherwise the interaction and its child rows are stored under fresh ids and read back as returned |
| `AgentService.ProcessConversationalInput` | crm-ai-task/backend/app/agent_service.py:27-199 | without an API key, or when the client or the extraction fails, nothing is stored; after an extraction a planned new HCP is stored even when validation fails, which then leaves the interaction and child tables alone; otherwise it reports the extraction, the reply, the stored interaction with its rows, the sentiment ("neutral" when absent) and the suggestions |
| `AgentService.FailedRequestKeepsHcp` | crm-ai-task/backend/app/agent_service.py:139-182 | a request naming a new HCP with `topics` given as text fails validation, yet the HCP stays in the store while no interaction or child row is added |
| `AgentService.EditInteractionViaAgent` | crm-ai-task/backend/app/agent_service.py:201-246 | an unknown id, a failed model call or an answer that is not a JSON object changes nothing; a JSON object is applied with `update_interaction` and the re-read interaction returned |
| `StructuredForm.ListName.KeyField` | crm-ai-task/frontend/src/components/LogInteraction/StructuredForm.jsx:81-83 | a row is sent on its `material_type`, `product_code` or `action_item` |
| `StructuredForm.ListName.Template` | crm-ai-task/frontend/src/components/LogInteraction/StructuredForm.jsx:14-16 | a blank row has its key field present and empty |
| `StructuredForm.Draft.WithRows` | crm-ai-task/frontend/src/components/LogInteraction/StructuredForm.jsx:43-48 | replacing one list changes that list and nothing else |
| `StructuredForm.Draft.Set` | crm-ai-task/frontend/src/components/LogInteraction/StructuredForm.jsx:37-40 | `{ ...prev, [name]: value }` sets the named input and changes nothing else |
| `StructuredForm.InitialDraft` | crm-ai-task/frontend/src/components/LogInteraction/StructuredForm.jsx:7-19 | the fresh form has the current time, no HCP, and one blank row in each list |
| `StructuredForm.UpdateRow` | crm-ai-task/frontend/src/components/LogInteraction/StructuredForm.jsx:45-47 | the row at the index gets the field set, and its other fields and every other row are unchanged |
| `StructuredForm.AddRow` | crm-ai-task/frontend/src/components/LogInteraction/StructuredForm.jsx:54 | the template is appended after the existing rows |
| `StructuredForm.RemoveRow` | crm-ai-task/frontend/src/components/LogInteraction/StructuredForm.jsx:61 | exactly the row at the index is dropped, and the others keep their order |
| `StructuredForm.MapText` | crm-ai-task/frontend/src/components/LogInteraction/StructuredForm.jsx:79 | `map` keeps the number of pieces |
| `StructuredForm.MapTextAt` | crm-ai-task/frontend/src/components/LogInteraction/StructuredForm.jsx:79 | element `i` of `map(f)` is `f` of piece `i` |
| `StructuredForm.Topics` | crm-ai-task/frontend/src/components/LogInteraction/StructuredForm.jsx:79 | the topics are empty exactly when the text is |
| `StructuredForm.TopicAt` | crm-ai-task/frontend/src/components/LogInteraction/StructuredForm.jsx:79 | topic `i` is piece `i` of the text, trimmed |
| `StructuredForm.TopicsCount` | crm-ai-task/frontend/src/components/LogInteraction/StructuredForm.jsx:79 | non-empty text gives one topic more than it has commas |
| `StructuredForm.TopicIsPiece` | crm-ai-task/frontend/src/components/LogInteraction/StructuredForm.jsx:79 | each topic sits inside its comma-separated piece with only white space around it, and the pieces rejoin to the text |
| `StructuredForm.TrimClean` | crm-ai-task/frontend/src/components/LogInteraction/StructuredForm.jsx:79 | trimming leaves text without white space at its ends unchanged |
| `StructuredForm.TopicsRoundTrip` | crm-ai-task/frontend/src/components/LogInteraction/StructuredForm.jsx:79 | clean topics typed with commas between them come back as the same list |
| `StructuredForm.BlankPieceKept` | crm-ai-task/frontend/src/components/LogInteraction/StructuredForm.jsx:79 | a blank piece is kept as an empty topic, not dropped |
| `StructuredForm.BuildPayload` | crm-ai-task/frontend/src/components/LogInteraction/StructuredForm.jsx:72-84 | the body carries the id or `null`, rep "rep_001", mode "structured", the inputs as typed, the split topics, and the filled-in rows of each list |
| `StructuredForm.SentRowsExactly` | crm-ai-task/frontend/src/components/LogInteraction/StructuredForm.jsx:81-83 | a row is sent exactly when its key field is filled in; it is sent unchanged and the order is kept |
| `StructuredForm.BlankFormSendsNoRows` | crm-ai-task/frontend/src/components/LogInteraction/StructuredForm.jsx:81-83 | an untouched form sends no materials, samples or follow-ups |
| `StructuredForm.TypedNameKeepsPickedId` | crm-ai-task/frontend/src/components/LogInteraction/StructuredForm.jsx:149-152 | typing a name after picking an HCP keeps the picked id, so no HCP is created and the typed name is not sent |
| `StructuredForm.NewHcp` | crm-ai-task/frontend/src/components/LogInteraction/StructuredForm.jsx:88-93 | the HCP posted for a typed name has that name and empty title, speciality and organisation |
| `StructuredForm.WithHcp` | crm-ai-task/frontend/src/components/LogInteraction/StructuredForm.jsx:94 | the created HCP's id replaces the payload's id, and nothing else changes |
| `StructuredForm.Form.constructor` | crm-ai-task/frontend/src/components/LogInteraction/StructuredForm.jsx:7-24 | the initial draft, no hits, an empty query, not busy, no banner |
| `StructuredForm.Form.InputChange` | crm-ai-task/frontend/src/components/LogInteraction/StructuredForm.jsx:37-40 | the draft becomes `Set(name, value)`, and no list becomes empty |
| `StructuredForm.Form.ArrayChange` | crm-ai-task/frontend/src/components/LogInteraction/StructuredForm.jsx:42-49 | the list becomes `UpdateRow` of it, and no list becomes empty |
| `StructuredForm.Form.AddArrayItem` | crm-ai-task/frontend/src/components/LogInteraction/StructuredForm.jsx:51-56 | the list gains its blank row at the end |
| `StructuredForm.Form.RemoveArrayItem` | crm-ai-task/frontend/src/components/LogInteraction/StructuredForm.jsx:58-63 | the row is removed; the button exists only while the list has more than one row, so no list becomes empty |
| `StructuredForm.Form.TypeHcpName` | crm-ai-task/frontend/src/components/LogInteraction/StructuredForm.jsx:149-152 | the text becomes both the search query and the draft's name, and the picked id is kept |
| `StructuredForm.Form.SearchEffect` | crm-ai-task/frontend/src/components/LogInteraction/StructuredForm.jsx:27-35 | a query of at most two characters clears the hits; a longer one takes the server's hits, and keeps the old ones on an error |
| `StructuredForm.Form.SelectHcp` | crm-ai-task/frontend/src/components/LogInteraction/StructuredForm.jsx:122-126 | the picked HCP's id and name go into the draft, and the hits and the query are cleared |
| `StructuredForm.Form.Submit` | crm-ai-task/frontend/src/components/LogInteraction/StructuredForm.jsx:65-120 | a name without an id creates the HCP first; the interaction is posted with that id, or not posted when the HCP creation fails; the draft resets only after a logged interaction; a failure shows the error and keeps the draft |
| `ConversationalPanel.Answer` | crm-ai-task/frontend/src/components/LogInteraction/ConversationalPanel.jsx:40-75 | a success appends the reply with its data; a failed answer appends the error or "Failed to process"; a failed request appends the request's error text |
| `ConversationalPanel.Broadcast` | crm-ai-task/frontend/src/components/LogInteraction/ConversationalPanel.jsx:52-58 | the event is dispatched exactly after a success with truthy extracted data, and carries that data and the interaction |
| `ConversationalPanel.BroadcastMatchesAnswer` | crm-ai-task/frontend/src/components/LogInteraction/ConversationalPanel.jsx:40-64 | the event carries what the appended answer shows, and an error line never broadcasts |
| `ConversationalPanel.WithTranscript` | crm-ai-task/frontend/src/components/LogInteraction/ConversationalPanel.jsx:102 | the transcript replaces an empty box, and otherwise follows the box's text after one space |
| `ConversationalPanel.Chat.constructor` | crm-ai-task/frontend/src/components/LogInteraction/ConversationalPanel.jsx:7-15 | the transcript is the greeting alone, the box is empty, and the panel is neither busy nor recording |
| `ConversationalPanel.Chat.TypeInput` | crm-ai-task/frontend/src/components/LogInteraction/ConversationalPanel.jsx:220-224 | typing, possible only while not busy, sets the box |
| `ConversationalPanel.Chat.Send` | crm-ai-task/frontend/src/components/LogInteraction/ConversationalPanel.jsx:26-79 | blank input or a send in flight changes nothing; otherwise it posts the trimmed text, clears the box, appends the user message and exactly one answer, broadcasts as `Broadcast` says, and ends not busy; the transcript keeps alternating |
| `ConversationalPanel.Chat.KeyPress` | crm-ai-task/frontend/src/components/LogInteraction/ConversationalPanel.jsx:81-86 | Enter without Shift sends; any other key changes nothing |
| `ConversationalPanel.Chat.RecordingStarted` | crm-ai-task/frontend/src/components/LogInteraction/ConversationalPanel.jsx:96-98 | recording is on |
| `ConversationalPanel.Chat.RecordingStopped` | crm-ai-task/frontend/src/components/LogInteraction/ConversationalPanel.jsx:106-113 | recording is off |
| `ConversationalPanel.Chat.VoiceResult` | crm-ai-task/frontend/src/components/LogInteraction/ConversationalPanel.jsx:100-104 | the transcript is appended to the box and recording stops |
| `ConversationalPanel.AppendTurn` | crm-ai-task/frontend/src/components/LogInteraction/ConversationalPanel.jsx:31-75 | a user message followed by an answer keeps the transcript alternating, and the old transcript is its prefix |
| `ConversationalPanel.TranscriptAppended` | crm-ai-task/frontend/src/components/LogInteraction/ConversationalPanel.jsx:102 | a voice result keeps what was typed as a prefix and ends with the transcript |
| `AssistantPanel.Shown` | crm-ai-task/frontend/src/components/LogInteraction/AssistantPanel.jsx:65 | `{o && ...}` renders exactly when the value is truthy, and renders that value |
| `AssistantPanel.ItemOf` | crm-ai-task/frontend/src/components/LogInteraction/AssistantPanel.jsx:168 | a line shows the item's name, and `(xN)` exactly when the quantity is positive; building it throws exactly for a `null` element (an object name throws later, at mounting) |
| `AssistantPanel.CardOf` | crm-ai-task/frontend/src/components/LogInteraction/AssistantPanel.jsx:203-228 | a card shows the action item, and the priority exactly when it is truthy; building it throws exactly for a `null` element (an object action item or priority throws later, at mounting) |
| `AssistantPanel.Listed` | crm-ai-task/frontend/src/components/LogInteraction/AssistantPanel.jsx:92-112 | a list section renders only for a value with items, one entry per element in order; a value with items that is not an array (text, or an object with a positive `length`) throws `TypeError` |
| `AssistantPanel.SentimentLabel` | crm-ai-task/frontend/src/components/LogInteraction/AssistantPanel.jsx:142-144 | the badge has a label exactly for the three known values |
| `AssistantPanel.Elements` | crm-ai-task/frontend/src/components/LogInteraction/AssistantPanel.jsx:34-235 | the placeholder shows exactly for untruthy data; otherwise each line or block shows exactly when its field is truthy, and each list when it has items |
| `AssistantPanel.Render` | crm-ai-task/frontend/src/components/LogInteraction/AssistantPanel.jsx:34-235 | the panel shows the elements only when every child they show can be mounted; an element error comes first, and an object child then throws |
| `AssistantPanel.LengthObjectThrows` | crm-ai-task/frontend/src/components/LogInteraction/AssistantPanel.jsx:92-96 | a list field holding an object with a positive `length` passes its section's guard and makes rendering throw `TypeError` at `.map` |
| `AssistantPanel.RenderTotal` | crm-ai-task/frontend/src/components/LogInteraction/AssistantPanel.jsx:34-235 | data whose list fields are absent or lists of objects, and whose shown fields are all values React can show, renders the panel |
| `AssistantPanel.TopicsMount` | crm-ai-task/frontend/src/components/LogInteraction/AssistantPanel.jsx:92-112 | a list of showable topics builds chips that all mount |
| `AssistantPanel.NamesMount` | crm-ai-task/frontend/src/components/LogInteraction/AssistantPanel.jsx:162-186 | objects with showable names build material or sample lines that all mount |
| `AssistantPanel.CardsMount` | crm-ai-task/frontend/src/components/LogInteraction/AssistantPanel.jsx:191-229 | objects with showable action items and priorities build cards that all mount |
| `AssistantPanel.ElementsBuilt` | crm-ai-task/frontend/src/components/LogInteraction/AssistantPanel.jsx:34-235 | truthy data whose lists are absent or lists of objects builds its elements, showing the HCP, summary and outcome fields and one card per suggestion |
| `AssistantPanel.ObjectChildThrows` | crm-ai-task/frontend/src/components/LogInteraction/AssistantPanel.jsx:65-253 | an object HCP name, summary or outcome (such as `hcp_name: {}`, which the backend takes as no name) makes rendering throw |
| `AssistantPanel.ObjectPriorityThrows` | crm-ai-task/frontend/src/components/LogInteraction/AssistantPanel.jsx:225 | a suggestion whose priority is an object makes rendering throw |
| `AssistantPanel.PriorityUnmountable` | crm-ai-task/frontend/src/components/LogInteraction/AssistantPanel.jsx:217-225 | the card of a suggestion whose priority is an object shows a priority React cannot mount |
| `AssistantPanel.ListedTotal` | crm-ai-task/frontend/src/components/LogInteraction/AssistantPanel.jsx:166-170 | mapping a list of objects never throws when each object renders |
| `AssistantPanel.ItemsInOrder` | crm-ai-task/frontend/src/components/LogInteraction/AssistantPanel.jsx:162-186 | each material or sample line belongs to the element at its position, with `(xN)` exactly for a positive quantity |
| `AssistantPanel.CardsInOrder` | crm-ai-task/frontend/src/components/LogInteraction/AssistantPanel.jsx:191-229 | the cards follow the suggestions' order, each with the suggestion's action item and its truthy priority |
| `AssistantPanel.Insights.constructor` | crm-ai-task/frontend/src/components/LogInteraction/AssistantPanel.jsx:4 | there is no data before the first event |
| `AssistantPanel.Insights.HandleExtractedData` | crm-ai-task/frontend/src/components/LogInteraction/AssistantPanel.jsx:9-13 | an event with truthy extracted data replaces the slot; any other event leaves it |
| `AssistantPanel.Insights.PlaceholderUntilData` | crm-ai-task/frontend/src/components/LogInteraction/AssistantPanel.jsx:34-51 | the placeholder shows exactly while no data has arrived |
| `AssistantPanel.Converse` | crm-ai-task/frontend/src/components/LogInteraction/AssistantPanel.jsx:8-17 | a chat send followed by the event's delivery shows a success's truthy extracted data, and otherwise keeps what was shown |

## Left out

- The `uuid4()` results, `datetime.utcnow()`, `new Date()` and the `GROQ_API_KEY` lookup are parameters. Timestamps are opaque values.
- The language model and `json.loads` are left out; each call's outcome is a `Reply` parameter. Prompt texts are not modelled, and `str(e)` of an exception is reduced to its kind (`Exc`), except where the text reaches the caller (`ModelError`, the client failure).
- `AgentService.ProcessConversationalInput`: the second API-key check in the fallback path (agent_service.py lines 76-77) can never fire, because the key was checked on line 43; it is left out.
- `AgentService.FallbackPath`: a failure of `ChatGroq(...)` is the `init` parameter; a failure of the later `llm.invoke` calls is a `Reply` that raised.
- The `crud_functions` entry of `AgentState` is never read by any node; it is left out, and `log_interaction_node` only sets the id to "pending".
- The `@tool` functions `log_interaction`, `edit_interaction` and `search_hcp` in agent.py return constants and are never invoked by the graph; they are left out.
- Floating-point values (the sentiment `confidence`) are not modelled; JSON numbers are integers.
- `Json.Repr`: `repr` of strings escapes the quote, the backslash, `\n`, `\r` and `\t`; the `\x..` and `\u....` escapes of other non-printable characters are not modelled.
- `Text.Lower`, `Text.Title`: case mapping covers the ASCII letters only, not full Unicode case folding.
- `AgentService.DateTimeField`: pydantic's datetime parsing is reduced to accepting `None` and any text; the format is not checked.
- JavaScript string lengths count UTF-16 code units; the model counts characters. This matters only for the search query's `length > 2` with characters outside the Basic Multilingual Plane.
- `parseInt(value) || 0` on the quantity inputs is not modelled: a quantity cell is any integer.
- FastAPI's request validation (422 answers) and the HTTP routes in `main.py` are not part of this model; the server's answers to the browser are parameters. The lazily initialised module-global `llm` in `get_llm` is not modelled.
- A request that creates an HCP and then fails validation keeps the HCP (`AgentService.FailedRequestKeepsHcp`). The model states this of the store as the source does it; it does not roll the HCP back.
- `AgentService.LogExtracted`, `AgentService.ProcessConversationalInput`, `Crud.Store.CreateInteraction`, `Crud.Store.InsertInteraction`: the `uuid4()` results are assumed pairwise distinct and unused in the store (`FreshStream`, `FreshFor`); a collision of random ids is not modelled.
- `window.onExtractedData` (ConversationalPanel.jsx lines 61-63) is never assigned anywhere in the frontend, so the model leaves it out.
- Asynchronous interleaving: each submit or send runs to completion as one step. A second search response arriving out of order is not modelled.
- React's rendering, scrolling, styles, `console` output, `alert` for a browser without speech recognition, and `toLocaleString` of the date are left out. `Render` returns which blocks appear and with what data, and throws (`ObjectChild`) where React refuses to mount an object as a child.
- `AssistantPanel.Elements`: a guard `{x && ...}` whose `x` is the number 0 makes React show the text "0"; the model records that block as absent.
- The per-message summary of extracted data inside the chat transcript (ConversationalPanel.jsx lines 168-186) is not modelled; the assistant panel's view is.
- `Client.JsPositive`: JavaScript's `q > 0` (a quantity, or a `length`) is modelled for numbers, booleans, `null`, `undefined` and plain digit strings. Text with a sign, a decimal point or white space is treated as not positive, and so are lists and objects.
- `ConversationalPanel.AgentReply`: the reply's `ai_response` and `error` fields are assumed to be strings.
- `StructuredForm.BuildPayload`: `interaction_type` is part of the draft but is not sent in the body, as in the source.
- The structured form's topics split keeps blank pieces as empty topics (`StructuredForm.BlankPieceKept`).
- `ConversationalPanel.Chat.Valid`: the greeting staying first follows from `Send` only appending; it is not part of the invariant.
- The backend's `models.py`, `db.py`, `initial_data.py`, `main.py` and the frontend's `App.js` are not part of this model.
