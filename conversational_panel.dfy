/** The conversational panel (`ConversationalPanel.jsx`): a chat transcript that only grows,
    the text box feeding it, the busy flag that gates sending, and the voice input that
    appends to the text box. */
module ConversationalPanel {
  import opened Wrappers
  import opened Text
  import opened Schemas
  import opened Client

  datatype Role = User | Assistant

  /** One entry of the transcript. Only assistant answers carry extracted data and the
      interaction. */
  datatype ChatMessage = ChatMessage(role: Role, content: string, extractedData: Option<Value>, interaction: Option<Value>)

  const GreetingText: string :=
    "\U{1F44B} Hi! I can help you log interactions with HCPs. Just tell me what happened, like:\n\n"
    + "\"Met Dr. Rohan at 4pm, discussed Product X, gave 2 samples.\"\n\n"
    + "I'll extract all the details and log it for you!"

  /** The message the transcript starts with. */
  const Greeting: ChatMessage := ChatMessage(Assistant, GreetingText, None, None)

  /** `response.data` of the `/agent/conversational` request. */
  datatype AgentReply = AgentReply(
    success: Option<Value>,
    aiResponse: string,
    extractedData: Option<Value>,
    interaction: Option<Value>,
    error: Option<string>)

  /** The request body of a send. */
  datatype SendRequest = SendRequest(text: string, repId: string)

  const FailedToProcess: string := "Failed to process"

  /** Whether the server answered with a truthy `success`. */
  predicate Succeeded(reply: Result<AgentReply, HttpError>) {
    reply.Ok? && JsTruthy(reply.value.success)
  }

  /** The assistant message a send appends for the server's answer: the reply with its
      extracted data and interaction on success; otherwise an error line, which carries
      neither. */
  function Answer(reply: Result<AgentReply, HttpError>): (m: ChatMessage)
    ensures m.role == Assistant
    ensures Succeeded(reply) ==>
              m.content == reply.value.aiResponse && m.extractedData == reply.value.extractedData
              && m.interaction == reply.value.interaction
    ensures reply.Ok? && !Succeeded(reply) ==>
              m == ChatMessage(Assistant, ErrorPrefix + (if reply.value.error.Some? && reply.value.error.value != ""
                                                         then reply.value.error.value else FailedToProcess), None, None)
    ensures reply.Err? ==> m == ChatMessage(Assistant, ErrorPrefix + ErrorText(reply.error), None, None)
  {
    match reply
    case Err(e) => ChatMessage(Assistant, ErrorPrefix + ErrorText(e), None, None)
    case Ok(d) =>
      if JsTruthy(d.success) then ChatMessage(Assistant, d.aiResponse, d.extractedData, d.interaction)
      else
        var why := if d.error.Some? && d.error.value != "" then d.error.value else FailedToProcess;
        ChatMessage(Assistant, ErrorPrefix + why, None, None)
  }

  /** The `extractedData` event a send dispatches: only after a success whose extracted data
      is truthy. */
  function Broadcast(reply: Result<AgentReply, HttpError>): (event: Option<Detail>)
    ensures event.Some? <==> Succeeded(reply) && JsTruthy(reply.value.extractedData)
    ensures event.Some? ==> event.value == Detail(reply.value.extractedData, reply.value.interaction)
  {
    if Succeeded(reply) && JsTruthy(reply.value.extractedData) then
      Some(Detail(reply.value.extractedData, reply.value.interaction))
    else None
  }

  /** What the event hands on is what the transcript shows: a broadcast carries the extracted
      data and the interaction of the answer appended with it, and an error line never
      broadcasts. */
  lemma BroadcastMatchesAnswer(reply: Result<AgentReply, HttpError>)
    ensures Broadcast(reply).Some? ==>
              Broadcast(reply).value.extractedData == Answer(reply).extractedData
              && Broadcast(reply).value.interaction == Answer(reply).interaction
    ensures Broadcast(reply).Some? <==> JsTruthy(Answer(reply).extractedData)
  {
  }

  /** A transcript of the shape the panel keeps: an assistant message (the greeting), then
      user messages and assistant answers alternating, every user message followed by its
      answer. That the greeting stays first follows from sends only ever appending. */
  ghost predicate Alternating(ms: seq<ChatMessage>) {
    |ms| % 2 == 1
    && forall i :: 0 <= i < |ms| ==> (ms[i].role == User <==> i % 2 == 1)
  }

  /** `text.trim()` is sent when it is not empty. */
  predicate Sendable(text: string, loading: bool) {
    Trim(text) != "" && !loading
  }

  /** `prev + (prev ? ' ' : '') + transcript`. */
  function WithTranscript(prev: string, transcript: string): (r: string)
    ensures prev == "" ==> r == transcript
    ensures prev != "" ==> r == prev + " " + transcript
  {
    prev + (if prev != "" then " " else "") + transcript
  }

  /** The panel's state. */
  class Chat {
    var messages: seq<ChatMessage>
    var input: string
    var loading: bool
    var isRecording: bool

    ghost predicate Valid()
      reads this
    {
      Alternating(messages)
    }

    constructor()
      ensures Valid()
      ensures messages == [Greeting] && input == "" && !loading && !isRecording
    {
      messages := [Greeting];
      input := "";
      loading := false;
      isRecording := false;
    }

    /** Typing into the text box, which is disabled while a send is in flight. */
    method TypeInput(v: string)
      requires !loading
      modifies this`input
      ensures input == v
    {
      input := v;
    }

    /** `handleSend`, with the server's answer (or the failure of the request) as a
      parameter. A blank input or a send in flight makes it do nothing. Otherwise it sends the
      trimmed text, clears the box, appends the user message and then exactly one answer,
      dispatches the extracted data when the answer has truthy extracted data, and ends not
      busy. Earlier messages are never touched. */
    method Send(reply: Result<AgentReply, HttpError>) returns (request: Option<SendRequest>, event: Option<Detail>)
      requires Valid()
      modifies this`messages, this`input, this`loading
      ensures Valid()
      ensures !Sendable(old(input), old(loading)) ==>
                request == None && event == None
                && messages == old(messages) && input == old(input) && loading == old(loading)
      ensures Sendable(old(input), old(loading)) ==>
                request == Some(SendRequest(Trim(old(input)), RepId))
                && messages == old(messages) + [ChatMessage(User, Trim(old(input)), None, None), Answer(reply)]
                && input == "" && !loading && event == Broadcast(reply)
    {
      request, event := None, None;
      var userMessage := Trim(input);
      if userMessage == "" || loading {
        return;
      }
      var answer := Answer(reply);
      ghost var after := messages + [ChatMessage(User, userMessage, None, None), answer];
      AppendTurn(messages, userMessage, answer);
      input := "";
      messages := messages + [ChatMessage(User, userMessage, None, None)];
      loading := true;
      request := Some(SendRequest(userMessage, RepId));
      messages := messages + [answer];
      assert messages == after;
      event := Broadcast(reply);
      loading := false;
    }

    /** `handleKeyPress`: Enter without Shift sends; any other key does nothing here. */
    method KeyPress(key: string, shift: bool, reply: Result<AgentReply, HttpError>)
      returns (request: Option<SendRequest>, event: Option<Detail>)
      requires Valid()
      modifies this`messages, this`input, this`loading
      ensures Valid()
      ensures !(key == "Enter" && !shift) ==>
                request == None && event == None
                && messages == old(messages) && input == old(input) && loading == old(loading)
      ensures key == "Enter" && !shift && Sendable(old(input), old(loading)) ==>
                request == Some(SendRequest(Trim(old(input)), RepId))
                && messages == old(messages) + [ChatMessage(User, Trim(old(input)), None, None), Answer(reply)]
                && input == "" && !loading && event == Broadcast(reply)
      ensures key == "Enter" && !shift && !Sendable(old(input), old(loading)) ==>
                request == None && event == None
                && messages == old(messages) && input == old(input) && loading == old(loading)
    {
      request, event := None, None;
      if key == "Enter" && !shift {
        request, event := Send(reply);
      }
    }

    /** The recogniser started listening. */
    method RecordingStarted()
      modifies this`isRecording
      ensures isRecording
    {
      isRecording := true;
    }

    /** The recogniser reported an error or stopped. */
    method RecordingStopped()
      modifies this`isRecording
      ensures !isRecording
    {
      isRecording := false;
    }

    /** `onresult`: the recognised text is appended to the box, after one space when the box
      is not empty, and recording stops. */
    method VoiceResult(transcript: string)
      modifies this`input, this`isRecording
      ensures input == WithTranscript(old(input), transcript) && !isRecording
    {
      input := WithTranscript(input, transcript);
      isRecording := false;
    }
  }

  /** A turn, a user message followed by an assistant answer, keeps the transcript's shape
      and leaves the earlier transcript as its prefix. */
  lemma AppendTurn(before: seq<ChatMessage>, text: string, answer: ChatMessage)
    requires Alternating(before) && answer.role == Assistant
    ensures var after := before + [ChatMessage(User, text, None, None), answer];
            Alternating(after) && before <= after
  {
    var after := before + [ChatMessage(User, text, None, None), answer];
    forall i | 0 <= i < |after| ensures after[i].role == User <==> i % 2 == 1 {
      if i < |before| { assert after[i] == before[i]; }
    }
  }

  /** A voice result never loses what was typed: the old text is a prefix of the new one and
      the transcript its suffix. */
  lemma TranscriptAppended(prev: string, transcript: string)
    ensures prev <= WithTranscript(prev, transcript)
    ensures WithTranscript(prev, transcript)[|WithTranscript(prev, transcript)| - |transcript|..] == transcript
  {
  }
}
