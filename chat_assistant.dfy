/** The chat coach client: the message list it sends and the primary-then-fallback model loop. */
module OpenAiChatAssistant {
  import opened Wrappers
  import opened Text
  import opened Json
  import opened Http
  import opened OpenAiEnvelope

  const MissingApiKey := "OpenAI API key is missing. Please provide it in the .env file."
  const UnknownReason := "OpenAI chat request failed with unknown reason"
  const EmptyReply := "Assistant response was empty"
  const PrimaryModel := "gpt-4.1"
  const FallbackModel := "gpt-4o"
  /** The sampling temperature 0.5, in hundredths. */
  const Temperature := 50
  const MaxTokens := 600
  /** The context's first line, as `appendLine` writes it. */
  const ProfileLine := "Profilübersicht:\n"
  /** The empty line and the heading in front of a carried-over summary. */
  const CarryOverLines := "\nWichtige Punkte aus früheren Gesprächen:\n"

  /** The coach instructions after `trimIndent()`: the raw literal's blank first and last lines
      dropped and its four-space indent removed. */
  const SystemPrompt := "Du bist ein empathischer Ernährungscoach für Familien. Antworte stets auf Deutsch,\nbeziehe die vorhandenen Mahlzeiten- und Profildaten ein und formuliere konkrete,\numsetzbare Tipps. Wenn du Nährwerte nennst, liefere sie für die komplette Mahlzeit\nstatt pro 100 g und teile trotz Unsicherheit deine beste Schätzung. Halte den Ton\nwarm, klar und ermutigend."

  datatype ChatHistoryRole = User | Assistant

  datatype ChatHistoryEntry = ChatHistoryEntry(role: ChatHistoryRole, content: string)

  /** One element of the request's `messages` array. */
  datatype ApiMessage = ApiMessage(role: string, content: string)

  datatype ChatRequest = ChatRequest(
    model: string,
    authorization: string,
    messages: seq<ApiMessage>,
    temperature: int,
    maxTokens: int)

  /** The role name the API expects. */
  function ApiRole(role: ChatHistoryRole): (name: string)
    ensures name == "user" <==> role == User
    ensures name == "assistant" <==> role == Assistant
  {
    match role
    case User => "user"
    case Assistant => "assistant"
  }

  function ToApi(entry: ChatHistoryEntry): ApiMessage {
    ApiMessage(ApiRole(entry.role), entry.content)
  }

  /** Whether a carry-over summary is present and says something. */
  predicate HasCarryOver(carryOverSummary: Option<string>) {
    carryOverSummary.Some? && !IsBlank(carryOverSummary.value)
  }

  /** The second system message: what the string builder holds, trimmed at its end. */
  function ContextContent(profileSummary: string, carryOverSummary: Option<string>): string {
    var carry := if HasCarryOver(carryOverSummary) then CarryOverLines + Trim(carryOverSummary.value) + "\n" else "";
    TrimEnd(ProfileLine + Trim(profileSummary) + "\n" + carry)
  }

  lemma TrimEndNewline(body: string)
    requires body != [] && !IsWhitespace(body[|body| - 1])
    ensures TrimEnd(body + "\n") == body
  {
    TrimEndOfBlankSuffix(body, "\n");
  }

  /** With a summary to carry over, it follows the profile after an empty line, under its
      heading, and the trailing line break is gone. */
  lemma ContextWithCarryOver(profileSummary: string, carryOverSummary: Option<string>)
    requires HasCarryOver(carryOverSummary)
    ensures ContextContent(profileSummary, carryOverSummary) ==
      ProfileLine + Trim(profileSummary) + "\n" + CarryOverLines + Trim(carryOverSummary.value)
  {
    var c := carryOverSummary.value;
    var k, l := TrimShape(c);
    BlankTrimsToEmpty(c);
    var head := ProfileLine + Trim(profileSummary) + "\n" + CarryOverLines;
    var body := head + c[k..l];
    assert body[|body| - 1] == c[l - 1];
    assert ProfileLine + Trim(profileSummary) + "\n" + (CarryOverLines + c[k..l] + "\n") == body + "\n";
    TrimEndNewline(body);
  }

  /** Without one, the context is the profile under its heading. */
  lemma ContextWithoutCarryOver(profileSummary: string, carryOverSummary: Option<string>)
    requires !HasCarryOver(carryOverSummary)
    ensures Trim(profileSummary) != [] ==>
      ContextContent(profileSummary, carryOverSummary) == ProfileLine + Trim(profileSummary)
    ensures Trim(profileSummary) == [] ==>
      ContextContent(profileSummary, carryOverSummary) == ProfileLine[..|ProfileLine| - 1]
  {
    var i, j := TrimShape(profileSummary);
    var p := profileSummary[i..j];
    assert ProfileLine + p + "\n" + "" == ProfileLine + p + "\n";
    if p != [] {
      var body := ProfileLine + p;
      assert body[|body| - 1] == p[|p| - 1];
      TrimEndNewline(body);
    } else {
      var heading := ProfileLine[..|ProfileLine| - 1];
      assert ProfileLine + p + "\n" == heading + "\n\n";
      TrimEndOfBlankSuffix(heading, "\n\n");
    }
  }

  /** The history entries as API messages, in order. */
  function ApiHistory(history: seq<ChatHistoryEntry>): seq<ApiMessage> {
    if history == [] then []
    else ApiHistory(history[..|history| - 1]) + [ToApi(history[|history| - 1])]
  }

  /** Every history entry keeps its place and content, and its role maps to its API name. */
  lemma {:induction false} ApiHistoryAt(history: seq<ChatHistoryEntry>, i: nat)
    requires i < |history|
    ensures |ApiHistory(history)| == |history|
    ensures ApiHistory(history)[i] == ApiMessage(ApiRole(history[i].role), history[i].content)
  {
    var front := history[..|history| - 1];
    if i < |front| {
      ApiHistoryAt(front, i);
    } else if front != [] {
      ApiHistoryAt(front, 0);
    }
  }

  /** The message list the requests carry: the coach prompt, the context, then the history
      in order with each role mapped to its API name. */
  function Messages(profileSummary: string, history: seq<ChatHistoryEntry>,
                    carryOverSummary: Option<string>): seq<ApiMessage>
  {
    [ApiMessage("system", SystemPrompt), ApiMessage("system", ContextContent(profileSummary, carryOverSummary))] +
    ApiHistory(history)
  }

  /** Two system messages come first and every history entry follows, in order. */
  lemma MessagesLayout(profileSummary: string, history: seq<ChatHistoryEntry>,
                       carryOverSummary: Option<string>)
    ensures var m := Messages(profileSummary, history, carryOverSummary);
      |m| == 2 + |history| &&
      m[0] == ApiMessage("system", SystemPrompt) &&
      m[1] == ApiMessage("system", ContextContent(profileSummary, carryOverSummary)) &&
      forall i :: 0 <= i < |history| ==>
        m[2 + i].content == history[i].content &&
        (m[2 + i].role == "user" <==> history[i].role == User) &&
        (m[2 + i].role == "assistant" <==> history[i].role == Assistant)
  {
    var tail := ApiHistory(history);
    if history != [] {
      ApiHistoryAt(history, 0);
    }
    forall i | 0 <= i < |history|
      ensures tail[i] == ApiMessage(ApiRole(history[i].role), history[i].content)
    {
      ApiHistoryAt(history, i);
    }
  }

  /** `buildMessages`. */
  method BuildMessages(profileSummary: string, history: seq<ChatHistoryEntry>,
                       carryOverSummary: Option<string>) returns (messages: seq<ApiMessage>)
    ensures messages == Messages(profileSummary, history, carryOverSummary)
  {
    messages := [ApiMessage("system", SystemPrompt)];
    messages := messages + [ApiMessage("system", ContextContent(profileSummary, carryOverSummary))];
    ghost var head := messages;
    var n := 0;
    while n < |history|
      invariant 0 <= n <= |history|
      invariant messages == head + ApiHistory(history[..n])
    {
      assert history[..n + 1][..n] == history[..n];
      messages := messages + [ToApi(history[n])];
      n := n + 1;
    }
    assert history[..n] == history;
  }

  /** `parseResponse`: the envelope's text, trimmed; an empty reply is an error. */
  function ParseReply(raw: string, parse: string -> Result<Json, string>): Result<string, string> {
    match ParseObject(raw, parse)
    case Err(e) => Err(e)
    case Ok(json) =>
      match EnvelopeText(json)
      case Err(e) => Err(e)
      case Ok(text) =>
        var trimmed := Trim(text);
        if IsBlank(trimmed) then Err(EmptyReply) else Ok(trimmed)
  }

  /** A reply is the envelope's text with its surrounding whitespace removed, never blank;
      a text that is blank is refused, and the errors of reading the object or the envelope
      are passed on. */
  lemma ParseReplyMeaning(raw: string, parse: string -> Result<Json, string>)
    ensures var r := ParseReply(raw, parse);
      (r.Ok? ==> !IsBlank(r.value) && Trim(r.value) == r.value)
      && (ParseObject(raw, parse).Err? ==> r == Err(ParseObject(raw, parse).error))
      && (ParseObject(raw, parse).Ok? ==>
            var text := EnvelopeText(ParseObject(raw, parse).value);
            if text.Err? then r == Err(text.error)
            else if IsBlank(text.value) then r == Err(EmptyReply)
            else r == Ok(Trim(text.value)))
  {
    var root := ParseObject(raw, parse);
    if root.Ok? {
      var text := EnvelopeText(root.value);
      if text.Ok? {
        BlankTrimsToEmpty(text.value);
        TrimIdempotent(text.value);
        BlankTrimsToEmpty(Trim(text.value));
      }
    }
  }

  function ChatFailureMessage(code: int, body: Option<string>): string {
    "OpenAI chat request failed: " + IntToString(code) + " " + body.GetOr("")
  }

  /** What one attempt's exchange yields when the loop stops at it. */
  function AttemptOutcome(e: Exchange, parse: string -> Result<Json, string>): Result<string, string> {
    match e
    case TransportFailure(message) => Err(message)
    case Response(code, body) =>
      if IsSuccessful(code) then ParseReply(body.GetOr(""), parse)
      else Err(ChatFailureMessage(code, body))
  }

  /** An exchange that sends the loop on to the next model. */
  predicate MovesOn(e: Exchange) {
    e.Response? && !IsSuccessful(e.code)
  }

  /** The request sent to `model`: both carry the same message list, temperature and token
      limit. */
  function RequestTo(model: string, apiKey: string, messages: seq<ApiMessage>): ChatRequest {
    ChatRequest(model, "Bearer " + apiKey, messages, Temperature, MaxTokens)
  }

  /** The two requests in the order they are tried: the primary model, then the fallback. */
  function Attempts(apiKey: string, messages: seq<ApiMessage>): seq<ChatRequest> {
    [RequestTo(PrimaryModel, apiKey, messages), RequestTo(FallbackModel, apiKey, messages)]
  }

  /** `generateReply`: `exchanges[k]` is what the server answers to the k-th request sent.
      Both requests carry the same messages, laid out from the caller's arguments. */
  method GenerateReply(apiKey: string, profileSummary: string, history: seq<ChatHistoryEntry>,
                       carryOverSummary: Option<string>, exchanges: seq<Exchange>,
                       parse: string -> Result<Json, string>)
    returns (result: Result<string, string>, requests: seq<ChatRequest>)
    requires |exchanges| >= 2
    ensures IsBlank(apiKey) ==> result == Err(MissingApiKey) && requests == []
    ensures !IsBlank(apiKey) ==> |requests| == if MovesOn(exchanges[0]) then 2 else 1
    ensures !IsBlank(apiKey) ==> result == AttemptOutcome(exchanges[|requests| - 1], parse)
    ensures requests == Attempts(apiKey, Messages(profileSummary, history, carryOverSummary))[..|requests|]
  {
    if IsBlank(apiKey) {
      return Err(MissingApiKey), [];
    }
    var models := [PrimaryModel, FallbackModel];
    ghost var expected := Messages(profileSummary, history, carryOverSummary);
    // the response behind `lastError`: its message is built from this response's code and body
    var lastFailure: Option<Exchange> := None;
    requests := [];
    var index := 0;
    while index < |models|
      invariant 0 <= index <= 2
      invariant |requests| == index
      invariant forall k :: 0 <= k < index ==> MovesOn(exchanges[k])
      invariant requests == Attempts(apiKey, expected)[..index]
      invariant index == 0 <==> lastFailure.None?
      invariant index > 0 ==> lastFailure == Some(exchanges[index - 1])
    {
      var messages := BuildMessages(profileSummary, history, carryOverSummary);
      requests := requests + [RequestTo(models[index], apiKey, messages)];
      var exchange := exchanges[index];
      if !MovesOn(exchange) {
        // a success is parsed and returned; a transport exception propagates
        return AttemptOutcome(exchange, parse), requests;
      }
      lastFailure := Some(exchange);
      index := index + 1;
    }
    result := Err(if lastFailure.Some? then ChatFailureMessage(lastFailure.value.code, lastFailure.value.body)
                  else UnknownReason);
  }
}
