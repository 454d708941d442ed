/** Reading the reply text out of the provider's two response envelopes. Both clients carry
    identical copies of `parseResponsesOutput` and `parseChatChoices`; this is the one model
    of both. */
module OpenAiEnvelope {
  import opened Wrappers
  import opened Text
  import opened Json

  const NoOutput := "No output from OpenAI"
  const MissingContent := "Missing assistant message content"
  const NoChoices := "No choices from OpenAI"
  const MissingMessage := "Missing assistant message"
  const NoTextContent := "Assistant message contained no text content"
  const UnexpectedStructure := "Unexpected OpenAI response structure"

  /** `output[0].content[0]`, when each step is there and is an object. */
  function FirstOutputPart(json: JsonObject): Option<JsonObject> {
    match OptArray(json, "output")
    case None => None
    case Some(output) =>
      match ItemObject(output, 0)
      case None => None
      case Some(first) =>
        match OptArray(first, "content")
        case None => None
        case Some(content) => ItemObject(content, 0)
  }

  /** `parseResponsesOutput`: the `text` of the first content part of the first output item. */
  function ResponsesOutputText(json: JsonObject): (r: Result<string, string>)
    ensures OptArray(json, "output").None? ==> r == Err(NoOutput)
    ensures OptArray(json, "output").Some? && FirstOutputPart(json).None? ==> r == Err(MissingContent)
    ensures FirstOutputPart(json).Some? ==> r == Ok(OptString(FirstOutputPart(json).value, "text", ""))
  {
    match OptArray(json, "output")
    case None => Err(NoOutput)
    case Some(_) =>
      match FirstOutputPart(json)
      case None => Err(MissingContent)
      case Some(part) => Ok(OptString(part, "text", ""))
  }

  /** `choices[0].message`, when it is there and is an object. */
  function FirstChoiceMessage(json: JsonObject): Option<JsonObject> {
    match OptArray(json, "choices")
    case None => None
    case Some(choices) =>
      match ItemObject(choices, 0)
      case None => None
      case Some(choice) => OptObject(choice, "message")
  }

  /** The `text` of the first part of a message whose `content` is a non-empty array;
      `None` where Kotlin's `firstPart?.optString("text")` is null. */
  function FirstPartText(message: JsonObject): Option<string> {
    match OptArray(message, "content")
    case Some(parts) =>
      if |parts| > 0 then
        match ItemObject(parts, 0)
        case Some(part) => Some(OptString(part, "text", ""))
        case None => None
      else None
    case None => None
  }

  /** `parseChatChoices`: a non-blank first content part wins, else the message's `content`
      read as a string, which must not be blank. */
  function ChatChoicesText(json: JsonObject): (r: Result<string, string>)
    ensures r.Ok? ==> !IsBlank(r.value)
    ensures OptArray(json, "choices").None? ==> r == Err(NoChoices)
    ensures OptArray(json, "choices").Some? && FirstChoiceMessage(json).None? ==> r == Err(MissingMessage)
    ensures FirstChoiceMessage(json).Some? ==>
      var message := FirstChoiceMessage(json).value;
      var part := FirstPartText(message);
      var content := OptString(message, "content", "");
      if part.Some? && !IsBlank(part.value) then r == Ok(part.value)
      else if IsBlank(content) then r == Err(NoTextContent)
      else r == Ok(content)
  {
    match OptArray(json, "choices")
    case None => Err(NoChoices)
    case Some(_) =>
      match FirstChoiceMessage(json)
      case None => Err(MissingMessage)
      case Some(message) =>
        var part := FirstPartText(message);
        if part.Some? && !IsBlank(part.value) then Ok(part.value)
        else
          var content := OptString(message, "content", "");
          if IsBlank(content) then Err(NoTextContent) else Ok(content)
  }

  /** The `when` of both `parseResponse`s: `output` takes precedence over `choices`. */
  function EnvelopeText(json: JsonObject): (r: Result<string, string>)
    ensures Has(json, "output") ==> r == ResponsesOutputText(json)
    ensures !Has(json, "output") && Has(json, "choices") ==> r == ChatChoicesText(json)
    ensures !Has(json, "output") && !Has(json, "choices") ==> r == Err(UnexpectedStructure)
  {
    if Has(json, "output") then ResponsesOutputText(json)
    else if Has(json, "choices") then ChatChoicesText(json)
    else Err(UnexpectedStructure)
  }

  /** A message whose content is a non-empty array with a blank first part falls back to
      the array's own JSON text, which is never blank. */
  lemma ContentArrayFallback(json: JsonObject)
    requires FirstChoiceMessage(json).Some?
    requires var message := FirstChoiceMessage(json).value;
      OptArray(message, "content").Some? &&
      (FirstPartText(message).None? || IsBlank(FirstPartText(message).value))
    ensures var message := FirstChoiceMessage(json).value;
      ChatChoicesText(json) == Ok(Encode(JArr(OptArray(message, "content").value)))
  {
    var message := FirstChoiceMessage(json).value;
    var v := Opt(message, "content").value;
    assert v.JArr?;
    assert OptString(message, "content", "") == Encode(v);
    EncodeNotBlank(v);
  }
}
