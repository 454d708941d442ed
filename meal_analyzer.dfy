/** The photo analysis client: two request shapes tried in turn, and the reading of the
    structured reply into a `MealAnalysis`. */
module OpenAiMealAnalyzer {
  import opened Wrappers
  import opened Text
  import opened Decimal
  import opened Json
  import opened Http
  import opened Meals
  import opened OpenAiEnvelope

  const MissingApiKey := "OpenAI API key is missing. Please provide it in the .env file."
  const UnknownReason := "OpenAI request failed with unknown reason"
  const Endpoint := "https://api.openai.com/v1/chat/completions"
  const StructuredModel := "gpt-4.1"
  const LegacyModel := "gpt-4o-mini"
  const ImagePrefix := "data:image/jpeg;base64,"
  const DataScheme := "data:"

  /** Lower-case fragments of a `400` body that mean the structured request shape was refused. */
  const RetryPhrases: seq<string> :=
    ["response_format", "response format", "json_schema", "unknown parameter", "unsupported"]

  /** What distinguishes the two requests: the first carries the JSON schema response format
      and asks the larger model; the second asks for minified JSON in its system prompt. */
  datatype Shape = Structured | Legacy

  /** One POST to `Endpoint`, reduced to the parts that vary. */
  datatype AnalysisRequest = AnalysisRequest(
    shape: Shape,
    model: string,
    authorization: string,
    imageUrl: string)

  /** The image part's data URL: the trimmed payload, given the JPEG data-URL prefix unless
      it already is a data URL. */
  function ImageUrl(base64Image: string): (url: string)
    ensures StartsWith(url, DataScheme)
    ensures StartsWith(Trim(base64Image), DataScheme) ==> url == Trim(base64Image)
    ensures !StartsWith(Trim(base64Image), DataScheme) ==> url == ImagePrefix + Trim(base64Image)
  {
    var sanitized := Trim(base64Image);
    if StartsWith(sanitized, DataScheme) then sanitized
    else
      assert (ImagePrefix + sanitized)[..|DataScheme|] == DataScheme;
      ImagePrefix + sanitized
  }

  /** One of the two POSTs: the shape alone decides the model. */
  function BuildRequest(shape: Shape, apiKey: string, base64Image: string): (r: AnalysisRequest)
    ensures r.shape == shape
    ensures r.model == StructuredModel <==> shape == Structured
    ensures r.model == LegacyModel <==> shape == Legacy
  {
    AnalysisRequest(shape, if shape == Structured then StructuredModel else LegacyModel,
                    "Bearer " + apiKey, ImageUrl(base64Image))
  }

  /** Either shape carries the key as a bearer token. */
  lemma RequestCarriesKey(shape: Shape, apiKey: string, base64Image: string)
    ensures var r := BuildRequest(shape, apiKey, base64Image);
      StartsWith(r.authorization, "Bearer ") && r.authorization[|"Bearer "|..] == apiKey
  {
    assert ("Bearer " + apiKey)[..|"Bearer "|] == "Bearer ";
  }

  /** Either shape carries the photo as a data URL ending in the trimmed payload. */
  lemma RequestCarriesPhoto(shape: Shape, apiKey: string, base64Image: string)
    ensures var r := BuildRequest(shape, apiKey, base64Image);
      StartsWith(r.imageUrl, DataScheme)
      && |Trim(base64Image)| <= |r.imageUrl|
      && r.imageUrl[|r.imageUrl| - |Trim(base64Image)|..] == Trim(base64Image)
  {
    var url := ImageUrl(base64Image);
    assert url[|url| - |Trim(base64Image)|..] == Trim(base64Image);
  }

  /** Whether a refused structured request is repeated in the legacy shape. */
  predicate ShouldRetryWithLegacy(code: int, errorBody: Option<string>) {
    code == 400 && errorBody.Some? &&
    exists i :: 0 <= i < |RetryPhrases| && Contains(ToLower(errorBody.value), RetryPhrases[i])
  }

  /** The text of the `IllegalStateException` a non-successful response raises. */
  function FailureMessage(code: int, body: Option<string>): string {
    "OpenAI request failed: " + IntToString(code) + " " + body.GetOr("")
  }

  /** The schema-shaped object the structured request asks the model to return. */
  function AnalysisJson(a: MealAnalysis): Json {
    JObj([Field("description", JStr(a.description)),
          Field("macros", JObj([Field("fatGrams", JNum(a.fatGrams)),
                                Field("carbGrams", JNum(a.carbGrams)),
                                Field("proteinGrams", JNum(a.proteinGrams))]))])
  }

  /** `parseResponse`: the envelope's text, itself read as a JSON object, gives the description
      and the three macros of its `macros` object, each 0 when absent. */
  function ParseResponse(raw: string, parse: string -> Result<Json, string>): (r: Result<MealAnalysis, string>)
  {
    match ParseObject(raw, parse)
    case Err(e) => Err(e)
    case Ok(json) =>
      match EnvelopeText(json)
      case Err(e) => Err(e)
      case Ok(text) =>
        match ParseObject(text, parse)
        case Err(e) => Err(e)
        case Ok(structured) => Ok(ReadAnalysis(structured))
  }

  /** The fields of the structured reply: the description, and the macros of the `macros`
      object, each 0 when absent. */
  function ReadAnalysis(structured: JsonObject): MealAnalysis {
    var macros := OptObject(structured, "macros").GetOr([]);
    MealAnalysis(OptString(structured, "description", ""),
                 OptDouble(macros, "fatGrams", 0),
                 OptDouble(macros, "carbGrams", 0),
                 OptDouble(macros, "proteinGrams", 0))
  }

  /** What one attempt's response yields when it is not retried. */
  function AttemptOutcome(e: Exchange, parse: string -> Result<Json, string>): Result<MealAnalysis, string> {
    match e
    case TransportFailure(message) => Err(message)
    case Response(code, body) =>
      if IsSuccessful(code) then ParseResponse(body.GetOr(""), parse)
      else Err(FailureMessage(code, body))
  }

  /** The first response sends the client on to the legacy request. */
  predicate RetryEligible(e: Exchange) {
    e.Response? && !IsSuccessful(e.code) && ShouldRetryWithLegacy(e.code, e.body)
  }

  /** `analyze`: `exchanges[k]` is what the server answers to the k-th request sent. */
  method Analyze(apiKey: string, base64Image: string, exchanges: seq<Exchange>,
                 parse: string -> Result<Json, string>)
    returns (result: Result<MealAnalysis, string>, requests: seq<AnalysisRequest>)
    requires |exchanges| >= 2
    ensures IsBlank(apiKey) ==> result == Err(MissingApiKey) && requests == []
    ensures !IsBlank(apiKey) ==> |requests| == if RetryEligible(exchanges[0]) then 2 else 1
    ensures !IsBlank(apiKey) ==> requests[0] == BuildRequest(Structured, apiKey, base64Image)
    ensures |requests| == 2 ==> requests[1] == BuildRequest(Legacy, apiKey, base64Image)
    ensures !IsBlank(apiKey) ==> result == AttemptOutcome(exchanges[|requests| - 1], parse)
  {
    if IsBlank(apiKey) {
      return Err(MissingApiKey), [];
    }
    var attempts := [Structured, Legacy];
    var firstError: Option<string> := None;
    requests := [];
    var index := 0;
    while index < |attempts|
      invariant 0 <= index <= 1
      invariant |requests| == index
      invariant forall k :: 0 <= k < index ==> requests[k] == BuildRequest(attempts[k], apiKey, base64Image)
      invariant index == 1 ==> RetryEligible(exchanges[0])
    {
      requests := requests + [BuildRequest(attempts[index], apiKey, base64Image)];
      ghost var outcome := AttemptOutcome(exchanges[index], parse);
      match exchanges[index]
      case TransportFailure(message) =>
        assert outcome == Err(message);
        return Err(message), requests;
      case Response(code, rawBody) =>
        if IsSuccessful(code) {
          assert outcome == ParseResponse(rawBody.GetOr(""), parse);
          return ParseResponse(rawBody.GetOr(""), parse), requests;
        }
        var error := FailureMessage(code, rawBody);
        assert outcome == Err(error);
        if index == 0 && ShouldRetryWithLegacy(code, rawBody) {
          firstError := Some(error);
        } else {
          return Err(error), requests;
        }
      index := index + 1;
    }
    assert false;
  }

  /** Only a `400` whose body names the refused feature sends the legacy request. */
  lemma RetryNeedsBadRequest(e: Exchange)
    ensures RetryEligible(e) <==> e.Response? && ShouldRetryWithLegacy(e.code, e.body)
    ensures RetryEligible(e) ==> e.code == 400 && e.body.Some?
  {
  }

  /** A `400` whose lower-cased body contains one of the phrases is retried. */
  lemma RetryWhenPhraseOccurs(body: string, k: nat, at: nat)
    requires k < |RetryPhrases| && OccursAt(ToLower(body), RetryPhrases[k], at)
    ensures ShouldRetryWithLegacy(400, Some(body))
  {
  }

  /** The phrases are written in lower case. */
  lemma PhrasesAreLower(k: nat)
    requires k < |RetryPhrases|
    ensures NoUpper(RetryPhrases[k])
  {
    if k == 0 {} else if k == 1 {} else if k == 2 {} else if k == 3 {} else {}
  }

  /** A phrase written in lower case in the body is found. */
  lemma RetryWhenLowerPhraseOccurs(body: string, k: nat, at: nat)
    requires k < |RetryPhrases| && OccursAt(body, RetryPhrases[k], at)
    ensures ShouldRetryWithLegacy(400, Some(body))
  {
    PhrasesAreLower(k);
    LowerKeepsOccurrence(body, RetryPhrases[k], at);
    RetryWhenPhraseOccurs(body, k, |ToLower(body[..at])|);
  }

  /** Letter case in the body does not matter. */
  lemma RetryIgnoresCase(code: int, body: string)
    ensures ShouldRetryWithLegacy(code, Some(ToLower(body))) == ShouldRetryWithLegacy(code, Some(body))
  {
    LowerIdempotent(body);
  }

  /** A body without any of the phrases is surfaced as the first error. */
  lemma NoRetryWithoutPhrase(code: int, body: string)
    requires forall i :: 0 <= i < |RetryPhrases| ==> !Contains(ToLower(body), RetryPhrases[i])
    ensures !ShouldRetryWithLegacy(code, Some(body))
  {
  }

  /** The JPEG prefix in front of a trimmed payload leaves nothing to trim. */
  lemma PrefixedIsTrimmed(t: string)
    requires t == [] || (!IsWhitespace(t[0]) && !IsWhitespace(t[|t| - 1]))
    ensures Trim(ImagePrefix + t) == ImagePrefix + t
  {
    var url := ImagePrefix + t;
    assert url[0] == 'd';
    if t == [] {
      assert url == ImagePrefix;
    } else {
      assert url[|url| - 1] == t[|t| - 1];
    }
    TrimOfTrimmed(url);
  }

  /** Data URLs are kept, so building the URL of a URL changes nothing. */
  lemma ImageUrlIdempotent(base64Image: string)
    ensures ImageUrl(ImageUrl(base64Image)) == ImageUrl(base64Image)
  {
    var url := ImageUrl(base64Image);
    var i, j := TrimShape(base64Image);
    if StartsWith(base64Image[i..j], DataScheme) {
      TrimIdempotent(base64Image);
    } else {
      PrefixedIsTrimmed(base64Image[i..j]);
    }
    assert Trim(url) == url;
  }

  /** The three macros of the schema's `macros` object are read back as written. */
  lemma ReadMacros(fat: int, carb: int, protein: int)
    ensures var macros := [Field("fatGrams", JNum(fat)), Field("carbGrams", JNum(carb)),
                           Field("proteinGrams", JNum(protein))];
      OptDouble(macros, "fatGrams", 0) == fat && OptDouble(macros, "carbGrams", 0) == carb
      && OptDouble(macros, "proteinGrams", 0) == protein
  {
    var macros := [Field("fatGrams", JNum(fat)), Field("carbGrams", JNum(carb)),
                   Field("proteinGrams", JNum(protein))];
    assert |"fatGrams"| == 8 && |"carbGrams"| == 9 && |"proteinGrams"| == 12;
    OptAt(macros, 0, "fatGrams");
    OptAt(macros, 1, "carbGrams");
    OptAt(macros, 2, "proteinGrams");
  }

  /** The schema's shape is read back as exactly the analysis it encodes. */
  lemma ReadAnalysisJson(a: MealAnalysis)
    ensures ReadAnalysis(AnalysisJson(a).fields) == a
  {
    var structured := AnalysisJson(a).fields;
    assert |"description"| == 11 && |"macros"| == 6;
    OptAt(structured, 0, "description");
    OptAt(structured, 1, "macros");
    ReadMacros(a.fatGrams, a.carbGrams, a.proteinGrams);
  }

  /** A reply in the schema's shape is read back as exactly the analysis it encodes. */
  lemma ParseSchemaShapedReply(raw: string, envelope: JsonObject, text: string,
                               a: MealAnalysis, parse: string -> Result<Json, string>)
    requires parse(raw) == Ok(JObj(envelope))
    requires EnvelopeText(envelope) == Ok(text)
    requires parse(text) == Ok(AnalysisJson(a))
    ensures ParseResponse(raw, parse) == Ok(a)
  {
    assert ParseObject(raw, parse) == Ok(envelope);
    assert ParseObject(text, parse) == Ok(AnalysisJson(a).fields);
    ReadAnalysisJson(a);
  }

  /** Without a `macros` object every gram estimate is 0, while the description is still read. */
  lemma MissingMacrosAreZero(raw: string, envelope: JsonObject, text: string,
                             structured: JsonObject, parse: string -> Result<Json, string>)
    requires parse(raw) == Ok(JObj(envelope))
    requires EnvelopeText(envelope) == Ok(text)
    requires parse(text) == Ok(JObj(structured))
    requires OptObject(structured, "macros").None?
    ensures ParseResponse(raw, parse) ==
      Ok(MealAnalysis(OptString(structured, "description", ""), 0, 0, 0))
  {
    assert ParseObject(raw, parse) == Ok(envelope);
    assert ParseObject(text, parse) == Ok(structured);
  }
}
