/**
 * `GeminiClient` of js/gemini-client.js: the configuration it holds, the request it builds for the
 * `generateContent` endpoint, how it reads the reply, and the data-URL split of `fileToBase64`.
 *
 * `fetch`, `response.json()` and `FileReader` are not modelled; their results come in as values:
 * a `FetchOutcome` for the awaited reply (with its body already parsed, or the parse error), and
 * the data URL the reader produced.
 */
module GeminiApi {
  import opened Wrappers
  import opened Text

  const DefaultModel: string := "gemini-2.5-pro"
  const BaseUrl: string := "https://generativelanguage.googleapis.com/v1beta/models/"

  /** An attachment as the client sends it: `{ mimeType, data }` with `data` in base64. */
  datatype FileData = FileData(mimeType: string, data: string)

  /** A file as the browser hands it over: its name and its MIME `type`. */
  datatype BrowserFile = BrowserFile(name: string, mimeType: string)

  /** One entry of `parts`: `{ text }` or `{ inline_data: { mime_type, data } }`. */
  datatype Part = TextPart(text: string) | InlineDataPart(mimeType: string, data: string)

  /** One entry of `contents`. */
  datatype Content = Content(parts: seq<Part>)

  /** The POST the client issues: method, URL, the one header it sets, and the JSON payload. */
  datatype HttpRequest = HttpRequest(httpMethod: string, url: string, contentType: string, contents: seq<Content>)

  /** A reply candidate: the texts of `content.parts`, or None when `content` is missing. */
  datatype Candidate = Candidate(texts: Option<seq<string>>)

  /** The fields of a parsed reply body the client looks at: `error.message` and `candidates`. */
  datatype ReplyJson = ReplyJson(errorMessage: Option<string>, candidates: Option<seq<Candidate>>)

  /** What `response.json()` yields: the parsed body, or the SyntaxError it rejects with. */
  datatype Body = Parsed(json: ReplyJson) | Unparseable(parseError: string)

  /** What the awaited `fetch` yields: a response, or the error it rejects with. */
  datatype FetchOutcome =
    | Responded(ok: bool, statusText: string, body: Body)
    | NetworkFailure(cause: string)

  /** What `generateContent` throws. */
  datatype ClientError =
    | KeyNotSet              // "API Key is not set", thrown before any request is built
    | ApiError(message: string)   // a non-ok status whose body parsed
    | Rethrown(cause: string)     // a fetch or body-parse failure, propagated unchanged
    | MalformedReply         // the TypeError of reading `content.parts[0]` from a candidate without it

  /** `errorData.error?.message || \`API Error: ${response.statusText}\`` */
  function ApiErrorMessage(json: ReplyJson, statusText: string): (m: string)
    ensures m != []
    ensures json.errorMessage.Some? && json.errorMessage.value != [] ==> m == json.errorMessage.value
    ensures json.errorMessage.None? || json.errorMessage.value == [] ==> m == "API Error: " + statusText
  {
    match json.errorMessage
    case Some(message) => if message != [] then message else "API Error: " + statusText
    case None => "API Error: " + statusText
  }

  /** The text of a successful reply: the first candidate's first part, or "" without candidates. */
  function FirstCandidateText(candidates: Option<seq<Candidate>>): (r: Result<string, ClientError>)
    ensures candidates.None? || candidates.value == [] ==> r == Success([])
    ensures r.Failure? <==> candidates.Some? && candidates.value != [] &&
                            (candidates.value[0].texts.None? || candidates.value[0].texts.value == [])
    ensures (candidates.Some? && candidates.value != [] && candidates.value[0].texts.Some? &&
             candidates.value[0].texts.value != []) ==>
            r == Success(candidates.value[0].texts.value[0])
    ensures r.Failure? ==> r.error == MalformedReply
  {
    match candidates
    case None => Success([])
    case Some(cs) =>
      if cs == [] then Success([])
      else match cs[0].texts
        case None => Failure(MalformedReply)
        case Some(texts) => if texts == [] then Failure(MalformedReply) else Success(texts[0])
  }

  /** How `generateContent` turns the awaited reply into its result, once the request is sent. */
  function ReadReply(reply: FetchOutcome): (r: Result<string, ClientError>)
    ensures reply.NetworkFailure? ==> r == Failure(Rethrown(reply.cause))
    ensures reply.Responded? && reply.body.Unparseable? ==> r == Failure(Rethrown(reply.body.parseError))
    ensures (r.Failure? && r.error.ApiError?) <==> reply.Responded? && !reply.ok && reply.body.Parsed?
    ensures r.Failure? && r.error.ApiError? ==>
      r.error.message == ApiErrorMessage(reply.body.json, reply.statusText) && r.error.message != []
    ensures reply.Responded? && reply.ok && reply.body.Parsed? ==>
      r == FirstCandidateText(reply.body.json.candidates)
    ensures r.Success? ==> reply.Responded? && reply.ok && reply.body.Parsed?
    ensures r != Failure(KeyNotSet)
  {
    match reply
    case NetworkFailure(cause) => Failure(Rethrown(cause))
    case Responded(ok, statusText, body) =>
      match body
      case Unparseable(e) => Failure(Rethrown(e))
      case Parsed(json) =>
        if !ok then Failure(ApiError(ApiErrorMessage(json, statusText)))
        else FirstCandidateText(json.candidates)
  }

  /** The second comma-separated field of `s`: `s.split(',')[1]`, for an `s` holding a comma. */
  function SecondField(s: string): (r: string)
    requires ',' in s
    ensures ',' !in r
    ensures var i := IndexOf(s, ',').value;
      && i + 1 + |r| <= |s| && r == s[i + 1..i + 1 + |r|]
      && (i + 1 + |r| == |s| || s[i + 1 + |r|] == ',')
  {
    var i := IndexOf(s, ',').value;
    var rest := s[i + 1..];
    match IndexOf(rest, ',')
    case None => rest
    case Some(k) => rest[..k]
  }

  /** The base64 alphabet of section 4 of RFC 4648, with its padding character. */
  predicate IsBase64Char(c: char) {
    ('A' <= c <= 'Z') || ('a' <= c <= 'z') || ('0' <= c <= '9') || c == '+' || c == '/' || c == '='
  }

  /** A data URL of the form `data:[<mediatype>];base64,<data>` (section 3 of RFC 2397). */
  function DataUrl(mediaType: string, payload: string): string {
    "data:" + mediaType + ";base64," + payload
  }

  /**
   * `GeminiClient.fileToBase64(file)` once the reader has produced `dataUrl`. FileReader's
   * `readAsDataURL` always yields a URL of the RFC 2397 form, which holds a comma.
   */
  function FileToBase64(file: BrowserFile, dataUrl: string): (r: FileData)
    requires ',' in dataUrl
    ensures r.mimeType == file.mimeType && ',' !in r.data
    ensures r == FileData(file.mimeType, SecondField(dataUrl))
  {
    FileData(file.mimeType, SecondField(dataUrl))
  }

  /** Reading back a data URL recovers the payload: `fileToBase64` undoes the reader's encoding step. */
  lemma DataUrlRoundTrip(file: BrowserFile, payload: string)
    requires ',' !in file.mimeType
    requires forall i :: 0 <= i < |payload| ==> IsBase64Char(payload[i])
    ensures ',' in DataUrl(file.mimeType, payload)
    ensures FileToBase64(file, DataUrl(file.mimeType, payload)) == FileData(file.mimeType, payload)
  {
    var header := "data:" + file.mimeType + ";base64";
    assert ',' !in header by {
      assert ',' !in "data:" && ',' !in ";base64";
    }
    assert ',' !in payload by {
      forall i | 0 <= i < |payload| ensures payload[i] != ',' {
        assert IsBase64Char(payload[i]);
      }
    }
    var url := DataUrl(file.mimeType, payload);
    assert url == header + ("," + payload);
    IndexOfAfter(header, "," + payload, ',');
    assert IndexOf("," + payload, ',') == Some(0);
    assert url[|header| + 1..] == payload;
    assert ',' in url by { assert url[|header|] == ','; }
  }

  class GeminiClient {
    var apiKey: string
    var model: string
    const baseUrl: string

    /** `new GeminiClient()`: no key, the default model, the public v1beta endpoint. */
    constructor ()
      ensures apiKey == [] && model == DefaultModel && baseUrl == BaseUrl
    {
      apiKey := [];
      model := DefaultModel;
      baseUrl := BaseUrl;
    }

    /** `setApiKey(key)`: replaces the key only; no format check, no request. */
    method SetApiKey(key: string)
      modifies this`apiKey
      ensures apiKey == key
    {
      apiKey := key;
    }

    /** `setModel(model)`: replaces the model only. */
    method SetModel(id: string)
      modifies this`model
      ensures model == id
    {
      model := id;
    }

    /**
     * `generateContent(prompt, fileData)`. Returns what the call resolves with or rejects with,
     * and the request it sent (None: no request). `reply` is what the awaited `fetch` yields.
     */
    method GenerateContent(prompt: string, file: Option<FileData>, reply: FetchOutcome)
      returns (result: Result<string, ClientError>, sent: Option<HttpRequest>)
      ensures apiKey == [] <==> sent.None?
      ensures apiKey == [] ==> result == Failure(KeyNotSet)
      ensures apiKey != [] ==> result == ReadReply(reply)
      ensures sent.Some? ==>
        && sent.value.httpMethod == "POST" && sent.value.contentType == "application/json"
        && sent.value.url == baseUrl + model + ":generateContent?key=" + apiKey
      ensures sent.Some? ==>
        && |sent.value.contents| == 1
        && var parts := sent.value.contents[0].parts;
        && |parts| == (if file.Some? then 2 else 1)
        && parts[0] == TextPart(prompt)
        && (file.Some? ==> parts[1] == InlineDataPart(file.value.mimeType, file.value.data))
    {
      if apiKey == [] {
        return Failure(KeyNotSet), None;
      }
      var url := baseUrl + model + ":generateContent?key=" + apiKey;
      var parts := [TextPart(prompt)];
      if file.Some? {
        parts := parts + [InlineDataPart(file.value.mimeType, file.value.data)];
      }
      sent := Some(HttpRequest("POST", url, "application/json", [Content(parts)]));
      result := ReadReply(reply);
    }
  }
}
