/**
 * The client's error taxonomy (`AnthropicError`), the error body a stream may
 * carry (`StreamError`), the conversion out of the retry library's error type,
 * and the display texts.
 */
module Errors {
  import opened Wrappers
  import opened Json

  /** A structured error as the server sends it; on the wire `errorType` is the field `type`. */
  datatype StreamError = StreamError(errorType: string, message: string)

  /**
   * `AnthropicError`. A transport error (`reqwest::Error`) is kept as its
   * display text. The variant Rust calls `StreamError` is `StreamFailed` here,
   * so that it does not share its name with the struct it wraps.
   */
  datatype AnthropicError =
    | NetworkError(cause: string)
    | BadRequest(text: string)
    | ApiError(text: string)
    | Unauthorized
    | DeserializationError(jsonError: JsonError)
    | Unknown(text: string)
    | UnexpectedError
    | StreamFailed(streamError: StreamError)

  /** `backoff::Error<AnthropicError>`: only `Transient` errors are retried. */
  datatype BackoffError =
    | Permanent(err: AnthropicError)
    | Transient(err: AnthropicError, retryAfter: Option<nat>)

  /** `impl From<backoff::Error<AnthropicError>> for AnthropicError`. */
  function FromBackoff(b: BackoffError): (e: AnthropicError)
    ensures b.Permanent? ==> e == b.err
    ensures b.Transient? ==> e == UnexpectedError
  {
    match b
    case Permanent(err) => err
    case Transient(_, _) => UnexpectedError
  }

  /** `map_deserialization_error`: the raw bytes are accepted and ignored. */
  function MapDeserializationError(e: JsonError, bytes: seq<bv8>): (r: AnthropicError)
    ensures r.DeserializationError? && r.jsonError == e
  {
    DeserializationError(e)
  }

  lemma MapDeserializationErrorIgnoresBytes(e: JsonError, b1: seq<bv8>, b2: seq<bv8>)
    ensures MapDeserializationError(e, b1) == MapDeserializationError(e, b2)
  {
  }

  // ---------------------------------------------------------------------------
  // Display texts

  /** `impl Display for StreamError`. */
  function DisplayStreamError(e: StreamError): string {
    "Error (" + e.errorType + "): " + e.message
  }

  /** The `#[error(...)]` text of each variant. */
  function Display(e: AnthropicError): string {
    match e
    case NetworkError(cause) => "network error: " + cause
    case BadRequest(text) => "malformed request: " + text
    case ApiError(text) => "api error: " + text
    case Unauthorized => "unauthorized; check your API key"
    case DeserializationError(j) => "failed to deserialize response: " + j.description
    case Unknown(text) => "unknown error: " + text
    case UnexpectedError => "unexpected error occurred"
    case StreamFailed(s) => "stream failed: " + DisplayStreamError(s)
  }

  datatype ErrorKind = KNetwork | KBadRequest | KApi | KUnauthorized | KDeserialization | KUnknown | KUnexpected | KStream

  function KindOf(e: AnthropicError): ErrorKind {
    match e
    case NetworkError(_) => KNetwork
    case BadRequest(_) => KBadRequest
    case ApiError(_) => KApi
    case Unauthorized => KUnauthorized
    case DeserializationError(_) => KDeserialization
    case Unknown(_) => KUnknown
    case UnexpectedError => KUnexpected
    case StreamFailed(_) => KStream
  }

  /** Reads the variant back off a display text, by its fixed leading words. */
  function KindOfDisplay(s: string): Option<ErrorKind> {
    if "network error: " <= s then Some(KNetwork)
    else if "malformed request: " <= s then Some(KBadRequest)
    else if "api error: " <= s then Some(KApi)
    else if s == "unauthorized; check your API key" then Some(KUnauthorized)
    else if "failed to deserialize response: " <= s then Some(KDeserialization)
    else if "unknown error: " <= s then Some(KUnknown)
    else if s == "unexpected error occurred" then Some(KUnexpected)
    else if "stream failed: " <= s then Some(KStream)
    else None
  }

  /** The display texts of different variants never coincide: the text names its variant. */
  lemma DisplayNamesVariant(e: AnthropicError)
    ensures KindOfDisplay(Display(e)) == Some(KindOf(e))
  {
    var s := Display(e);
    match e
    case NetworkError(c) =>
      assert s == "network error: " + c;
      assert s[..15] == "network error: ";
    case BadRequest(_) => assert s[0] == 'm';
    case ApiError(_) => assert s[0] == 'a';
    case Unauthorized => assert s[0] == 'u' && s[2] == 'a';
    case DeserializationError(_) => assert s[0] == 'f';
    case Unknown(_) => assert s[0] == 'u' && s[2] == 'k';
    case UnexpectedError => assert s[0] == 'u' && s[2] == 'e';
    case StreamFailed(_) => assert s[0] == 's';
  }

  /** Index of the first `)` in `s`, or `|s|` when there is none. */
  function FirstCloseParen(s: string): (k: nat)
    ensures k <= |s|
    ensures k < |s| ==> s[k] == ')'
    ensures forall i :: 0 <= i < k ==> s[i] != ')'
  {
    if s == [] then 0
    else if s[0] == ')' then 0
    else 1 + FirstCloseParen(s[1..])
  }

  /** Splits a `StreamError` display text back into its two fields. */
  function ParseStreamErrorDisplay(s: string): Option<StreamError> {
    if |s| < 7 || s[..7] != "Error (" then None
    else
      var rest := s[7..];
      var k := FirstCloseParen(rest);
      if k + 3 <= |rest| && rest[k..k + 3] == "): " then Some(StreamError(rest[..k], rest[k + 3..]))
      else None
  }

  /** The display text of a `StreamError` whose type holds no `)` determines both fields. */
  lemma DisplayStreamErrorRoundTrip(e: StreamError)
    requires forall i :: 0 <= i < |e.errorType| ==> e.errorType[i] != ')'
    ensures ParseStreamErrorDisplay(DisplayStreamError(e)) == Some(e)
  {
    var s := DisplayStreamError(e);
    var t := e.errorType;
    assert s[..7] == "Error (";
    var rest := s[7..];
    assert rest == t + "): " + e.message;
    var k := FirstCloseParen(rest);
    assert rest[|t|] == ')';
    assert k == |t|;
    assert rest[k..k + 3] == "): ";
    assert rest[..k] == t;
    assert rest[k + 3..] == e.message;
  }

  // ---------------------------------------------------------------------------
  // The derived serde shape of StreamError: `{"type": ..., "message": ...}`

  function StreamErrorToJson(e: StreamError): (r: Json)
    ensures r.JObject? && r.fields.Keys == {"type", "message"}
  {
    JObject(map["type" := JString(e.errorType), "message" := JString(e.message)])
  }

  /** The derived `Deserialize`: both fields required, other fields ignored. */
  function StreamErrorFromJson(j: Json): (r: Result<StreamError, JsonError>)
    ensures r.Ok? ==> j.JObject? && "type" in j.fields && j.fields["type"] == JString(r.value.errorType)
    ensures r.Ok? ==> "message" in j.fields && j.fields["message"] == JString(r.value.message)
  {
    var fields :- AsObject(j);
    var errorType :- Required(fields, "type", AsString);
    var message :- Required(fields, "message", AsString);
    Ok(StreamError(errorType, message))
  }

  lemma StreamErrorJsonRoundTrip(e: StreamError)
    ensures StreamErrorFromJson(StreamErrorToJson(e)) == Ok(e)
  {
  }
}
