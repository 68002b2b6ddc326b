// The Messages API: `create` sends a request with `stream` off through
// `Client::post`; `create_stream` sends it with `stream` on through
// `Client::post_stream`, which decodes only the six message event names.

module Messages {
  import opened Wrappers
  import opened Json
  import opened Errors
  import opened Client
  import opened ClientStream
  import opened Types

  const MessagesPath: string := "/v1/messages"

  /** The event names `create_stream` decodes, in the order it lists them. */
  const EventTypes: seq<string> := [
    "message_start", "message_delta", "message_stop",
    "content_block_start", "content_block_delta", "content_block_stop"]

  /** The allowlist has six names, none of them `ping` or `error`. */
  lemma EventTypesAllowlist()
    ensures |EventTypes| == 6
    ensures "ping" !in EventTypes && "error" !in EventTypes
    ensures Types.DefaultMaxTokens == 2048
  {
  }

  /**
   * How `post` reads a 200 body as a `CreateMessagesResponse`: JSON text,
   * then the derived `Deserialize`; a failure becomes its description.
   */
  function DecodeResponse(parse: string -> Result<Json, JsonError>, text: string)
    : (r: Result<CreateMessagesResponse, string>)
    ensures r.Ok? <==> parse(text).Ok? && ResponseFromJson(parse(text).value).Ok?
    ensures r.Ok? ==> r.value == ResponseFromJson(parse(text).value).value
  {
    match FromStr(parse, ResponseFromJson, text)
    case Ok(v) => Ok(v)
    case Err(e) => Err(e.description)
  }

  function ResponseDecoder(parse: string -> Result<Json, JsonError>): string -> Result<CreateMessagesResponse, string> {
    (text: string) => DecodeResponse(parse, text)
  }

  /** The request with `stream` forced to `value`, as both `create` and `create_stream` do first. */
  function WithStream(request: CreateMessagesRequest, value: bool): (r: CreateMessagesRequest)
    ensures r.stream == value
    ensures r.(stream := request.stream) == request
  {
    request.(stream := value)
  }

  /**
   * Forcing `stream` changes the JSON body in the `stream` key only: every
   * other key is sent, or omitted, exactly as before.
   */
  lemma WithStreamChangesOnlyStream(request: CreateMessagesRequest, value: bool)
    ensures RequestToJson(WithStream(request, value)).fields ==
            RequestToJson(request).fields["stream" := JBool(value)]
  {
    var r := WithStream(request, value);
    var f := RequestToJson(r).fields;
    var g := RequestToJson(request).fields["stream" := JBool(value)];
    forall key ensures (key in f <==> key in g) && (key in f ==> f[key] == g[key]) {
      if key != "stream" {
        assert RequestField(r, key) == RequestField(request, key);
      }
    }
  }

  /** The body sent for `request` with `stream` forced to `value`, and what it reads back as. */
  lemma StreamedBody(request: CreateMessagesRequest, value: bool)
    ensures RequestToJson(WithStream(request, value)).JObject?
    ensures "stream" in RequestToJson(WithStream(request, value)).fields
    ensures RequestToJson(WithStream(request, value)).fields["stream"] == JBool(value)
    ensures RequestToJson(WithStream(request, value)).fields == RequestToJson(request).fields["stream" := JBool(value)]
    ensures RequestFromJson(RequestToJson(WithStream(request, value))) == Ok(WithStream(request, value))
  {
    WithStreamChangesOnlyStream(request, value);
    RequestRoundTrip(WithStream(request, value));
  }

  /**
   * `Messages::create`: the request goes to `/v1/messages` with `stream`
   * off, and the outcome is `post`'s retry loop over the server's answers
   * with the response decoder.
   */
  method Create(c: ClientConfig, request: CreateMessagesRequest, server: nat -> HttpResponse,
                parse: string -> Result<Json, JsonError>, retries: nat)
    returns (sent: HttpRequest, outcome: RetryOutcome<CreateMessagesResponse>)
    requires ValidHeaderValue(c.apiKey) && ValidHeaderValue(c.version)
    requires c.beta.Some? ==> ValidHeaderValue(c.beta.value)
    ensures sent.url == FormatUrl(c, MessagesPath)
    ensures sent.body == RequestToJson(WithStream(request, false))
    ensures sent.body.JObject? && "stream" in sent.body.fields && sent.body.fields["stream"] == JBool(false)
    ensures sent.body.fields == RequestToJson(request).fields["stream" := JBool(false)]
    ensures RequestFromJson(sent.body) == Ok(WithStream(request, false))
    ensures "x-api-key" in sent.headers && sent.headers["x-api-key"] == c.apiKey
    ensures sent.appended == if c.beta.Some? then [("anthropic-beta", c.beta.value)] else []
    ensures outcome == RetryFrom(Attempts(server, ResponseDecoder(parse)), 0, retries)
  {
    var r := WithStream(request, false);
    StreamedBody(request, false);
    sent, outcome := Post(c, MessagesPath, RequestToJson(r), server, ResponseDecoder(parse), retries);
  }

  /**
   * One answer of 200 whose body parses to the sample response: `create`
   * returns it after one request, whatever the retry budget.
   */
  lemma CreateReadsSampleResponse(server: nat -> HttpResponse, parse: string -> Result<Json, JsonError>, retries: nat)
    requires server(0).Received? && server(0).status == StatusOk && server(0).body.Read?
    requires parse(server(0).body.text) == Ok(SampleResponse)
    ensures RetryFrom(Attempts(server, ResponseDecoder(parse)), 0, retries).attempts == 1
    ensures RetryFrom(Attempts(server, ResponseDecoder(parse)), 0, retries).result.Ok?
    ensures RetryFrom(Attempts(server, ResponseDecoder(parse)), 0, retries).result.value.usage ==
            Some(Usage(Some(10), Some(12)))
  {
    SampleResponseParses();
    var v := ResponseFromJson(SampleResponse).value;
    assert ResponseDecoder(parse)(server(0).body.text) == Ok(v);
    RateLimitedThenOk(server, ResponseDecoder(parse), 0, retries, v);
  }

  /**
   * `Messages::create_stream`: the request goes to `/v1/messages` with
   * `stream` on, and what reaches the receiver is the dispatch of the
   * source's items over the six message event names.
   */
  method CreateStream<O>(c: ClientConfig, request: CreateMessagesRequest, d: Decoders<O>,
                         items: seq<SourceItem>, tx: Sender<O>)
    returns (sent: HttpRequest, source: EventSource)
    requires ValidHeaderValue(c.apiKey) && ValidHeaderValue(c.version)
    requires c.beta.Some? ==> ValidHeaderValue(c.beta.value)
    modifies tx
    ensures sent.url == FormatUrl(c, MessagesPath)
    ensures sent.body == RequestToJson(WithStream(request, true))
    ensures sent.body.JObject? && sent.body.fields == RequestToJson(request).fields["stream" := JBool(true)]
    ensures RequestFromJson(sent.body) == Ok(WithStream(request, true))
    ensures "x-api-key" in sent.headers && sent.headers["x-api-key"] == c.apiKey
    ensures sent.appended == []
    ensures fresh(source) && source.closed
    ensures tx.sent == old(tx.sent) + Dispatch(items, EventTypes, d, old(tx.room))
  {
    var r := WithStream(request, true);
    StreamedBody(request, true);
    sent, source := PostStream(c, MessagesPath, RequestToJson(r), EventTypes, d, items, tx);
  }

  /**
   * On the messages stream, an event named outside the six (and not `ping`
   * or `error`) is sent as an `unknown_event_type` error and ends the loop;
   * an allowlisted event whose data decodes is sent and the loop goes on.
   */
  lemma StreamEventsByName<O>(m: ClientStream.Message, d: Decoders<O>)
    ensures m.event != "ping" && m.event != "error" && m.event !in EventTypes ==>
      Step(SourceItem.Received(m), EventTypes, d) ==
        Emit(Err(StreamFailed(StreamError(UnknownEventType, "Unknown event type: " + m.event))), true)
    ensures m.event in EventTypes && FromStr(d.parse, d.event, m.data).Ok? ==>
      Step(SourceItem.Received(m), EventTypes, d) == Emit(Ok(FromStr(d.parse, d.event, m.data).value), false)
  {
    EventTypesAllowlist();
  }
}
