# async-anthropic client core, modelled in Dafny

This project models the core of `async-anthropic`, a Rust client for the Anthropic Messages API:

- **`Client`**:
  - its configuration and defaults;
  - how it builds the request URL and headers;
  - how `post` classifies each HTTP answer as a value, a permanent error or a retryable error, and how the retry loop settles;
  - how `post_stream` and the worker that `stream` spawns with `tokio::spawn` turn server-sent events into typed results on a channel.
- **`AnthropicError`, `StreamError`** and their conversions and display texts.
- **`Messages::create` / `create_stream`**, which force the request's `stream` flag and pick the event allowlist.
- **The wire shapes in `types.rs`**:
  - the hand-written `ToolChoice` serializer;
  - the internally tagged `MessageContent`;
  - the request, whose optional fields are omitted when `None`, and its builder defaults;
  - the response, whose fields are all optional.

JSON values are a `Json` datatype (the shape of `serde_json::Value`). Each serde `Serialize`/`Deserialize` the core relies on is a pair of functions on it.

The files are:

- `wrappers.dfy`: `Option` and `Result`.
- `json.dfy`: JSON values and field decoders.
- `errors.dfy`
- `client.dfy`
- `client_stream.dfy`: the streaming worker, with an `EventSource` class and a `Sender` class.
- `types.dfy`
- `messages.dfy`

## Model

| member | source | states |
|---|---|---|
| Errors.FromBackoff | src/errors.rs:31-37 | a permanent backoff error unwraps to the error it carries; a transient one becomes `UnexpectedError` |
| Errors.MapDeserializationError | src/errors.rs:56-58 | the result is a `DeserializationError` carrying exactly the serde error |
| Errors.MapDeserializationErrorIgnoresBytes | src/errors.rs:56-58 | the raw bytes passed in never change the result |
| Errors.DisplayNamesVariant | src/errors.rs:4-29 | the display text of every variant reads back, by its fixed leading words, as that variant, so two variants never print alike |
| Errors.Display | src/errors.rs:4-29 | each variant prints its `#[error]` text; `DisplayNamesVariant` proves the text names its variant |
| Errors.DisplayStreamError | src/errors.rs:47-54 | a stream error prints as `Error (<type>): <message>`; `DisplayStreamErrorRoundTrip` proves both fields can be read back |
| Errors.DisplayStreamErrorRoundTrip | src/errors.rs:47-54 | `Error (<type>): <message>` splits back into both fields when the type holds no `)` |
| Errors.StreamErrorFromJson | src/errors.rs:40-45 | a decoded `StreamError` takes its type from the JSON key `type` and its message from `message` |
| Errors.StreamErrorToJson | src/errors.rs:40-45 | a stream error is sent as an object with exactly the keys `type` and `message` |
| Errors.StreamErrorJsonRoundTrip | src/errors.rs:40-45 | serialising a `StreamError` and deserialising it gives it back |
| Client.Default | src/client.rs:58-76 | the default client targets `https://api.anthropic.com` with version `2023-06-01`, no beta flag, the environment's key and backoff 15 s / x2.0 / 0.05 jitter / 120 s cap |
| Client.FromApiKey | src/client.rs:93-98 | the client from a key is the default client with only the key replaced |
| Client.TrimEndLen | src/client.rs:129 | `trim_end_matches('/')` cuts where every later character is a slash and the one before is not |
| Client.TrimStartLen | src/client.rs:130 | `trim_start_matches('/')` cuts where every earlier character is a slash and the one at the cut is not |
| Client.TrimEndLenUnique | src/client.rs:129 | any point with those two properties is the cut, so the characterisation is complete |
| Client.TrimStartLenUnique | src/client.rs:130 | any point with those two properties is the cut, so the characterisation is complete |
| Client.FormatUrl | src/client.rs:126-132 | the URL is a prefix of the base URL not ending in `/`, exactly one `/`, then a suffix of the path not starting with `/` |
| Client.FormatUrlJoins | src/client.rs:126-132 | the URL is the base URL up to its last non-slash, one `/`, then the path from its first non-slash |
| Client.TrimEndIgnoresExtraSlashes | src/client.rs:129 | adding trailing slashes to a string does not change its trimmed form |
| Client.TrimStartIgnoresExtraSlashes | src/client.rs:130 | adding leading slashes to a string does not change its trimmed form |
| Client.FormatUrlIgnoresExtraSlashes | src/client.rs:126-132 | extra slashes at the end of the base URL or the start of the path leave the URL unchanged |
| Client.DefaultMessagesUrl | src/client.rs:126-132 | the default client posts messages to `https://api.anthropic.com/v1/messages` |
| Client.Headers | src/client.rs:116-124 | the header map holds the API key and the version, and `anthropic-beta` exactly when a beta flag is set, with those values and no other keys |
| Client.Classify | src/client.rs:153-205 | only 429 and 529 with a readable body are retried, as `ApiError(body)`; only a 200 that reads and decodes succeeds; send, read and decode failures are `NetworkError`; 400 is `BadRequest(body)`; 401 is `Unauthorized`; any other status is `Unknown(body)` |
| Client.UnauthorizedIgnoresBody | src/client.rs:180-182 | a 401 is classified without looking at its body |
| Client.Settle | src/client.rs:142-208 | the outcome of the last attempt is its value or the error it carries, whether that failure was permanent or transient |
| Client.RetryFrom | src/client.rs:142-208 | the retry loop makes between one and budget + 1 attempts; every attempt before the last was transient; it stops early only on a non-transient outcome; its result is the last attempt's, settled |
| Client.NoBudgetOneAttempt | src/client.rs:142-208 | with no retry budget exactly one request is made |
| Client.RetryRecovers | src/client.rs:184-196 | n transient failures, then a success, within budget, give that value after n + 1 attempts |
| Client.RetryExhausts | src/client.rs:184-196 | transient failures that outlast the budget return the last one's error after budget + 1 attempts |
| Client.Post | src/client.rs:137-209 | the request goes to the formatted URL with the JSON body and the header map, which holds exactly the key, the version and (when set) the beta flag, with their values; the beta flag is also appended a second time; the outcome is the retry loop over the classified answers |
| Client.RateLimitedThenOk | src/client.rs:184-196 | n rate-limited or overloaded answers, then a 200 that decodes, within budget, give the decoded value after n + 1 requests |
| ClientStream.Respond | src/client.rs:254-273 | an `error` event becomes `StreamError` when its data decodes and otherwise `DeserializationError` carrying the decode error; an allowlisted event becomes its decoded value, or `DeserializationError` carrying the decode error; any other name becomes `unknown_event_type` with `Unknown event type: <name>` |
| ClientStream.Step | src/client.rs:245-296 | `Open` and `ping` are skipped; the end of the stream halts; any other message sends exactly `Respond`'s result and ends the loop exactly when that is an error; another transport error is sent as `sse_error` and reading goes on |
| ClientStream.Dispatch | src/client.rs:243-297 | the worker sends at most one result per item, and no more than the receiver accepts |
| ClientStream.DispatchIsPrefixOfTrace | src/client.rs:243-297 | what is sent is a prefix of the results the items produce, in input order |
| ClientStream.DispatchSendsWholeTrace | src/client.rs:243-297 | when no item ends the loop and the receiver stays, every produced result is sent |
| ClientStream.DispatchRoomTruncates | src/client.rs:274-278 | a receiver that accepts only k more items gets the first k results an unbounded one would get, so the worker keeps sending until the receiver is gone |
| ClientStream.DispatchSkips | src/client.rs:247-252 | an `Open` or `ping` item anywhere changes nothing that is sent |
| ClientStream.DispatchHaltsAtEnd | src/client.rs:282-284 | nothing after the end of the stream is sent |
| ClientStream.DispatchStopsAfterMessageError | src/client.rs:274-278 | once a message produces an error, nothing after it is sent |
| ClientStream.ServerErrorIsLast | src/client.rs:254-256 | an `error` event from the server is the last thing the caller receives |
| ClientStream.OpenPingEventsEnd | src/client.rs:243-297 | `Open`, `ping`, k allowlisted events that decode, then the end of the stream give exactly the k values, in order |
| ClientStream.ReceivedAllSent | src/client.rs:261-263 | a run of allowlisted events that all decode is sent as their values, in order |
| ClientStream.EventSource.Next | src/client.rs:243 | `next()` yields the next item and consumes it, or `None` once none are left |
| ClientStream.EventSource.Close | src/client.rs:299 | `close()` marks the source closed |
| ClientStream.Sender.Send | src/client.rs:275 | `send` delivers and appends the item exactly while the receiver still accepts items; otherwise it fails and changes nothing |
| ClientStream.Response | src/client.rs:254-273 | the response the worker computes for a non-ping message is `Respond`'s |
| ClientStream.HandleNext | src/client.rs:244-296 | one pass of the loop either ends it, having sent all that `Dispatch` sends for the remaining items, or consumes an item and keeps sent-plus-still-to-send unchanged |
| ClientStream.Stream | src/client.rs:242-300 | the worker appends to the channel exactly `Dispatch` of the source's items and closes the source on every exit |
| ClientStream.PostStream | src/client.rs:211-230 | the request goes to the formatted URL with the body and the header map, which holds exactly the key, the version and (when set) the beta flag, with their values, with no second beta header, and the worker runs over the items |
| Types.DerivedToolChoiceRejectsOwnEncoding | src/types.rs:13-18 | the derived `Deserialize` of `ToolChoice` rejects every encoding the hand-written serializer produces |
| Types.DerivedToolChoiceFromJson | src/types.rs:13-18 | the derived decoder accepts only a bare `"Auto"` or `"Any"` or an object whose single key is `Auto`, `Any` or `Tool` |
| Types.AutoDoesNotRoundTrip | src/types.rs:158-160 | `ToolChoice::Auto` goes out as `{"type":"auto"}`, which the derived decoder rejects |
| Types.ToolChoiceToJson | src/types.rs:152-170 | a tool choice is sent as an object with a string `type`, plus `name` (the tool's name) exactly for `Tool` |
| Types.ToolChoiceRoundTrip | src/types.rs:152-170 | the `{"type": ...}` encoding read by the corrected decoder gives every tool choice back |
| Types.ToolChoiceEncodingInjective | src/types.rs:152-170 | different tool choices never serialise alike |
| Types.ContentToJson | src/types.rs:99-118 | every content block carries its snake_case variant name under `type` |
| Types.ContentFromJson | src/types.rs:99-118 | a decoded block's variant is the one its `type` names |
| Types.ContentRoundTrip | src/types.rs:99-118 | every content block survives serialisation and deserialisation |
| Types.ContentFromStr | src/types.rs:120-126 | a string becomes content sent as `{"type":"text","text":s}` |
| Types.ContentFromStrIsText | src/types.rs:120-126 | a string becomes a text block, sent as `{"type":"text","text":s}` |
| Types.ContentListFromStr | src/types.rs:145-149 | a string becomes a content list holding exactly one text block of it |
| Types.ContentsRoundTrip | src/types.rs:27-28 | a content list survives serialisation as a JSON array |
| Types.MessageRoundTrip | src/types.rs:20-35 | a message, role and content, survives serialisation and deserialisation |
| Types.RequestField | src/types.rs:37-71 | a request sends only the twelve known keys |
| Types.RequestToJson | src/types.rs:37-71 | the request object holds exactly the keys the request sends, each with its value |
| Types.RequiredKeysSent | src/types.rs:39-51 | `messages`, `model`, `max_tokens` and `stream` are always sent, with the request's values |
| Types.OptionalKeysSent | src/types.rs:44-70 | each optional field is sent exactly when it is `Some` |
| Types.MessagesRoundTrip | src/types.rs:40 | the message list survives serialisation |
| Types.StringsRoundTrip | src/types.rs:49 | the stop sequences survive serialisation |
| Types.ObjectsRoundTrip | src/types.rs:61 | the tool definitions survive serialisation |
| Types.RequiredFieldsRoundTrip | src/types.rs:39-51 | the four required keys read back as the request's values |
| Types.CollectionFieldsRoundTrip | src/types.rs:44-61 | metadata, stop sequences, tool choice and tools read back as sent, or as `None` when not sent |
| Types.ScalarFieldsRoundTrip | src/types.rs:52-70 | temperature, top_k, top_p and system read back as sent, or as `None` when not sent |
| Types.RequestFromJson | src/types.rs:37-71 | a body reads as a request only when it is an object holding the four required keys; `tool_choice` is read with the corrected decoder, not the derived one |
| Types.RequestRoundTrip | src/types.rs:37-71 | every request survives serialisation and deserialisation, reading `tool_choice` with the corrected decoder |
| Types.Build | src/types.rs:37-71 | building fails exactly when `messages` or `model` is unset; otherwise `max_tokens` defaults to 2048, `stream` to false, and every other field is what was set |
| Types.MinimalRequest | src/types.rs:42-51 | a request built from messages and a model sends exactly the four required keys, with `max_tokens` 2048 and `stream` false |
| Types.ResponseFromJson | src/types.rs:82-97 | a response field whose key is absent is `None` |
| Types.EmptyResponse | src/types.rs:84-97 | `{}` is a valid response with every field `None` |
| Types.SampleResponseParses | src/types.rs:179-193 | the sample response deserialises, with its id, text content, model, stop reason, null stop sequence read as `None`, and usage 10/12 |
| Messages.EventTypesAllowlist | src/messages.rs:42-49 | the allowlist has six names and contains neither `ping` nor `error`; `DEFAULT_MAX_TOKENS` is 2048 |
| Messages.DecodeResponse | src/client.rs:164-170 | a 200 body decodes exactly when its JSON parses and reads as a response, and then to that response |
| Messages.WithStream | src/messages.rs:24-25 | forcing `stream` sets that flag and nothing else |
| Messages.WithStreamChangesOnlyStream | src/messages.rs:24-27 | forcing `stream` changes the JSON body in the `stream` key only |
| Messages.StreamedBody | src/messages.rs:24-27 | the body sent holds the forced `stream` value and, with the corrected `tool_choice` decoder, reads back as the forced request |
| Messages.Create | src/messages.rs:19-28 | `create` posts to `/v1/messages` a body equal to the request's JSON with `stream` false, which reads back as the request with the corrected `tool_choice` decoder; its outcome is `post`'s retry loop with the response decoder |
| Messages.CreateReadsSampleResponse | src/messages.rs:19-28 | a 200 carrying the sample body gives that response, usage 10/12, after one request whatever the budget |
| Messages.CreateStream | src/messages.rs:30-52 | `create_stream` posts to `/v1/messages` with `stream` true and sends the caller `Dispatch` of the items over the six event names |
| Messages.StreamEventsByName | src/messages.rs:42-49 | on the messages stream, an unlisted event name is sent as `unknown_event_type` and ends the loop; a listed event that decodes is sent and reading goes on |

## Left out

- Retry timing: the exponential schedule, jitter, the 120 s cap and the clock belong to the `backoff` crate, which is not part of this model. The policy is kept as data in `Client.Default`. The retry loop takes a retry budget instead, the number of retries the policy would grant.
- `retry_after` hints: `post` never sets one, and they are carried but unused.
- Concurrency: the worker that `stream` spawns with `tokio::spawn` runs to completion sequentially. The unbounded channel is `Sender.sent`. The caller dropping the receiver is modelled as a number of further items the channel accepts.
- Event-source framing and reconnection (`reqwest_eventsource`) are not modelled. The source is a finite sequence of already-framed items. A transport error is kept as its display text.
- JSON text parsing (`serde_json::from_str`) is a parameter `parse`. Decoding into the caller's stream event type `O` is a parameter. Every decoder the core defines is modelled on JSON values.
- Floating point: `temperature` and `top_p` are `f32` in the source and `real` here. There is no rounding, NaN or infinity.
- `reqwest::Error` and `serde_json::Error` are kept as their description strings.
- JSON objects are maps, so key order and duplicate keys are not modelled.
- `default_api_key` reads the environment, and returns `"test"` under `cfg(test)`. The key is a parameter of `Client.Default`.
- Client.Headers: `parse().unwrap()` panics on a header value with control characters. The model requires valid values instead of modelling the panic.
- `eventsource().unwrap()` in `post_stream` panics when the request cannot be cloned. This is not modelled.
- `Client::builder`, `with_backoff` and `messages()` are not modelled. The builder's defaults are an empty base URL and an empty version. The other two only set a field or wrap the client.
- The HTTP connection pool is not modelled.
- `.json(&request)` in `post` and `post_stream` also sets `Content-Type: application/json`. `Client.HttpRequest` does not carry that header; its body is always JSON.
- Types.RequestFromJson: it is not the source's derived `Deserialize`. It reads `tool_choice` with the corrected decoder, because the derived one rejects every `tool_choice` the serializer writes (see Findings). So the round trips of a request body hold for the corrected decoder only.
- `Messages::create` takes `impl Into<CreateMessagesRequest>`. The model takes the request itself.
- The `Serialize` derives of `CreateMessagesResponse` and `Usage` are not modelled. Only their deserialisation is used by the core.
- `tracing` output is not modelled.
- `src/lib.rs`, `src/models.rs`, the tests other than the sample response, and the examples are not part of this model.
- ClientStream.Dispatch: its own contract only bounds the output's length. What it sends is stated by the lemmas beside it (`DispatchIsPrefixOfTrace`, `DispatchRoomTruncates`, `DispatchSendsWholeTrace`, `DispatchSkips`, `DispatchHaltsAtEnd`, `DispatchStopsAfterMessageError`, `OpenPingEventsEnd`).
- Types.ResponseFromJson: its contract covers absent keys only. Present keys are covered by `SampleResponseParses` and `EmptyResponse`. There is no round trip, because the response's serializer is not modelled.

## Findings

| source | as written | input that shows it | evidently intended | confidence | as-written member | corrected member |
|---|---|---|---|---|---|---|
| src/types.rs:13-18 | `ToolChoice` derives `Deserialize`, which reads serde's externally tagged form (`"Auto"`, `{"Tool": name}`). Its hand-written `Serialize` at src/types.rs:152-170 writes `{"type": "auto"}`. | `ToolChoice::Auto` serialises to `{"type":"auto"}`, which the derived deserializer rejects. So a request with `tool_choice` set cannot be read back from its own JSON. | deserialisation reads the `{"type": ...}` shape the serializer writes | medium; not executed | Types.DerivedToolChoiceRejectsOwnEncoding | Types.ToolChoiceRoundTrip |
