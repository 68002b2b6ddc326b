/**
 * The request and response shapes of the messages API and their JSON form:
 * the hand-written `ToolChoice` encoder, the internally tagged
 * `MessageContent`, the conversions from a string, the request with its
 * omitted-when-`None` fields and builder defaults, and the response whose
 * fields are all optional.
 */
module Types {
  import opened Wrappers
  import opened Json

  type I32 = x: int | -0x8000_0000 <= x < 0x8000_0000
  type U32 = x: int | 0 <= x < 0x1_0000_0000

  /**
   * `messages::DEFAULT_MAX_TOKENS`, the builder default of `max_tokens`. It is
   * declared here rather than in `Messages` because `Messages` imports `Types`
   * and the builder below needs it.
   */
  const DefaultMaxTokens: I32 := 2048

  function AsI32(j: Json): Result<I32, JsonError> {
    if j.JInt? && -0x8000_0000 <= j.i < 0x8000_0000 then Ok(j.i) else Err(InvalidType("i32"))
  }

  function AsU32(j: Json): Result<U32, JsonError> {
    if j.JInt? && 0 <= j.i < 0x1_0000_0000 then Ok(j.i) else Err(InvalidType("u32"))
  }

  function MapOption<A, B>(f: A -> B, o: Option<A>): (r: Option<B>)
    ensures r.Some? <==> o.Some?
    ensures o.Some? ==> r.value == f(o.value)
  {
    if o.Some? then Some(f(o.value)) else None
  }

  // ---------------------------------------------------------------------------
  // ToolChoice

  datatype ToolChoice = Auto | Any | Tool(name: string)

  /** The hand-written `Serialize for ToolChoice`: the API's `{"type": ...}` shape. */
  function ToolChoiceToJson(t: ToolChoice): (r: Json)
    ensures r.JObject? && "type" in r.fields && r.fields["type"].JString?
    ensures r.fields.Keys == if t.Tool? then {"type", "name"} else {"type"}
    ensures t.Tool? ==> r.fields["name"] == JString(t.name)
  {
    match t
    case Auto => JObject(map["type" := JString("auto")])
    case Any => JObject(map["type" := JString("any")])
    case Tool(name) => JObject(map["type" := JString("tool"), "name" := JString(name)])
  }

  /** A set of one element that holds `a` is `{a}`. */
  lemma SingleKey(keys: set<string>, a: string)
    requires |keys| == 1 && a in keys
    ensures keys == {a}
  {
    assert |keys - {a}| == 0;
  }

  /**
   * The derived `Deserialize for ToolChoice`, as the source declares it:
   * serde's externally tagged enum, read from `"Auto"`, `"Any"` or a map with
   * the single key `"Auto"`, `"Any"` (value `null`) or `"Tool"` (value a string).
   */
  function DerivedToolChoiceFromJson(j: Json): (r: Result<ToolChoice, JsonError>)
    ensures r.Ok? ==> (j.JString? && j.s in {"Auto", "Any"}) || (j.JObject? && |j.fields.Keys| == 1)
    ensures r.Ok? && j.JObject? ==> j.fields.Keys == {"Auto"} || j.fields.Keys == {"Any"} || j.fields.Keys == {"Tool"}
  {
    match j
    case JString(s) =>
      if s == "Auto" then Ok(Auto)
      else if s == "Any" then Ok(Any)
      else Err(JsonError("unknown variant"))
    case JObject(fields) =>
      if |fields.Keys| != 1 then Err(JsonError("invalid type: map, expected map with a single key"))
      else if "Auto" in fields && fields["Auto"] == JNull then SingleKey(fields.Keys, "Auto"); Ok(Auto)
      else if "Any" in fields && fields["Any"] == JNull then SingleKey(fields.Keys, "Any"); Ok(Any)
      else if "Tool" in fields && fields["Tool"].JString? then SingleKey(fields.Keys, "Tool"); Ok(Tool(fields["Tool"].s))
      else Err(JsonError("unknown variant"))
    case _ => Err(InvalidType("enum ToolChoice"))
  }

  /** The derived decoder rejects every encoding the hand-written encoder produces. */
  lemma DerivedToolChoiceRejectsOwnEncoding(t: ToolChoice)
    ensures DerivedToolChoiceFromJson(ToolChoiceToJson(t)).Err?
  {
    var f := ToolChoiceToJson(t).fields;
    match t
    case Auto => assert |f.Keys| == 1 && "Auto" !in f && "Any" !in f && "Tool" !in f;
    case Any => assert |f.Keys| == 1 && "Auto" !in f && "Any" !in f && "Tool" !in f;
    case Tool(_) => assert f.Keys == {"type", "name"}; assert |f.Keys| == 2;
  }

  /** The concrete case: `ToolChoice::Auto` goes out as `{"type":"auto"}` and does not come back. */
  lemma AutoDoesNotRoundTrip()
    ensures ToolChoiceToJson(Auto) == JObject(map["type" := JString("auto")])
    ensures DerivedToolChoiceFromJson(JObject(map["type" := JString("auto")])).Err?
  {
    DerivedToolChoiceRejectsOwnEncoding(Auto);
  }

  /** A decoder for the shape the encoder writes, the one the rest of the model uses. */
  function ToolChoiceFromJson(j: Json): Result<ToolChoice, JsonError> {
    var fields :- AsObject(j);
    var tag :- Required(fields, "type", AsString);
    if tag == "auto" then Ok(Auto)
    else if tag == "any" then Ok(Any)
    else if tag == "tool" then
      var name :- Required(fields, "name", AsString);
      Ok(Tool(name))
    else Err(JsonError("unknown variant"))
  }

  lemma ToolChoiceRoundTrip(t: ToolChoice)
    ensures ToolChoiceFromJson(ToolChoiceToJson(t)) == Ok(t)
  {
  }

  /** The three variants always have distinct encodings. */
  lemma ToolChoiceEncodingInjective(t1: ToolChoice, t2: ToolChoice)
    requires ToolChoiceToJson(t1) == ToolChoiceToJson(t2)
    ensures t1 == t2
  {
    ToolChoiceRoundTrip(t1);
    ToolChoiceRoundTrip(t2);
  }

  // ---------------------------------------------------------------------------
  // MessageContent and Message

  /** `MessageContent`, tagged by `"type"` with its snake_case variant name. */
  datatype MessageContent =
    | ToolUse(id: string, input: Json, name: string)
    | ToolResult(toolUseId: string, content: Option<string>, isError: bool)
    | Text(text: string)

  function ContentTag(c: MessageContent): string {
    match c
    case ToolUse(_, _, _) => "tool_use"
    case ToolResult(_, _, _) => "tool_result"
    case Text(_) => "text"
  }

  function ContentToJson(c: MessageContent): (j: Json)
    ensures j.JObject? && "type" in j.fields && j.fields["type"] == JString(ContentTag(c))
  {
    match c
    case ToolUse(id, input, name) =>
      JObject(map["type" := JString("tool_use"), "id" := JString(id), "input" := input, "name" := JString(name)])
    case ToolResult(toolUseId, content, isError) =>
      JObject(map["type" := JString("tool_result"), "tool_use_id" := JString(toolUseId),
                  "content" := (if content.Some? then JString(content.value) else JNull),
                  "is_error" := JBool(isError)])
    case Text(text) =>
      JObject(map["type" := JString("text"), "text" := JString(text)])
  }

  function ContentFromJson(j: Json): (r: Result<MessageContent, JsonError>)
    ensures r.Ok? ==> j.JObject? && "type" in j.fields && j.fields["type"] == JString(ContentTag(r.value))
  {
    var fields :- AsObject(j);
    var tag :- Required(fields, "type", AsString);
    if tag == "tool_use" then
      var id :- Required(fields, "id", AsString);
      var input :- Required(fields, "input", (v: Json) => Ok(v));
      var name :- Required(fields, "name", AsString);
      Ok(ToolUse(id, input, name))
    else if tag == "tool_result" then
      var toolUseId :- Required(fields, "tool_use_id", AsString);
      var content :- Optional(fields, "content", AsString);
      var isError :- Required(fields, "is_error", AsBool);
      Ok(ToolResult(toolUseId, content, isError))
    else if tag == "text" then
      var text :- Required(fields, "text", AsString);
      Ok(Text(text))
    else Err(JsonError("unknown variant"))
  }

  lemma ContentRoundTrip(c: MessageContent)
    ensures ContentFromJson(ContentToJson(c)) == Ok(c)
  {
  }

  /** `impl From<S: AsRef<str>> for MessageContent`. */
  function ContentFromStr(s: string): (c: MessageContent)
    ensures ContentToJson(c) == JObject(map["type" := JString("text"), "text" := JString(s)])
  {
    Text(s)
  }

  /** A string becomes text content, and goes on the wire as `{"type":"text","text":s}`. */
  lemma ContentFromStrIsText(s: string)
    ensures ContentFromStr(s).Text? && ContentFromStr(s).text == s
    ensures ContentToJson(ContentFromStr(s)) == JObject(map["type" := JString("text"), "text" := JString(s)])
    ensures ContentFromJson(ContentToJson(ContentFromStr(s))) == Ok(Text(s))
  {
    ContentRoundTrip(ContentFromStr(s));
  }

  /** `MessageContentList<MessageContent>`, a newtype over a vector: on the wire, an array. */
  datatype MessageContentList = MessageContentList(items: seq<MessageContent>)

  /** `impl From<S: AsRef<str>> for MessageContentList<MessageContent>`. */
  function ContentListFromStr(s: string): (l: MessageContentList)
    ensures |l.items| == 1 && l.items[0] == ContentFromStr(s)
  {
    MessageContentList([ContentFromStr(s)])
  }

  datatype MessageRole = User | Assistant

  function RoleToJson(r: MessageRole): Json {
    match r
    case User => JString("user")
    case Assistant => JString("assistant")
  }

  function RoleFromJson(j: Json): Result<MessageRole, JsonError> {
    if j == JString("user") then Ok(User)
    else if j == JString("assistant") then Ok(Assistant)
    else Err(JsonError("unknown variant"))
  }

  datatype Message = Message(role: MessageRole, content: MessageContentList)

  function MessageToJson(m: Message): Json {
    JObject(map["role" := RoleToJson(m.role), "content" := JArray(MapSeq(ContentToJson, m.content.items))])
  }

  function AsContents(j: Json): Result<seq<MessageContent>, JsonError> {
    if j.JArray? then Traverse(ContentFromJson, j.items) else Err(InvalidType("a sequence"))
  }

  function MessageFromJson(j: Json): Result<Message, JsonError> {
    var fields :- AsObject(j);
    var role :- Required(fields, "role", RoleFromJson);
    var content :- Required(fields, "content", AsContents);
    Ok(Message(role, MessageContentList(content)))
  }

  lemma ContentsRoundTrip(cs: seq<MessageContent>)
    ensures AsContents(JArray(MapSeq(ContentToJson, cs))) == Ok(cs)
  {
    forall c | c in cs ensures ContentFromJson(ContentToJson(c)) == Ok(c) {
      ContentRoundTrip(c);
    }
    TraverseMapSeq(ContentToJson, ContentFromJson, cs);
  }

  lemma MessageRoundTrip(m: Message)
    ensures MessageFromJson(MessageToJson(m)) == Ok(m)
  {
    ContentsRoundTrip(m.content.items);
    var fields := MessageToJson(m).fields;
    assert Required(fields, "role", RoleFromJson) == Ok(m.role);
    assert Required(fields, "content", AsContents) == Ok(m.content.items);
  }

  // ---------------------------------------------------------------------------
  // CreateMessagesRequest

  datatype CreateMessagesRequest = CreateMessagesRequest(
    messages: seq<Message>,
    model: string,
    maxTokens: I32,
    metadata: Option<map<string, Json>>,
    stopSequences: Option<seq<string>>,
    stream: bool,
    temperature: Option<real>,
    toolChoice: Option<ToolChoice>,
    tools: Option<seq<map<string, Json>>>,
    topK: Option<U32>,
    topP: Option<real>,
    system: Option<string>)

  const RequiredRequestKeys: set<string> := {"messages", "model", "max_tokens", "stream"}

  function StringsToJson(ss: seq<string>): Json {
    JArray(MapSeq((s: string) => JString(s), ss))
  }

  function ObjectsToJson(os: seq<map<string, Json>>): Json {
    JArray(MapSeq((o: map<string, Json>) => JObject(o), os))
  }

  const RequestKeys: set<string> := RequiredRequestKeys +
    {"metadata", "stop_sequences", "temperature", "tool_choice", "tools", "top_k", "top_p", "system"}

  /** The value a request sends under `key`, if it sends that key at all. */
  function RequestField(r: CreateMessagesRequest, key: string): (v: Option<Json>)
    ensures v.Some? ==> key in RequestKeys
  {
    if key == "messages" then Some(JArray(MapSeq(MessageToJson, r.messages)))
    else if key == "model" then Some(JString(r.model))
    else if key == "max_tokens" then Some(JInt(r.maxTokens))
    else if key == "stream" then Some(JBool(r.stream))
    else if key == "metadata" then MapOption((m: map<string, Json>) => JObject(m), r.metadata)
    else if key == "stop_sequences" then MapOption(StringsToJson, r.stopSequences)
    else if key == "temperature" then MapOption((x: real) => JFloat(x), r.temperature)
    else if key == "tool_choice" then MapOption(ToolChoiceToJson, r.toolChoice)
    else if key == "tools" then MapOption(ObjectsToJson, r.tools)
    else if key == "top_k" then MapOption((k: U32) => JInt(k), r.topK)
    else if key == "top_p" then MapOption((x: real) => JFloat(x), r.topP)
    else if key == "system" then MapOption((s: string) => JString(s), r.system)
    else None
  }

  /** The derived `Serialize`, with `skip_serializing_if = "Option::is_none"` on the optional fields. */
  function RequestToJson(r: CreateMessagesRequest): (j: Json)
    ensures j.JObject?
    ensures forall key :: key in j.fields <==> RequestField(r, key).Some?
    ensures forall key :: key in j.fields ==> j.fields[key] == RequestField(r, key).value
  {
    JObject(map key | key in RequestKeys && RequestField(r, key).Some? :: RequestField(r, key).value)
  }

  /** The four required fields are always sent, `stream` and `max_tokens` as the request holds them. */
  lemma RequiredKeysSent(r: CreateMessagesRequest)
    ensures RequiredRequestKeys <= RequestToJson(r).fields.Keys <= RequestKeys
    ensures RequestToJson(r).fields["stream"] == JBool(r.stream)
    ensures RequestToJson(r).fields["max_tokens"] == JInt(r.maxTokens)
  {
    var f := RequestToJson(r).fields;
    assert RequiredRequestKeys <= f.Keys by {
      assert RequestField(r, "messages").Some? && RequestField(r, "model").Some?;
      assert RequestField(r, "max_tokens").Some? && RequestField(r, "stream").Some?;
    }
    assert f.Keys <= RequestKeys;
    assert f["stream"] == JBool(r.stream) by { assert RequestField(r, "stream").Some?; }
    assert f["max_tokens"] == JInt(r.maxTokens) by { assert RequestField(r, "max_tokens").Some?; }
  }

  /** An optional field is sent exactly when it is `Some` (`skip_serializing_if = "Option::is_none"`). */
  lemma OptionalKeysSent(r: CreateMessagesRequest)
    ensures "metadata" in RequestToJson(r).fields <==> r.metadata.Some?
    ensures "stop_sequences" in RequestToJson(r).fields <==> r.stopSequences.Some?
    ensures "temperature" in RequestToJson(r).fields <==> r.temperature.Some?
    ensures "tool_choice" in RequestToJson(r).fields <==> r.toolChoice.Some?
    ensures "tools" in RequestToJson(r).fields <==> r.tools.Some?
    ensures "top_k" in RequestToJson(r).fields <==> r.topK.Some?
    ensures "top_p" in RequestToJson(r).fields <==> r.topP.Some?
    ensures "system" in RequestToJson(r).fields <==> r.system.Some?
  {
    var f := RequestToJson(r).fields;
    assert "metadata" in f <==> RequestField(r, "metadata").Some?;
    assert "stop_sequences" in f <==> RequestField(r, "stop_sequences").Some?;
    assert "temperature" in f <==> RequestField(r, "temperature").Some?;
    assert "tool_choice" in f <==> RequestField(r, "tool_choice").Some?;
    assert "tools" in f <==> RequestField(r, "tools").Some?;
    assert "top_k" in f <==> RequestField(r, "top_k").Some?;
    assert "top_p" in f <==> RequestField(r, "top_p").Some?;
    assert "system" in f <==> RequestField(r, "system").Some?;
  }

  function AsMessages(j: Json): Result<seq<Message>, JsonError> {
    if j.JArray? then Traverse(MessageFromJson, j.items) else Err(InvalidType("a sequence"))
  }

  function AsStrings(j: Json): Result<seq<string>, JsonError> {
    if j.JArray? then Traverse(AsString, j.items) else Err(InvalidType("a sequence"))
  }

  function AsObjects(j: Json): Result<seq<map<string, Json>>, JsonError> {
    if j.JArray? then Traverse(AsObject, j.items) else Err(InvalidType("a sequence"))
  }

  /**
   * The derived `Deserialize`, except that `tool_choice` is read with
   * `ToolChoiceFromJson` rather than the derived enum decoder (see
   * `DerivedToolChoiceRejectsOwnEncoding`). `stream` and `max_tokens` have no
   * serde default and must be present.
   */
  function RequestFromJson(j: Json): (r: Result<CreateMessagesRequest, JsonError>)
    ensures r.Ok? ==> j.JObject? && forall k :: k in RequiredRequestKeys ==> k in j.fields
  {
    var f :- AsObject(j);
    var messages :- Required(f, "messages", AsMessages);
    var model :- Required(f, "model", AsString);
    var maxTokens :- Required(f, "max_tokens", AsI32);
    var metadata :- Optional(f, "metadata", AsObject);
    var stopSequences :- Optional(f, "stop_sequences", AsStrings);
    var stream :- Required(f, "stream", AsBool);
    var temperature :- Optional(f, "temperature", AsFloat);
    var toolChoice :- Optional(f, "tool_choice", ToolChoiceFromJson);
    var tools :- Optional(f, "tools", AsObjects);
    var topK :- Optional(f, "top_k", AsU32);
    var topP :- Optional(f, "top_p", AsFloat);
    var system :- Optional(f, "system", AsString);
    Ok(CreateMessagesRequest(messages, model, maxTokens, metadata, stopSequences, stream,
                             temperature, toolChoice, tools, topK, topP, system))
  }

  lemma MessagesRoundTrip(ms: seq<Message>)
    ensures AsMessages(JArray(MapSeq(MessageToJson, ms))) == Ok(ms)
  {
    forall m | m in ms ensures MessageFromJson(MessageToJson(m)) == Ok(m) {
      MessageRoundTrip(m);
    }
    TraverseMapSeq(MessageToJson, MessageFromJson, ms);
  }

  lemma StringsRoundTrip(ss: seq<string>)
    ensures AsStrings(StringsToJson(ss)) == Ok(ss)
  {
    TraverseMapSeq((s: string) => JString(s), AsString, ss);
  }

  lemma ObjectsRoundTrip(os: seq<map<string, Json>>)
    ensures AsObjects(ObjectsToJson(os)) == Ok(os)
  {
    TraverseMapSeq((o: map<string, Json>) => JObject(o), AsObject, os);
  }

  /** The four required keys of a sent request read back as the request's own values. */
  lemma RequiredFieldsRoundTrip(r: CreateMessagesRequest)
    ensures RequestToJson(r).JObject?
    ensures Required(RequestToJson(r).fields, "messages", AsMessages) == Ok(r.messages)
    ensures Required(RequestToJson(r).fields, "model", AsString) == Ok(r.model)
    ensures Required(RequestToJson(r).fields, "max_tokens", AsI32) == Ok(r.maxTokens)
    ensures Required(RequestToJson(r).fields, "stream", AsBool) == Ok(r.stream)
  {
    var f := RequestToJson(r).fields;
    assert Required(f, "messages", AsMessages) == Ok(r.messages) by {
      assert RequestField(r, "messages").Some?;
      MessagesRoundTrip(r.messages);
    }
    assert Required(f, "model", AsString) == Ok(r.model) by { assert RequestField(r, "model").Some?; }
    assert Required(f, "max_tokens", AsI32) == Ok(r.maxTokens) by { assert RequestField(r, "max_tokens").Some?; }
    assert Required(f, "stream", AsBool) == Ok(r.stream) by { assert RequestField(r, "stream").Some?; }
  }

  /** The optional keys of a sent request that hold lists or a tool choice read back as sent. */
  lemma CollectionFieldsRoundTrip(r: CreateMessagesRequest)
    ensures RequestToJson(r).JObject?
    ensures Optional(RequestToJson(r).fields, "metadata", AsObject) == Ok(r.metadata)
    ensures Optional(RequestToJson(r).fields, "stop_sequences", AsStrings) == Ok(r.stopSequences)
    ensures Optional(RequestToJson(r).fields, "tool_choice", ToolChoiceFromJson) == Ok(r.toolChoice)
    ensures Optional(RequestToJson(r).fields, "tools", AsObjects) == Ok(r.tools)
  {
    var f := RequestToJson(r).fields;
    assert Optional(f, "metadata", AsObject) == Ok(r.metadata) by {
      assert "metadata" in f <==> RequestField(r, "metadata").Some?;
    }
    assert Optional(f, "stop_sequences", AsStrings) == Ok(r.stopSequences) by {
      assert "stop_sequences" in f <==> RequestField(r, "stop_sequences").Some?;
      if r.stopSequences.Some? {
        StringsRoundTrip(r.stopSequences.value);
      }
    }
    assert Optional(f, "tool_choice", ToolChoiceFromJson) == Ok(r.toolChoice) by {
      assert "tool_choice" in f <==> RequestField(r, "tool_choice").Some?;
      if r.toolChoice.Some? {
        ToolChoiceRoundTrip(r.toolChoice.value);
      }
    }
    assert Optional(f, "tools", AsObjects) == Ok(r.tools) by {
      assert "tools" in f <==> RequestField(r, "tools").Some?;
      if r.tools.Some? {
        ObjectsRoundTrip(r.tools.value);
      }
    }
  }

  /** The optional scalar keys of a sent request read back as sent. */
  lemma ScalarFieldsRoundTrip(r: CreateMessagesRequest)
    ensures RequestToJson(r).JObject?
    ensures Optional(RequestToJson(r).fields, "temperature", AsFloat) == Ok(r.temperature)
    ensures Optional(RequestToJson(r).fields, "top_k", AsU32) == Ok(r.topK)
    ensures Optional(RequestToJson(r).fields, "top_p", AsFloat) == Ok(r.topP)
    ensures Optional(RequestToJson(r).fields, "system", AsString) == Ok(r.system)
  {
    var f := RequestToJson(r).fields;
    assert Optional(f, "temperature", AsFloat) == Ok(r.temperature) by {
      assert "temperature" in f <==> RequestField(r, "temperature").Some?;
    }
    assert Optional(f, "top_k", AsU32) == Ok(r.topK) by {
      assert "top_k" in f <==> RequestField(r, "top_k").Some?;
    }
    assert Optional(f, "top_p", AsFloat) == Ok(r.topP) by {
      assert "top_p" in f <==> RequestField(r, "top_p").Some?;
    }
    assert Optional(f, "system", AsString) == Ok(r.system) by {
      assert "system" in f <==> RequestField(r, "system").Some?;
    }
  }

  /** A request sent to the server and read back from its echo is the same request. */
  lemma RequestRoundTrip(r: CreateMessagesRequest)
    ensures RequestFromJson(RequestToJson(r)) == Ok(r)
  {
    RequiredFieldsRoundTrip(r);
    CollectionFieldsRoundTrip(r);
    ScalarFieldsRoundTrip(r);
  }

  // ---------------------------------------------------------------------------
  // CreateMessagesRequestBuilder

  /** The builder's state: a field is `None` until its setter has been called. */
  datatype RequestBuilder = RequestBuilder(
    messages: Option<seq<Message>>,
    model: Option<string>,
    maxTokens: Option<I32>,
    metadata: Option<map<string, Json>>,
    stopSequences: Option<seq<string>>,
    stream: Option<bool>,
    temperature: Option<real>,
    toolChoice: Option<ToolChoice>,
    tools: Option<seq<map<string, Json>>>,
    topK: Option<U32>,
    topP: Option<real>,
    system: Option<string>)

  /** `CreateMessagesRequestBuilder::default()`. */
  const EmptyBuilder: RequestBuilder :=
    RequestBuilder(None, None, None, None, None, None, None, None, None, None, None, None)

  function GetOr<T>(o: Option<T>, default: T): T {
    if o.Some? then o.value else default
  }

  /**
   * `build()`: `messages` and `model` have no default and must be set;
   * `max_tokens` defaults to `DEFAULT_MAX_TOKENS`, `stream` to false, and the
   * optional fields to `None`.
   */
  function Build(b: RequestBuilder): (r: Result<CreateMessagesRequest, string>)
    ensures r.Ok? <==> b.messages.Some? && b.model.Some?
    ensures r.Ok? ==> r.value.messages == b.messages.value && r.value.model == b.model.value
    ensures r.Ok? ==> r.value.maxTokens == (if b.maxTokens.Some? then b.maxTokens.value else DefaultMaxTokens)
    ensures r.Ok? ==> (r.value.stream <==> b.stream == Some(true))
    ensures r.Ok? ==> r.value.metadata == b.metadata && r.value.stopSequences == b.stopSequences
    ensures r.Ok? ==> r.value.temperature == b.temperature && r.value.toolChoice == b.toolChoice
    ensures r.Ok? ==> r.value.tools == b.tools && r.value.topK == b.topK
    ensures r.Ok? ==> r.value.topP == b.topP && r.value.system == b.system
  {
    if b.messages.None? then Err("`messages` must be initialized")
    else if b.model.None? then Err("`model` must be initialized")
    else Ok(CreateMessagesRequest(
      b.messages.value, b.model.value, GetOr(b.maxTokens, DefaultMaxTokens),
      b.metadata, b.stopSequences, GetOr(b.stream, false), b.temperature, b.toolChoice,
      b.tools, b.topK, b.topP, b.system))
  }

  /** Setting only the messages and the model gives a request that sends exactly the four required fields. */
  lemma MinimalRequest(messages: seq<Message>, model: string)
    ensures Build(EmptyBuilder.(messages := Some(messages), model := Some(model))).Ok?
    ensures var r := Build(EmptyBuilder.(messages := Some(messages), model := Some(model))).value;
      && r.maxTokens == 2048 && !r.stream
      && RequestToJson(r).fields.Keys == RequiredRequestKeys
      && RequestToJson(r).fields["max_tokens"] == JInt(2048)
      && RequestToJson(r).fields["stream"] == JBool(false)
  {
    var r := Build(EmptyBuilder.(messages := Some(messages), model := Some(model))).value;
    RequiredKeysSent(r);
    OptionalKeysSent(r);
    var f := RequestToJson(r).fields;
    forall k | k in f ensures k in RequiredRequestKeys {
      assert k in RequestKeys;
    }
  }

  // ---------------------------------------------------------------------------
  // CreateMessagesResponse

  datatype Usage = Usage(inputTokens: Option<U32>, outputTokens: Option<U32>)

  datatype CreateMessagesResponse = CreateMessagesResponse(
    id: Option<string>,
    content: Option<seq<MessageContent>>,
    model: Option<string>,
    stopReason: Option<string>,
    stopSequence: Option<string>,
    usage: Option<Usage>)

  function UsageFromJson(j: Json): Result<Usage, JsonError> {
    var f :- AsObject(j);
    var inputTokens :- Optional(f, "input_tokens", AsU32);
    var outputTokens :- Optional(f, "output_tokens", AsU32);
    Ok(Usage(inputTokens, outputTokens))
  }

  /** The derived `Deserialize`: every field may be absent, and unknown fields are ignored. */
  function ResponseFromJson(j: Json): (r: Result<CreateMessagesResponse, JsonError>)
    ensures j.JObject? && r.Ok? ==>
      && ("id" !in j.fields ==> r.value.id.None?)
      && ("content" !in j.fields ==> r.value.content.None?)
      && ("model" !in j.fields ==> r.value.model.None?)
      && ("stop_reason" !in j.fields ==> r.value.stopReason.None?)
      && ("stop_sequence" !in j.fields ==> r.value.stopSequence.None?)
      && ("usage" !in j.fields ==> r.value.usage.None?)
  {
    var f :- AsObject(j);
    var id :- Optional(f, "id", AsString);
    var content :- Optional(f, "content", AsContents);
    var model :- Optional(f, "model", AsString);
    var stopReason :- Optional(f, "stop_reason", AsString);
    var stopSequence :- Optional(f, "stop_sequence", AsString);
    var usage :- Optional(f, "usage", UsageFromJson);
    Ok(CreateMessagesResponse(id, content, model, stopReason, stopSequence, usage))
  }

  /** An empty object is a valid response with every field `None`. */
  lemma EmptyResponse()
    ensures ResponseFromJson(JObject(map[])) == Ok(CreateMessagesResponse(None, None, None, None, None, None))
  {
  }

  /** The sample body of a real response. */
  const SampleResponse: Json := JObject(map[
    "id" := JString("msg_01KkaCASJuaAgTWD2wqdbwC8"),
    "type" := JString("message"),
    "role" := JString("assistant"),
    "model" := JString("claude-3-5-sonnet-20241022"),
    "content" := JArray([JObject(map["type" := JString("text"), "text" := JString("Hi! How can I help you today?")])]),
    "stop_reason" := JString("end_turn"),
    "stop_sequence" := JNull,
    "usage" := JObject(map[
      "input_tokens" := JInt(10),
      "cache_creation_input_tokens" := JInt(0),
      "cache_read_input_tokens" := JInt(0),
      "output_tokens" := JInt(12)])])

  lemma SampleResponseParses()
    ensures ResponseFromJson(SampleResponse) == Ok(CreateMessagesResponse(
      Some("msg_01KkaCASJuaAgTWD2wqdbwC8"),
      Some([Text("Hi! How can I help you today?")]),
      Some("claude-3-5-sonnet-20241022"),
      Some("end_turn"),
      None,
      Some(Usage(Some(10), Some(12)))))
  {
    var f := SampleResponse.fields;
    var text := JObject(map["type" := JString("text"), "text" := JString("Hi! How can I help you today?")]);
    var usage := f["usage"];
    assert Optional(f, "id", AsString) == Ok(Some("msg_01KkaCASJuaAgTWD2wqdbwC8")) by {
      assert f["id"] == JString("msg_01KkaCASJuaAgTWD2wqdbwC8");
    }
    assert Optional(f, "content", AsContents) == Ok(Some([Text("Hi! How can I help you today?")])) by {
      assert f["content"] == JArray([text]);
      assert ContentFromJson(text) == Ok(Text("Hi! How can I help you today?"));
      TraverseOne(ContentFromJson, text);
    }
    assert Optional(f, "model", AsString) == Ok(Some("claude-3-5-sonnet-20241022")) by {
      assert f["model"] == JString("claude-3-5-sonnet-20241022");
    }
    assert Optional(f, "stop_reason", AsString) == Ok(Some("end_turn")) by {
      assert f["stop_reason"] == JString("end_turn");
    }
    assert Optional(f, "stop_sequence", AsString) == Ok(None) by {
      assert f["stop_sequence"] == JNull;
    }
    assert Optional(f, "usage", UsageFromJson) == Ok(Some(Usage(Some(10), Some(12)))) by {
      assert usage.fields["input_tokens"] == JInt(10) && usage.fields["output_tokens"] == JInt(12);
      assert UsageFromJson(usage) == Ok(Usage(Some(10), Some(12)));
    }
  }
}
