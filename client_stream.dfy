/**
 * The streaming half of `Client`: `post_stream` and the worker `stream` spawns,
 * which reads already-framed server-sent events from the event source, turns
 * each into a typed result, and sends the results down a channel to the caller.
 *
 * The worker is modelled sequentially: the event source is a finite sequence of
 * items, and the caller dropping the receiving end is modelled by how many
 * more items the channel still accepts.
 */
module ClientStream {
  import opened Wrappers
  import opened Json
  import opened Errors
  import Client

  /** A server-sent event as `reqwest_eventsource` delivers it (its id and retry hint are unused). */
  datatype Message = Message(event: string, data: string)

  /** `reqwest_eventsource::Error`: only the end of the stream is told apart. */
  datatype SourceError = StreamEnded | Transport(description: string)

  /** One item of the event source: `Ok(Event::Open)`, `Ok(Event::Message(_))` or `Err(_)`. */
  datatype SourceItem = Opened | Received(message: Message) | Failed(error: SourceError)

  /**
   * `serde_json`, which is not modelled: `parse` reads JSON text into a value
   * tree, `event` reads a tree as the caller's event type.
   */
  datatype Decoders<O> = Decoders(parse: string -> Result<Json, JsonError>, event: Json -> Result<O, JsonError>)

  /** `serde_json::from_str::<T>`. */
  function FromStr<T>(parse: string -> Result<Json, JsonError>, typed: Json -> Result<T, JsonError>, data: string): Result<T, JsonError> {
    match parse(data)
    case Err(e) => Err(e)
    case Ok(j) => typed(j)
  }

  const UnknownEventType: string := "unknown_event_type"
  const SseError: string := "sse_error"

  /**
   * The result the worker sends for a message that is not a `ping`: the error
   * body for `error`, the decoded event for an allowlisted name, and an
   * `unknown_event_type` stream error for any other name.
   */
  function Respond<O>(m: Message, eventTypes: seq<string>, d: Decoders<O>): (r: Result<O, AnthropicError>)
    ensures m.event == "error" ==> r.Err?
    ensures m.event == "error" ==>
      (r.error.StreamFailed? <==> FromStr(d.parse, StreamErrorFromJson, m.data).Ok?)
    ensures m.event == "error" && r.error.StreamFailed? ==>
      r.error.streamError == FromStr(d.parse, StreamErrorFromJson, m.data).value
    ensures m.event == "error" && FromStr(d.parse, StreamErrorFromJson, m.data).Err? ==>
      r == Err(DeserializationError(FromStr(d.parse, StreamErrorFromJson, m.data).error))
    ensures m.event != "error" && m.event in eventTypes ==>
      (r.Ok? <==> FromStr(d.parse, d.event, m.data).Ok?)
    ensures m.event != "error" && m.event in eventTypes && r.Ok? ==>
      r.value == FromStr(d.parse, d.event, m.data).value
    ensures m.event != "error" && m.event in eventTypes && FromStr(d.parse, d.event, m.data).Err? ==>
      r == Err(DeserializationError(FromStr(d.parse, d.event, m.data).error))
    ensures r.Err? && r.error.DeserializationError? ==> m.event == "error" || m.event in eventTypes
    ensures m.event != "error" && m.event !in eventTypes ==>
      r == Err(StreamFailed(StreamError(UnknownEventType, "Unknown event type: " + m.event)))
  {
    // `map_deserialization_error` is handed the data's bytes and ignores them
    // (`Errors.MapDeserializationErrorIgnoresBytes`), so no bytes are passed here.
    if m.event == "error" then
      match FromStr(d.parse, StreamErrorFromJson, m.data)
      case Ok(e) => Err(StreamFailed(e))
      case Err(e) => Err(MapDeserializationError(e, []))
    else if m.event in eventTypes then
      match FromStr(d.parse, d.event, m.data)
      case Ok(output) => Ok(output)
      case Err(e) => Err(MapDeserializationError(e, []))
    else
      Err(StreamFailed(StreamError(UnknownEventType, "Unknown event type: " + m.event)))
  }

  /** What one item of the event source makes the worker do. */
  datatype Action<O> =
    | Skip                                                 // read on, send nothing
    | Halt                                                 // stop, send nothing
    | Emit(item: Result<O, AnthropicError>, last: bool)    // send, then stop if `last`

  /**
   * `Open` and `ping` are skipped, the end of the stream halts, a message is
   * sent and ends the loop when it is an error, and any other transport error
   * is sent as an `sse_error` and the loop goes on.
   */
  function Step<O>(x: SourceItem, eventTypes: seq<string>, d: Decoders<O>): (a: Action<O>)
    ensures a.Skip? <==> x.Opened? || (x.Received? && x.message.event == "ping")
    ensures a.Halt? <==> x == Failed(StreamEnded)
    ensures a.Emit? ==> (a.last <==> a.item.Err? && x.Received?)
    ensures a.Emit? && x.Failed? ==>
      a.item == Err(StreamFailed(StreamError(SseError, x.error.description)))
    ensures x.Received? && x.message.event != "ping" ==>
      a == Emit(Respond(x.message, eventTypes, d), Respond(x.message, eventTypes, d).Err?)
  {
    match x
    case Opened => Skip
    case Received(m) =>
      if m.event == "ping" then Skip
      else
        var r := Respond(m, eventTypes, d);
        Emit(r, r.Err?)
    case Failed(StreamEnded) => Halt
    case Failed(Transport(description)) =>
      Emit(Err(StreamFailed(StreamError(SseError, description))), false)
  }

  /** One less item of room, when the room is bounded. */
  function Less(room: Option<nat>): Option<nat>
    requires room != Some(0)
  {
    if room.Some? then Some(room.value - 1) else None
  }

  /**
   * What the worker sends for the items `items`, when the receiver accepts
   * `room` more items (`None`: it is never dropped).
   */
  function Dispatch<O>(items: seq<SourceItem>, eventTypes: seq<string>, d: Decoders<O>, room: Option<nat>)
    : (out: seq<Result<O, AnthropicError>>)
    ensures |out| <= |items|
    ensures room.Some? ==> |out| <= room.value
    decreases |items|
  {
    if items == [] then []
    else
      match Step(items[0], eventTypes, d)
      case Skip => Dispatch(items[1..], eventTypes, d, room)
      case Halt => []
      case Emit(r, last) =>
        if room == Some(0) then []
        else [r] + (if last then [] else Dispatch(items[1..], eventTypes, d, Less(room)))
  }

  /** Everything the items would produce if nothing ever stopped the loop, in order. */
  function Trace<O>(items: seq<SourceItem>, eventTypes: seq<string>, d: Decoders<O>): seq<Result<O, AnthropicError>>
    decreases |items|
  {
    if items == [] then []
    else
      match Step(items[0], eventTypes, d)
      case Emit(r, _) => [r] + Trace(items[1..], eventTypes, d)
      case _ => Trace(items[1..], eventTypes, d)
  }

  /** The results come in input order, and nothing is sent that an item did not produce. */
  lemma {:induction false} DispatchIsPrefixOfTrace<O>(items: seq<SourceItem>, eventTypes: seq<string>, d: Decoders<O>, room: Option<nat>)
    ensures Dispatch(items, eventTypes, d, room) <= Trace(items, eventTypes, d)
    decreases |items|
  {
    if items != [] {
      match Step(items[0], eventTypes, d)
      case Skip => DispatchIsPrefixOfTrace(items[1..], eventTypes, d, room);
      case Halt =>
      case Emit(r, last) =>
        if room != Some(0) && !last {
          DispatchIsPrefixOfTrace(items[1..], eventTypes, d, Less(room));
        }
    }
  }

  /** When nothing stops the loop early and the receiver stays, every result is sent. */
  lemma {:induction false} DispatchSendsWholeTrace<O>(items: seq<SourceItem>, eventTypes: seq<string>, d: Decoders<O>)
    requires forall i :: 0 <= i < |items| ==> !Step(items[i], eventTypes, d).Halt?
    requires forall i :: 0 <= i < |items| ==> !(Step(items[i], eventTypes, d).Emit? && Step(items[i], eventTypes, d).last)
    ensures Dispatch(items, eventTypes, d, None) == Trace(items, eventTypes, d)
    decreases |items|
  {
    if items != [] {
      assert !Step(items[0], eventTypes, d).Halt?;
      assert !(Step(items[0], eventTypes, d).Emit? && Step(items[0], eventTypes, d).last);
      forall i | 0 <= i < |items[1..]| ensures !Step(items[1..][i], eventTypes, d).Halt? {
        assert items[1..][i] == items[i + 1];
      }
      forall i | 0 <= i < |items[1..]|
        ensures !(Step(items[1..][i], eventTypes, d).Emit? && Step(items[1..][i], eventTypes, d).last)
      {
        assert items[1..][i] == items[i + 1];
      }
      DispatchSendsWholeTrace(items[1..], eventTypes, d);
    }
  }

  /**
   * A receiver that takes only `k` more items gets the first `k` of what an
   * unbounded one would: the worker goes on sending until the receiver is gone.
   */
  lemma {:induction false} DispatchRoomTruncates<O>(items: seq<SourceItem>, eventTypes: seq<string>, d: Decoders<O>, k: nat)
    ensures var full := Dispatch(items, eventTypes, d, None);
            Dispatch(items, eventTypes, d, Some(k)) == full[..if k < |full| then k else |full|]
    decreases |items|
  {
    if items != [] {
      match Step(items[0], eventTypes, d)
      case Skip => DispatchRoomTruncates(items[1..], eventTypes, d, k);
      case Halt =>
      case Emit(r, last) =>
        if k > 0 && !last {
          DispatchRoomTruncates(items[1..], eventTypes, d, k - 1);
          var rest := Dispatch(items[1..], eventTypes, d, None);
          assert Dispatch(items, eventTypes, d, None) == [r] + rest;
          assert Dispatch(items, eventTypes, d, Some(k)) == [r] + Dispatch(items[1..], eventTypes, d, Some(k - 1));
        }
    }
  }

  /** A skipped item (`Open`, `ping`) changes nothing, wherever it stands. */
  lemma {:induction false} DispatchSkips<O>(pre: seq<SourceItem>, x: SourceItem, rest: seq<SourceItem>,
                                           eventTypes: seq<string>, d: Decoders<O>, room: Option<nat>)
    requires Step(x, eventTypes, d).Skip?
    ensures Dispatch(pre + [x] + rest, eventTypes, d, room) == Dispatch(pre + rest, eventTypes, d, room)
    decreases |pre|
  {
    if pre == [] {
      assert (pre + [x] + rest)[1..] == rest;
      assert pre + rest == rest;
    } else {
      assert (pre + [x] + rest)[0] == pre[0] && (pre + rest)[0] == pre[0];
      assert (pre + [x] + rest)[1..] == pre[1..] + [x] + rest;
      assert (pre + rest)[1..] == pre[1..] + rest;
      match Step(pre[0], eventTypes, d)
      case Skip => DispatchSkips(pre[1..], x, rest, eventTypes, d, room);
      case Halt =>
      case Emit(r, last) =>
        if room != Some(0) && !last {
          DispatchSkips(pre[1..], x, rest, eventTypes, d, Less(room));
        }
    }
  }

  /** The end of the stream stops the loop and sends nothing more. */
  lemma {:induction false} DispatchHaltsAtEnd<O>(pre: seq<SourceItem>, rest: seq<SourceItem>,
                                                eventTypes: seq<string>, d: Decoders<O>, room: Option<nat>)
    ensures Dispatch(pre + [Failed(StreamEnded)] + rest, eventTypes, d, room) == Dispatch(pre, eventTypes, d, room)
    decreases |pre|
  {
    var x := Failed(StreamEnded);
    if pre == [] {
      assert (pre + [x] + rest)[0] == x;
    } else {
      assert (pre + [x] + rest)[0] == pre[0];
      assert (pre + [x] + rest)[1..] == pre[1..] + [x] + rest;
      match Step(pre[0], eventTypes, d)
      case Skip => DispatchHaltsAtEnd(pre[1..], rest, eventTypes, d, room);
      case Halt =>
      case Emit(r, last) =>
        if room != Some(0) && !last {
          DispatchHaltsAtEnd(pre[1..], rest, eventTypes, d, Less(room));
        }
    }
  }

  /** After an error produced from a message, nothing more is sent, whatever follows. */
  lemma {:induction false} DispatchStopsAfterMessageError<O>(pre: seq<SourceItem>, m: Message, rest: seq<SourceItem>,
                                                            eventTypes: seq<string>, d: Decoders<O>, room: Option<nat>)
    requires m.event != "ping" && Respond(m, eventTypes, d).Err?
    ensures Dispatch(pre + [Received(m)] + rest, eventTypes, d, room) == Dispatch(pre + [Received(m)], eventTypes, d, room)
    decreases |pre|
  {
    var x := Received(m);
    if pre == [] {
      assert (pre + [x] + rest)[0] == x && (pre + [x])[0] == x;
    } else {
      assert (pre + [x] + rest)[0] == pre[0] && (pre + [x])[0] == pre[0];
      assert (pre + [x] + rest)[1..] == pre[1..] + [x] + rest;
      assert (pre + [x])[1..] == pre[1..] + [x];
      match Step(pre[0], eventTypes, d)
      case Skip => DispatchStopsAfterMessageError(pre[1..], m, rest, eventTypes, d, room);
      case Halt =>
      case Emit(r, last) =>
        if room != Some(0) && !last {
          DispatchStopsAfterMessageError(pre[1..], m, rest, eventTypes, d, Less(room));
        }
    }
  }

  /** A stream error sent by the server is the last thing the caller receives. */
  lemma ServerErrorIsLast<O>(pre: seq<SourceItem>, m: Message, rest: seq<SourceItem>,
                             eventTypes: seq<string>, d: Decoders<O>, room: Option<nat>)
    requires m.event == "error"
    ensures Dispatch(pre + [Received(m)] + rest, eventTypes, d, room) == Dispatch(pre + [Received(m)], eventTypes, d, room)
  {
    DispatchStopsAfterMessageError(pre, m, rest, eventTypes, d, room);
  }

  /** `Open`, `ping`, `k` allowlisted events that decode, then the end: exactly the `k` values, in order. */
  lemma OpenPingEventsEnd<O>(pingData: string, msgs: seq<Message>, values: seq<O>, eventTypes: seq<string>, d: Decoders<O>)
    requires |msgs| == |values|
    requires forall i :: 0 <= i < |msgs| ==>
      (msgs[i].event != "ping" && msgs[i].event != "error" && msgs[i].event in eventTypes &&
       FromStr(d.parse, d.event, msgs[i].data) == Ok(values[i]))
    ensures Dispatch([Opened, Received(Message("ping", pingData))] + AsItems(msgs) + [Failed(StreamEnded)], eventTypes, d, None)
         == OkAll(values)
  {
    var body := AsItems(msgs);
    var ping := Received(Message("ping", pingData));
    calc {
      Dispatch([Opened, ping] + body + [Failed(StreamEnded)], eventTypes, d, None);
      { DispatchHaltsAtEnd([Opened, ping] + body, [], eventTypes, d, None);
        assert [Opened, ping] + body + [Failed(StreamEnded)] + [] == [Opened, ping] + body + [Failed(StreamEnded)]; }
      Dispatch([Opened, ping] + body, eventTypes, d, None);
      { assert [Opened, ping] + body == [] + [Opened] + ([ping] + body);
        DispatchSkips([], Opened, [ping] + body, eventTypes, d, None);
        assert [] + ([ping] + body) == [] + [ping] + body;
        DispatchSkips([], ping, body, eventTypes, d, None);
        assert [] + body == body; }
      Dispatch(body, eventTypes, d, None);
      { ReceivedAllSent(msgs, values, eventTypes, d); }
      OkAll(values);
    }
  }

  function AsItems(msgs: seq<Message>): (items: seq<SourceItem>)
    ensures |items| == |msgs|
    ensures forall i :: 0 <= i < |msgs| ==> items[i] == Received(msgs[i])
  {
    if msgs == [] then [] else [Received(msgs[0])] + AsItems(msgs[1..])
  }

  function OkAll<O>(values: seq<O>): (out: seq<Result<O, AnthropicError>>)
    ensures |out| == |values|
    ensures forall i :: 0 <= i < |values| ==> out[i] == Ok(values[i])
  {
    if values == [] then [] else [Ok(values[0])] + OkAll(values[1..])
  }

  lemma {:induction false} ReceivedAllSent<O>(msgs: seq<Message>, values: seq<O>, eventTypes: seq<string>, d: Decoders<O>)
    requires |msgs| == |values|
    requires forall i :: 0 <= i < |msgs| ==>
      (msgs[i].event != "ping" && msgs[i].event != "error" && msgs[i].event in eventTypes &&
       FromStr(d.parse, d.event, msgs[i].data) == Ok(values[i]))
    ensures Dispatch(AsItems(msgs), eventTypes, d, None) == OkAll(values)
    decreases |msgs|
  {
    if msgs != [] {
      var items := AsItems(msgs);
      assert items[0] == Received(msgs[0]);
      assert Step(items[0], eventTypes, d) == Emit(Ok(values[0]), false);
      assert items[1..] == AsItems(msgs[1..]);
      ReceivedAllSent(msgs[1..], values[1..], eventTypes, d);
      assert OkAll(values) == [Ok(values[0])] + OkAll(values[1..]);
    }
  }

  // ---------------------------------------------------------------------------
  // The worker itself

  /** The event source: the items still to come, and whether it has been closed. */
  class EventSource {
    const items: seq<SourceItem>
    var pos: nat
    var closed: bool

    ghost predicate Valid()
      reads this
    {
      pos <= |items|
    }

    function Remaining(): seq<SourceItem>
      reads this
      requires Valid()
    {
      items[pos..]
    }

    constructor (items: seq<SourceItem>)
      ensures Valid() && this.items == items && Remaining() == items && !closed
    {
      this.items := items;
      pos := 0;
      closed := false;
    }

    /** `event_source.next().await`: the next item, or `None` once the items are used up. */
    method Next() returns (x: Option<SourceItem>)
      requires Valid()
      modifies this`pos
      ensures Valid()
      ensures old(Remaining()) == [] ==> x == None && Remaining() == []
      ensures old(Remaining()) != [] ==> x == Some(old(Remaining())[0]) && Remaining() == old(Remaining())[1..]
    {
      if pos == |items| {
        x := None;
      } else {
        x := Some(items[pos]);
        pos := pos + 1;
      }
    }

    /** `event_source.close()`. */
    method Close()
      modifies this`closed
      ensures closed
    {
      closed := true;
    }
  }

  /**
   * The sending end of the channel. `sent` is what the caller has been given;
   * `room` is how many more items it will take before it drops the receiver
   * (`None`: it never does).
   */
  class Sender<O> {
    var sent: seq<Result<O, AnthropicError>>
    var room: Option<nat>

    constructor (room: Option<nat>)
      ensures sent == [] && this.room == room
    {
      sent := [];
      this.room := room;
    }

    /** `tx.send(x)`: fails, delivering nothing, once the receiver is gone. */
    method Send(x: Result<O, AnthropicError>) returns (delivered: bool)
      modifies this
      ensures delivered <==> old(room) != Some(0)
      ensures sent == (if delivered then old(sent) + [x] else old(sent))
      ensures room == (if delivered then Less(old(room)) else old(room))
    {
      delivered := room != Some(0);
      if delivered {
        sent := sent + [x];
        room := Less(room);
      }
    }
  }

  lemma DispatchOnSkip<O>(items: seq<SourceItem>, eventTypes: seq<string>, d: Decoders<O>, room: Option<nat>)
    requires items != [] && Step(items[0], eventTypes, d) == Skip
    ensures Dispatch(items, eventTypes, d, room) == Dispatch(items[1..], eventTypes, d, room)
  {
  }

  lemma DispatchOnEmit<O>(items: seq<SourceItem>, eventTypes: seq<string>, d: Decoders<O>, room: Option<nat>,
                          r: Result<O, AnthropicError>, last: bool)
    requires items != [] && Step(items[0], eventTypes, d) == Emit(r, last)
    ensures room == Some(0) ==> Dispatch(items, eventTypes, d, room) == []
    ensures room != Some(0) && last ==> Dispatch(items, eventTypes, d, room) == [r]
    ensures room != Some(0) && !last ==>
      Dispatch(items, eventTypes, d, room) == [r] + Dispatch(items[1..], eventTypes, d, Less(room))
  {
    if room != Some(0) && last {
      assert [r] + [] == [r];
    }
  }

  /** The result the worker computes for a message that is not a `ping`. */
  method Response<O>(message: Message, eventTypes: seq<string>, d: Decoders<O>)
    returns (response: Result<O, AnthropicError>)
    ensures response == Respond(message, eventTypes, d)
  {
    var event := message.event;
    // As in `Respond`, the bytes `map_deserialization_error` ignores are not passed.
    if event == "error" {
      match FromStr(d.parse, StreamErrorFromJson, message.data) {
        case Ok(e) => response := Err(StreamFailed(e));
        case Err(e) => response := Err(MapDeserializationError(e, []));
      }
    } else if event in eventTypes {
      match FromStr(d.parse, d.event, message.data) {
        case Ok(output) => response := Ok(output);
        case Err(e) => response := Err(MapDeserializationError(e, []));
      }
    } else {
      response := Err(StreamFailed(StreamError(UnknownEventType, "Unknown event type: " + event)));
    }
  }

  /**
   * One pass of the worker's loop: read the next item and act on it. `stop`
   * says the loop ends here (`break`); otherwise it reads on (`continue`).
   */
  method HandleNext<O>(source: EventSource, tx: Sender<O>, eventTypes: seq<string>, d: Decoders<O>)
    returns (stop: bool)
    requires source.Valid()
    modifies source`pos, tx
    ensures source.Valid()
    ensures !stop ==> |source.Remaining()| < |old(source.Remaining())|
    ensures stop ==> tx.sent == old(tx.sent) + Dispatch(old(source.Remaining()), eventTypes, d, old(tx.room))
    ensures !stop ==> tx.sent + Dispatch(source.Remaining(), eventTypes, d, tx.room)
                      == old(tx.sent) + Dispatch(old(source.Remaining()), eventTypes, d, old(tx.room))
  {
    ghost var before := source.Remaining();
    var ev := source.Next();
    if ev.None? {
      return true;
    }
    assert before != [] && before[0] == ev.value && before[1..] == source.Remaining();
    match ev.value {
      case Opened =>
        DispatchOnSkip(before, eventTypes, d, old(tx.room));
        return false;
      case Received(message) =>
        if message.event == "ping" {
          DispatchOnSkip(before, eventTypes, d, old(tx.room));
          return false;
        }
        var response := Response(message, eventTypes, d);
        var cancel := response.Err?;
        DispatchOnEmit(before, eventTypes, d, old(tx.room), response, cancel);
        var delivered := tx.Send(response);
        stop := !delivered || cancel;
        if !stop {
          assert old(tx.sent) + ([response] + Dispatch(source.Remaining(), eventTypes, d, tx.room))
              == tx.sent + Dispatch(source.Remaining(), eventTypes, d, tx.room);
        }
      case Failed(e) =>
        if e.StreamEnded? {
          return true;
        }
        var response := Err(StreamFailed(StreamError(SseError, e.description)));
        DispatchOnEmit(before, eventTypes, d, old(tx.room), response, false);
        var delivered := tx.Send(response);
        stop := !delivered;
        if !stop {
          assert old(tx.sent) + ([response] + Dispatch(source.Remaining(), eventTypes, d, tx.room))
              == tx.sent + Dispatch(source.Remaining(), eventTypes, d, tx.room);
        }
    }
  }

  /**
   * The worker `stream` spawns: it sends what `Dispatch` says for the items
   * it reads, and it closes the event source on every way out of the loop.
   */
  method Stream<O>(source: EventSource, tx: Sender<O>, eventTypes: seq<string>, d: Decoders<O>)
    requires source.Valid()
    modifies source, tx
    ensures source.closed
    ensures tx.sent == old(tx.sent) + Dispatch(old(source.Remaining()), eventTypes, d, old(tx.room))
  {
    ghost var expected := tx.sent + Dispatch(source.Remaining(), eventTypes, d, tx.room);
    while true
      invariant source.Valid()
      invariant tx.sent + Dispatch(source.Remaining(), eventTypes, d, tx.room) == expected
      decreases |source.Remaining()|
    {
      var stop := HandleNext(source, tx, eventTypes, d);
      if stop {
        break;
      }
    }
    source.Close();
  }

  /**
   * `Client::post_stream`: the request is built as for `post`, the event
   * source it opens yields `items`, and the worker runs over them.
   */
  method PostStream<O>(c: Client.ClientConfig, path: string, body: Json, eventTypes: seq<string>, d: Decoders<O>,
                       items: seq<SourceItem>, tx: Sender<O>)
    returns (sent: Client.HttpRequest, source: EventSource)
    requires Client.ValidHeaderValue(c.apiKey) && Client.ValidHeaderValue(c.version)
    requires c.beta.Some? ==> Client.ValidHeaderValue(c.beta.value)
    modifies tx
    ensures sent.url == Client.FormatUrl(c, path) && sent.body == body
    ensures "x-api-key" in sent.headers && sent.headers["x-api-key"] == c.apiKey
    ensures "anthropic-version" in sent.headers && sent.headers["anthropic-version"] == c.version
    ensures "anthropic-beta" in sent.headers <==> c.beta.Some?
    ensures c.beta.Some? ==> sent.headers["anthropic-beta"] == c.beta.value
    ensures sent.headers.Keys == {"x-api-key", "anthropic-version"} + (if c.beta.Some? then {"anthropic-beta"} else {})
    ensures sent.appended == []
    ensures fresh(source) && source.closed
    ensures tx.sent == old(tx.sent) + Dispatch(items, eventTypes, d, old(tx.room))
  {
    var headers := Client.Headers(c);
    sent := Client.HttpRequest(Client.FormatUrl(c, path), headers, [], body);
    source := new EventSource(items);
    Stream(source, tx, eventTypes, d);
  }
}
