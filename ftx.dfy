/** The FTX exchange: its construction, the websocket requests it writes, the
    reading of the subscription acknowledgement, and the mapping of the
    markets response to a result. Transport (HTTP, websocket) is not modelled:
    the already-parsed response or frame is the input. */
module Ftx {
  import opened Prelude
  import opened JsonValues
  import opened Exchanges

  // ---------------------------------------------------------------------------
  // The exchange value
  // ---------------------------------------------------------------------------

  /** An FTX connection: its identifier, whether it is active, and its order
      book snapshot. The HTTP client it also holds is not modelled. */
  datatype Ftx = Ftx(id: string, active: bool, snapshot: OrderbookSnapshot)

  const EmptySnapshot: OrderbookSnapshot := OrderbookSnapshot([], [], 0, 0)

  function GetId(ex: Ftx): string
  {
    ex.id
  }

  function IsActive(ex: Ftx): bool
  {
    ex.active
  }

  /** `build`: a new exchange answers to id, is active, and starts from an
      empty book whose timestamps are zero. */
  function Build(id: string): (ex: Ftx)
    ensures GetId(ex) == id && IsActive(ex)
    ensures ex.snapshot.asks == [] && ex.snapshot.bids == []
    ensures ex.snapshot.updated_at == 0 && ex.snapshot.received_at == 0
  {
    Ftx(id, true, EmptySnapshot)
  }

  // ---------------------------------------------------------------------------
  // Websocket requests
  // ---------------------------------------------------------------------------

  /** A request; fields are written in this order, and a `None` field is
      left out altogether. */
  datatype WsRequest = WsRequest(op: string, market: Option<string>, channel: Option<string>)

  const PingOp: string := "ping"
  const SubscribeOp: string := "subscribe"

  function Ping(): WsRequest
  {
    WsRequest(PingOp, None, None)
  }

  /** Note the parameter order: channel first, while the request lists the
      market first. */
  function Subscribe(channel: string, market: string): WsRequest
  {
    WsRequest(SubscribeOp, Some(market), Some(channel))
  }

  /** `WsRequest::json`: the compact JSON text serde_json writes. Keys are the
      struct's field names, which need no escaping; values are escaped. */
  function RequestJson(r: WsRequest): (text: string)
    ensures |text| >= 2 && text[0] == '{' && text[|text| - 1] == '}'
  {
    "{\"op\":" + Quote(r.op)
    + (match r.market case Some(m) => ",\"market\":" + Quote(m) case None => "")
    + (match r.channel case Some(c) => ",\"channel\":" + Quote(c) case None => "")
    + "}"
  }

  lemma QuotePlain(value: string)
    requires Plain(value)
    ensures Quote(value) == "\"" + value + "\""
  {
    EscapePlain(value);
  }

  /** The subscribe op is written without escapes. The literal spelling is
      kept in a lemma of its own, which keeps the solver from evaluating the
      escaping of a literal. */
  lemma SubscribeOpQuoted()
    ensures Quote(SubscribeOp) == "\"" + SubscribeOp + "\""
  {
    assert Plain(SubscribeOp) by { PlainEveryChar(SubscribeOp); }
    QuotePlain(SubscribeOp);
  }

  lemma SubscribeOpSpelled()
    ensures "\"" + SubscribeOp + "\"" == "\"subscribe\""
  {
  }

  /** The keepalive request is exactly `{"op":"ping"}`: both optional fields
      are omitted. */
  lemma PingJson()
    ensures RequestJson(Ping()) == "{\"op\":\"ping\"}"
  {
  }

  /** A subscription names its op, then the market, then the channel, each
      value written verbatim when it needs no escaping. */
  lemma SubscribeJson(channel: string, market: string)
    requires Plain(channel) && Plain(market)
    ensures RequestJson(Subscribe(channel, market))
         == "{\"op\":\"subscribe\",\"market\":\"" + market + "\",\"channel\":\"" + channel + "\"}"
  {
    var q, m, c := Quote(SubscribeOp), Quote(market), Quote(channel);
    assert RequestJson(Subscribe(channel, market)) == "{\"op\":" + q + (",\"market\":" + m) + (",\"channel\":" + c) + "}";
    SubscribeOpQuoted();
    SubscribeOpSpelled();
    QuotePlain(market);
    QuotePlain(channel);
    SubscribeLayout(q, m, c, market, channel);
  }

  lemma SubscribeLayout(q: string, m: string, c: string, market: string, channel: string)
    requires q == "\"subscribe\"" && m == "\"" + market + "\"" && c == "\"" + channel + "\""
    ensures "{\"op\":" + q + (",\"market\":" + m) + (",\"channel\":" + c) + "}"
         == "{\"op\":\"subscribe\",\"market\":\"" + market + "\",\"channel\":\"" + channel + "\"}"
  {
  }

  const BooksChannel: string := "orderbook"
  const BooksMarket: string := "BTC/USD"

  /** The text sent to subscribe to the order book stream. */
  lemma BooksSubscriptionText()
    ensures RequestJson(Subscribe(BooksChannel, BooksMarket))
         == "{\"op\":\"subscribe\",\"market\":\"BTC/USD\",\"channel\":\"orderbook\"}"
  {
    BooksNamesPlain();
    SubscribeJson(BooksChannel, BooksMarket);
    BooksTextLayout();
  }

  /** The two steps below are kept apart from BooksSubscriptionText so that
      the solver never evaluates the escaping of the literal names there. */
  lemma BooksNamesPlain()
    ensures Plain(BooksChannel) && Plain(BooksMarket)
  {
    PlainEveryChar(BooksChannel);
    PlainEveryChar(BooksMarket);
  }

  lemma BooksTextLayout()
    ensures "{\"op\":\"subscribe\",\"market\":\"" + BooksMarket + "\",\"channel\":\"" + BooksChannel + "\"}"
         == "{\"op\":\"subscribe\",\"market\":\"BTC/USD\",\"channel\":\"orderbook\"}"
  {
  }

  // ---------------------------------------------------------------------------
  // Websocket responses
  // ---------------------------------------------------------------------------

  /** The (empty) data of a response. */
  datatype EmptyData = EmptyData

  datatype WsResponse = WsResponse(
    op: string,
    msg: Option<string>,
    code: Option<string>,
    data: Option<EmptyData>,
    market: Option<string>,
    channel: Option<string>)

  /** The names the `op` field answers to. */
  const OpKeys: set<string> := {"op", "type"}

  /** An `Option<EmptyData>` read as one value: null is None; an object (whose
      members are all ignored) or an empty array is Some. */
  function OptionalEmptyElement(j: Json): Option<Option<EmptyData>>
  {
    match j
    case JNull => Some(None)
    case JObject(_) => Some(Some(EmptyData))
    case JArray(items) => if items == [] then Some(Some(EmptyData)) else None
    case _ => None
  }

  function OptionalEmptyField(vs: seq<Json>): Option<Option<EmptyData>>
  {
    if vs == [] then Some(None)
    else if |vs| == 1 then OptionalEmptyElement(vs[0])
    else None
  }

  /** `serde_json::from_str::<WsResponse<WsEmptyResponseData>>` on an
      already-parsed text: from an object, each field from the member(s) naming
      it; from an array, the six fields in declaration order. */
  function DecodeWsResponse(j: Json): Option<WsResponse>
  {
    match j
    case JObject(ms) =>
      var op := StringField(ValuesOf(ms, OpKeys));
      var msg := OptionalStringField(ValuesOf(ms, {"msg"}));
      var code := OptionalStringField(ValuesOf(ms, {"code"}));
      var data := OptionalEmptyField(ValuesOf(ms, {"data"}));
      var market := OptionalStringField(ValuesOf(ms, {"market"}));
      var channel := OptionalStringField(ValuesOf(ms, {"channel"}));
      if op.Some? && msg.Some? && code.Some? && data.Some? && market.Some? && channel.Some?
      then Some(WsResponse(op.value, msg.value, code.value, data.value, market.value, channel.value))
      else None
    case JArray(items) =>
      if |items| != 6 then None
      else
        var op := StringElement(items[0]);
        var msg := OptionalStringElement(items[1]);
        var code := OptionalStringElement(items[2]);
        var data := OptionalEmptyElement(items[3]);
        var market := OptionalStringElement(items[4]);
        var channel := OptionalStringElement(items[5]);
        if op.Some? && msg.Some? && code.Some? && data.Some? && market.Some? && channel.Some?
        then Some(WsResponse(op.value, msg.value, code.value, data.value, market.value, channel.value))
        else None
    case _ => None
  }

  /** A response read from an object takes its op from the single member
      named either `op` or `type`. */
  lemma {:induction false} ResponseOpAlias(members: seq<(string, Json)>)
    requires DecodeWsResponse(JObject(members)).Some?
    ensures exists k :: SoleKeyAt(members, OpKeys, k)
                     && members[k].1 == JString(DecodeWsResponse(JObject(members)).value.op)
  {
    var op := DecodeWsResponse(JObject(members)).value.op;
    SoleValue(members, OpKeys, JString(op));
  }

  /** Either name alone is enough: `{"op": s}` and `{"type": s}` both read as
      a response with op s and nothing else. */
  lemma ResponseOpEitherName(key: string, s: string)
    requires key in OpKeys
    ensures DecodeWsResponse(JObject([(key, JString(s))])) == Some(WsResponse(s, None, None, None, None, None))
  {
    var ms := [(key, JString(s))];
    assert ValuesOf(ms, OpKeys) == [JString(s)];
    assert ValuesOf(ms, {"msg"}) == [];
    assert ValuesOf(ms, {"code"}) == [];
    assert ValuesOf(ms, {"data"}) == [];
    assert ValuesOf(ms, {"market"}) == [];
    assert ValuesOf(ms, {"channel"}) == [];
  }

  // ---------------------------------------------------------------------------
  // The subscription acknowledgement
  // ---------------------------------------------------------------------------

  /** The first frame read after subscribing. A text frame carries the parse of
      its text, None when the text is not JSON. */
  datatype Frame = Text(parsed: Option<Json>) | NonText

  const SubscribedOp: string := "subscribed"

  /** What `subscribe_to_books` does with the acknowledgement: a text frame
      holding a response whose op is `subscribed` passes, and its channel and
      market are unwrapped (channel first); an unreadable text panics on
      unwrap, any other op panics with "bad message op", and a frame that is
      not text panics with "bad message type". */
  function SubscribeAck(frame: Frame): (r: Outcome<(string, string)>)
    ensures r.Returned? <==>
      frame.Text? && frame.parsed.Some? && DecodeWsResponse(frame.parsed.value).Some? &&
      var resp := DecodeWsResponse(frame.parsed.value).value;
      resp.op == SubscribedOp && resp.channel.Some? && resp.market.Some?
    ensures r.Returned? ==>
      var resp := DecodeWsResponse(frame.parsed.value).value;
      r.value == (resp.channel.value, resp.market.value)
    ensures frame.NonText? ==> r == Panicked(BadMessageType)
    ensures frame.Text? && frame.parsed.Some? && DecodeWsResponse(frame.parsed.value).Some? ==>
      var resp := DecodeWsResponse(frame.parsed.value).value;
      resp.op != SubscribedOp ==> r == Panicked(BadMessageOp(resp.op))
  {
    match frame
    case NonText => Panicked(BadMessageType)
    case Text(parsed) =>
      match parsed
      case None => Panicked(UnwrapErr)
      case Some(j) =>
        match DecodeWsResponse(j)
        case None => Panicked(UnwrapErr)
        case Some(resp) =>
          if resp.op == SubscribedOp then
            match resp.channel
            case None => Panicked(UnwrapNone)
            case Some(channel) =>
              match resp.market
              case None => Panicked(UnwrapNone)
              case Some(market) => Returned((channel, market))
          else Panicked(BadMessageOp(resp.op))
  }

  /** An object acknowledges the subscription to channel c on market m only
      when it has a single `op`/`type` member equal to "subscribed", a single
      `channel` member equal to c and a single `market` member equal to m. */
  lemma {:induction false} AckNeedsSubscribedChannelMarket(members: seq<(string, Json)>, c: string, m: string)
    requires SubscribeAck(Text(Some(JObject(members)))) == Returned((c, m))
    ensures exists k :: SoleKeyAt(members, OpKeys, k) && members[k].1 == JString(SubscribedOp)
    ensures exists k :: SoleKeyAt(members, {"channel"}, k) && members[k].1 == JString(c)
    ensures exists k :: SoleKeyAt(members, {"market"}, k) && members[k].1 == JString(m)
  {
    SoleValue(members, OpKeys, JString(SubscribedOp));
    SoleValue(members, {"channel"}, JString(c));
    SoleValue(members, {"market"}, JString(m));
  }

  /** FTX's acknowledgement, which names the op under `type`, passes. */
  lemma FtxAckPasses()
    ensures SubscribeAck(Text(Some(JObject([
              ("type", JString("subscribed")), ("channel", JString(BooksChannel)), ("market", JString(BooksMarket))]))))
         == Returned((BooksChannel, BooksMarket))
  {
    var ms := [("type", JString("subscribed")), ("channel", JString(BooksChannel)), ("market", JString(BooksMarket))];
    NoValues(ms, {"msg"});
    NoValues(ms, {"code"});
    NoValues(ms, {"data"});
    assert SoleKeyAt(ms, OpKeys, 0) && SoleKeyAt(ms, {"channel"}, 1) && SoleKeyAt(ms, {"market"}, 2);
    SoleValue(ms, OpKeys, JString("subscribed"));
    SoleValue(ms, {"channel"}, JString(BooksChannel));
    SoleValue(ms, {"market"}, JString(BooksMarket));
  }

  /** `subscribe_to_books` once its request is written: it returns `Ok(())`
      after a good acknowledgement and panics otherwise; it never returns an
      error. */
  function SubscribeToBooks(reply: Frame): (r: Outcome<Result<(), string>>)
    ensures r.Returned? ==> r.value == Ok(())
    ensures r.Returned? <==> SubscribeAck(reply).Returned?
  {
    match SubscribeAck(reply)
    case Returned(_) => Returned(Ok(()))
    case Panicked(reason) => Panicked(reason)
  }

  // ---------------------------------------------------------------------------
  // Markets
  // ---------------------------------------------------------------------------

  /** The body of the markets response, already parsed. */
  datatype MarketsResponse = MarketsResponse(success: bool, error: Option<string>, result: Option<seq<Market>>)

  const BadMarketsPrefix: string := "Bad markets response: "

  /** `get_markets` once the body is parsed: a successful response yields its
      result, an unsuccessful one an error carrying its `error` text; the
      field it needs is unwrapped, so its absence panics. */
  function MarketsResult(resp: MarketsResponse): (r: Outcome<Result<seq<Market>, string>>)
    ensures r.Returned? <==> (if resp.success then resp.result.Some? else resp.error.Some?)
    ensures r.Panicked? ==> r.reason == UnwrapNone
    ensures r.Returned? && resp.success ==> r.value == Ok(resp.result.value)
    ensures r.Returned? && !resp.success ==>
      r.value.Err? && |r.value.error| >= |BadMarketsPrefix| &&
      r.value.error[..|BadMarketsPrefix|] == BadMarketsPrefix &&
      r.value.error[|BadMarketsPrefix|..] == resp.error.value
  {
    if resp.success then
      match resp.result
      case Some(markets) => Returned(Ok(markets))
      case None => Panicked(UnwrapNone)
    else
      match resp.error
      case Some(e) => Returned(Err(BadMarketsPrefix + e))
      case None => Panicked(UnwrapNone)
  }
}
