# engine_test: the sequential core, modelled in Dafny

`engine_test` connects to the FTX crypto exchange. It subscribes to the
BTC/USD order book over a websocket and polls the exchange's market list every
90 seconds into a shared registry. Most of the program is asynchronous I/O.
This project models the sequential logic around that I/O and proves what it
does:

- **Top of book.** `OrderbookSnapshot::head` copies up to 10 levels per side
  of a snapshot into a new one (module `Exchanges`). The literal code skips
  the best ask, reads one past the end, and fills the bids from the asks.
  The model keeps two methods:
  - `HeadAsWritten` follows the code as written, and a failed `unwrap` becomes
    a panic outcome;
  - `Head` is the evidently intended version.
- **FTX wire messages** (module `Ftx`):
  - the `build` constructor and its accessors;
  - the compact JSON that serde_json writes for the `ping` and `subscribe`
    requests;
  - how a response is read, including the `op`/`type` alias;
  - the decision taken on the subscription acknowledgement;
  - how a parsed markets response becomes a `Result`.
- **Entry point** (module `EntryPoint`):
  - the `init_exchanges` loop over the fixed name list;
  - the market registry, a class whose methods are the lock-guarded
    `insert` and clone;
  - one exchange's refresh loop, run over the sequence of results its ticks
    obtain.

Two support modules hold the shared vocabulary:

- `Prelude` holds Rust's `Option`, `Result` and `Vec::get`, and the outcome of
  a call that may panic.
- `JsonValues` holds a parsed JSON value and the way serde's derived
  `Deserialize` reads struct fields from one: aliases, ignored unknown keys,
  duplicate and missing fields. It also holds serde_json's string escaping,
  proved against an independent reader that undoes it.

A Rust panic (an `unwrap` on `None` or `Err`, or `panic!`) is the value
`Panicked(reason)` of `Prelude.Outcome`.

The model keeps these behaviours of the code:

- A refresh failure ends that exchange's refresh loop with `break`
  (src/main.rs:55-57). It is not retried on the next tick.
- A bad subscription acknowledgement panics (src/ftx.rs:81-88). It is not
  returned as an error, so `subscribe_to_books` never returns `Err`.
- A markets response missing the field it needs panics on `unwrap`
  (src/ftx.rs:59, src/ftx.rs:61). It does not yield an error.
- `is_active` is never consulted. Every exchange in the list is started.
- The depth of `head` is fixed at 10.

## Model

| member | source | states |
|---|---|---|
| Exchanges.HeadAsWritten | src/exchanges.rs:37-58 | the literal `head` returns iff the book has more than 10 asks or no asks and no bids, and panics only on unwrapping `None`; with more than 10 asks it returns asks[1..11] and min(10, #bids) copies of asks[10]; an empty book gives an empty result; each side of a result has at most 10 levels; timestamps are copied |
| Exchanges.Head | src/exchanges.rs:37-58 | the intended `head` never fails and returns the first min(10, n) asks and bids, in order and unchanged, with both timestamps copied; every returned bid is a bid of the source |
| Exchanges.TwoAskBook | src/exchanges.rs:41-44 | on a book with two asks and no bids the literal `head` panics, while the intended one returns both asks and no bids |
| Exchanges.ElevenAskBook | src/exchanges.rs:46-50 | on a book with eleven asks and one bid the literal `head` returns the eleventh ask as its bid and drops the best ask; the intended one returns the bid and starts its asks at the best ask |
| Exchanges.MarketSymbolAlias | src/exchanges.rs:5-10 | an object reads as the market s iff exactly one member is named `name` or `symbol` and holds the string s |
| Exchanges.MarketRoundTrip | src/exchanges.rs:5-10 | a market written out (under `symbol`) reads back unchanged |
| JsonValues.SoleValue | src/exchanges.rs:7-9 | a struct field with aliases receives exactly one value v iff exactly one member is named by one of its names, and that member holds v |
| JsonValues.NoValues | src/ftx.rs:156-160 | a field receives no value iff no member is named by one of its names, which is what makes an absent `Option` field `None` |
| JsonValues.StringField | src/exchanges.rs:9 | a required `String` field is read iff it receives exactly one value and that value is a string, which it then holds |
| JsonValues.OptionalStringField | src/ftx.rs:156-160 | an `Option<String>` field is `None` iff it is absent or null, and `Some(s)` iff it receives the single string s |
| JsonValues.OptionalStringElement | src/ftx.rs:156-160 | one `Option<String>` value: null is `None`, a string s is `Some(s)`, anything else is an error |
| JsonValues.UnescapeEscape | src/ftx.rs:131-133 | every string that serde_json writes as a JSON string body reads back unchanged |
| JsonValues.EscapeInjective | src/ftx.rs:131-133 | distinct strings are written as distinct string bodies |
| JsonValues.EscapePlain | src/ftx.rs:131-133 | a string with no quote, backslash or control character is written verbatim |
| Ftx.Build | src/ftx.rs:28-50 | `build(id)` answers to id, is active, and starts with an empty book whose timestamps are zero |
| Ftx.RequestJson | src/ftx.rs:121-133 | the text of every request starts with `{` and ends with `}`; the full text of the two requests the program builds is given by PingJson and SubscribeJson |
| Ftx.PingJson | src/ftx.rs:131-141 | `ping().json()` is exactly `{"op":"ping"}`: both `None` fields are omitted |
| Ftx.SubscribeJson | src/ftx.rs:121-149 | `subscribe(c, m).json()` is exactly `{"op":"subscribe","market":"m","channel":"c"}` for every m and c that need no escaping, fields in declaration order |
| Ftx.BooksSubscriptionText | src/ftx.rs:73 | the request sent to subscribe to the book is `{"op":"subscribe","market":"BTC/USD","channel":"orderbook"}` |
| Ftx.ResponseOpAlias | src/ftx.rs:152-161 | a response read from an object takes its op from the only member named `op` or `type` |
| Ftx.ResponseOpEitherName | src/ftx.rs:154-155 | an object with a single member, named `op` or `type`, holding s reads as a response with op s and every optional field `None` |
| Ftx.SubscribeAck | src/ftx.rs:77-88 | the acknowledgement passes iff it is a text frame that reads as a response whose op is `subscribed` and whose channel and market are present, and then yields (channel, market); a non-text frame panics with "bad message type"; a response with another op panics with "bad message op" |
| Ftx.AckNeedsSubscribedChannelMarket | src/ftx.rs:78-82 | an object acknowledges channel c on market m only if it has exactly one `op`/`type` member, holding "subscribed", exactly one `channel` member, holding c, and exactly one `market` member, holding m |
| Ftx.FtxAckPasses | src/ftx.rs:78-82 | FTX's acknowledgement, which names the op `type`, passes with channel `orderbook` and market `BTC/USD` |
| Ftx.SubscribeToBooks | src/ftx.rs:65-118 | once the request is written, `subscribe_to_books` returns `Ok(())` iff the acknowledgement passes, and never returns an error |
| Ftx.MarketsResult | src/ftx.rs:58-62 | a markets response returns iff the field its `success` flag selects is present, and panics on unwrapping `None` otherwise; on success the result is `Ok` of the market list; on failure it is `Err` of "Bad markets response: " followed by the error text |
| EntryPoint.DispatchedAtMostOne | src/main.rs:91-97 | one list entry yields one exchange if it is `ftx` or `ftx-test` and none otherwise, never two |
| EntryPoint.PushedIsKnownEntries | src/main.rs:91-98 | the loop's pushes, entry after entry, are exactly the known entries of the list, in list order |
| EntryPoint.InitExchangesFrom | src/main.rs:83-100 | the loop returns one exchange per known entry of the list, in list order, each built from that entry |
| EntryPoint.InitExchanges | src/main.rs:80-101 | `init_exchanges` returns two exchanges, `ftx` then `ftx-test`, both active |
| EntryPoint.MarketRegistry.constructor | src/main.rs:26 | the registry starts empty |
| EntryPoint.MarketRegistry.Insert | src/main.rs:52-53 | `insert` replaces id's entry wholesale and changes no other entry |
| EntryPoint.MarketRegistry.Read | src/main.rs:113-116 | the reporter's read returns a copy of the whole registry and leaves it unchanged |
| EntryPoint.RefreshTick | src/main.rs:48-59 | one tick goes on iff the fetch succeeded; a success maps id to the fetched list and adds no key other than id; a failure leaves the registry unchanged; other entries are never touched |
| EntryPoint.RefreshMarkets | src/main.rs:42-62 | the refresh loop leaves the registry as the ticks over the fetch results leave it, and runs the ticks up to and including the first failure |
| EntryPoint.RefreshLastWins | src/main.rs:51-53 | after the loop, id maps to the list of the last success before the first failure, and the registry is unchanged when the first tick fails |
| EntryPoint.RefreshOthersUnchanged | src/main.rs:53 | the loop neither adds, removes nor changes the entry of any exchange other than id |
| EntryPoint.TicksRunStopsAtFirstErr | src/main.rs:55-57 | the loop runs one tick per success before the first failure, plus the failing tick, and all ticks when none fails |

## Left out

- The websocket connection, the send and receive of frames, and the streaming loop with its ping interval, message counter and timestamp (src/ftx.rs:68-76, src/ftx.rs:90-115). This is transport and concurrency, and incoming messages are only counted, never applied to the snapshot. The first frame read is an input of `SubscribeAck`.
- A stream that ends, or a read error, on the acknowledgement read (src/ftx.rs:77). Both are transport panics before any decision is taken.
- The HTTP request and the parsing of its body (src/ftx.rs:53-56). `MarketsResult` starts from the parsed `MarketsResponse`.
- JSON text parsing. A text frame carries the already-parsed value, or `None` when the text is not JSON.
- `Unescape`, the reader used as the partner of escaping, rejects `\u` surrogate escapes, including valid surrogate pairs. serde_json never writes those for the characters it escapes.
- tokio task spawning, the 90 s and 15 s intervals, `Arc<RwLock<..>>` locking, ctrl-c handling, `SystemTime` and `println!` output (src/main.rs:15-77, src/main.rs:104-123). The registry's lock-guarded operations are the methods of one object, and a refresh loop is run over the sequence of results its ticks obtain.
- EntryPoint.RefreshMarkets: a `get_markets` call that panics is not a possible fetch result. Its panics are modelled by `MarketsResult`.
- The text of panic messages, and the `Debug` rendering they include. A panic records only its reason.
- Ftx.RequestJson: its contract fixes only the enclosing braces of a general request; field order and the omission of `None` fields are stated for the two requests the program builds, `ping` and `subscribe`, by PingJson and SubscribeJson.
- Reconnection, liveness timeouts and backoff. None of these exist in the code.
- That `head` leaves its source snapshot unchanged holds by construction, because snapshots are values here.
- Arithmetic on `price` and `size`. They are opaque JSON values that no code computes with.
- `OrderbookItem.id` is an `i128`, but no code computes with it. `updated_at` and `received_at` are copied, never computed.

## Findings

| source | as written | input that shows it | evidently intended | confidence | as-written member | corrected member |
|---|---|---|---|---|---|---|
| src/exchanges.rs:41-44 | `i` is incremented before `self.asks.get(i).unwrap()`, so the best ask is skipped and the last step reads one past the end | asks = two levels, bids empty: `get(2)` is `None` and `unwrap` panics | push `asks[i]`, then increment: the first min(10, n) asks | not executed | Exchanges.TwoAskBook | Exchanges.Head |
| src/exchanges.rs:46-50 | the bid loop pushes `self.asks.get(i)`, always the same ask, and never reads the bids | eleven asks, one bid: the result's only bid is the eleventh ask | push `bids[j]`, then increment: the first min(10, n) bids | not executed | Exchanges.ElevenAskBook | Exchanges.Head |
