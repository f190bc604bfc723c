/** The exchange-independent data model: markets, order-book levels and
    snapshots, and the top-of-book extraction `OrderbookSnapshot::head`. */
module Exchanges {
  import opened Prelude
  import opened JsonValues

  newtype i128 = x: int | -0x8000_0000_0000_0000_0000_0000_0000_0000 <= x < 0x8000_0000_0000_0000_0000_0000_0000_0000
  newtype u128 = x: int | 0 <= x < 0x1_0000_0000_0000_0000_0000_0000_0000_0000

  // ---------------------------------------------------------------------------
  // Market
  // ---------------------------------------------------------------------------

  /** One tradable instrument. */
  datatype Market = Market(symbol: string)

  /** The names the `symbol` field answers to when a market is read. */
  const SymbolKeys: set<string> := {"name", "symbol"}

  /** A market read from JSON by its derived Deserialize: from an object, the
      one member named `name` or `symbol` (other members are ignored); from an
      array, its single string element. */
  function DecodeMarket(j: Json): Option<Market>
  {
    match j
    case JObject(members) =>
      (match StringField(ValuesOf(members, SymbolKeys))
       case Some(s) => Some(Market(s))
       case None => None)
    case JArray(items) =>
      if |items| == 1 && items[0].JString? then Some(Market(items[0].text)) else None
    case _ => None
  }

  /** A market as its derived Serialize writes it: always under `symbol`. */
  function EncodeMarket(m: Market): Json
  {
    JObject([("symbol", JString(m.symbol))])
  }

  /** A market written out is read back unchanged. */
  lemma MarketRoundTrip(m: Market)
    ensures DecodeMarket(EncodeMarket(m)) == Some(m)
  {
    assert ValuesOf([("symbol", JString(m.symbol))], SymbolKeys) == [JString(m.symbol)];
  }

  /** An object yields the market s exactly when a single member, named either
      `name` or `symbol`, holds the string s: either name is accepted, and
      giving both is a duplicate-field error. */
  lemma {:induction false} MarketSymbolAlias(members: seq<(string, Json)>, s: string)
    ensures DecodeMarket(JObject(members)) == Some(Market(s))
        <==> exists k :: SoleKeyAt(members, SymbolKeys, k) && members[k].1 == JString(s)
  {
    SoleValue(members, SymbolKeys, JString(s));
  }

  // ---------------------------------------------------------------------------
  // Order book
  // ---------------------------------------------------------------------------

  /** One price level. `price` and `size` are JSON values that no code here
      computes with. */
  datatype OrderbookItem = OrderbookItem(id: i128, size: Json, price: Json)

  datatype OrderbookSnapshot = OrderbookSnapshot(
    asks: seq<OrderbookItem>,
    bids: seq<OrderbookItem>,
    updated_at: u128,
    received_at: u128)

  /** How many levels per side `head` keeps. */
  const Depth: nat := 10

  /** n copies of x. */
  function Repeat<T>(x: T, n: nat): (r: seq<T>)
    ensures |r| == n && forall k :: 0 <= k < n ==> r[k] == x
  {
    seq(n, _ => x)
  }

  /** `head` exactly as written: each loop increments its counter BEFORE the
      `get(..).unwrap()`, and the bid loop reads `asks.get(i)`. A `get` past the
      end is `None`, and unwrapping it panics.

      It returns only when the book has more than Depth asks, or has neither
      asks nor bids; then the asks are asks[1..Depth+1] (the best ask is
      skipped) and the bids are copies of asks[Depth]. */
  method HeadAsWritten(s: OrderbookSnapshot) returns (r: Outcome<OrderbookSnapshot>)
    ensures r.Returned? <==> |s.asks| > Depth || (s.asks == [] && s.bids == [])
    ensures r.Panicked? ==> r.reason == UnwrapNone
    ensures |s.asks| > Depth ==>
      r == Returned(OrderbookSnapshot(s.asks[1..Depth + 1], Repeat(s.asks[Depth], Min(Depth, |s.bids|)),
                                      s.updated_at, s.received_at))
    ensures s.asks == [] && s.bids == [] ==>
      r == Returned(OrderbookSnapshot([], [], s.updated_at, s.received_at))
    ensures r.Returned? ==> |r.value.asks| <= Depth && |r.value.bids| <= Depth
  {
    var asks: seq<OrderbookItem> := [];
    var i := 0;
    var j := 0;
    while i < Depth && i < |s.asks|
      invariant i <= Depth && i <= |s.asks|
      invariant i > 0 ==> i < |s.asks|
      invariant |asks| == i && forall k :: 0 <= k < i ==> asks[k] == s.asks[k + 1]
    {
      i := i + 1;
      match Get(s.asks, i)
      case None => return Panicked(UnwrapNone);
      case Some(item) => asks := asks + [item];
    }

    var bids: seq<OrderbookItem> := [];
    while j < Depth && j < |s.bids|
      invariant j <= Depth && j <= |s.bids|
      invariant j > 0 ==> i < |s.asks|
      invariant |bids| == j && forall k :: 0 <= k < j ==> bids[k] == s.asks[i]
    {
      j := j + 1;
      match Get(s.asks, i)
      case None => return Panicked(UnwrapNone);
      case Some(item) => bids := bids + [item];
    }

    if |s.asks| > Depth {
      assert asks == s.asks[1..Depth + 1];
      assert bids == Repeat(s.asks[Depth], Min(Depth, |s.bids|));
    }
    r := Returned(OrderbookSnapshot(asks, bids, s.updated_at, s.received_at));
  }

  /** `head` as intended: each loop pushes the element at its counter and then
      increments it, and the bid loop reads the bids. The result holds the first
      Depth levels of each side (all of them when there are fewer), in order,
      and the timestamps; it never fails. */
  method Head(s: OrderbookSnapshot) returns (t: OrderbookSnapshot)
    ensures t.asks == s.asks[..Min(Depth, |s.asks|)]
    ensures t.bids == s.bids[..Min(Depth, |s.bids|)]
    ensures t.updated_at == s.updated_at && t.received_at == s.received_at
    ensures |t.asks| <= Depth && |t.bids| <= Depth
    ensures forall x :: x in t.bids ==> x in s.bids
  {
    var asks: seq<OrderbookItem> := [];
    var i := 0;
    var j := 0;
    while i < Depth && i < |s.asks|
      invariant i <= Depth && i <= |s.asks|
      invariant asks == s.asks[..i]
    {
      asks := asks + [s.asks[i]];
      i := i + 1;
    }

    var bids: seq<OrderbookItem> := [];
    while j < Depth && j < |s.bids|
      invariant j <= Depth && j <= |s.bids|
      invariant bids == s.bids[..j]
    {
      bids := bids + [s.bids[j]];
      j := j + 1;
    }

    t := OrderbookSnapshot(asks, bids, s.updated_at, s.received_at);
  }

  // ---------------------------------------------------------------------------
  // Concrete books that show how the two versions of `head` differ.
  // ---------------------------------------------------------------------------

  function Level(id: i128): OrderbookItem
  {
    OrderbookItem(id, JNumber("1"), JNumber("100"))
  }

  /** A book with two asks and no bids: the literal `head` panics where the
      intended one returns both asks. */
  method TwoAskBook() returns (written: Outcome<OrderbookSnapshot>, intended: OrderbookSnapshot)
    ensures written == Panicked(UnwrapNone)
    ensures intended.asks == [Level(1), Level(2)] && intended.bids == []
  {
    var s := OrderbookSnapshot([Level(1), Level(2)], [], 0, 0);
    written := HeadAsWritten(s);
    intended := Head(s);
  }

  /** A book with eleven asks and one bid: the literal `head` returns, but its
      bid side holds the eleventh ask instead of the bid, and its ask side
      lacks the best ask. */
  method ElevenAskBook() returns (written: Outcome<OrderbookSnapshot>, intended: OrderbookSnapshot)
    ensures written.Returned?
    ensures written.value.bids == [Level(10)] && intended.bids == [Level(100)]
    ensures Level(0) !in written.value.asks && |intended.asks| == 10 && intended.asks[0] == Level(0)
  {
    var asks := seq(11, k requires 0 <= k < 11 => Level(k as i128));
    var s := OrderbookSnapshot(asks, [Level(100)], 0, 0);
    written := HeadAsWritten(s);
    intended := Head(s);
    assert written.value.asks == asks[1..11];
  }
}
