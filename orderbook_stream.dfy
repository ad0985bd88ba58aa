/**
  The ticker stream of one symbol. The stream keeps the last best bid and best ask
  it has seen, each as a price and a size; a ticker message replaces a side only
  when it carries both of that side's values, and every ticker message rebuilds the
  order book snapshot from what is kept and hands it to the one registered
  callback. The WebSocket itself is outside the model: messages arrive decoded.
 */
module OrderBookStream {
  import opened Common
  import opened TradingTypes

  const DefaultSymbol := "BTCUSDT"
  const StreamUrl := "wss://stream.bybit.com/v5/public/linear"
  const TickerTopicPrefix := "tickers"

  // ---------------------------------------------------------------------------
  // Subscription and messages

  datatype SubscribeRequest = SubscribeRequest(op: string, args: seq<string>)

  /** A message is let through when its topic starts with "tickers"; the symbol is not checked. */
  predicate IsTickerTopic(topic: string) {
    TickerTopicPrefix <= topic
  }

  /** The subscription `connect` sends: the ticker channel of the stream's symbol. */
  function SubscribeRequestFor(symbol: string): (r: SubscribeRequest)
    ensures r.op == "subscribe" && |r.args| == 1
    ensures |r.args[0]| == |TickerTopicPrefix| + 1 + |symbol|
    ensures r.args[0][..|TickerTopicPrefix| + 1] == TickerTopicPrefix + "."
    ensures r.args[0][|TickerTopicPrefix| + 1..] == symbol
    ensures IsTickerTopic(r.args[0])
  {
    SubscribeRequest("subscribe", [TickerTopicPrefix + "." + symbol])
  }

  /**
    A decoded stream message: its "topic" (the reply to a subscription has none),
    its "data" record (absent counts as the empty record) and its "ts".
   */
  datatype Message = Message(topic: Option<string>, data: Fields, ts: Option<int>)

  /** The messages `_process_message` acts on: a ticker topic and a non-empty data record. */
  predicate IsTickerUpdate(m: Message) {
    IsTickerTopic(m.topic.GetOr("")) && m.data != map[]
  }

  // ---------------------------------------------------------------------------
  // The kept best bid and ask

  datatype BestQuotes = BestQuotes(bidPrice: Option<real>, bidSize: Option<real>,
                                   askPrice: Option<real>, askSize: Option<real>)

  const NoQuotes := BestQuotes(None, None, None, None)

  /** Each side's price is set exactly when its size is. */
  predicate Paired(q: BestQuotes) {
    (q.bidPrice.None? <==> q.bidSize.None?) && (q.askPrice.None? <==> q.askSize.None?)
  }

  /** A side is offered when the message carries both its price and its size, non-empty. */
  predicate Offered(data: Fields, priceKey: string, sizeKey: string) {
    Truthy(data, priceKey) && Truthy(data, sizeKey)
  }

  /**
    What a message does to one side: nothing; both values replaced; the price replaced
    and then `Decimal` raising on the size; or `Decimal` raising on the price.
   */
  datatype SideUpdate = Kept | Replaced(price: real, size: real) | PriceOnly(price: real) | Unparsed {
    predicate Raises() {
      PriceOnly? || Unparsed?
    }
  }

  /** A side's kept price and size once its update has run, as far as it got. */
  function ApplySide(u: SideUpdate, price: Option<real>, size: Option<real>): (Option<real>, Option<real>) {
    match u
    case Kept => (price, size)
    case Replaced(p, s) => (Some(p), Some(s))
    case PriceOnly(p) => (Some(p), size)
    case Unparsed => (price, size)
  }

  function SideUpdateOf(codec: Codec, data: Fields, priceKey: string, sizeKey: string): (u: SideUpdate)
    ensures u.Kept? <==> !Offered(data, priceKey, sizeKey)
    ensures Offered(data, priceKey, sizeKey) ==>
      (u.Replaced? <==> codec.parseDecimal(data[priceKey]).Returned? && codec.parseDecimal(data[sizeKey]).Returned?)
    ensures u.Replaced? ==>
      codec.parseDecimal(data[priceKey]) == Returned(u.price) && codec.parseDecimal(data[sizeKey]) == Returned(u.size)
    ensures u.PriceOnly? ==>
      codec.parseDecimal(data[priceKey]) == Returned(u.price) && codec.parseDecimal(data[sizeKey]).Raised?
    ensures Offered(data, priceKey, sizeKey) && codec.parseDecimal(data[priceKey]).Returned? &&
            codec.parseDecimal(data[sizeKey]).Raised? ==>
      u == PriceOnly(codec.parseDecimal(data[priceKey]).value)
    ensures u.Unparsed? <==> Offered(data, priceKey, sizeKey) && codec.parseDecimal(data[priceKey]).Raised?
  {
    if !Offered(data, priceKey, sizeKey) then Kept
    else
      match codec.parseDecimal(data[priceKey])
      case Raised => Unparsed
      case Returned(price) =>
        match codec.parseDecimal(data[sizeKey])
        case Raised => PriceOnly(price)
        case Returned(size) => Replaced(price, size)
  }

  /** An offered side whose price or size `Decimal` cannot read raises the message's exception. */
  predicate Broken(codec: Codec, data: Fields, priceKey: string, sizeKey: string) {
    Offered(data, priceKey, sizeKey) &&
    !(codec.parseDecimal(data[priceKey]).Returned? && codec.parseDecimal(data[sizeKey]).Returned?)
  }

  /** The kept quotes after a message, and whether `Decimal` raised part-way. */
  datatype Refreshed = Refreshed(quotes: BestQuotes, raised: bool)

  /** The bid side, then the ask side, of a ticker record applied to the kept quotes. */
  function Refresh(codec: Codec, q: BestQuotes, data: Fields): (r: Refreshed)
    ensures r.raised <==> Broken(codec, data, "bid1Price", "bid1Size") || Broken(codec, data, "ask1Price", "ask1Size")
  {
    var bid := SideUpdateOf(codec, data, "bid1Price", "bid1Size");
    var (bidPrice, bidSize) := ApplySide(bid, q.bidPrice, q.bidSize);
    if bid.Raises() then Refreshed(q.(bidPrice := bidPrice, bidSize := bidSize), true)
    else
      var ask := SideUpdateOf(codec, data, "ask1Price", "ask1Size");
      var (askPrice, askSize) := ApplySide(ask, q.askPrice, q.askSize);
      Refreshed(BestQuotes(bidPrice, bidSize, askPrice, askSize), ask.Raises())
  }

  /**
    A side not offered keeps its values; an offered side that parses is replaced
    whole; neither side's update touches the other. A side that does not parse
    raises, and the ask side is not looked at when it was the bid side that raised.
   */
  lemma RefreshSticky(codec: Codec, q: BestQuotes, data: Fields)
    ensures Refresh(codec, q, data).raised <==> Broken(codec, data, "bid1Price", "bid1Size") || Broken(codec, data, "ask1Price", "ask1Size")
    ensures !Offered(data, "bid1Price", "bid1Size") ==>
      Refresh(codec, q, data).quotes.bidPrice == q.bidPrice && Refresh(codec, q, data).quotes.bidSize == q.bidSize
    ensures !Offered(data, "ask1Price", "ask1Size") || Broken(codec, data, "bid1Price", "bid1Size") ==>
      Refresh(codec, q, data).quotes.askPrice == q.askPrice && Refresh(codec, q, data).quotes.askSize == q.askSize
    ensures Offered(data, "bid1Price", "bid1Size") && !Broken(codec, data, "bid1Price", "bid1Size") ==>
      Refresh(codec, q, data).quotes.bidPrice == Some(codec.parseDecimal(data["bid1Price"]).value) &&
      Refresh(codec, q, data).quotes.bidSize == Some(codec.parseDecimal(data["bid1Size"]).value)
    ensures Offered(data, "ask1Price", "ask1Size") && !Refresh(codec, q, data).raised ==>
      Refresh(codec, q, data).quotes.askPrice == Some(codec.parseDecimal(data["ask1Price"]).value) &&
      Refresh(codec, q, data).quotes.askSize == Some(codec.parseDecimal(data["ask1Size"]).value)
  {
  }

  /** A message that raises on neither side keeps each side's price set exactly when its size is. */
  lemma RefreshKeepsPaired(codec: Codec, q: BestQuotes, data: Fields)
    requires Paired(q)
    ensures !Refresh(codec, q, data).raised ==> Paired(Refresh(codec, q, data).quotes)
  {
    var r := Refresh(codec, q, data);
    RefreshSticky(codec, q, data);
    if !r.raised {
      assert !Broken(codec, data, "bid1Price", "bid1Size") && !Broken(codec, data, "ask1Price", "ask1Size");
    }
  }

  // ---------------------------------------------------------------------------
  // Snapshots

  /** The levels of one side of a snapshot: one level when both values are kept, else none. */
  function Levels(price: Option<real>, size: Option<real>): seq<OrderBookLevel> {
    if price.Some? && size.Some? then [OrderBookLevel(price.value, size.value)] else []
  }

  /**
    The order book a ticker message produces from the kept quotes: the record's own
    symbol, falling back to the stream's; the message's `ts`, or 0.
   */
  function Snapshot(streamSymbol: string, q: BestQuotes, m: Message): (b: OrderBook)
    ensures b.symbol == (if "symbol" in m.data then m.data["symbol"] else streamSymbol)
    ensures b.timestamp == (if m.ts.Some? then m.ts.value else 0)
    ensures |b.bids| <= 1 && |b.asks| <= 1
    ensures b.bids != [] <==> q.bidPrice.Some? && q.bidSize.Some?
    ensures b.asks != [] <==> q.askPrice.Some? && q.askSize.Some?
    ensures b.bids != [] ==> b.bids[0] == OrderBookLevel(q.bidPrice.value, q.bidSize.value)
    ensures b.asks != [] ==> b.asks[0] == OrderBookLevel(q.askPrice.value, q.askSize.value)
  {
    OrderBook(Get(m.data, "symbol", streamSymbol),
              Levels(q.bidPrice, q.bidSize),
              Levels(q.askPrice, q.askSize),
              m.ts.GetOr(0))
  }

  /** The effect of one message, or of several: the kept quotes, the snapshots produced, whether one raised. */
  datatype Step = Step(quotes: BestQuotes, books: seq<OrderBook>, raised: bool)

  /** `_process_message` as a function of the kept quotes. */
  function Process(codec: Codec, symbol: string, q: BestQuotes, m: Message): (s: Step)
    ensures !IsTickerUpdate(m) ==> s == Step(q, [], false)
    ensures s.raised <==>
      IsTickerUpdate(m) && (Broken(codec, m.data, "bid1Price", "bid1Size") || Broken(codec, m.data, "ask1Price", "ask1Size"))
    ensures s.raised ==> s.books == []
    ensures IsTickerUpdate(m) ==> s.quotes == Refresh(codec, q, m.data).quotes
    ensures IsTickerUpdate(m) && !s.raised ==> s.books == [Snapshot(symbol, s.quotes, m)]
  {
    if !IsTickerUpdate(m) then Step(q, [], false)
    else
      var r := Refresh(codec, q, m.data);
      if r.raised then Step(r.quotes, [], true)
      else Step(r.quotes, [Snapshot(symbol, r.quotes, m)], false)
  }

  /**
    A stream of decoded messages handed one by one to `_process_message`, as `listen`
    does; the first exception ends the stream and the later messages are not read.
   */
  function Replay(codec: Codec, symbol: string, q: BestQuotes, ms: seq<Message>): (r: Step)
    ensures |r.books| <= TickerCount(ms)
    ensures ms == [] ==> r == Step(q, [], false)
  {
    if ms == [] then Step(q, [], false)
    else
      var prev := Replay(codec, symbol, q, ms[..|ms| - 1]);
      if prev.raised then prev
      else
        var s := Process(codec, symbol, prev.quotes, ms[|ms| - 1]);
        Step(s.quotes, prev.books + s.books, s.raised)
  }

  function TickerCount(ms: seq<Message>): nat {
    if ms == [] then 0
    else TickerCount(ms[..|ms| - 1]) + (if IsTickerUpdate(ms[|ms| - 1]) then 1 else 0)
  }

  /** One message that is not a ticker update leaves everything as it was and produces nothing. */
  lemma NonTickerIgnored(codec: Codec, symbol: string, q: BestQuotes, m: Message)
    requires !IsTickerUpdate(m)
    ensures Process(codec, symbol, q, m) == Step(q, [], false)
  {
  }

  /** Messages none of which is a ticker update change no quote and produce no snapshot. */
  lemma {:induction false} NonTickersIgnored(codec: Codec, symbol: string, q: BestQuotes, ms: seq<Message>)
    requires forall i :: 0 <= i < |ms| ==> !IsTickerUpdate(ms[i])
    ensures Replay(codec, symbol, q, ms) == Step(q, [], false)
  {
    if ms != [] {
      NonTickersIgnored(codec, symbol, q, ms[..|ms| - 1]);
    }
  }

  /** Starting from no quotes, or any paired quotes, a stream that never raised keeps each side paired. */
  lemma {:induction false} ReplayKeepsPaired(codec: Codec, symbol: string, q: BestQuotes, ms: seq<Message>)
    requires Paired(q)
    ensures !Replay(codec, symbol, q, ms).raised ==> Paired(Replay(codec, symbol, q, ms).quotes)
  {
    if ms != [] {
      var prev := Replay(codec, symbol, q, ms[..|ms| - 1]);
      ReplayKeepsPaired(codec, symbol, q, ms[..|ms| - 1]);
      if !prev.raised && IsTickerUpdate(ms[|ms| - 1]) {
        RefreshKeepsPaired(codec, prev.quotes, ms[|ms| - 1].data);
      }
    }
  }

  /** A stream that never raised produces exactly one snapshot per ticker update, even one with both sides empty. */
  lemma {:induction false} ReplaySnapshotCount(codec: Codec, symbol: string, q: BestQuotes, ms: seq<Message>)
    ensures !Replay(codec, symbol, q, ms).raised ==> |Replay(codec, symbol, q, ms).books| == TickerCount(ms)
  {
    if ms != [] {
      ReplaySnapshotCount(codec, symbol, q, ms[..|ms| - 1]);
    }
  }

  /**
    The last snapshot of a stream that never raised shows the kept quotes: one level per
    side that is set, none for a side that is not.
   */
  lemma {:induction false} ReplayLastSnapshot(codec: Codec, symbol: string, q: BestQuotes, ms: seq<Message>)
    ensures var r := Replay(codec, symbol, q, ms);
      !r.raised && r.books != [] ==>
        r.books[|r.books| - 1].bids == Levels(r.quotes.bidPrice, r.quotes.bidSize) &&
        r.books[|r.books| - 1].asks == Levels(r.quotes.askPrice, r.quotes.askSize)
  {
    if ms != [] {
      ReplayLastSnapshot(codec, symbol, q, ms[..|ms| - 1]);
    }
  }

  /**
    A quote on one side followed by a quote on the other: the second snapshot still
    carries the first side, which the second message did not mention.
   */
  lemma StickyBid(codec: Codec, symbol: string)
    requires codec.parseDecimal("100") == Returned(100.0) && codec.parseDecimal("1") == Returned(1.0)
    requires codec.parseDecimal("101.5") == Returned(101.5) && codec.parseDecimal("1.5") == Returned(1.5)
    ensures
      var m1 := Message(Some("tickers." + symbol), map["bid1Price" := "100", "bid1Size" := "1"], Some(1));
      var m2 := Message(Some("tickers." + symbol), map["ask1Price" := "101.5", "ask1Size" := "1.5"], Some(2));
      var r := Replay(codec, symbol, NoQuotes, [m1, m2]);
      !r.raised && |r.books| == 2 &&
      r.books[0] == OrderBook(symbol, [OrderBookLevel(100.0, 1.0)], [], 1) &&
      r.books[1] == OrderBook(symbol, [OrderBookLevel(100.0, 1.0)], [OrderBookLevel(101.5, 1.5)], 2)
  {
    var m1 := Message(Some("tickers." + symbol), map["bid1Price" := "100", "bid1Size" := "1"], Some(1));
    var m2 := Message(Some("tickers." + symbol), map["ask1Price" := "101.5", "ask1Size" := "1.5"], Some(2));
    assert [m1, m2][..1] == [m1] && [m1][..0] == [];
    assert "bid1Price" in m1.data && "ask1Price" !in m1.data;
    assert "ask1Price" in m2.data && "bid1Price" !in m2.data;
    var q1 := BestQuotes(Some(100.0), Some(1.0), None, None);
    assert Refresh(codec, NoQuotes, m1.data) == Refreshed(q1, false);
    assert Replay(codec, symbol, NoQuotes, [m1]) == Step(q1, [Snapshot(symbol, q1, m1)], false);
    var q2 := BestQuotes(Some(100.0), Some(1.0), Some(101.5), Some(1.5));
    assert Refresh(codec, q1, m2.data) == Refreshed(q2, false);
  }

  /** A ticker whose best bid is above its best ask is published as it is; nothing checks for a crossed book. */
  lemma CrossedBookPublished(codec: Codec, symbol: string)
    requires codec.parseDecimal("101") == Returned(101.0) && codec.parseDecimal("100") == Returned(100.0)
    requires codec.parseDecimal("1") == Returned(1.0)
    ensures
      var m := Message(Some("tickers." + symbol),
                       map["bid1Price" := "101", "bid1Size" := "1", "ask1Price" := "100", "ask1Size" := "1"], None);
      Process(codec, symbol, NoQuotes, m) ==
        Step(BestQuotes(Some(101.0), Some(1.0), Some(100.0), Some(1.0)),
             [OrderBook(symbol, [OrderBookLevel(101.0, 1.0)], [OrderBookLevel(100.0, 1.0)], 0)], false)
  {
    var m := Message(Some("tickers." + symbol),
                     map["bid1Price" := "101", "bid1Size" := "1", "ask1Price" := "100", "ask1Size" := "1"], None);
    assert "bid1Price" in m.data && m.data["bid1Price"] == "101" && m.data["ask1Price"] == "100";
    assert m.data["bid1Size"] == "1" && m.data["ask1Size"] == "1";
    assert Refresh(codec, NoQuotes, m.data) == Refreshed(BestQuotes(Some(101.0), Some(1.0), Some(100.0), Some(1.0)), false);
  }

  /** A ticker that offers neither side still produces a snapshot, with both sides empty when nothing was kept. */
  lemma EmptyBookPublished(codec: Codec, symbol: string, ts: int)
    ensures
      var m := Message(Some("tickers." + symbol), map["symbol" := symbol], Some(ts));
      Process(codec, symbol, NoQuotes, m) == Step(NoQuotes, [OrderBook(symbol, [], [], ts)], false)
  {
    var m := Message(Some("tickers." + symbol), map["symbol" := symbol], Some(ts));
    assert "symbol" in m.data && "bid1Price" !in m.data && "ask1Price" !in m.data;
  }

  // ---------------------------------------------------------------------------
  // The stream object

  /** A registered callback, known by its identity; calling it is recorded as a delivery. */
  datatype Callback = Callback(id: nat)

  datatype Delivery = Delivery(callback: Callback, book: OrderBook)

  /** The calls the registered callback (if any) receives for the given snapshots, one per snapshot. */
  function Delivered(callback: Option<Callback>, books: seq<OrderBook>): seq<Delivery> {
    if callback.None? || books == [] then []
    else Delivered(callback, books[..|books| - 1]) + [Delivery(callback.value, books[|books| - 1])]
  }

  /**
    The calls made for a run of snapshots: none without a callback; with one, one call
    per snapshot, in order, each to that callback with that snapshot.
   */
  lemma {:induction false} DeliveredCalls(callback: Option<Callback>, books: seq<OrderBook>)
    ensures callback.None? ==> Delivered(callback, books) == []
    ensures callback.Some? ==> |Delivered(callback, books)| == |books|
    ensures callback.Some? ==> forall i :: 0 <= i < |books| ==> Delivered(callback, books)[i] == Delivery(callback.value, books[i])
  {
    if callback.Some? && books != [] {
      DeliveredCalls(callback, books[..|books| - 1]);
    }
  }

  class Stream {
    const symbol: string
    const url: string
    const codec: Codec
    var bestBidPrice: Option<real>
    var bestBidSize: Option<real>
    var bestAskPrice: Option<real>
    var bestAskSize: Option<real>
    var orderbook: Option<OrderBook>
    var callback: Option<Callback>
    /** Every snapshot produced so far, and every call made to a callback, oldest first. */
    ghost var Snapshots: seq<OrderBook>
    ghost var Deliveries: seq<Delivery>

    function Quotes(): BestQuotes
      reads this
    {
      BestQuotes(bestBidPrice, bestBidSize, bestAskPrice, bestAskSize)
    }

    /** The stored order book is the last snapshot produced. */
    ghost predicate Valid()
      reads this
    {
      if Snapshots == [] then orderbook == None else orderbook == Some(Snapshots[|Snapshots| - 1])
    }

    constructor (codec: Codec, symbol: string := DefaultSymbol)
      ensures this.symbol == symbol && this.codec == codec && url == StreamUrl
      ensures Quotes() == NoQuotes && Paired(Quotes())
      ensures orderbook == None && callback == None
      ensures Snapshots == [] && Deliveries == []
      ensures Valid()
    {
      this.symbol := symbol;
      this.codec := codec;
      url := StreamUrl;
      orderbook := None;
      callback := None;
      bestBidPrice, bestBidSize, bestAskPrice, bestAskSize := None, None, None, None;
      Snapshots, Deliveries := [], [];
    }

    /** Registers `cb`, replacing any earlier callback. */
    method SetCallback(cb: Callback)
      modifies this`callback
      ensures callback == Some(cb)
    {
      callback := Some(cb);
    }

    /** `None` before the first snapshot, the last snapshot afterwards. */
    function LatestOrderbook(): (r: Option<OrderBook>)
      requires Valid()
      reads this
      ensures r.None? <==> Snapshots == []
      ensures r.Some? ==> r.value == Snapshots[|Snapshots| - 1]
    {
      orderbook
    }

    /**
      `if bid1Price and bid1Size:` and the two `Decimal` reads below it. `raised` tells
      that `Decimal` raised; a price read before the size raised stays assigned.
     */
    method UpdateBid(data: Fields) returns (raised: bool)
      modifies this`bestBidPrice, this`bestBidSize
      ensures var u := SideUpdateOf(codec, data, "bid1Price", "bid1Size");
        raised == u.Raises() && (bestBidPrice, bestBidSize) == ApplySide(u, old(bestBidPrice), old(bestBidSize))
    {
      raised := false;
      if Truthy(data, "bid1Price") && Truthy(data, "bid1Size") {
        var price := codec.parseDecimal(data["bid1Price"]);
        if price.Raised? {
          return true;
        }
        bestBidPrice := Some(price.value);
        var size := codec.parseDecimal(data["bid1Size"]);
        if size.Raised? {
          return true;
        }
        bestBidSize := Some(size.value);
      }
    }

    /** The same for the ask side. */
    method UpdateAsk(data: Fields) returns (raised: bool)
      modifies this`bestAskPrice, this`bestAskSize
      ensures var u := SideUpdateOf(codec, data, "ask1Price", "ask1Size");
        raised == u.Raises() && (bestAskPrice, bestAskSize) == ApplySide(u, old(bestAskPrice), old(bestAskSize))
    {
      raised := false;
      if Truthy(data, "ask1Price") && Truthy(data, "ask1Size") {
        var price := codec.parseDecimal(data["ask1Price"]);
        if price.Raised? {
          return true;
        }
        bestAskPrice := Some(price.value);
        var size := codec.parseDecimal(data["ask1Size"]);
        if size.Raised? {
          return true;
        }
        bestAskSize := Some(size.value);
      }
    }

    /** The snapshot of the kept quotes, stored and handed to the callback if one is set. */
    method Publish(m: Message)
      requires Valid()
      modifies this`orderbook, this`Snapshots, this`Deliveries
      ensures Valid()
      ensures orderbook == Some(Snapshot(symbol, Quotes(), m))
      ensures Snapshots == old(Snapshots) + [Snapshot(symbol, Quotes(), m)]
      ensures Deliveries == old(Deliveries) + Delivered(callback, [Snapshot(symbol, Quotes(), m)])
    {
      var timestamp := m.ts.GetOr(0);
      var bids: seq<OrderBookLevel> := [];
      var asks: seq<OrderBookLevel> := [];
      if bestBidPrice.Some? && bestBidSize.Some? {
        bids := bids + [OrderBookLevel(bestBidPrice.value, bestBidSize.value)];
      }
      if bestAskPrice.Some? && bestAskSize.Some? {
        asks := asks + [OrderBookLevel(bestAskPrice.value, bestAskSize.value)];
      }
      assert bids == Levels(bestBidPrice, bestBidSize) && asks == Levels(bestAskPrice, bestAskSize);
      var book := OrderBook(Get(m.data, "symbol", symbol), bids, asks, timestamp);
      SnapshotOfLevels(symbol, Quotes(), m, book);
      orderbook := Some(book);
      Snapshots := Snapshots + [book];
      assert [book][..0] == [];
      if callback.Some? {
        Deliveries := Deliveries + [Delivery(callback.value, book)];
      }
    }

    /**
      Handles one decoded message. `raised` tells that `Decimal` raised part-way, in
      which case a bid (or ask) price read before the exception stays assigned and no
      snapshot is made.
     */
    method ProcessMessage(m: Message) returns (raised: bool)
      requires Valid()
      modifies this
      ensures Valid()
      ensures var s := Process(codec, symbol, old(Quotes()), m);
        Quotes() == s.quotes && raised == s.raised &&
        Snapshots == old(Snapshots) + s.books &&
        Deliveries == old(Deliveries) + Delivered(callback, s.books)
      ensures callback == old(callback)
      ensures !IsTickerUpdate(m) ==> !raised && orderbook == old(orderbook)
      ensures IsTickerUpdate(m) && !raised ==> orderbook == Some(Snapshot(symbol, Quotes(), m))
      ensures Paired(old(Quotes())) && !raised ==> Paired(Quotes())
    {
      raised := false;
      if TickerTopicPrefix <= m.topic.GetOr("") {
        var tickerData := m.data;
        if tickerData != map[] {
          ghost var r := Refresh(codec, old(Quotes()), tickerData);
          raised := UpdateBid(tickerData);
          if raised {
            assert Quotes() == r.quotes && r.raised;
            assert Process(codec, symbol, old(Quotes()), m) == Step(Quotes(), [], true);
            assert Snapshots == old(Snapshots) && Deliveries == old(Deliveries) && orderbook == old(orderbook);
            return;
          }
          raised := UpdateAsk(tickerData);
          assert Quotes() == r.quotes && raised == r.raised;
          if raised {
            assert Process(codec, symbol, old(Quotes()), m) == Step(Quotes(), [], true);
            assert Snapshots == old(Snapshots) && Deliveries == old(Deliveries) && orderbook == old(orderbook);
            return;
          }
          assert Process(codec, symbol, old(Quotes()), m) == Step(Quotes(), [Snapshot(symbol, Quotes(), m)], false);
          Publish(m);
          if Paired(old(Quotes())) {
            RefreshKeepsPaired(codec, old(Quotes()), tickerData);
          }
        }
      }
    }
  }

  /** A book built from the kept quotes' levels, the record's symbol and the message's `ts` is the snapshot. */
  lemma SnapshotOfLevels(streamSymbol: string, q: BestQuotes, m: Message, book: OrderBook)
    requires book.symbol == Get(m.data, "symbol", streamSymbol) && book.timestamp == m.ts.GetOr(0)
    requires book.bids == Levels(q.bidPrice, q.bidSize) && book.asks == Levels(q.askPrice, q.askSize)
    ensures book == Snapshot(streamSymbol, q, m)
  {
  }

  // ---------------------------------------------------------------------------
  // The log line of `on_orderbook_update`

  const NotAvailable := "N/A"

  function LogFields(codec: Codec, b: OrderBook): seq<string> {
    [IntToString(b.timestamp),
     b.symbol,
     if b.bids != [] then codec.formatDecimal(b.bids[0].size) else NotAvailable,
     if b.bids != [] then codec.formatDecimal(b.bids[0].price) else NotAvailable,
     if b.asks != [] then codec.formatDecimal(b.asks[0].price) else NotAvailable,
     if b.asks != [] then codec.formatDecimal(b.asks[0].size) else NotAvailable]
  }

  /** `timestamp|symbol|bidSize|bidPrice|askPrice|askSize` of the best levels. */
  function LogLine(codec: Codec, b: OrderBook): (line: string)
    ensures var head := IntToString(b.timestamp) + "|" + b.symbol + "|";
      |head| < |line| && line[..|head|] == head
  {
    var fields := LogFields(codec, b);
    var rest := Join(fields[2..], '|');
    assert fields[1..][1..] == fields[2..];
    assert Join(fields, '|') == fields[0] + "|" + (fields[1] + "|" + rest);
    assert |rest| > 0;
    Join(fields, '|')
  }

  /**
    Cutting a log line at its bars gives back six fields: the timestamp, the symbol,
    the best bid's size and price and the best ask's price and size, with "N/A" in
    both fields of an empty side.
   */
  lemma LogLineFields(codec: Codec, b: OrderBook)
    requires '|' !in b.symbol
    requires forall x :: '|' !in codec.formatDecimal(x)
    ensures var fields := Split(LogLine(codec, b), '|');
      |fields| == 6 && fields[0] == IntToString(b.timestamp) && fields[1] == b.symbol &&
      (b.bids == [] ==> fields[2] == NotAvailable && fields[3] == NotAvailable) &&
      (b.bids != [] ==> fields[2] == codec.formatDecimal(b.bids[0].size) &&
                        fields[3] == codec.formatDecimal(b.bids[0].price)) &&
      (b.asks == [] ==> fields[4] == NotAvailable && fields[5] == NotAvailable) &&
      (b.asks != [] ==> fields[4] == codec.formatDecimal(b.asks[0].price) &&
                        fields[5] == codec.formatDecimal(b.asks[0].size))
  {
    var fields := LogFields(codec, b);
    var stamp := IntToString(b.timestamp);
    assert forall i :: 0 <= i < |stamp| ==> stamp[i] != '|';
    assert forall i :: 0 <= i < |fields| ==> '|' !in fields[i];
    SplitJoin(fields, '|');
  }
}
