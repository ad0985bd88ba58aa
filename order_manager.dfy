/**
  The order manager: the parameter dictionaries of the order calls, the `Order` built
  from a successful placement, the cancel flag and the status look-up. The exchange
  is a parameter that answers a request with the decoded reply; `now` is the clock
  reading that becomes both times of a placed order.
 */
module OrderManager {
  import opened Common
  import opened TradingTypes
  import opened Rest
  import opened Signing
  import Portfolio

  const CreateEndpoint := "/v5/order/create"
  const CancelEndpoint := "/v5/order/cancel"
  const StatusEndpoint := "/v5/order/realtime"

  // ---------------------------------------------------------------------------
  // Requests

  /** The body of `place_market_order`: no price and no time in force. */
  function MarketOrderRequest(codec: Codec, symbol: string, side: OrderSide, quantity: real,
                              reduceOnly: bool := false): (r: Request)
    ensures r.verb == HttpPost && r.endpoint == CreateEndpoint
    ensures Keys(r.params) == ["category", "symbol", "side", "orderType", "qty", "reduceOnly"]
    ensures Lookup(r.params, "category") == Some(Text(Portfolio.Category))
    ensures Lookup(r.params, "symbol") == Some(Text(symbol))
    ensures Lookup(r.params, "side") == Some(Text(side.Value()))
    ensures Lookup(r.params, "orderType") == Some(Text(Market.Value()))
    ensures Lookup(r.params, "qty") == Some(Text(codec.formatDecimal(quantity)))
    ensures Lookup(r.params, "reduceOnly") == Some(Flag(reduceOnly))
    ensures Lookup(r.params, "price") == None && Lookup(r.params, "timeInForce") == None
  {
    var ps: Params := [("category", Text(Portfolio.Category)),
                       ("symbol", Text(symbol)),
                       ("side", Text(side.Value())),
                       ("orderType", Text(Market.Value())),
                       ("qty", Text(codec.formatDecimal(quantity))),
                       ("reduceOnly", Flag(reduceOnly))];
    DistinctLengths(ps, [8, 6, 4, 9, 3, 10]);
    LookupDistinct(ps, 0);
    LookupDistinct(ps, 1);
    LookupDistinct(ps, 2);
    LookupDistinct(ps, 3);
    LookupDistinct(ps, 4);
    LookupDistinct(ps, 5);
    LookupAbsent(ps, "price");
    LookupAbsent(ps, "timeInForce");
    Request(HttpPost, CreateEndpoint, ps)
  }

  /** The body of `place_limit_order`: the market body plus the price and the time in force. */
  function LimitOrderRequest(codec: Codec, symbol: string, side: OrderSide, quantity: real, price: real,
                             timeInForce: string := DefaultTimeInForce, reduceOnly: bool := false): (r: Request)
    ensures r.verb == HttpPost && r.endpoint == CreateEndpoint
    ensures Keys(r.params) == ["category", "symbol", "side", "orderType", "qty", "price", "timeInForce", "reduceOnly"]
    ensures Lookup(r.params, "category") == Some(Text(Portfolio.Category))
    ensures Lookup(r.params, "symbol") == Some(Text(symbol))
    ensures Lookup(r.params, "side") == Some(Text(side.Value()))
    ensures Lookup(r.params, "orderType") == Some(Text(Limit.Value()))
    ensures Lookup(r.params, "qty") == Some(Text(codec.formatDecimal(quantity)))
    ensures Lookup(r.params, "price") == Some(Text(codec.formatDecimal(price)))
    ensures Lookup(r.params, "timeInForce") == Some(Text(timeInForce))
    ensures Lookup(r.params, "reduceOnly") == Some(Flag(reduceOnly))
  {
    var ps: Params := [("category", Text(Portfolio.Category)),
                       ("symbol", Text(symbol)),
                       ("side", Text(side.Value())),
                       ("orderType", Text(Limit.Value())),
                       ("qty", Text(codec.formatDecimal(quantity))),
                       ("price", Text(codec.formatDecimal(price))),
                       ("timeInForce", Text(timeInForce)),
                       ("reduceOnly", Flag(reduceOnly))];
    DistinctLengths(ps, [8, 6, 4, 9, 3, 5, 11, 10]);
    LookupDistinct(ps, 0);
    LookupDistinct(ps, 1);
    LookupDistinct(ps, 2);
    LookupDistinct(ps, 3);
    LookupDistinct(ps, 4);
    LookupDistinct(ps, 5);
    LookupDistinct(ps, 6);
    LookupDistinct(ps, 7);
    Request(HttpPost, CreateEndpoint, ps)
  }

  /** The body shared by `cancel_order` and `get_order_status`. */
  function OrderParams(symbol: string, orderId: string): (ps: Params)
    ensures Keys(ps) == ["category", "symbol", "orderId"]
    ensures Lookup(ps, "category") == Some(Text(Portfolio.Category))
    ensures Lookup(ps, "symbol") == Some(Text(symbol))
    ensures Lookup(ps, "orderId") == Some(Text(orderId))
  {
    var ps: Params := [("category", Text(Portfolio.Category)), ("symbol", Text(symbol)), ("orderId", Text(orderId))];
    assert DistinctKeys(ps);
    LookupDistinct(ps, 0);
    LookupDistinct(ps, 1);
    LookupDistinct(ps, 2);
    ps
  }

  function CancelRequest(symbol: string, orderId: string): Request {
    Request(HttpPost, CancelEndpoint, OrderParams(symbol, orderId))
  }

  function StatusRequest(symbol: string, orderId: string): Request {
    Request(HttpGet, StatusEndpoint, OrderParams(symbol, orderId))
  }

  // ---------------------------------------------------------------------------
  // Replies

  /**
    `place_market_order`: an order exactly when the exchange answers with retCode 0,
    carrying the exchange's order id and what was asked for; new, unfilled, no
    price and no average price.
   */
  function PlaceMarketOrder(codec: Codec, exchange: Request -> Reply<Fields>, now: int,
                            symbol: string, side: OrderSide, quantity: real, reduceOnly: bool := false): (r: Option<Order>)
    ensures var reply := exchange(MarketOrderRequest(codec, symbol, side, quantity, reduceOnly));
      (r.Some? <==> Succeeded(reply)) &&
      (r.Some? ==>
        r.value.orderId == Get(reply.result, "orderId", "") &&
        r.value.symbol == symbol && r.value.side == side && r.value.orderType == Market &&
        r.value.quantity == quantity && r.value.price == None &&
        r.value.status == New && r.value.filledQuantity == 0.0 && r.value.averagePrice == None &&
        r.value.createdTime == now && r.value.updatedTime == now &&
        r.value.timeInForce == DefaultTimeInForce)
  {
    var reply := exchange(MarketOrderRequest(codec, symbol, side, quantity, reduceOnly));
    if Succeeded(reply) then
      Some(Order(Get(reply.result, "orderId", ""), symbol, side, Market, quantity, None, New, 0.0, None, now, now))
    else None
  }

  /** `place_limit_order`: as a market order, but with the given price and time in force. */
  function PlaceLimitOrder(codec: Codec, exchange: Request -> Reply<Fields>, now: int,
                           symbol: string, side: OrderSide, quantity: real, price: real,
                           timeInForce: string := DefaultTimeInForce, reduceOnly: bool := false): (r: Option<Order>)
    ensures var reply := exchange(LimitOrderRequest(codec, symbol, side, quantity, price, timeInForce, reduceOnly));
      (r.Some? <==> Succeeded(reply)) &&
      (r.Some? ==>
        r.value.orderId == Get(reply.result, "orderId", "") &&
        r.value.symbol == symbol && r.value.side == side && r.value.orderType == Limit &&
        r.value.quantity == quantity && r.value.price == Some(price) &&
        r.value.status == New && r.value.filledQuantity == 0.0 && r.value.averagePrice == None &&
        r.value.createdTime == now && r.value.updatedTime == now &&
        r.value.timeInForce == timeInForce)
  {
    var reply := exchange(LimitOrderRequest(codec, symbol, side, quantity, price, timeInForce, reduceOnly));
    if Succeeded(reply) then
      Some(Order(Get(reply.result, "orderId", ""), symbol, side, Limit, quantity, Some(price), New, 0.0, None,
                 now, now, timeInForce))
    else None
  }

  /** `cancel_order`: true exactly when the exchange answers with retCode 0; a failed request is false. */
  function CancelOrder(exchange: Request -> Reply<Fields>, symbol: string, orderId: string): (r: bool)
    ensures r <==> Succeeded(exchange(CancelRequest(symbol, orderId)))
    ensures exchange(CancelRequest(symbol, orderId)).RequestFailed? ==> !r
  {
    Succeeded(exchange(CancelRequest(symbol, orderId)))
  }

  /**
    `get_order_status`: the first record of the listed orders, parsed, when the
    exchange answers with retCode 0 and lists any; otherwise, or when that record
    does not parse, nothing.
   */
  function GetOrderStatus(codec: Codec, exchange: Request -> Reply<seq<Fields>>,
                          symbol: string, orderId: string): (r: Option<Order>)
    ensures var reply := exchange(StatusRequest(symbol, orderId));
      (r.Some? <==> Succeeded(reply) && |reply.result| > 0 && Portfolio.ParseOrder(codec, reply.result[0]).Returned?) &&
      (r.Some? ==> Portfolio.ParseOrder(codec, reply.result[0]) == Returned(r.value))
  {
    var reply := exchange(StatusRequest(symbol, orderId));
    if Succeeded(reply) && |reply.result| > 0 then
      match Portfolio.ParseOrder(codec, reply.result[0])
      case Returned(o) => Some(o)
      case Raised => None
    else None
  }

  // ---------------------------------------------------------------------------
  // A placed order read back

  /** `Decimal(str(d)) == d` */
  ghost predicate DecimalTextRoundTrips(codec: Codec) {
    forall x :: codec.parseDecimal(codec.formatDecimal(x)) == Returned(x)
  }

  /** The record carries the text the request sent under `key`. */
  predicate Echoes(d: Fields, request: Request, key: string) {
    key in d && Lookup(request.params, key) == Some(Text(d[key]))
  }

  /**
    A record in which the exchange reports an order it accepted from `request`: the
    request's own texts, the order id it gave, status "New", nothing filled, no
    average price, and two times `int` can read.
   */
  predicate ReportsAccepted(codec: Codec, d: Fields, request: Request, orderId: string) {
    Echoes(d, request, "symbol") && Echoes(d, request, "side") && Echoes(d, request, "orderType") &&
    Echoes(d, request, "qty") && Echoes(d, request, "price") && Echoes(d, request, "timeInForce") &&
    Get(d, "orderId", "") == orderId && Get(d, "orderStatus", "") == New.Value() &&
    Get(d, "cumExecQty", "0") == "0" && !Truthy(d, "avgPrice") &&
    codec.parseInt(Get(d, "createdTime", "0")).Returned? && codec.parseInt(Get(d, "updatedTime", "0")).Returned?
  }

  /** An order with both its times cleared, for comparing orders whose clocks differ. */
  function Untimed(o: Order): Order {
    o.(createdTime := 0, updatedTime := 0)
  }

  /**
    The order `place_limit_order` returns is, apart from its two times, the order
    `get_order_status` parses from the exchange's record of it, when that record
    repeats the request's texts. The times are left out of the comparison: the
    placement reads the local clock, the record carries the exchange's.
   */
  lemma PlacedLimitOrderReadsBack(codec: Codec, exchange: Request -> Reply<Fields>, now: int, symbol: string,
                                  side: OrderSide, quantity: real, price: real, timeInForce: string, reduceOnly: bool,
                                  d: Fields)
    requires PythonDecimals(codec) && DecimalTextRoundTrips(codec)
    requires PlaceLimitOrder(codec, exchange, now, symbol, side, quantity, price, timeInForce, reduceOnly).Some?
    requires ReportsAccepted(codec, d, LimitOrderRequest(codec, symbol, side, quantity, price, timeInForce, reduceOnly),
                             PlaceLimitOrder(codec, exchange, now, symbol, side, quantity, price, timeInForce, reduceOnly).value.orderId)
    ensures Portfolio.ParseOrder(codec, d).Returned?
    ensures Untimed(Portfolio.ParseOrder(codec, d).value) ==
            Untimed(PlaceLimitOrder(codec, exchange, now, symbol, side, quantity, price, timeInForce, reduceOnly).value)
  {
    var o := PlaceLimitOrder(codec, exchange, now, symbol, side, quantity, price, timeInForce, reduceOnly).value;
    assert d["qty"] == codec.formatDecimal(quantity) && d["price"] == codec.formatDecimal(price);
    assert codec.parseDecimal(d["qty"]) == Returned(quantity);
    assert codec.parseDecimal(d["price"]) == Returned(price);
    assert Portfolio.OptionalDecimal(codec, d, "price") == Returned(Some(price));
    assert Portfolio.OptionalDecimal(codec, d, "avgPrice") == Returned(None);
    assert OrderSide.FromValue(side.Value()) == Returned(side);
    assert OrderType.FromValue(Limit.Value()) == Returned(Limit);
    assert OrderStatus.FromValue(New.Value()) == Returned(New);
  }

  // ---------------------------------------------------------------------------
  // Sending, as written

  /** `json.dumps(params) if params else ""`, `dumps` standing for `json.dumps`. */
  function ParamsText(dumps: Params -> string, ps: Params): string {
    if ps == [] then "" else dumps(ps)
  }

  /**
    `_make_request` of the order manager: the headers are built first, and building
    them raises, so the request never reaches the exchange.
   */
  function SendAsWritten<T>(exchange: Request -> Reply<T>, sign: string -> string, apiKey: string, now: int,
                            dumps: Params -> string, request: Request): (r: Reply<T>)
    ensures r == RequestFailed
  {
    match HeadersAsWritten(sign, apiKey, now, ParamsText(dumps, request.params))
    case Raised => RequestFailed
    case Returned(_) => exchange(request)
  }

  /** Whatever the exchange would answer, every order call of the order manager as written fails. */
  lemma EveryOrderCallFailsAsWritten(codec: Codec, create: Request -> Reply<Fields>, status: Request -> Reply<seq<Fields>>,
                                     sign: string -> string, apiKey: string, now: int, dumps: Params -> string,
                                     symbol: string, side: OrderSide, quantity: real, price: real, orderId: string)
    ensures var send := (req: Request) => SendAsWritten(create, sign, apiKey, now, dumps, req);
      var query := (req: Request) => SendAsWritten(status, sign, apiKey, now, dumps, req);
      PlaceMarketOrder(codec, send, now, symbol, side, quantity) == None &&
      PlaceLimitOrder(codec, send, now, symbol, side, quantity, price) == None &&
      !CancelOrder(send, symbol, orderId) &&
      GetOrderStatus(codec, query, symbol, orderId) == None
  {
  }
}
