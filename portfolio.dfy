/**
  The portfolio manager's reading of the exchange: the GET parameters it sends,
  the text it signs for a GET, the record parsers for positions, orders and coin
  balances, and the list builders of `get_positions`, `get_orders`,
  `get_order_history` and `get_account_info`. Each builder catches every
  exception, so one record that does not parse empties the whole list.
 */
module Portfolio {
  import opened Common
  import opened TradingTypes
  import opened Rest

  const Category := "linear"
  const DefaultLimit := 50
  const PositionListEndpoint := "/v5/position/list"
  const OpenOrdersEndpoint := "/v5/order/realtime"
  const OrderHistoryEndpoint := "/v5/order/history"
  const WalletBalanceEndpoint := "/v5/account/wallet-balance"

  // ---------------------------------------------------------------------------
  // The signed parameter text of a GET

  /** The `k=v` assignments of a parameter dictionary, in insertion order. */
  function Assignments(ps: Params): seq<string> {
    if ps == [] then [] else [ps[0].0 + "=" + Render(ps[0].1)] + Assignments(ps[1..])
  }

  /** The parameter text `_make_request` signs for a GET: the assignments joined by "&", or "" for no parameters. */
  function QueryString(ps: Params): (text: string)
    ensures text == "" <==> ps == []
    ensures ps != [] ==> |ps[0].0| < |text| && text[..|ps[0].0| + 1] == ps[0].0 + "="
  {
    if ps == [] then "" else Join(Assignments(ps), '&')
  }

  /** Reading a query string back into its (key, value-text) pairs: the inverse `QueryString` must have. */
  function ParseQuery(s: string): seq<(string, string)> {
    if s == "" then [] else SplitEach(Split(s, '&'))
  }

  function SplitEach(pieces: seq<string>): seq<(string, string)> {
    if pieces == [] then [] else [SplitAtFirst(pieces[0], '=')] + SplitEach(pieces[1..])
  }

  function RenderedPairs(ps: Params): seq<(string, string)> {
    if ps == [] then [] else [(ps[0].0, Render(ps[0].1))] + RenderedPairs(ps[1..])
  }

  /** No key holds '=' or '&' and no value text holds '&'. */
  predicate PlainParams(ps: Params) {
    forall i :: 0 <= i < |ps| ==> '=' !in ps[i].0 && '&' !in ps[i].0 && '&' !in Render(ps[i].1)
  }

  lemma {:induction false} AssignmentsShape(ps: Params)
    requires PlainParams(ps)
    ensures |Assignments(ps)| == |ps|
    ensures forall i :: 0 <= i < |ps| ==> '&' !in Assignments(ps)[i]
    ensures forall i :: 0 <= i < |ps| ==> Assignments(ps)[i] == ps[i].0 + "=" + Render(ps[i].1)
  {
    if ps != [] {
      AssignmentsShape(ps[1..]);
      var a := Assignments(ps);
      assert a == [ps[0].0 + "=" + Render(ps[0].1)] + Assignments(ps[1..]);
      forall i | 0 <= i < |ps|
        ensures '&' !in a[i] && a[i] == ps[i].0 + "=" + Render(ps[i].1)
      {
        if i > 0 {
          assert a[i] == Assignments(ps[1..])[i - 1];
        }
      }
    }
  }

  lemma {:induction false} SplitEachAssignments(ps: Params)
    requires PlainParams(ps)
    ensures SplitEach(Assignments(ps)) == RenderedPairs(ps)
  {
    if ps != [] {
      SplitAtFirstSeparator(ps[0].0, '=', Render(ps[0].1));
      assert ps[0].0 + "=" + Render(ps[0].1) == ps[0].0 + ['='] + Render(ps[0].1);
      SplitEachAssignments(ps[1..]);
      var a := Assignments(ps);
      assert a[0] == ps[0].0 + "=" + Render(ps[0].1) && a[1..] == Assignments(ps[1..]);
    }
  }

  /** Every signed GET text reads back as the parameters it was built from, in insertion order. */
  lemma {:induction false} QueryStringRoundTrip(ps: Params)
    requires PlainParams(ps)
    ensures ParseQuery(QueryString(ps)) == RenderedPairs(ps)
    ensures ps == [] <==> QueryString(ps) == ""
  {
    if ps != [] {
      AssignmentsShape(ps);
      var a := Assignments(ps);
      SplitJoin(a, '&');
      SplitEachAssignments(ps);
      assert '=' in a[0];
      assert Join(a, '&') != "" by {
        if |a| > 1 {
          assert Join(a, '&') == a[0] + ['&'] + Join(a[1..], '&');
        }
      }
    }
  }

  // ---------------------------------------------------------------------------
  // The GET requests

  /** The "symbol" parameter when the argument is truthy, else nothing. */
  function OptionalParam(key: string, value: Option<string>): Params {
    if Given(value) then [(key, Text(value.value))] else []
  }

  function PositionsRequest(symbol: Option<string>): (r: Request)
    ensures r.verb == HttpGet && r.endpoint == PositionListEndpoint
    ensures Lookup(r.params, "category") == Some(Text(Category))
    ensures Lookup(r.params, "symbol") == if Given(symbol) then Some(Text(symbol.value)) else None
    ensures KeySet(r.params) == {"category"} + (if Given(symbol) then {"symbol"} else {})
  {
    var base: Params := [("category", Text(Category))];
    var extra := OptionalParam("symbol", symbol);
    LookupAppend(base, extra, "category");
    LookupAppend(base, extra, "symbol");
    KeySetAppend(base, extra);
    Request(HttpGet, PositionListEndpoint, base + extra)
  }

  /** The first two parameters of the order queries, and the keys they do not hold. */
  lemma OrderQueryBase(limit: int)
    ensures var base: Params := [("category", Text(Category)), ("limit", Number(limit))];
      Lookup(base, "category") == Some(Text(Category)) && Lookup(base, "limit") == Some(Number(limit)) &&
      Lookup(base, "symbol") == None && Lookup(base, "orderStatus") == None &&
      KeySet(base) == {"category", "limit"}
  {
    var base: Params := [("category", Text(Category)), ("limit", Number(limit))];
    assert base[1..] == [base[1]] && base[1..][1..] == [];
    assert "category" != "symbol" && "limit" != "symbol" && "category" != "orderStatus" && "limit" != "orderStatus";
    assert Lookup(base[1..], "symbol") == None && Lookup(base[1..], "orderStatus") == None;
    assert KeySet(base[1..][1..]) == {};
    assert KeySet(base[1..]) == {"limit"};
  }

  function OrdersRequest(symbol: Option<string>, orderStatus: Option<string>, limit: int := DefaultLimit): (r: Request)
    ensures r.verb == HttpGet && r.endpoint == OpenOrdersEndpoint
    ensures Lookup(r.params, "category") == Some(Text(Category))
    ensures Lookup(r.params, "limit") == Some(Number(limit))
    ensures Lookup(r.params, "symbol") == if Given(symbol) then Some(Text(symbol.value)) else None
    ensures Lookup(r.params, "orderStatus") == if Given(orderStatus) then Some(Text(orderStatus.value)) else None
    ensures KeySet(r.params) == {"category", "limit"} + (if Given(symbol) then {"symbol"} else {})
                                + (if Given(orderStatus) then {"orderStatus"} else {})
  {
    var base: Params := [("category", Text(Category)), ("limit", Number(limit))];
    var bySymbol := OptionalParam("symbol", symbol);
    var byStatus := OptionalParam("orderStatus", orderStatus);
    OrderQueryBase(limit);
    LookupAppend(base, bySymbol, "category");
    LookupAppend(base, bySymbol, "limit");
    LookupAppend(base, bySymbol, "symbol");
    LookupAppend(base, bySymbol, "orderStatus");
    LookupAppend(base + bySymbol, byStatus, "category");
    LookupAppend(base + bySymbol, byStatus, "limit");
    LookupAppend(base + bySymbol, byStatus, "symbol");
    LookupAppend(base + bySymbol, byStatus, "orderStatus");
    KeySetAppend(base, bySymbol);
    KeySetAppend(base + bySymbol, byStatus);
    Request(HttpGet, OpenOrdersEndpoint, base + bySymbol + byStatus)
  }

  function OrderHistoryRequest(symbol: Option<string>, limit: int := DefaultLimit): (r: Request)
    ensures r.verb == HttpGet && r.endpoint == OrderHistoryEndpoint
    ensures Lookup(r.params, "category") == Some(Text(Category))
    ensures Lookup(r.params, "limit") == Some(Number(limit))
    ensures Lookup(r.params, "symbol") == if Given(symbol) then Some(Text(symbol.value)) else None
    ensures KeySet(r.params) == {"category", "limit"} + (if Given(symbol) then {"symbol"} else {})
  {
    var base: Params := [("category", Text(Category)), ("limit", Number(limit))];
    var bySymbol := OptionalParam("symbol", symbol);
    OrderQueryBase(limit);
    LookupAppend(base, bySymbol, "category");
    LookupAppend(base, bySymbol, "limit");
    LookupAppend(base, bySymbol, "symbol");
    KeySetAppend(base, bySymbol);
    Request(HttpGet, OrderHistoryEndpoint, base + bySymbol)
  }

  const WalletRequest := Request(HttpGet, WalletBalanceEndpoint, [("accountType", Text("UNIFIED"))])

  // ---------------------------------------------------------------------------
  // Record parsers

  /** `Decimal(d.get(key, default))` returned `v`. */
  predicate DecodesDecimal(codec: Codec, d: Fields, key: string, default: string, v: real) {
    codec.parseDecimal(Get(d, key, default)) == Returned(v)
  }

  /** `v` is None exactly when `key` is missing or empty, and otherwise the decimal its text spells. */
  predicate DecodesOptional(codec: Codec, d: Fields, key: string, v: Option<real>) {
    (v.None? <==> !Truthy(d, key)) &&
    (v.Some? ==> Truthy(d, key) && codec.parseDecimal(d[key]) == Returned(v.value))
  }

  /** `Decimal(d.get(key, "0")) if d.get(key) else None` */
  function OptionalDecimal(codec: Codec, d: Fields, key: string): (r: Outcome<Option<real>>)
    ensures r.Raised? <==> Truthy(d, key) && codec.parseDecimal(d[key]).Raised?
    ensures r.Returned? ==> DecodesOptional(codec, d, key, r.value)
  {
    if Truthy(d, key) then
      match codec.parseDecimal(d[key])
      case Returned(x) => Returned(Some(x))
      case Raised => Raised
    else Returned(None)
  }

  /** The `Position` a record parses to: a zero size forces `Flat`, whatever the side text says. */
  function ParsePosition(codec: Codec, d: Fields): (r: Outcome<Position>)
    ensures r.Returned? <==>
      codec.parseDecimal(Get(d, "size", "0")).Returned? &&
      (codec.parseDecimal(Get(d, "size", "0")).value != 0.0 ==> PositionSide.FromValue(Get(d, "side", "None")).Returned?) &&
      OptionalDecimal(codec, d, "avgPrice").Returned? && OptionalDecimal(codec, d, "markPrice").Returned? &&
      OptionalDecimal(codec, d, "unrealisedPnl").Returned? && OptionalDecimal(codec, d, "cumRealisedPnl").Returned? &&
      OptionalDecimal(codec, d, "leverage").Returned? && OptionalDecimal(codec, d, "positionIM").Returned?
    ensures r.Returned? ==>
      var p := r.value;
      DecodesDecimal(codec, d, "size", "0", p.size) &&
      p.symbol == Get(d, "symbol", "") &&
      (p.size == 0.0 ==> p.side == Flat) &&
      (p.size != 0.0 ==> p.side.Value() == Get(d, "side", "None")) &&
      DecodesOptional(codec, d, "avgPrice", p.entryPrice) &&
      DecodesOptional(codec, d, "markPrice", p.markPrice) &&
      DecodesOptional(codec, d, "unrealisedPnl", p.unrealizedPnl) &&
      DecodesOptional(codec, d, "cumRealisedPnl", p.realizedPnl) &&
      DecodesOptional(codec, d, "leverage", p.leverage) &&
      DecodesOptional(codec, d, "positionIM", p.margin)
  {
    match codec.parseDecimal(Get(d, "size", "0"))
    case Raised => Raised
    case Returned(size) =>
      var side := if size == 0.0 then Returned(Flat) else PositionSide.FromValue(Get(d, "side", "None"));
      var entry := OptionalDecimal(codec, d, "avgPrice");
      var mark := OptionalDecimal(codec, d, "markPrice");
      var unrealized := OptionalDecimal(codec, d, "unrealisedPnl");
      var realized := OptionalDecimal(codec, d, "cumRealisedPnl");
      var leverage := OptionalDecimal(codec, d, "leverage");
      var margin := OptionalDecimal(codec, d, "positionIM");
      if side.Raised? || entry.Raised? || mark.Raised? || unrealized.Raised? || realized.Raised?
         || leverage.Raised? || margin.Raised? then
        Raised
      else
        Returned(Position(Get(d, "symbol", ""), side.value, size, entry.value, mark.value,
                          unrealized.value, realized.value, leverage.value, margin.value))
  }

  /** The `Order` a record parses to; any side, type or status text outside its enumeration raises. */
  function ParseOrder(codec: Codec, d: Fields): (r: Outcome<Order>)
    ensures r.Returned? <==>
      OrderSide.FromValue(Get(d, "side", "")).Returned? &&
      OrderType.FromValue(Get(d, "orderType", "")).Returned? &&
      OrderStatus.FromValue(Get(d, "orderStatus", "")).Returned? &&
      codec.parseDecimal(Get(d, "qty", "0")).Returned? &&
      codec.parseDecimal(Get(d, "cumExecQty", "0")).Returned? &&
      OptionalDecimal(codec, d, "price").Returned? &&
      OptionalDecimal(codec, d, "avgPrice").Returned? &&
      codec.parseInt(Get(d, "createdTime", "0")).Returned? &&
      codec.parseInt(Get(d, "updatedTime", "0")).Returned?
    ensures r.Returned? ==>
      var o := r.value;
      o.orderId == Get(d, "orderId", "") &&
      o.symbol == Get(d, "symbol", "") &&
      o.side.Value() == Get(d, "side", "") &&
      o.orderType.Value() == Get(d, "orderType", "") &&
      o.status.Value() == Get(d, "orderStatus", "") &&
      DecodesDecimal(codec, d, "qty", "0", o.quantity) &&
      DecodesOptional(codec, d, "price", o.price) &&
      DecodesDecimal(codec, d, "cumExecQty", "0", o.filledQuantity) &&
      DecodesOptional(codec, d, "avgPrice", o.averagePrice) &&
      codec.parseInt(Get(d, "createdTime", "0")) == Returned(o.createdTime) &&
      codec.parseInt(Get(d, "updatedTime", "0")) == Returned(o.updatedTime) &&
      o.timeInForce == Get(d, "timeInForce", DefaultTimeInForce)
  {
    var side := OrderSide.FromValue(Get(d, "side", ""));
    var kind := OrderType.FromValue(Get(d, "orderType", ""));
    var quantity := codec.parseDecimal(Get(d, "qty", "0"));
    var price := OptionalDecimal(codec, d, "price");
    var status := OrderStatus.FromValue(Get(d, "orderStatus", ""));
    var filled := codec.parseDecimal(Get(d, "cumExecQty", "0"));
    var average := OptionalDecimal(codec, d, "avgPrice");
    var created := codec.parseInt(Get(d, "createdTime", "0"));
    var updated := codec.parseInt(Get(d, "updatedTime", "0"));
    if side.Raised? || kind.Raised? || quantity.Raised? || price.Raised? || status.Raised?
       || filled.Raised? || average.Raised? || created.Raised? || updated.Raised? then
      Raised
    else
      Returned(Order(Get(d, "orderId", ""), Get(d, "symbol", ""), side.value, kind.value, quantity.value,
                     price.value, status.value, filled.value, average.value, created.value, updated.value,
                     Get(d, "timeInForce", DefaultTimeInForce)))
  }

  /** The `Balance` of one coin record; a missing amount counts as "0", an empty one raises. */
  function ParseBalance(codec: Codec, d: Fields): (r: Outcome<Balance>)
    ensures r.Returned? <==>
      codec.parseDecimal(Get(d, "walletBalance", "0")).Returned? &&
      codec.parseDecimal(Get(d, "availableToWithdraw", "0")).Returned? &&
      codec.parseDecimal(Get(d, "locked", "0")).Returned?
    ensures r.Returned? ==>
      r.value.coin == Get(d, "coin", "") &&
      DecodesDecimal(codec, d, "walletBalance", "0", r.value.walletBalance) &&
      DecodesDecimal(codec, d, "availableToWithdraw", "0", r.value.availableBalance) &&
      DecodesDecimal(codec, d, "locked", "0", r.value.usedBalance)
  {
    var wallet := codec.parseDecimal(Get(d, "walletBalance", "0"));
    var available := codec.parseDecimal(Get(d, "availableToWithdraw", "0"));
    var used := codec.parseDecimal(Get(d, "locked", "0"));
    if wallet.Raised? || available.Raised? || used.Raised? then Raised
    else Returned(Balance(Get(d, "coin", ""), wallet.value, available.value, used.value))
  }

  function PositionParser(codec: Codec): Fields -> Outcome<Position> {
    d => ParsePosition(codec, d)
  }

  function OrderParser(codec: Codec): Fields -> Outcome<Order> {
    d => ParseOrder(codec, d)
  }

  function BalanceParser(codec: Codec): Fields -> Outcome<Balance> {
    d => ParseBalance(codec, d)
  }

  /**
    A `for` loop that parses every record in turn and stops at the first one that
    raises: all the parsed records, in order, or `Raised`.
   */
  function ParseEach<T>(parse: Fields -> Outcome<T>, records: seq<Fields>): (r: Outcome<seq<T>>)
    ensures r.Returned? <==> forall i :: 0 <= i < |records| ==> parse(records[i]).Returned?
    ensures r.Returned? ==> |r.value| == |records|
    ensures r.Returned? ==> forall i :: 0 <= i < |records| ==> parse(records[i]) == Returned(r.value[i])
  {
    if records == [] then Returned([])
    else
      var last := |records| - 1;
      match ParseEach(parse, records[..last])
      case Raised => Raised
      case Returned(init) =>
        match parse(records[last])
        case Raised => Raised
        case Returned(x) => Returned(init + [x])
  }

  /** One more turn of the loop: the next record parses, or the whole loop raises. */
  lemma ParseEachStep<T>(parse: Fields -> Outcome<T>, records: seq<Fields>, i: nat, init: seq<T>)
    requires i < |records| && ParseEach(parse, records[..i]) == Returned(init)
    ensures ParseEach(parse, records[..i + 1]) ==
      match parse(records[i]) case Raised => Raised case Returned(x) => Returned(init + [x])
  {
    assert records[..i + 1][..i] == records[..i];
  }

  // ---------------------------------------------------------------------------
  // The list builders

  /** The positions with a size other than zero, in their order. */
  function NonZero(ps: seq<Position>): (r: seq<Position>)
    ensures forall i :: 0 <= i < |r| ==> r[i].size != 0.0
    ensures forall p :: p in r <==> p in ps && p.size != 0.0
    ensures |r| <= |ps|
  {
    if ps == [] then []
    else
      var last := ps[|ps| - 1];
      NonZero(ps[..|ps| - 1]) + (if last.size != 0.0 then [last] else [])
  }

  /** `NonZero` keeps the order of its input: filtering a concatenation filters each part. */
  lemma {:induction false} NonZeroConcat(a: seq<Position>, b: seq<Position>)
    ensures NonZero(a + b) == NonZero(a) + NonZero(b)
  {
    if b != [] {
      var last := b[|b| - 1];
      assert (a + b)[..|a + b| - 1] == a + b[..|b| - 1];
      NonZeroConcat(a, b[..|b| - 1]);
    } else {
      assert a + b == a;
    }
  }

  /** What `get_positions` returns for a reply. */
  function PositionsOf(codec: Codec, reply: Reply<seq<Fields>>): (r: seq<Position>)
    ensures !Succeeded(reply) ==> r == []
    ensures Succeeded(reply) ==> |r| <= |reply.result|
    ensures forall i :: 0 <= i < |r| ==> r[i].size != 0.0
    ensures forall p :: p in r ==> exists i :: 0 <= i < |reply.result| && ParsePosition(codec, reply.result[i]) == Returned(p)
  {
    if Succeeded(reply) then
      match ParseEach(PositionParser(codec), reply.result)
      case Returned(ps) => NonZero(ps)
      case Raised => []
    else []
  }

  /** What `get_orders` and `get_order_history` return for a reply. */
  function OrdersOf(codec: Codec, reply: Reply<seq<Fields>>): (r: seq<Order>)
    ensures !Succeeded(reply) ==> r == []
    ensures r != [] ==>
      |r| == |reply.result| && forall i :: 0 <= i < |r| ==> ParseOrder(codec, reply.result[i]) == Returned(r[i])
  {
    if Succeeded(reply) then
      match ParseEach(OrderParser(codec), reply.result)
      case Returned(os) => os
      case Raised => []
    else []
  }

  /** On success, `get_positions` gives exactly the parsed positions of nonzero size, in record order. */
  lemma PositionsOfSuccess(codec: Codec, reply: Reply<seq<Fields>>, parsed: seq<Position>)
    requires Succeeded(reply)
    requires |parsed| == |reply.result|
    requires forall i :: 0 <= i < |parsed| ==> ParsePosition(codec, reply.result[i]) == Returned(parsed[i])
    ensures PositionsOf(codec, reply) == NonZero(parsed)
    ensures forall p :: p in PositionsOf(codec, reply) ==> p.size != 0.0
  {
    var r := ParseEach(PositionParser(codec), reply.result);
    assert r.Returned?;
    assert r.value == parsed;
  }

  /** A failed reply, or a single record that does not parse, empties `get_positions`. */
  lemma PositionsOfFailure(codec: Codec, reply: Reply<seq<Fields>>)
    requires !Succeeded(reply) || exists i :: 0 <= i < |reply.result| && ParsePosition(codec, reply.result[i]).Raised?
    ensures PositionsOf(codec, reply) == []
  {
    if Succeeded(reply) {
      var i :| 0 <= i < |reply.result| && ParsePosition(codec, reply.result[i]).Raised?;
      assert PositionParser(codec)(reply.result[i]).Raised?;
    }
  }

  /** On success `get_orders` gives one order per record, in order; otherwise, or on one bad record, nothing. */
  lemma OrdersOfContents(codec: Codec, reply: Reply<seq<Fields>>)
    ensures var os := OrdersOf(codec, reply);
      (Succeeded(reply) && (forall i :: 0 <= i < |reply.result| ==> ParseOrder(codec, reply.result[i]).Returned?))
      ==> |os| == |reply.result| && forall i :: 0 <= i < |os| ==> ParseOrder(codec, reply.result[i]) == Returned(os[i])
    ensures (!Succeeded(reply) || exists i :: 0 <= i < |reply.result| && ParseOrder(codec, reply.result[i]).Raised?)
      ==> OrdersOf(codec, reply) == []
  {
    if Succeeded(reply) {
      var r := ParseEach(OrderParser(codec), reply.result);
      if forall i :: 0 <= i < |reply.result| ==> ParseOrder(codec, reply.result[i]).Returned? {
        assert forall i :: 0 <= i < |reply.result| ==> OrderParser(codec)(reply.result[i]).Returned?;
      }
      if exists i :: 0 <= i < |reply.result| && ParseOrder(codec, reply.result[i]).Raised? {
        var i :| 0 <= i < |reply.result| && ParseOrder(codec, reply.result[i]).Raised?;
        assert OrderParser(codec)(reply.result[i]).Raised?;
      }
    }
  }

  /** `get_positions(symbol)` against an exchange that answers each request. */
  method GetPositions(codec: Codec, exchange: Request -> Reply<seq<Fields>>, symbol: Option<string> := None)
    returns (positions: seq<Position>)
    ensures positions == PositionsOf(codec, exchange(PositionsRequest(symbol)))
  {
    var reply := exchange(PositionsRequest(symbol));
    if !Succeeded(reply) {
      return [];
    }
    var records := reply.result;
    positions := [];
    ghost var parsed: seq<Position> := [];
    var i := 0;
    while i < |records|
      invariant 0 <= i <= |records|
      invariant ParseEach(PositionParser(codec), records[..i]) == Returned(parsed)
      invariant positions == NonZero(parsed)
    {
      var position := ParsePosition(codec, records[i]);
      ParseEachStep(PositionParser(codec), records, i, parsed);
      if position.Raised? {
        return [];
      }
      assert (parsed + [position.value])[..|parsed|] == parsed;
      parsed := parsed + [position.value];
      if position.value.size != 0.0 {
        positions := positions + [position.value];
      }
      i := i + 1;
    }
    assert records[..i] == records;
  }

  /** The loop `get_orders` and `get_order_history` share: one parsed order per record, or nothing. */
  method ReadOrders(codec: Codec, reply: Reply<seq<Fields>>) returns (orders: seq<Order>)
    ensures orders == OrdersOf(codec, reply)
  {
    if !Succeeded(reply) {
      return [];
    }
    var records := reply.result;
    orders := [];
    var i := 0;
    while i < |records|
      invariant 0 <= i <= |records|
      invariant ParseEach(OrderParser(codec), records[..i]) == Returned(orders)
    {
      var order := ParseOrder(codec, records[i]);
      ParseEachStep(OrderParser(codec), records, i, orders);
      if order.Raised? {
        return [];
      }
      orders := orders + [order.value];
      i := i + 1;
    }
    assert records[..i] == records;
  }

  /** `get_orders(symbol, order_status, limit)` */
  method GetOrders(codec: Codec, exchange: Request -> Reply<seq<Fields>>, symbol: Option<string> := None,
                   orderStatus: Option<string> := None, limit: int := DefaultLimit)
    returns (orders: seq<Order>)
    ensures orders == OrdersOf(codec, exchange(OrdersRequest(symbol, orderStatus, limit)))
  {
    orders := ReadOrders(codec, exchange(OrdersRequest(symbol, orderStatus, limit)));
  }

  /** `get_order_history(symbol, limit)` */
  method GetOrderHistory(codec: Codec, exchange: Request -> Reply<seq<Fields>>, symbol: Option<string> := None,
                         limit: int := DefaultLimit)
    returns (orders: seq<Order>)
    ensures orders == OrdersOf(codec, exchange(OrderHistoryRequest(symbol, limit)))
  {
    orders := ReadOrders(codec, exchange(OrderHistoryRequest(symbol, limit)));
  }

  /** One account of the wallet-balance reply: its own string fields and its `coin` records. */
  datatype Wallet = Wallet(fields: Fields, coins: seq<Fields>)

  /** What `get_account_info` returns, given the wallet reply and what `get_positions()` returned. */
  function AccountInfoOf(codec: Codec, reply: Reply<seq<Wallet>>, positions: seq<Position>): (r: Option<AccountInfo>)
    ensures r.Some? <==>
      Succeeded(reply) && reply.result != [] &&
      (forall i :: 0 <= i < |reply.result[0].coins| ==> ParseBalance(codec, reply.result[0].coins[i]).Returned?) &&
      codec.parseDecimal(Get(reply.result[0].fields, "totalWalletBalance", "0")).Returned? &&
      codec.parseDecimal(Get(reply.result[0].fields, "totalUnrealisedPnl", "0")).Returned?
    ensures r.Some? ==>
      var wallet := reply.result[0];
      |r.value.balances| == |wallet.coins| &&
      (forall i :: 0 <= i < |wallet.coins| ==> ParseBalance(codec, wallet.coins[i]) == Returned(r.value.balances[i])) &&
      r.value.positions == positions &&
      DecodesDecimal(codec, wallet.fields, "totalWalletBalance", "0", r.value.totalWalletBalance) &&
      DecodesDecimal(codec, wallet.fields, "totalUnrealisedPnl", "0", r.value.totalUnrealizedPnl)
  {
    if !Succeeded(reply) || reply.result == [] then None
    else
      var wallet := reply.result[0];
      var balances := ParseEach(BalanceParser(codec), wallet.coins);
      var total := codec.parseDecimal(Get(wallet.fields, "totalWalletBalance", "0"));
      var unrealized := codec.parseDecimal(Get(wallet.fields, "totalUnrealisedPnl", "0"));
      assert balances.Returned? <==> forall i :: 0 <= i < |wallet.coins| ==> ParseBalance(codec, wallet.coins[i]).Returned? by {
        assert forall i :: 0 <= i < |wallet.coins| ==> BalanceParser(codec)(wallet.coins[i]) == ParseBalance(codec, wallet.coins[i]);
      }
      if balances.Raised? || total.Raised? || unrealized.Raised? then None
      else Some(AccountInfo(balances.value, positions, total.value, unrealized.value))
  }

  /** `get_account_info()`: the wallet request, then `get_positions()` once the balances are built. */
  method GetAccountInfo(codec: Codec, walletExchange: Request -> Reply<seq<Wallet>>,
                        positionExchange: Request -> Reply<seq<Fields>>)
    returns (info: Option<AccountInfo>)
    ensures info == AccountInfoOf(codec, walletExchange(WalletRequest),
                                  PositionsOf(codec, positionExchange(PositionsRequest(None))))
  {
    var reply := walletExchange(WalletRequest);
    if !Succeeded(reply) || reply.result == [] {
      return None;
    }
    var wallet := reply.result[0];
    var balances: seq<Balance> := [];
    var i := 0;
    while i < |wallet.coins|
      invariant 0 <= i <= |wallet.coins|
      invariant ParseEach(BalanceParser(codec), wallet.coins[..i]) == Returned(balances)
    {
      assert wallet.coins[..i + 1][..i] == wallet.coins[..i];
      var balance := ParseBalance(codec, wallet.coins[i]);
      if balance.Raised? {
        return None;
      }
      balances := balances + [balance.value];
      i := i + 1;
    }
    assert wallet.coins[..i] == wallet.coins;
    var positions := GetPositions(codec, positionExchange);
    var total := codec.parseDecimal(Get(wallet.fields, "totalWalletBalance", "0"));
    var unrealized := codec.parseDecimal(Get(wallet.fields, "totalUnrealisedPnl", "0"));
    if total.Raised? || unrealized.Raised? {
      return None;
    }
    info := Some(AccountInfo(balances, positions, total.value, unrealized.value));
  }

  /**
    Defaults apply to missing amounts only: a coin whose "walletBalance" is present but
    empty makes `get_account_info` return None, as `Decimal("")` raises.
   */
  lemma EmptyCoinAmountFailsAccountInfo(codec: Codec, reply: Reply<seq<Wallet>>, positions: seq<Position>, i: nat)
    requires PythonDecimals(codec)
    requires Succeeded(reply) && reply.result != [] && i < |reply.result[0].coins|
    requires "walletBalance" in reply.result[0].coins[i] && reply.result[0].coins[i]["walletBalance"] == ""
    ensures AccountInfoOf(codec, reply, positions) == None
  {
    assert ParseBalance(codec, reply.result[0].coins[i]).Raised?;
  }

  /** A position record without a size parses to a flat position of size zero, which `get_positions` drops. */
  lemma MissingSizeIsFlat(codec: Codec, d: Fields)
    requires PythonDecimals(codec)
    requires "size" !in d
    ensures ParsePosition(codec, d).Returned? ==>
      ParsePosition(codec, d).value.size == 0.0 && ParsePosition(codec, d).value.side == Flat
    ensures ParsePosition(codec, d).Returned? ==> NonZero([ParsePosition(codec, d).value]) == []
  {
  }
}
