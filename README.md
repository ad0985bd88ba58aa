# Bybit trading client core, in Dafny

This project models the core of a small Python client for the Bybit v5 API. It
covers four parts:

- **`TradingTypes`**: the shared value model. Four enumerations with their wire
  strings and lookup by wire string, plus the order book, order, position,
  trade, balance and account records.
- **`OrderBookStream`**: the ticker stream of one symbol. A `Stream` object keeps
  the last best bid and best ask, each as a price and a size. It updates them
  from each ticker message, rebuilds a one-level order book snapshot and hands
  it to the one registered callback. Also here: the subscription message and
  the pipe-separated log line of an update.
- **`Portfolio`**: the portfolio manager.
  - The GET parameter dictionaries and the `k=v&k=v` text that is signed for a GET.
  - The parsers of position, order and coin-balance records.
  - The list builders `get_positions`, `get_orders`, `get_order_history` and
    `get_account_info`. Each of them catches every exception, so one record that
    does not parse, or a non-zero `retCode`, empties the whole result.
- **`OrderManager`** and **`Signing`**: the order manager.
  - The create, cancel and status request bodies.
  - The `Order` built from a successful placement, the cancel flag and the status look-up.
  - The authentication headers and the text they sign.

Two small modules support these. `Common` holds optional values, outcomes that
may raise, `dict.get` on string records, joins and splits, and `str` of an int.
`Rest` holds requests, replies and insertion-ordered parameter dictionaries.

Conventions:

- Python decimals are `real`: a decimal's value is kept, its exponent is not (see "## Left out").
- `Decimal(s)`, `int(s)` and `str(d)` are the three functions of a `Codec` value
  passed to every parser. `Decimal` and `int` return `Outcome.Raised` where Python
  raises.
- Datetimes are epoch milliseconds. The clock is a `now` parameter.
- The exchange is a parameter: a function from a `Request` to the decoded `Reply`.
  A `Reply` holds the `retCode` and the part of `result` the caller reads, with the
  caller's defaults already applied. It is `RequestFailed` when sending raised.
- The stream's `ProcessMessage` is stated against pure functions of the kept
  quotes (`Refresh`, `Process`, `Snapshot`). `Replay` folds `Process` over a
  sequence of decoded messages and stops at the first one that raises, as
  `listen` does. The properties of a message stream are lemmas about `Replay`.
- Ghost fields `Snapshots` and `Deliveries` on the stream record every snapshot
  produced and every call made to the callback.

## Model

| member | source | states |
|---|---|---|
| TradingTypes.OrderSide.FromValue | trading_types.py:8-10 | `OrderSide(s)` returns a member exactly when `s` is "Buy" or "Sell", and that member's wire string is `s` |
| TradingTypes.OrderType.FromValue | trading_types.py:13-15 | `OrderType(s)` returns a member exactly for "Market"/"Limit", the one whose wire string is `s` |
| TradingTypes.OrderStatus.FromValue | trading_types.py:18-23 | `OrderStatus(s)` returns a member exactly for the five status strings, the one whose wire string is `s` |
| TradingTypes.PositionSide.FromValue | trading_types.py:26-29 | `PositionSide(s)` returns a member exactly for "Buy", "Sell", "None", the one whose wire string is `s` |
| TradingTypes.ValueLookupInverts | trading_types.py:8-29 | looking any member of any of the four enumerations up by its own wire string gives that member back |
| TradingTypes.PositionSidesShareOrderSideStrings | trading_types.py:8-29 | LONG and SHORT carry the wire strings of BUY and SELL, and the order side strings look up as LONG and SHORT |
| TradingTypes.OrderTimeInForceDefault | trading_types.py:46-59 | an `Order` built without a time in force has "GTC" |
| OrderBookStream.SubscribeRequestFor | orderbook_stream.py:34-37 | the subscription is op "subscribe" with the single argument "tickers." followed by the symbol, and that argument passes the ticker-topic filter of `_process_message` |
| OrderBookStream.SideUpdateOf | orderbook_stream.py:68-74 | a side is left alone exactly when its price or size is missing or empty; otherwise it is replaced whole exactly when both texts parse, and when only the price parses the price has been assigned before the size raises |
| OrderBookStream.Refresh | orderbook_stream.py:68-74 | the bid side, then the ask side, applied to the kept quotes; the record raises exactly when an offered side's price or size does not parse |
| OrderBookStream.RefreshSticky | orderbook_stream.py:68-74 | a ticker record raises exactly when an offered side does not parse; a side not offered keeps its old price and size; an offered side that parses gets both new values; the ask side is untouched when the bid side raised |
| OrderBookStream.RefreshKeepsPaired | orderbook_stream.py:68-74 | a record that does not raise keeps each side's price set exactly when its size is |
| OrderBookStream.Snapshot | orderbook_stream.py:76-91 | the book has the record's symbol (the stream's when absent), the message's `ts` (0 when absent), and at most one level per side: a level exactly when that side's price and size are both kept, holding them |
| OrderBookStream.Process | orderbook_stream.py:60-94 | a non-ticker message changes nothing; a ticker's new quotes are the bid-then-ask refresh of the old ones (so the stickiness of `RefreshSticky` holds per message); a ticker raises exactly when an offered side does not parse, and then produces nothing; otherwise it produces one snapshot of the new quotes |
| OrderBookStream.Replay | orderbook_stream.py:46-58 | `listen` handing decoded messages one by one to `_process_message` and stopping at the first exception: no messages change nothing, and there are never more snapshots than ticker updates |
| OrderBookStream.NonTickerIgnored | orderbook_stream.py:60-64 | a message whose topic is missing or does not start with "tickers", or whose data is missing or empty, changes no quote and produces no snapshot |
| OrderBookStream.NonTickersIgnored | orderbook_stream.py:60-64 | a whole stream of such messages changes nothing and produces nothing |
| OrderBookStream.ReplayKeepsPaired | orderbook_stream.py:50-74 | starting from paired quotes (both start unset), a message stream that never raised leaves each side's price set exactly when its size is |
| OrderBookStream.ReplaySnapshotCount | orderbook_stream.py:76-91 | a stream that never raised produces exactly one snapshot per ticker update, including updates that offer neither side |
| OrderBookStream.ReplayLastSnapshot | orderbook_stream.py:76-91 | the last snapshot holds one level per side that is set, equal to the kept price and size, and none for a side that is not |
| OrderBookStream.StickyBid | orderbook_stream.py:68-91 | a bid-only ticker followed by an ask-only ticker yields a second snapshot that still carries the first bid |
| OrderBookStream.CrossedBookPublished | orderbook_stream.py:68-91 | a ticker whose bid is above its ask is published unchanged: nothing rejects a crossed book |
| OrderBookStream.EmptyBookPublished | orderbook_stream.py:76-91 | a ticker offering neither side from a fresh stream publishes a book with no bids and no asks, the record's symbol and the message's `ts` |
| OrderBookStream.DeliveredCalls | orderbook_stream.py:93-94 | without a callback no call is made; with one, there is one call per snapshot, in order, each to that callback with that snapshot |
| OrderBookStream.Stream.constructor | orderbook_stream.py:13-24 | a new stream has the given symbol (default "BTCUSDT"), the public linear URL, no quotes, no order book, no callback |
| OrderBookStream.Stream.SetCallback | orderbook_stream.py:26-27 | the callback becomes the given one, replacing any earlier one |
| OrderBookStream.Stream.LatestOrderbook | orderbook_stream.py:101-102 | None before the first snapshot, the last snapshot produced afterwards |
| OrderBookStream.Stream.UpdateBid | orderbook_stream.py:68-70 | the bid fields after the guarded `Decimal` reads are the side update of the record applied to the old ones; `raised` tells that a read raised |
| OrderBookStream.Stream.UpdateAsk | orderbook_stream.py:72-74 | the same for the ask fields |
| OrderBookStream.Stream.Publish | orderbook_stream.py:76-94 | the stored order book becomes the snapshot of the kept quotes; the snapshot is recorded and, when a callback is set, delivered to it once |
| OrderBookStream.Stream.ProcessMessage | orderbook_stream.py:60-94 | the new quotes, the snapshots and the callback deliveries are those of `Process` on the old quotes; a non-ticker message changes nothing; a ticker that does not raise stores its snapshot; paired quotes stay paired unless the message raised |
| OrderBookStream.LogLine | orderbook_stream.py:107 | the line opens with the timestamp, a bar, the symbol and a bar, and goes on past them |
| OrderBookStream.LogLineFields | orderbook_stream.py:107 | the log line cut at its bars gives six fields: timestamp, symbol, best bid size, best bid price, best ask price, best ask size, with "N/A" in both fields of an empty side |
| Portfolio.QueryString | portfolio.py:54-57 | the GET text is "" exactly for no parameters, and otherwise opens with the first key and "=" |
| Portfolio.QueryStringRoundTrip | portfolio.py:54-57 | the GET text is "" exactly for no parameters, and otherwise reads back as the (key, `str(value)`) pairs in insertion order |
| Portfolio.PositionsRequest | portfolio.py:79-87 | GET "/v5/position/list" with category "linear", plus the symbol only when it is given and non-empty, and no other key |
| Portfolio.OrdersRequest | portfolio.py:113-124 | GET "/v5/order/realtime" with category "linear" and the limit (default 50), plus symbol and orderStatus only when truthy, and no other key |
| Portfolio.OrderHistoryRequest | portfolio.py:148-157 | GET "/v5/order/history" with category "linear" and the limit, plus the symbol only when truthy, and no other key |
| Portfolio.OptionalDecimal | portfolio.py:225-230 | an optional decimal is None exactly when its key is missing or empty, raises exactly when its text does not parse, and is otherwise the parsed text |
| Portfolio.ParsePosition | portfolio.py:212-231 | a position parses exactly when size, side (only needed for a nonzero size) and the six optional fields parse; a zero size gives side NONE whatever the side text, otherwise the side is the lookup of "side" (default "None"); each optional field is None exactly when its key is missing or empty |
| Portfolio.MissingSizeIsFlat | portfolio.py:212-217 | a record without "size" parses to size 0 and side NONE, which `get_positions` drops |
| Portfolio.ParseOrder | portfolio.py:233-247 | an order parses exactly when side, type, status, quantity, filled quantity, the optional prices and both times parse; every field comes from its key with the source's default; price and average price are None exactly when their key is missing or empty; time in force defaults to "GTC"; the order manager's `_parse_order` (order_manager.py:209-223) is the same mapping and uses this definition |
| Portfolio.ParseBalance | portfolio.py:188-193 | a coin balance parses exactly when its three amounts parse (missing ones count as "0"), and each field comes from its key |
| Portfolio.ParseEach | portfolio.py:93-96 | parsing every record in turn succeeds exactly when every record parses, and then gives one result per record, in order |
| Portfolio.NonZero | portfolio.py:95-96 | the kept positions are exactly the input positions of nonzero size, none of size zero |
| Portfolio.NonZeroConcat | portfolio.py:93-96 | filtering keeps input order: filtering a concatenation filters each part |
| Portfolio.PositionsOf | portfolio.py:89-105 | [] for a failed reply; otherwise at most one position per record, every one of nonzero size and the parse of some record |
| Portfolio.OrdersOf | portfolio.py:126-141 | [] for a failed reply; a non-empty result has one order per record, the parse of that record (`get_order_history` at portfolio.py:159-174 builds the same list) |
| Portfolio.PositionsOfSuccess | portfolio.py:89-98 | on retCode 0 with every record parsing, `get_positions` returns the parsed positions of nonzero size, in record order |
| Portfolio.PositionsOfFailure | portfolio.py:99-105 | a non-zero or missing retCode, a failed request, or a single record that does not parse makes `get_positions` return [] |
| Portfolio.OrdersOfContents | portfolio.py:126-141 | on retCode 0 with every record parsing, one order per record in order; otherwise, or on one bad record, [] |
| Portfolio.GetPositions | portfolio.py:78-105 | the loop returns `PositionsOf` the reply to the positions request |
| Portfolio.ReadOrders | portfolio.py:126-141 | the loop returns `OrdersOf` the reply |
| Portfolio.GetOrders | portfolio.py:107-141 | `get_orders` returns `OrdersOf` the reply to the open-orders request |
| Portfolio.GetOrderHistory | portfolio.py:143-174 | `get_order_history` returns `OrdersOf` the reply to the history request |
| Portfolio.AccountInfoOf | portfolio.py:176-210 | account info exists exactly when retCode is 0, the list is non-empty, every coin of the first wallet parses and both totals parse; it then has one balance per coin in order, the positions of `get_positions()` and the two totals |
| Portfolio.GetAccountInfo | portfolio.py:176-210 | the loop over the coins, followed by `get_positions()`, returns `AccountInfoOf` the wallet reply and those positions |
| Portfolio.EmptyCoinAmountFailsAccountInfo | portfolio.py:187-194 | a coin whose "walletBalance" is present but empty makes `get_account_info` return None |
| Signing.PyAdd | order_manager.py:31 | Python `+` concatenates two strings, adds two ints, and raises for a string and an int |
| Signing.PayloadAsWritten | order_manager.py:30-31 | the order manager's string to sign raises `TypeError` for every timestamp, key, window and parameter text |
| Signing.HeadersAsWritten | order_manager.py:30-41 | so the order manager's `_get_headers` always raises before any header exists |
| Signing.RecvWindowText | portfolio.py:48 | the receive window header is "5000" |
| Signing.Headers | portfolio.py:30-50 | exactly the six headers: timestamp, key and window ("5000"), whose concatenation followed by the parameter text is exactly the text the signature was computed over, sign type "2" and content type "application/json" |
| OrderManager.MarketOrderRequest | order_manager.py:79-89 | POST "/v5/order/create" with keys category, symbol, side, orderType, qty, reduceOnly in that order: "linear", the symbol, the side's wire string, "Market", `str(quantity)`, the flag; no price and no timeInForce |
| OrderManager.LimitOrderRequest | order_manager.py:122-137 | POST "/v5/order/create" with the market keys plus price `str(price)` and timeInForce (default "GTC"), type "Limit" |
| OrderManager.OrderParams | order_manager.py:166-170 | the cancel and status bodies hold category "linear", the symbol and the order id, in that order |
| OrderManager.PlaceMarketOrder | order_manager.py:72-114 | an order exactly when retCode is 0, with the exchange's order id (default ""), the requested symbol, side and quantity, type MARKET, no price, status NEW, filled 0, no average price, time in force "GTC" |
| OrderManager.PlaceLimitOrder | order_manager.py:116-163 | the same for a limit order, with the given price and time in force |
| OrderManager.CancelOrder | order_manager.py:165-184 | true exactly when retCode is 0; false when the request failed |
| OrderManager.GetOrderStatus | order_manager.py:186-207 | an order exactly when retCode is 0, the list is non-empty and its first record parses, and then it is that record's parse |
| OrderManager.PlacedLimitOrderReadsBack | order_manager.py:143-156 | apart from its two times, the order `place_limit_order` returns is what `_parse_order` reads from an exchange record that repeats the request's texts, the order id, status "New" and nothing filled, with times that parse |
| OrderManager.SendAsWritten | order_manager.py:52-55 | the order manager's `_make_request` builds the headers first, so every request fails before reaching the exchange |
| OrderManager.EveryOrderCallFailsAsWritten | order_manager.py:52-55 | with the headers built as written, both placements return None, the cancel returns false and the status look-up returns None, whatever the exchange would answer |

## Findings

| source | as written | input that shows it | evidently intended | confidence | as-written member | corrected member |
|---|---|---|---|---|---|---|
| order_manager.py:31 | `timestamp + self.api_key + self.recv_window + params` adds the int 5000 to a str, which raises `TypeError` in `_get_headers` before any request is sent; every caller's `except Exception` turns it into None or False | any call, e.g. `place_limit_order("BTCUSDT", OrderSide.BUY, Decimal("0.001"), Decimal("30000"))` | `str(self.recv_window)`, as the portfolio manager writes it at portfolio.py:31 | high (not executed) | Signing.PayloadAsWritten, OrderManager.EveryOrderCallFailsAsWritten | Signing.Headers |

The order functions (`PlaceMarketOrder`, `PlaceLimitOrder`, `CancelOrder`,
`GetOrderStatus`) take the exchange as it is reached through the corrected
headers: the request arrives and its reply is handled.

## Behaviour of the code worth knowing

- The stream accepts any topic that starts with "tickers", whatever symbol
  follows (`IsTickerTopic`).
- The stream publishes a crossed book (`CrossedBookPublished`). It also publishes
  a snapshot for a ticker that offers neither side, even when no side was ever set
  (`EmptyBookPublished`).
- There is a single callback, and `set_callback` replaces it.
- A `Decimal` error in a ticker is not dropped. When the price text of a side
  does not parse, nothing of that side is assigned (`SideUpdate.Unparsed`). When
  the price parses and the size does not, the new price has already been
  assigned and sits beside the side's previous size, or beside no size if none
  was held (`SideUpdate.PriceOnly`). Either way the exception ends `listen`, and
  `Replay` stops there.
- Nothing compares a message's timestamp with earlier ones.

## Left out

- WebSocket transport: `connect`, `disconnect` and the receive loop of `listen`, `asyncio` and the multi-stream `main`. Messages arrive decoded, and `Replay` stands for the loop over them.
- JSON decoding of stream messages and HTTP bodies. A decoded message keeps only `topic`, `data` and `ts`. A reply keeps `retCode` and the part of `result` read, with `{}`/`[]` defaults applied.
- HTTP: `requests.Session`, `raise_for_status`, and the base URL chosen by `testnet`. Any failure there is `Reply.RequestFailed`.
- HMAC-SHA256 and the clock: the signature function `sign` and `now` are parameters.
- The order manager's `json.dumps` parameter text, used for GET as well (order_manager.py:54): the serialisation is the parameter `dumps`, and nothing is proved about it.
- Python `Decimal` parsing and printing: the `Codec` parameters. `PythonDecimals` and `DecimalTextRoundTrips` state the facts some lemmas assume.
- `datetime.fromtimestamp(int(x) / 1000)`: order times stay the parsed integer milliseconds; the float division and the conversion are not modelled. The exception `fromtimestamp` raises for a time out of its range is lost with it: for such a record `Portfolio.ParseOrder` returns an order, where `_parse_order` raises and `get_orders` returns [].
- Decimal exponents: a `Decimal` carries its exponent, a `real` does not, so `Decimal("100.50")` and `Decimal("100.5")` are the same real here while `str` prints them differently, and `1E+2` prints as itself. Every printed decimal in the model, `Codec.formatDecimal`, is a function of the value alone: the four decimal fields of the log line (which the code echoes from the exchange's own text through `Decimal`) and the `qty` and `price` texts of the order requests (`str(Decimal("0.0010"))` is "0.0010") may differ from the program's in trailing zeros and exponent form.
- Python `Decimal` special values: decimals are `real`, which has no NaN or infinity, while `Decimal("NaN")` and `Decimal("Infinity")` return values instead of raising. A position of size "NaN" fails `size == Decimal("0")`, goes through the side lookup and is kept by `get_positions`; in the model a `Codec` maps every text it accepts to a real.
- OrderManager.PlacedLimitOrderReadsBack: compares the orders with both times cleared. The placed order carries `datetime.now()`, read twice with microseconds, and the parsed one `fromtimestamp(ms / 1000)`, which need not agree.
- OrderManager.PlaceMarketOrder: both times are one clock reading `now`, while the source calls `datetime.now()` twice.
- OrderManager.PlaceLimitOrder: both times are one clock reading `now`, for the same reason.
- OrderBookStream.Stream.ProcessMessage: the callback is recorded as a delivery. Its own effects, and an exception it might raise into `listen`, are not modelled.
- The `Trade` record is declared; no operation of the core builds or reads one.
- Logging, `print`, the `main` functions and configuration loading.
