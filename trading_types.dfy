/**
  The shared value model of the client: the four enumerations with their wire
  strings and lookup by wire string, and the records every component passes
  around. Decimals are reals; datetimes are epoch milliseconds.
 */
module TradingTypes {
  import opened Common

  datatype OrderSide = Buy | Sell {
    /** The member's wire string, `side.value`. */
    function Value(): string {
      match this
      case Buy => "Buy"
      case Sell => "Sell"
    }

    /** `OrderSide(s)`: the member whose wire string is `s`; raises for any other string. */
    static function FromValue(s: string): (r: Outcome<OrderSide>)
      ensures r.Returned? <==> s == "Buy" || s == "Sell"
      ensures r.Returned? ==> r.value.Value() == s
    {
      if s == "Buy" then Returned(Buy)
      else if s == "Sell" then Returned(Sell)
      else Raised
    }
  }

  datatype OrderType = Market | Limit {
    function Value(): string {
      match this
      case Market => "Market"
      case Limit => "Limit"
    }

    static function FromValue(s: string): (r: Outcome<OrderType>)
      ensures r.Returned? <==> s == "Market" || s == "Limit"
      ensures r.Returned? ==> r.value.Value() == s
    {
      if s == "Market" then Returned(Market)
      else if s == "Limit" then Returned(Limit)
      else Raised
    }
  }

  datatype OrderStatus = New | PartiallyFilled | Filled | Cancelled | Rejected {
    function Value(): string {
      match this
      case New => "New"
      case PartiallyFilled => "PartiallyFilled"
      case Filled => "Filled"
      case Cancelled => "Cancelled"
      case Rejected => "Rejected"
    }

    static function FromValue(s: string): (r: Outcome<OrderStatus>)
      ensures r.Returned? <==> s in ["New", "PartiallyFilled", "Filled", "Cancelled", "Rejected"]
      ensures r.Returned? ==> r.value.Value() == s
    {
      if s == "New" then Returned(New)
      else if s == "PartiallyFilled" then Returned(PartiallyFilled)
      else if s == "Filled" then Returned(Filled)
      else if s == "Cancelled" then Returned(Cancelled)
      else if s == "Rejected" then Returned(Rejected)
      else Raised
    }
  }

  /** `Long` and `Short` are LONG and SHORT; `Flat` is the member NONE, wire string "None". */
  datatype PositionSide = Long | Short | Flat {
    function Value(): string {
      match this
      case Long => "Buy"
      case Short => "Sell"
      case Flat => "None"
    }

    static function FromValue(s: string): (r: Outcome<PositionSide>)
      ensures r.Returned? <==> s == "Buy" || s == "Sell" || s == "None"
      ensures r.Returned? ==> r.value.Value() == s
    {
      if s == "Buy" then Returned(Long)
      else if s == "Sell" then Returned(Short)
      else if s == "None" then Returned(Flat)
      else Raised
    }
  }

  /** Looking a member up by its own wire string gives back that member, for every enumeration. */
  lemma ValueLookupInverts(side: OrderSide, kind: OrderType, status: OrderStatus, pside: PositionSide)
    ensures OrderSide.FromValue(side.Value()) == Returned(side)
    ensures OrderType.FromValue(kind.Value()) == Returned(kind)
    ensures OrderStatus.FromValue(status.Value()) == Returned(status)
    ensures PositionSide.FromValue(pside.Value()) == Returned(pside)
  {
  }

  /** A long or short position carries the wire string of the order side that opens it. */
  lemma PositionSidesShareOrderSideStrings()
    ensures PositionSide.Long.Value() == OrderSide.Buy.Value()
    ensures PositionSide.Short.Value() == OrderSide.Sell.Value()
    ensures PositionSide.FromValue(OrderSide.Buy.Value()) == Returned(Long)
    ensures PositionSide.FromValue(OrderSide.Sell.Value()) == Returned(Short)
  {
  }

  datatype OrderBookLevel = OrderBookLevel(price: real, size: real)

  datatype OrderBook = OrderBook(
    symbol: string,
    bids: seq<OrderBookLevel>,
    asks: seq<OrderBookLevel>,
    timestamp: int)

  const DefaultTimeInForce := "GTC"

  /** `createdTime`/`updatedTime` are epoch milliseconds; `timeInForce` defaults as the dataclass's does. */
  datatype Order = Order(
    orderId: string,
    symbol: string,
    side: OrderSide,
    orderType: OrderType,
    quantity: real,
    price: Option<real>,
    status: OrderStatus,
    filledQuantity: real,
    averagePrice: Option<real>,
    createdTime: int,
    updatedTime: int,
    timeInForce: string := DefaultTimeInForce)

  datatype Position = Position(
    symbol: string,
    side: PositionSide,
    size: real,
    entryPrice: Option<real>,
    markPrice: Option<real>,
    unrealizedPnl: Option<real>,
    realizedPnl: Option<real>,
    leverage: Option<real>,
    margin: Option<real>)

  datatype Trade = Trade(
    tradeId: string,
    orderId: string,
    symbol: string,
    side: OrderSide,
    quantity: real,
    price: real,
    fee: real,
    timestamp: int)

  datatype Balance = Balance(coin: string, walletBalance: real, availableBalance: real, usedBalance: real)

  datatype AccountInfo = AccountInfo(
    balances: seq<Balance>,
    positions: seq<Position>,
    totalWalletBalance: real,
    totalUnrealizedPnl: real)

  /** An order built without a time in force gets "GTC". */
  lemma OrderTimeInForceDefault(id: string, symbol: string, side: OrderSide, kind: OrderType, qty: real,
                                status: OrderStatus, filled: real, created: int, updated: int)
    ensures Order(id, symbol, side, kind, qty, None, status, filled, None, created, updated).timeInForce == "GTC"
  {
  }
}
