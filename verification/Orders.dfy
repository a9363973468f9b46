/** Orders, trades and the outcomes of book operations. */
module Orders {

  datatype Option<+T> = None | Some(value: T)

  datatype Side = Buy | Sell | OtherSide(name: string)

  datatype OrderType = Limit | Market | OtherType(name: string)

  datatype Status = NoStatus | Open | Partial | Filled | Cancelled

  datatype Order = Order(
    id: string, playerId: string, symbol: string, side: Side, kind: OrderType,
    price: int, quantity: int, remaining: int, status: Status)

  datatype Trade = Trade(
    symbol: string, price: int, quantity: int, aggressor: Side,
    buyOrderId: string, sellOrderId: string, buyerId: string, sellerId: string, executedAt: int)

  datatype OrderError =
    | NoSymbol | NoPlayer | NoId | BadQuantity | BadSide(side: Side) | BadType(kind: OrderType) | BadPrice

  /** The first thing wrong with a submitted order. */
  function Validate(order: Order): Option<OrderError> {
    if order.symbol == "" then Some(NoSymbol)
    else if order.playerId == "" then Some(NoPlayer)
    else if order.id == "" then Some(NoId)
    else if order.quantity <= 0 then Some(BadQuantity)
    else if order.side.OtherSide? then Some(BadSide(order.side))
    else if order.kind.OtherType? then Some(BadType(order.kind))
    else if order.kind.Limit? && order.price <= 0 then Some(BadPrice)
    else None
  }

  predicate Accepted(order: Order) {
    Validate(order).None?
  }

  function Opposite(side: Side): Side {
    match side
    case Buy => Sell
    case Sell => Buy
    case OtherSide(_) => side
  }

  /** Ranks prices of one side so that the best price has the least rank. */
  function Rank(side: Side, price: int): int {
    if side.Buy? then -price else price
  }

  /** The status an order shows once matching is over. */
  function StatusOf(order: Order): Status {
    if order.remaining == 0 then Filled
    else if order.remaining < order.quantity then Partial
    else if order.kind.Market? then Cancelled
    else Open
  }

  /** Everything about an order except how much of it is left and its status. */
  predicate SameTerms(a: Order, b: Order) {
    a.(remaining := b.remaining, status := b.status) == b
  }

  /** Equal in everything but the status. */
  predicate SameOrder(a: Order, b: Order) {
    a.(status := b.status) == b
  }

  datatype Placement = Placement(order: Order, trades: seq<Trade>, resting: Option<Order>, removed: seq<string>)
}
