/** The whole game state and its actions: placing, cancelling and buying intel. */
module Arena {
  import opened Orders
  import opened Matching
  import opened Ledger
  import opened Invariants
  import opened Reservations
  import opened Settlement

  /** Ledger and books, and the players with a market buy whose trades cost more than was reserved for it. */
  datatype World = World(ledger: State, books: map<string, BookView>, overspent: set<string>)

  /** A request to place an order; reference is the current market price, now the time of its trades. */
  datatype OrderRequest = OrderRequest(
    id: string, playerId: string, symbol: string, side: Side, kind: OrderType, price: int, quantity: int,
    reference: int, now: int)

  datatype Refusal =
    | UnknownPlayer | BadRequest | UnknownSymbol | UnknownOrder | ForeignOrder | TradeFailed
    | NotReserved(reason: ReserveResult) | NotAccepted(error: OrderError)
    | TooExpensive(need: int, available: int) | NotSold

  datatype Reply =
    | Refused(why: Refusal)
    | PlacedOrder(placement: Placement)
    | CancelledOrder(order: Order)
    | Bought(cost: int)

  function OrderOf(req: OrderRequest): Order {
    var kind := if req.kind == OtherType("") then Limit else req.kind;
    Order(req.id, req.playerId, req.symbol, req.side, kind, req.price, req.quantity, 0, NoStatus)
  }

  /** Opens the incoming order, settles its trades, closes or trims it and forgets the filled ones. */
  function Settle(st: State, order: Order, r: ReserveResult, p: Placement): State
    requires r.Reserved?
  {
    var st0 := Opened(st, p.order.(remaining := order.quantity), r);
    if AllKnown(st0, p.trades) then
      var st1 := ApplyTrades(st0, p.trades, order.id, order.kind.Market?);
      var st2 := if p.resting.Some? then TrimOpen(st1, order.id) else Released(st1, order.id);
      CleanupAll(st2, p.removed)
    else st
  }

  /** A market buy whose trades cost more than was reserved for it. */
  predicate Overspends(order: Order, r: ReserveResult, p: Placement)
    requires r.Reserved?
  {
    order.side.Buy? && order.kind.Market? && Cost(p.trades) > r.cash
  }

  function PlaceOrder(w: World, req: OrderRequest): (World, Reply) {
    var order := OrderOf(req);
    if req.playerId !in w.ledger.players then (w, Refused(UnknownPlayer))
    else if req.symbol == "" || req.quantity <= 0 then (w, Refused(BadRequest))
    else if req.side.Buy? && req.price <= 0 && req.symbol !in w.books then (w, Refused(UnknownSymbol))
    else
      var player := w.ledger.players[req.playerId];
      var r := Reserve(player, req.symbol, req.side, order.kind, req.price, req.quantity, req.reference);
      if !r.Reserved? then (w, Refused(NotReserved(r)))
      else if req.symbol !in w.books || !Accepted(order) then
        var back := Release(r.player, req.symbol, req.side, r.cash, r.quantity);
        (w.(ledger := w.ledger.(players := w.ledger.players[req.playerId := back])),
         Refused(if req.symbol !in w.books then UnknownSymbol else NotAccepted(Validate(order).value)))
      else
        var (book, p) := Place(w.books[req.symbol], order, req.now);
        (World(Settle(w.ledger, order, r, p), w.books[req.symbol := book],
               if Overspends(order, r, p) then w.overspent + {req.playerId} else w.overspent),
         PlacedOrder(p))
  }

  function CancelOrder(w: World, playerId: string, symbol: string, orderId: string): (World, Reply) {
    if playerId !in w.ledger.players then (w, Refused(UnknownPlayer))
    else if orderId !in w.ledger.open then (w, Refused(UnknownOrder))
    else if w.ledger.open[orderId].order.playerId != playerId then (w, Refused(ForeignOrder))
    else
      var s := if symbol == "" then w.ledger.open[orderId].order.symbol else symbol;
      if s !in w.books then (w, Refused(UnknownSymbol))
      else
        var (book, found) := Cancel(w.books[s], orderId);
        if found.None? then (w, Refused(UnknownOrder))
        else (w.(ledger := Cleanup(w.ledger, orderId), books := w.books[s := book]), CancelledOrder(found.value))
  }

  /** Debits the quoted price; a failed purchase is refunded. */
  function BuyIntel(w: World, playerId: string, price: int, sold: bool): (World, Reply) {
    if playerId !in w.ledger.players then (w, Refused(UnknownPlayer))
    else
      var player := w.ledger.players[playerId];
      var available := player.cash - player.reservedCash;
      if available < price then (w, Refused(TooExpensive(price, available)))
      else if !sold then (w, Refused(NotSold))
      else (w.(ledger := w.ledger.(players := w.ledger.players[playerId := player.(cash := player.cash - price)])),
            Bought(price))
  }

  datatype Action =
    | DoPlaceOrder(req: OrderRequest)
    | DoCancelOrder(playerId: string, symbol: string, orderId: string)
    | DoBuyIntel(playerId: string, price: int, sold: bool)

  function Step(w: World, a: Action): World {
    match a
    case DoPlaceOrder(req) => PlaceOrder(w, req).0
    case DoCancelOrder(playerId, symbol, orderId) => CancelOrder(w, playerId, symbol, orderId).0
    case DoBuyIntel(playerId, price, sold) => BuyIntel(w, playerId, price, sold).0
  }

  /** Order ids are fresh. */
  predicate Legal(w: World, a: Action) {
    a.DoPlaceOrder? ==> a.req.id != "" && a.req.id !in w.ledger.open
  }

  function Run(w: World, actions: seq<Action>): World
    decreases |actions|
  {
    if actions == [] then w else Run(Step(w, actions[0]), actions[1..])
  }

  predicate LegalRun(w: World, actions: seq<Action>)
    decreases |actions|
  {
    actions == [] || (Legal(w, actions[0]) && LegalRun(Step(w, actions[0]), actions[1..]))
  }

  // ---- The two order indexes ----

  /** The open orders of a symbol are exactly the orders resting in its book. */
  predicate BookAgrees(open: map<string, OpenOrder>, v: BookView, symbol: string) {
    && Listed(open, v.bids, symbol)
    && Listed(open, v.asks, symbol)
    && forall id :: id in open && open[id].order.symbol == symbol ==> HasId(SideOf(v, open[id].order.side), id)
  }

  predicate Agree(open: map<string, OpenOrder>, books: map<string, BookView>) {
    && (forall s :: s in books ==> BookAgrees(open, books[s], s))
    && (forall id :: id in open ==> open[id].order.symbol in books)
  }

  predicate BooksValid(books: map<string, BookView>) {
    forall s :: s in books ==> Valid(books[s])
  }

  /** What holds between any two actions. */
  ghost predicate WorldOk(w: World) {
    && Settled(w.ledger)
    && BooksValid(w.books)
    && Agree(w.ledger.open, w.books)
    && AllSolvent(w.ledger, w.overspent)
  }
}
