/** What every request is answered, and what an answer says about the state: exactly when an action is granted, which
    condition a refusal names, and that a refusal changes nothing. */
module Replies {
  import opened Orders
  import opened Matching
  import opened Ledger
  import opened Invariants
  import opened Reservations
  import opened Settlement
  import opened Arena
  import opened Placing
  import opened Runs
  import opened RoundTrip
  import opened Reports
  import opened Fills
  import opened Quotes
  import opened MarketBuys

  // ---- Buying intel ----

  /** A purchase is granted if and only if the player is known, has the price free, and is sold the intel; the player's
      cash falls by exactly the price. Otherwise nothing changes, a debit being refunded, and the reply names the condition
      that fails. */
  lemma IntelAnswers(w: World, playerId: string, price: int, sold: bool)
    ensures var (w', reply) := BuyIntel(w, playerId, price, sold); var known := playerId in w.ledger.players;
      var free := if known then w.ledger.players[playerId].cash - w.ledger.players[playerId].reservedCash else 0;
      && (reply.Bought? <==> known && free >= price && sold)
      && (reply.Bought? ==>
            && reply.cost == price && playerId in w'.ledger.players
            && var a, b := w.ledger.players[playerId], w'.ledger.players[playerId];
               b.cash == a.cash - price && b == a.(cash := b.cash)
               && w' == w.(ledger := w.ledger.(players := w.ledger.players[playerId := b])))
      && (!reply.Bought? ==> w' == w)
      && (reply == Refused(UnknownPlayer) <==> !known)
      && (reply == Refused(TooExpensive(price, free)) <==> known && free < price)
      && (reply == Refused(NotSold) <==> known && free >= price && !sold)
  {
  }

  // ---- Cancelling ----

  /** An order is cancelled if and only if its owner asks, and names its symbol or none. */
  lemma CancelAnswers(w: World, playerId: string, symbol: string, orderId: string)
    requires WorldOk(w)
    ensures var reply := CancelOrder(w, playerId, symbol, orderId).1;
      var known, open := playerId in w.ledger.players, orderId in w.ledger.open;
      var own := open && w.ledger.open[orderId].order.playerId == playerId;
      var named := own && (symbol == "" || symbol == w.ledger.open[orderId].order.symbol);
      && (reply.CancelledOrder? <==> known && own && named)
      && (reply == Refused(UnknownPlayer) <==> !known)
      && (reply == Refused(ForeignOrder) <==> known && open && !own)
      && (reply == Refused(UnknownSymbol) <==> known && own && symbol != "" && symbol !in w.books)
      && (reply == Refused(UnknownOrder) <==> known && (!open || (own && !named && symbol in w.books)))
  {
    hide WorldOk, Cancel, Cleanup;
    if playerId in w.ledger.players && orderId in w.ledger.open && w.ledger.open[orderId].order.playerId == playerId {
      var o := w.ledger.open[orderId].order;
      var s := if symbol == "" then o.symbol else symbol;
      SymbolKnown(w, orderId);
      if s in w.books { CancelFindsOwn(w, s, orderId); }
    }
  }

  lemma SymbolKnown(w: World, orderId: string)
    requires WorldOk(w) && orderId in w.ledger.open
    ensures w.ledger.open[orderId].order.symbol in w.books
  {
  }

  /** The book of a symbol has an order if and only if it is open in that symbol, and hands it back as it was, cancelled. */
  lemma CancelFindsOwn(w: World, s: string, id: string)
    requires WorldOk(w) && s in w.books && id in w.ledger.open
    ensures Cancel(w.books[s], id).1.Some? <==> w.ledger.open[id].order.symbol == s
    ensures Cancel(w.books[s], id).1.Some? ==>
      Cancel(w.books[s], id).1.value == w.ledger.open[id].order.(status := Cancelled)
  {
    var v, open := w.books[s], w.ledger.open;
    assert BookAgrees(open, v, s);
    hide WorldOk;
    FoundIsListed(open, v, s, id);
    if open[id].order.symbol == s {
      ListedIsFound(v, open[id].order.side, id);
    }
    hide BookAgrees;
  }

  lemma FoundIsListed(open: map<string, OpenOrder>, v: BookView, s: string, id: string)
    requires BookAgrees(open, v, s)
    ensures Cancel(v, id).1.Some? ==>
      id in open && open[id].order.symbol == s && Cancel(v, id).1.value == open[id].order.(status := Cancelled)
  {
    hide IndexOf, Without;
    var i, j := IndexOf(v.bids, id), IndexOf(v.asks, id);
    if i < |v.bids| {
      assert SameOrder(open[v.bids[i].id].order, v.bids[i]);
    } else if j < |v.asks| {
      assert SameOrder(open[v.asks[j].id].order, v.asks[j]);
    }
  }

  lemma ListedIsFound(v: BookView, side: Side, id: string)
    requires HasId(SideOf(v, side), id)
    ensures Cancel(v, id).1.Some?
  {
    var list := SideOf(v, side);
    var k :| 0 <= k < |list| && list[k].id == id;
    assert IndexOf(list, id) <= k;
    hide IndexOf, Without;
  }

  /** The order is gone from the open orders and from its book, and is handed back cancelled; its owner has back what it
      held; nobody's cash, shares or lots change, nor any other book. */
  ghost predicate CancelsOnly(w: World, w': World, order: Order, id: string) {
    && id in w.ledger.open && order == w.ledger.open[id].order.(status := Cancelled)
    && w'.ledger == Cleanup(w.ledger, id) && w'.overspent == w.overspent
    && order.symbol in w.books && order.symbol in w'.books
    && var v, v' := w.books[order.symbol], w'.books[order.symbol];
       && w'.books == w.books[order.symbol := v']
       && OneOut(v, v', id) && v'.sequence == v.sequence + 1 && v'.lastTradePrice == v.lastTradePrice
  }

  /** A cancellation does only that, and a refused one nothing at all. */
  lemma CancelChanges(w: World, playerId: string, symbol: string, orderId: string)
    requires WorldOk(w)
    ensures var (w', reply) := CancelOrder(w, playerId, symbol, orderId);
      if reply.CancelledOrder? then CancelsOnly(w, w', reply.order, orderId) else w' == w
  {
    CancelAnswers(w, playerId, symbol, orderId);
    RefusedCancelKeeps(w, playerId, symbol, orderId);
    hide WorldOk, Cancel, CancelOrder, CancelsOnly;
    if CancelOrder(w, playerId, symbol, orderId).1.CancelledOrder? {
      var s := w.ledger.open[orderId].order.symbol;
      SymbolKnown(w, orderId);
      CancelFindsOwn(w, s, orderId);
      CancelTakesOne(w.books[s], orderId);
      CancelIs(w, playerId, symbol, orderId, s);
      CancelsJust(w, orderId, s, Cancel(w.books[s], orderId).0);
    }
  }

  lemma CancelsJust(w: World, id: string, s: string, v': BookView)
    requires id in w.ledger.open && w.ledger.open[id].order.symbol == s && s in w.books && OneOut(w.books[s], v', id)
    requires v'.sequence == w.books[s].sequence + 1 && v'.lastTradePrice == w.books[s].lastTradePrice
    ensures CancelsOnly(w, w.(ledger := Cleanup(w.ledger, id), books := w.books[s := v']),
                        w.ledger.open[id].order.(status := Cancelled), id)
  {
    hide OneOut, Cleanup;
  }

  lemma RefusedCancelKeeps(w: World, playerId: string, symbol: string, orderId: string)
    ensures CancelOrder(w, playerId, symbol, orderId).1.Refused? ==> CancelOrder(w, playerId, symbol, orderId).0 == w
    ensures CancelOrder(w, playerId, symbol, orderId).1.Refused? || CancelOrder(w, playerId, symbol, orderId).1.CancelledOrder?
  {
    hide Cancel, Cleanup;
  }

  /** The order with this id, and no other, is out of one side. */
  predicate OneOut(v: BookView, v': BookView, id: string) {
    || (exists i :: 0 <= i < |v.bids| && v.bids[i].id == id && v'.bids == v.bids[..i] + v.bids[i + 1..] && v'.asks == v.asks)
    || (exists i :: 0 <= i < |v.asks| && v.asks[i].id == id && v'.asks == v.asks[..i] + v.asks[i + 1..] && v'.bids == v.bids)
  }

  lemma CancelTakesOne(v: BookView, id: string)
    requires Cancel(v, id).1.Some?
    ensures OneOut(v, Cancel(v, id).0, id)
    ensures Cancel(v, id).0.sequence == v.sequence + 1 && Cancel(v, id).0.lastTradePrice == v.lastTradePrice
  {
    hide IndexOf;
  }

  // ---- Placing ----

  /** What the player of a request must have free: the quote of a buy, the shares of a sell. */
  predicate CanReserve(player: Player, req: OrderRequest) {
    match req.side
    case Buy =>
      player.cash - player.reservedCash
      >= Debit(QuoteTrade(req.id, OrderOf(req).kind, req.price, req.quantity, req.reference), req.id, OrderOf(req).kind == Market)
    case Sell => Get(player.portfolio, req.symbol) - Get(player.reservedStocks, req.symbol) >= req.quantity
    case OtherSide(_) => false
  }

  lemma ReservedExactly(player: Player, req: OrderRequest)
    ensures Reserve(player, req.symbol, req.side, OrderOf(req).kind, req.price, req.quantity, req.reference).Reserved?
       <==> CanReserve(player, req)
  {
    BuyIsReservedAsQuoted(player, req.symbol, OrderOf(req).kind, req.price, req.quantity, req.reference, req.id);
    SellIsReserved(player, req.symbol, OrderOf(req).kind, req.price, req.quantity, req.reference);
    hide ReserveNeed, Debit, QuoteTrade, OrderOf;
  }

  /** A request fit to be placed: symbol and quantity given, the symbol traded, side and type known, a positive price on a
      limit order, which a request without a type is. */
  predicate Placeable(w: World, req: OrderRequest) {
    && req.symbol != "" && req.quantity > 0 && req.symbol in w.books
    && (req.side == Buy || req.side == Sell)
    && (req.kind == Market || ((req.kind == OrderType.Limit || req.kind == OtherType("")) && req.price > 0))
  }

  /** An order is placed if and only if its player is known, has what it needs free, and the request is placeable. */
  lemma PlaceAnswers(w: World, req: OrderRequest)
    requires req.id != "" && req.playerId != ""
    ensures PlaceOrder(w, req).1.PlacedOrder?
       <==> req.playerId in w.ledger.players && CanReserve(w.ledger.players[req.playerId], req) && Placeable(w, req)
  {
    if req.playerId in w.ledger.players { ReservedExactly(w.ledger.players[req.playerId], req); }
    AcceptedExactly(OrderOf(req));
    hide Reserve, Release, Settle, Place, Accepted, CanReserve;
  }

  /** A refusal names the first condition that fails, in this order: the player, the request, the price of an unknown
      symbol, the reservation, the symbol, the order. */
  lemma PlaceRefusals(w: World, req: OrderRequest)
    ensures var reply := PlaceOrder(w, req).1; var known := req.playerId in w.ledger.players;
      var complete := req.symbol != "" && req.quantity > 0;
      var priced := req.side != Buy || req.price > 0 || req.symbol in w.books;
      var reserved := known && CanReserve(w.ledger.players[req.playerId], req);
      && (reply == Refused(UnknownPlayer) <==> !known)
      && (reply == Refused(BadRequest) <==> known && !complete)
      && (reply == Refused(UnknownSymbol) <==> known && complete && (!priced || (reserved && req.symbol !in w.books)))
      && (reply.Refused? && reply.why.NotReserved? <==> known && complete && priced && !reserved)
      && (reply.Refused? && reply.why.NotAccepted? <==>
            known && complete && priced && reserved && req.symbol in w.books && !Accepted(OrderOf(req)))
      && (reply.Refused? && reply.why.NotReserved? ==>
            reply.why.reason == Reserve(w.ledger.players[req.playerId], req.symbol, req.side, OrderOf(req).kind, req.price,
                                        req.quantity, req.reference))
      && (reply.Refused? && reply.why.NotAccepted? ==> Validate(OrderOf(req)) == Some(reply.why.error))
  {
    if req.playerId in w.ledger.players { ReservedExactly(w.ledger.players[req.playerId], req); }
    hide Reserve, Release, Settle, Place, Accepted, CanReserve, Validate;
  }

  /** The order a request stands for keeps its terms; without a type it is a limit order. */
  lemma RequestedOrder(req: OrderRequest)
    ensures var o := OrderOf(req);
      && o.id == req.id && o.playerId == req.playerId && o.symbol == req.symbol && o.side == req.side
      && o.price == req.price && o.quantity == req.quantity && o.remaining == 0
      && o.kind == (if req.kind == OtherType("") then OrderType.Limit else req.kind)
  {
  }

  /** A request without a type acts as a limit order: it never trades beyond its price, and rests with all it has left. */
  lemma UntypedActsAsLimit(w: World, req: OrderRequest)
    requires WorldOk(w) && Legal(w, DoPlaceOrder(req)) && PlaceOrder(w, req).1.PlacedOrder?
    requires req.kind == OtherType("") || req.kind == OrderType.Limit
    ensures var p := PlaceOrder(w, req).1.placement;
      && (forall i :: 0 <= i < |p.trades| ==>
            if req.side == Buy then p.trades[i].price <= req.price else p.trades[i].price >= req.price)
      && p.order.remaining == req.quantity - FilledQuantity(p.trades)
      && p.resting == (if p.order.remaining > 0 then Some(p.order) else None)
      && p.order.kind == OrderType.Limit && p.order.price == req.price
  {
    hide WorldOk, PlaceOrder, Settle, Place, FilledQuantity, Valid, Offered;
    var order, r, v := PlacedIsReady(w, req);
    ReadyToReport(w.ledger, v, order, req.reference, r);
    PlacementReport(v, order, req.now);
    var p := PlaceOrder(w, req).1.placement;
    forall i | 0 <= i < |p.trades|
      ensures if req.side == Buy then p.trades[i].price <= req.price else p.trades[i].price >= req.price
    {
      assert StruckWith(order, SideOf(v, Opposite(order.side))[i], p.trades[i], req.now, i < |p.removed|);
    }
  }

  lemma ReadyToReport(st: State, v: BookView, order: Order, reference: int, r: ReserveResult)
    requires Ready(st, v, order, reference, r)
    ensures Valid(v) && Accepted(order)
  {
  }
}
