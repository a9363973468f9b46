/** What is reserved for an order, what its trades may cost against it, and what is given back. */
module Quotes {
  import opened Orders
  import opened Lots
  import opened Charges
  import opened Matching
  import opened Ledger
  import opened Settlement
  import opened Arena
  import opened Placing
  import opened Runs
  import opened Fills
  import opened Reports

  // ---- What is reserved ----

  /** The price a buy is reserved at: its own, else the reference price, else 100; for a market order a quarter more,
      rounded down. */
  function QuotePrice(kind: OrderType, price: int, reference: int): int {
    var p := if price > 0 then price else if reference > 0 then reference else 100;
    if kind == Market then (5 * p) / 4 else p
  }

  /** A single trade of the whole order at that price. */
  function QuoteTrade(id: string, kind: OrderType, price: int, qty: int, reference: int): Trade {
    Trade("", QuotePrice(kind, price, reference), qty, Buy, id, "", "", "", 0)
  }

  /** A buy is granted if and only if the free cash pays for a single trade of all of it at the quote price, and then
      exactly that much is reserved; otherwise the refusal says what was needed and what was free. */
  lemma BuyIsReservedAsQuoted(player: Player, symbol: string, kind: OrderType, price: int, qty: int, reference: int, id: string)
    ensures var need := Debit(QuoteTrade(id, kind, price, qty, reference), id, kind == Market);
      var free := player.cash - player.reservedCash;
      Reserve(player, symbol, Buy, kind, price, qty, reference)
      == if free >= need then Reserved(player.(reservedCash := player.reservedCash + need), need, 0) else NoFunds(need, free)
  {
    hide ExchangeFee, MarketSurcharge;
  }

  /** In numbers: the notional, the least integer covering 10 basis points of it, and for a market order the least
      integer covering 15 more. */
  lemma QuoteInNumbers(id: string, kind: OrderType, price: int, qty: int, reference: int) returns (fee: int, surcharge: int)
    ensures var notional := QuotePrice(kind, price, reference) * qty;
      && Debit(QuoteTrade(id, kind, price, qty, reference), id, kind == Market) == notional + fee + surcharge
      && LeastCovering(fee, notional, 10)
      && (if kind == Market then LeastCovering(surcharge, notional, 15) else surcharge == 0)
  {
    var notional := QuotePrice(kind, price, reference) * qty;
    RatesInNumbers(notional);
    fee := ExchangeFee(notional);
    surcharge := if kind == Market then MarketSurcharge(notional) else 0;
    hide LeastCovering, QuotePrice, ExchangeFee, MarketSurcharge;
  }

  /** A sell is granted if and only if that many shares are free, and then exactly those are reserved. */
  lemma SellIsReserved(player: Player, symbol: string, kind: OrderType, price: int, qty: int, reference: int)
    ensures var r := Reserve(player, symbol, Sell, kind, price, qty, reference);
      var free := Get(player.portfolio, symbol) - Get(player.reservedStocks, symbol);
      if free >= qty then
        && r.Reserved? && r.cash == 0 && r.quantity == qty
        && r.player == player.(reservedStocks := r.player.reservedStocks)
        && (forall s ::
              Get(r.player.reservedStocks, s) == Get(player.reservedStocks, s) + if s == symbol then qty else 0)
      else r == NoStock(qty, free)
  {
  }

  // ---- What trades cost against it ----

  lemma {:induction false} MarketDebits(trades: seq<Trade>, id: string)
    requires forall i :: 0 <= i < |trades| ==> trades[i].buyOrderId == id
    ensures |Costs(trades)| == |trades|
    ensures Debits(trades, id, true)
         == TotalAmount(Costs(trades)) + TotalCharge(Costs(trades), EXCHANGE_FEE_BPS)
                                       + TotalCharge(Costs(trades), MARKET_SURCHARGE_BPS)
  {
    if trades != [] {
      MarketDebits(trades[1..], id);
      assert Costs(trades)[1..] == Costs(trades[1..]);
    }
  }

  lemma {:induction false} CostIsTotal(trades: seq<Trade>)
    ensures Cost(trades) == TotalAmount(Costs(trades))
  {
    if trades != [] {
      CostIsTotal(trades[1..]);
      assert Costs(trades)[1..] == Costs(trades[1..]);
    }
  }

  /** What n fills may cost beyond one fill of the same cost, by rounding alone. */
  function Rounding(n: nat, market: bool): int {
    n - (n + 999) / 1000 + if market then n - (n + 1999) / 2000 else 0
  }

  lemma SurchargeMonotone(a: int, b: int)
    requires 0 <= a <= b
    ensures MarketSurcharge(a) <= MarketSurcharge(b)
  {
    ChargeMonotone(a, b, MARKET_SURCHARGE_BPS);
  }

  /** Trades of no more than the quantity reserved for, at prices no higher than the quote, cost no more than was
      reserved, and with their charges exceed it by rounding only. */
  lemma FillsWithinQuote(trades: seq<Trade>, id: string, kind: OrderType, price: int, qty: int, reference: int)
    requires forall i :: 0 <= i < |trades| ==>
      trades[i].buyOrderId == id && 0 < trades[i].price <= QuotePrice(kind, price, reference) && trades[i].quantity > 0
    requires FilledQuantity(trades) <= qty && qty >= 0
    ensures var reserved := Debit(QuoteTrade(id, kind, price, qty, reference), id, kind == Market);
      && Cost(trades) <= reserved
      && Debits(trades, id, kind == Market) <= reserved + Rounding(|trades|, kind == Market)
  {
    var quote := QuotePrice(kind, price, reference);
    CostsWithinLimit(trades, quote);
    CostIsTotal(trades);
    DebitsAreCostsAndFees(trades, id);
    MarketDebits(trades, id);
    FeeRoundingBound(Costs(trades));
    SurchargeRoundingBound(Costs(trades));
    QuoteIsPositive(kind, price, reference);
    QuoteParts(id, kind, price, qty, reference);
    hide Costs, Debits, Debit, FilledQuantity, TotalAmount, TotalCharge, BpsCharge, ExchangeFee, MarketSurcharge, QuotePrice, Cost;
    LimitScales(quote, FilledQuantity(trades), qty);
    FeeMonotone(TotalAmount(Costs(trades)), quote * qty);
    SurchargeMonotone(TotalAmount(Costs(trades)), quote * qty);
  }

  lemma QuoteIsPositive(kind: OrderType, price: int, reference: int)
    ensures QuotePrice(kind, price, reference) > 0
  {
  }

  lemma QuoteParts(id: string, kind: OrderType, price: int, qty: int, reference: int)
    ensures var notional := QuotePrice(kind, price, reference) * qty;
      Debit(QuoteTrade(id, kind, price, qty, reference), id, kind == Market)
      == notional + ExchangeFee(notional) + if kind == Market then MarketSurcharge(notional) else 0
  {
    hide QuotePrice, ExchangeFee, MarketSurcharge;
  }

  /** The trades of a placed buy are its own, at the asks' prices, and of no more than its quantity. */
  lemma TradesOfBuy(v: BookView, order: Order, now: int)
    requires Valid(v) && Accepted(order) && order.side == Buy
    ensures var trades := Place(v, order, now).1.trades;
      && FilledQuantity(trades) <= order.quantity
      && forall i :: 0 <= i < |trades| ==>
           && trades[i].buyOrderId == order.id && trades[i].price > 0 && trades[i].quantity > 0
           && (order.kind.Limit? ==> trades[i].price <= order.price)
  {
    PlacementReport(v, order, now);
    var trades, asks := Place(v, order, now).1.trades, v.asks;
    hide Place, Offered, Accepted;
    forall i | 0 <= i < |trades|
      ensures trades[i].buyOrderId == order.id && trades[i].price > 0 && trades[i].quantity > 0
           && (order.kind.Limit? ==> trades[i].price <= order.price)
    {
      assert RestingOk(asks[i], Sell) && StruckWith(order, asks[i], trades[i], now, i < |Place(v, order, now).1.removed|);
    }
  }

  /** A placed buy, a market one if no trade is dearer than its quote, costs no more than was reserved and debits no more
      but for rounding; it never counts as overspent. */
  lemma PlacedWithinQuote(w: World, req: OrderRequest)
    requires WorldOk(w) && Legal(w, DoPlaceOrder(req)) && PlaceOrder(w, req).1.PlacedOrder? && req.side == Buy
    requires req.kind == Market ==>
      forall t :: t in PlaceOrder(w, req).1.placement.trades ==> t.price <= QuotePrice(Market, req.price, req.reference)
    ensures var trades := PlaceOrder(w, req).1.placement.trades; var kind := OrderOf(req).kind;
      var reserved := Debit(QuoteTrade(req.id, kind, req.price, req.quantity, req.reference), req.id, kind == Market);
      && Cost(trades) <= reserved
      && Debits(trades, req.id, kind == Market) <= reserved + Rounding(|trades|, kind == Market)
      && PlaceOrder(w, req).0.overspent == w.overspent
  {
    hide WorldOk, PlaceOrder, Settle, Ready, Place, Cost, Debits, Debit, QuoteTrade, QuotePrice, FilledQuantity, Rounding;
    var order, r, v := PlacedIsReady(w, req);
    ReadyBuy(w.ledger, v, order, req.reference, r);
    TradesOfBuy(v, order, req.now);
    if order.kind.Limit? { LimitQuote(order.kind, req.price, req.reference); }
    FillsWithinQuote(PlaceOrder(w, req).1.placement.trades, req.id, order.kind, req.price, req.quantity, req.reference);
    BuyIsReservedAsQuoted(w.ledger.players[req.playerId], req.symbol, order.kind, req.price, req.quantity, req.reference, req.id);
  }

  /** A placement counts its player as overspent if and only if it is a market buy whose trades cost more than was reserved
      for it. */
  lemma OverspentExactly(w: World, req: OrderRequest)
    requires WorldOk(w) && Legal(w, DoPlaceOrder(req)) && PlaceOrder(w, req).1.PlacedOrder?
    ensures PlaceOrder(w, req).0.overspent
         == if req.side == Buy && req.kind == Market
               && Cost(PlaceOrder(w, req).1.placement.trades)
                  > Debit(QuoteTrade(req.id, Market, req.price, req.quantity, req.reference), req.id, true)
            then w.overspent + {req.playerId} else w.overspent
  {
    hide WorldOk, PlaceOrder, Settle, Ready, Place, Cost, Debit, QuoteTrade;
    var order, r, v := PlacedIsReady(w, req);
    if req.side == Buy {
      ReadyBuy(w.ledger, v, order, req.reference, r);
      BuyIsReservedAsQuoted(w.ledger.players[req.playerId], req.symbol, order.kind, req.price, req.quantity, req.reference, req.id);
    }
  }

  lemma ReadyBuy(st: State, v: BookView, order: Order, reference: int, r: ReserveResult)
    requires Ready(st, v, order, reference, r)
    ensures Valid(v) && Accepted(order) && order.playerId in st.players && r.Reserved?
    ensures (order.kind.Limit? && order.price > 0) || order.kind.Market?
    ensures r == Reserve(st.players[order.playerId], order.symbol, order.side, order.kind, order.price, order.quantity, reference)
  {
    hide Reserve, Valid, BookAgrees;
  }

  lemma LimitQuote(kind: OrderType, price: int, reference: int)
    requires kind != Market && price > 0
    ensures QuotePrice(kind, price, reference) == price
  {
  }

  // ---- What is given back ----

  /** An order that does not rest gives its owner back what it still holds: cash for a buy, down to nothing reserved, and
      shares for a sell. */
  lemma ReleaseInNumbers(player: Player, symbol: string, side: Side, cash: int, qty: int)
    ensures var after := Release(player, symbol, side, cash, qty);
      && after == player.(reservedCash := after.reservedCash, reservedStocks := after.reservedStocks)
      && after.reservedCash
         == (if side == Buy then (if cash <= player.reservedCash then player.reservedCash - cash else 0) else player.reservedCash)
      && forall s ::
           Get(after.reservedStocks, s)
           == if side == Sell && s == symbol then
                (if qty <= Get(player.reservedStocks, s) then Get(player.reservedStocks, s) - qty else 0)
              else Get(player.reservedStocks, s)
  {
  }

  /** An order that rests, or is normalized, keeps the lesser of what it holds and what the rest of it needs: price times
      quantity left for a buy, the quantity left for a sell; its owner gets the difference back, down to nothing. */
  lemma TrimInNumbers(player: Player, o: OpenOrder)
    ensures var (after, o') := Trim(player, o);
      var cash := if o.order.side == Buy then Min(o.reservedCash, o.order.price * o.order.remaining) else o.reservedCash;
      var qty := if o.order.side == Buy then o.reservedQuantity else Min(o.reservedQuantity, o.order.remaining);
      && o' == OpenOrder(o.order, cash, qty)
      && after == player.(reservedCash := after.reservedCash, reservedStocks := after.reservedStocks)
      && (cash == o.reservedCash ==> after.reservedCash == player.reservedCash)
      && (cash < o.reservedCash ==> after.reservedCash == Max(0, player.reservedCash - (o.reservedCash - cash)))
      && (qty == o.reservedQuantity ==> after.reservedStocks == player.reservedStocks)
      && (qty < o.reservedQuantity ==>
            after.reservedStocks == player.reservedStocks[
              o.order.symbol := Max(0, Get(player.reservedStocks, o.order.symbol) - (o.reservedQuantity - qty))])
  {
  }

  /** A removed or cancelled order is forgotten; its owner, when known, has back what it held, down to nothing reserved;
      nothing else changes. */
  lemma CleanupInNumbers(st: State, id: string)
    requires id in st.open
    ensures var o, st' := st.open[id], Cleanup(st, id);
      && st'.open == st.open - {id} && st'.paid == st.paid
      && (o.order.playerId !in st.players ==> st'.players == st.players)
      && (o.order.playerId in st.players ==>
            && o.order.playerId in st'.players
            && var a, b := st.players[o.order.playerId], st'.players[o.order.playerId];
               && st'.players == st.players[o.order.playerId := b]
               && b == a.(reservedCash := b.reservedCash, reservedStocks := b.reservedStocks)
               && b.reservedCash == (if o.reservedCash > 0 then Max(0, a.reservedCash - o.reservedCash) else a.reservedCash)
               && forall s ::
                    Get(b.reservedStocks, s)
                    == if s == o.order.symbol && o.reservedQuantity > 0 then Max(0, Get(a.reservedStocks, s) - o.reservedQuantity)
                       else Get(a.reservedStocks, s))
  {
  }

  /** Normalizing trims an order that has something left, cleans up one that has not, and ignores the rest. */
  lemma NormalizeInParts(st: State, id: string)
    ensures id !in st.open || st.open[id].order.playerId !in st.players ==> Normalize(st, id) == st
    ensures id in st.open && st.open[id].order.playerId in st.players && st.open[id].order.remaining <= 0 ==>
      Normalize(st, id) == Cleanup(st, id)
    ensures id in st.open && st.open[id].order.playerId in st.players && st.open[id].order.remaining > 0 ==>
      var (player, o) := Trim(st.players[st.open[id].order.playerId], st.open[id]);
      Normalize(st, id) == State(st.players[st.open[id].order.playerId := player], st.open[id := o], st.paid)
  {
    hide Cleanup;
  }
}
