/** What settlement keeps: one lemma per invariant and per step of a trade. */
module Invariants {
  import opened Orders
  import opened Lots
  import opened Sums
  import opened Ledger

  // ---- What the open orders of a player hold ----

  /** The cash an order of player p holds. */
  ghost function CashHeld(p: string): OpenOrder -> int {
    (o: OpenOrder) => if o.order.playerId == p then o.reservedCash else 0
  }

  /** The shares of a symbol that a sell of player p still offers. */
  ghost function StockHeld(p: string, symbol: string): OpenOrder -> int {
    (o: OpenOrder) => if o.order.playerId == p && o.order.side.Sell? && o.order.symbol == symbol then o.order.remaining else 0
  }

  /** What a buy of player p may still cost: its notional, or the cash it holds when that is more. */
  ghost function Weight(p: string): OpenOrder -> int {
    (o: OpenOrder) =>
      if o.order.playerId == p && o.order.side.Buy? then Max(o.reservedCash, o.order.price * o.order.remaining) else 0
  }

  /** The same while order id is in flight: what it may still cost is given. */
  ghost function WeightIn(p: string, id: string, due: int): OpenOrder -> int {
    (o: OpenOrder) =>
      if o.order.playerId == p && o.order.side.Buy? then
        Max(o.reservedCash, if o.order.id == id then due else o.order.price * o.order.remaining)
      else 0
  }

  predicate EntryOk(o: OpenOrder) {
    && o.order.remaining >= 0
    && match o.order.side
       case Buy => o.reservedCash >= 0 && o.reservedQuantity == 0
       case Sell => o.reservedCash == 0 && o.reservedQuantity == o.order.remaining
       case OtherSide(_) => false
  }

  /** A resting order is a priced limit order, and a buy holds at most its notional. */
  predicate RestingEntry(o: OpenOrder) {
    && EntryOk(o)
    && o.order.kind.Limit? && o.order.price > 0
    && (o.order.side.Buy? ==> o.reservedCash <= o.order.price * o.order.remaining)
  }

  /** Every open order is in order; the incoming one need not be resting yet. */
  predicate Entries(st: State, incoming: string) {
    forall id :: id in st.open ==>
      && st.open[id].order.id == id
      && st.open[id].order.playerId in st.players
      && EntryOk(st.open[id])
      && (id != incoming ==> RestingEntry(st.open[id]))
  }

  /** Reserved cash is between zero and what the player's open orders hold. */
  ghost predicate CashSandwich(st: State, p: string)
    requires p in st.players
  {
    0 <= st.players[p].reservedCash <= Sum(st.open, CashHeld(p))
  }

  /** Reserved shares are exactly those offered, and the player has them. */
  ghost predicate StockExact(st: State, p: string, symbol: string)
    requires p in st.players
  {
    Get(st.players[p].reservedStocks, symbol) == Sum(st.open, StockHeld(p, symbol))
    && Get(st.players[p].reservedStocks, symbol) <= Get(st.players[p].portfolio, symbol)
  }

  /** The lots never claim more shares than the portfolio holds; owed shares have left the lots already. */
  predicate LotsCovered(player: Player, symbol: string, owed: int) {
    && Positive(LotsOf(player.lots, symbol))
    && Total(LotsOf(player.lots, symbol)) + owed <= Get(player.portfolio, symbol)
  }

  /** What open buys may still cost is covered, up to charges paid, by reserved cash and by cash. */
  ghost predicate Solvent(st: State, p: string)
    requires p in st.players
  {
    && Sum(st.open, Weight(p)) <= Get(st.paid, p) + st.players[p].reservedCash
    && Sum(st.open, Weight(p)) <= Get(st.paid, p) + st.players[p].cash
  }

  ghost predicate SolventIn(st: State, p: string, id: string, due: int)
    requires p in st.players
  {
    && Sum(st.open, WeightIn(p, id, due)) <= Get(st.paid, p) + st.players[p].reservedCash
    && Sum(st.open, WeightIn(p, id, due)) <= Get(st.paid, p) + st.players[p].cash
  }

  /** The buy side of a trade: an open buy of the buyer that accepts the price and has the quantity left. */
  predicate BuyOk(st: State, t: Trade, incoming: string) {
    && t.buyOrderId in st.open && t.buyerId in st.players && t.price > 0
    && var b := st.open[t.buyOrderId].order;
       && b.side == Buy && b.playerId == t.buyerId && b.symbol == t.symbol
       && 0 < t.quantity <= b.remaining
       && (b.kind.Limit? ==> t.price <= b.price)
       && (t.buyOrderId != incoming ==> t.price == b.price)
  }

  predicate SellOk(st: State, t: Trade) {
    && t.sellOrderId in st.open && t.sellerId in st.players && t.price > 0
    && var s := st.open[t.sellOrderId].order;
       && s.side == Sell && s.playerId == t.sellerId && s.symbol == t.symbol
       && 0 < t.quantity <= s.remaining
  }

  /** A trade between two open orders, at the price of the resting one. */
  predicate TradeOk(st: State, t: Trade, incoming: string) {
    BuyOk(st, t, incoming) && SellOk(st, t)
  }

  // ---- Entries ----

  lemma SplitNotional(price: int, remaining: int, quantity: int)
    ensures price * (remaining - quantity) == price * remaining - price * quantity
  {
  }

  lemma BuyLegKeepsEntries(st: State, t: Trade, incoming: string, charges: int)
    requires Entries(st, incoming) && BuyOk(st, t, incoming) && charges >= 0
    ensures Entries(BuyLeg(st, t, charges), incoming)
  {
    hide AfterPurchase;
    var b := st.open[t.buyOrderId];
    SplitNotional(b.order.price, b.order.remaining, t.quantity);
    var b1 := BuyLeg(st, t, charges).open[t.buyOrderId];
    assert EntryOk(b1);
    if t.buyOrderId != incoming {
      assert b.order.price * (b.order.remaining - t.quantity) >= 0;
      assert RestingEntry(b1);
    }
  }

  lemma SellLegKeepsEntries(st: State, t: Trade, incoming: string, charges: int)
    requires Entries(st, incoming) && SellOk(st, t)
    ensures Entries(SellLeg(st, t, charges), incoming)
  {
    var s1 := SellLeg(st, t, charges).open[t.sellOrderId];
    assert EntryOk(s1);
  }

  // ---- Reserved cash ----

  lemma BuyLegKeepsSandwich(st: State, t: Trade, incoming: string, charges: int, p: string)
    requires Entries(st, incoming) && BuyOk(st, t, incoming) && charges >= 0 && p in st.players
    requires CashSandwich(st, p)
    ensures CashSandwich(BuyLeg(st, t, charges), p)
  {
    hide AfterPurchase;
    var st1 := BuyLeg(st, t, charges);
    assert t.price * t.quantity > 0;
    SumUpdate(st.open, t.buyOrderId, st1.open[t.buyOrderId], CashHeld(p));
    assert forall id :: id in st1.open ==> CashHeld(p)(st1.open[id]) >= 0;
    SumNonNegative(st1.open, CashHeld(p));
  }

  lemma SellLegKeepsSandwich(st: State, t: Trade, charges: int, p: string)
    requires SellOk(st, t) && p in st.players && CashSandwich(st, p)
    ensures CashSandwich(SellLeg(st, t, charges), p)
  {
    SumUpdate(st.open, t.sellOrderId, SellLeg(st, t, charges).open[t.sellOrderId], CashHeld(p));
  }

  // ---- Reserved shares ----

  lemma BuyLegKeepsStock(st: State, t: Trade, incoming: string, charges: int, p: string, symbol: string)
    requires BuyOk(st, t, incoming) && p in st.players && StockExact(st, p, symbol)
    ensures StockExact(BuyLeg(st, t, charges), p, symbol)
  {
    hide AfterPurchase;
    SumUpdate(st.open, t.buyOrderId, BuyLeg(st, t, charges).open[t.buyOrderId], StockHeld(p, symbol));
  }

  /** What the seller's order still offers is reserved and in the portfolio. */
  lemma OfferIsCovered(st: State, incoming: string, id: string)
    requires Entries(st, incoming) && id in st.open && st.open[id].order.side == Sell
    requires StockExact(st, st.open[id].order.playerId, st.open[id].order.symbol)
    ensures var o := st.open[id].order; var p := st.players[o.playerId];
      o.remaining <= Get(p.reservedStocks, o.symbol) <= Get(p.portfolio, o.symbol)
  {
    var o := st.open[id].order;
    SumAtLeast(st.open, id, StockHeld(o.playerId, o.symbol));
  }

  /** No stock clamp fires: the seller gives up exactly the quantity sold, of portfolio and of reservation. */
  lemma SellLegIsExact(st: State, t: Trade, incoming: string, charges: int)
    requires Entries(st, incoming) && SellOk(st, t) && StockExact(st, t.sellerId, t.symbol)
    ensures var p, p1 := st.players[t.sellerId], SellLeg(st, t, charges).players[t.sellerId];
      && Get(p1.portfolio, t.symbol) == Get(p.portfolio, t.symbol) - t.quantity
      && Get(p1.reservedStocks, t.symbol) == Get(p.reservedStocks, t.symbol) - t.quantity
    ensures var o, o1 := st.open[t.sellOrderId], SellLeg(st, t, charges).open[t.sellOrderId];
      o1.reservedQuantity == o.reservedQuantity - t.quantity
  {
    OfferIsCovered(st, incoming, t.sellOrderId);
  }

  lemma SellLegKeepsStock(st: State, t: Trade, incoming: string, charges: int, p: string, symbol: string)
    requires Entries(st, incoming) && SellOk(st, t) && StockExact(st, t.sellerId, t.symbol)
    requires p in st.players && StockExact(st, p, symbol)
    ensures StockExact(SellLeg(st, t, charges), p, symbol)
  {
    SellLegIsExact(st, t, incoming, charges);
    SumUpdate(st.open, t.sellOrderId, SellLeg(st, t, charges).open[t.sellOrderId], StockHeld(p, symbol));
  }

  // ---- Lots ----

  lemma TakeLotsLeavesRoom(st: State, t: Trade, incoming: string, p: string, symbol: string)
    requires Entries(st, incoming) && SellOk(st, t) && StockExact(st, t.sellerId, t.symbol)
    requires p in st.players && LotsCovered(st.players[p], symbol, 0)
    ensures LotsCovered(TakeLots(st, t).players[p], symbol, if p == t.sellerId && symbol == t.symbol then t.quantity else 0)
  {
    OfferIsCovered(st, incoming, t.sellOrderId);
    ConsumeTotal(LotsOf(st.players[p].lots, symbol), t.quantity);
  }

  lemma {:induction false} TotalAppend(lots: seq<Lot>, lot: Lot)
    ensures Total(lots + [lot]) == Total(lots) + lot.quantity
  {
    if lots == [] {
      assert lots + [lot] == [lot] && [lot][1..] == [];
    } else {
      assert (lots + [lot])[1..] == lots[1..] + [lot];
      TotalAppend(lots[1..], lot);
    }
  }

  lemma BuyLegKeepsLots(st: State, t: Trade, charges: int, p: string, symbol: string, owed: int)
    requires t.buyerId in st.players && t.quantity > 0 && p in st.players && LotsCovered(st.players[p], symbol, owed)
    ensures LotsCovered(BuyLeg(st, t, charges).players[p], symbol, owed)
  {
    TotalAppend(LotsOf(st.players[t.buyerId].lots, t.symbol), Lot(t.quantity, t.price, t.executedAt));
  }

  lemma SellLegSettlesLots(st: State, t: Trade, charges: int, p: string, symbol: string)
    requires t.sellerId in st.players && t.quantity > 0 && p in st.players
    requires LotsCovered(st.players[p], symbol, if p == t.sellerId && symbol == t.symbol then t.quantity else 0)
    ensures LotsCovered(SellLeg(st, t, charges).players[p], symbol, 0)
  {
  }

  // ---- Solvency ----

  lemma LimitCostFalls(limit: int, remaining: int, quantity: int, price: int)
    requires 0 < price <= limit && 0 < quantity <= remaining
    ensures 0 <= limit * (remaining - quantity) <= limit * remaining - price * quantity
  {
    SplitNotional(limit, remaining, quantity);
    assert price * quantity <= limit * quantity;
    assert limit * (remaining - quantity) >= 0;
  }

  /** Only the order in flight weighs differently when what it may still cost is put anew. */
  lemma DueChanges(st: State, p: string, id: string, due: int, due': int)
    requires Entries(st, id) && id in st.open
    ensures Sum(st.open, WeightIn(p, id, due')) - WeightIn(p, id, due')(st.open[id])
         == Sum(st.open, WeightIn(p, id, due)) - WeightIn(p, id, due)(st.open[id])
  {
    SumRemove(st.open, id, WeightIn(p, id, due));
    SumRemove(st.open, id, WeightIn(p, id, due'));
    SumSame(st.open - {id}, WeightIn(p, id, due), WeightIn(p, id, due'));
  }

  /** The order that buys weighs less by the traded cost. */
  lemma BuyingWeighsLess(o: OpenOrder, t: Trade, charges: int, p: string, incoming: string, due: int, due': int)
    requires o.order.side.Buy? && o.order.playerId == t.buyerId && o.reservedCash >= 0 && charges >= 0
    requires t.price > 0 && 0 < t.quantity <= o.order.remaining
    requires if o.order.id == incoming then p == t.buyerId ==> 0 <= due' <= due - t.price * t.quantity
             else due' == due && t.price <= o.order.price
    ensures WeightIn(p, incoming, due')(FilledBuy(o, t, t.price * t.quantity + charges))
         <= WeightIn(p, incoming, due)(o) - if p == t.buyerId then t.price * t.quantity else 0
  {
    var cost := t.price * t.quantity;
    assert cost > 0;
    if o.order.id != incoming {
      LimitCostFalls(o.order.price, o.order.remaining, t.quantity, t.price);
    }
  }

  lemma BuyLegWeighsLess(st: State, t: Trade, incoming: string, charges: int, p: string, due: int, due': int)
    requires Entries(st, incoming) && BuyOk(st, t, incoming) && charges >= 0
    requires if t.buyOrderId == incoming then p == t.buyerId ==> 0 <= due' <= due - t.price * t.quantity else due' == due
    ensures Sum(BuyLeg(st, t, charges).open, WeightIn(p, incoming, due'))
         <= Sum(st.open, WeightIn(p, incoming, due)) - if p == t.buyerId then t.price * t.quantity else 0
  {
    var o := st.open[t.buyOrderId];
    assert EntryOk(o) && o.order.id == t.buyOrderId;
    if t.buyOrderId != incoming { assert RestingEntry(o); }
    BuyingWeighsLess(o, t, charges, p, incoming, due, due');
    SumUpdate(st.open, t.buyOrderId, FilledBuy(o, t, t.price * t.quantity + charges), WeightIn(p, incoming, due'));
    if t.buyOrderId == incoming { DueChanges(st, p, incoming, due, due'); }
    hide Entries, EntryOk, RestingEntry, WeightIn, FilledBuy, PaidBuyer;
  }

  lemma BuyLegKeepsSolvent(st: State, t: Trade, incoming: string, charges: int, p: string, due: int, due': int)
    requires Entries(st, incoming) && BuyOk(st, t, incoming) && charges >= 0 && p in st.players
    requires if t.buyOrderId == incoming then p == t.buyerId ==> 0 <= due' <= due - t.price * t.quantity else due' == due
    requires SolventIn(st, p, incoming, due)
    ensures SolventIn(BuyLeg(st, t, charges), p, incoming, due')
  {
    BuyLegWeighsLess(st, t, incoming, charges, p, due, due');
    hide Entries, WeightIn, FilledBuy, AfterPurchase;
  }

  lemma SellLegKeepsSolvent(st: State, t: Trade, charges: int, p: string, incoming: string, due: int)
    requires SellOk(st, t) && charges >= 0 && p in st.players && SolventIn(st, p, incoming, due)
    ensures SolventIn(SellLeg(st, t, charges), p, incoming, due)
  {
    assert t.price * t.quantity > 0;
    SumUpdate(st.open, t.sellOrderId, SellLeg(st, t, charges).open[t.sellOrderId], WeightIn(p, incoming, due));
  }

  // ---- All of it, over one trade ----

  ghost predicate PlayerOk(st: State, p: string)
    requires p in st.players
  {
    CashSandwich(st, p) && forall s :: StockExact(st, p, s) && LotsCovered(st.players[p], s, 0)
  }

  ghost predicate LedgerOk(st: State, incoming: string) {
    Entries(st, incoming) && forall p :: p in st.players ==> PlayerOk(st, p)
  }

  /** Players outside the set are solvent up to charges. */
  ghost predicate AllSolvent(st: State, overspent: set<string>) {
    forall p :: p in st.players && p !in overspent ==> Solvent(st, p)
  }

  /** The same while order id is in flight and may still cost what is due. */
  ghost predicate AllSolventIn(st: State, overspent: set<string>, id: string, due: int) {
    forall p :: p in st.players && p !in overspent ==> SolventIn(st, p, id, due)
  }

  /** An order whose notional is due weighs as if it rested. */
  lemma RestingWeighsTheSame(st: State, overspent: set<string>, id: string, incoming: string, due: int)
    requires Entries(st, incoming)
    requires id in st.open && st.open[id].order.side.Buy? ==> due == st.open[id].order.price * st.open[id].order.remaining
    ensures AllSolvent(st, overspent) <==> AllSolventIn(st, overspent, id, due)
  {
    forall p | p in st.players ensures Solvent(st, p) <==> SolventIn(st, p, id, due) {
      SumSame(st.open, Weight(p), WeightIn(p, id, due));
    }
  }

  lemma LegsKeepStockAndLots(st: State, st1: State, st2: State, st3: State, t: Trade, incoming: string,
                             bc: int, sc: int, p: string, s: string)
    requires Entries(st, incoming) && TradeOk(st, t, incoming) && p in st.players && st1 == TakeLots(st, t)
    requires BuyOk(st1, t, incoming) && st2 == BuyLeg(st1, t, bc)
    requires Entries(st2, incoming) && SellOk(st2, t) && st3 == SellLeg(st2, t, sc)
    requires StockExact(st, t.sellerId, t.symbol) && StockExact(st1, t.sellerId, t.symbol)
    requires StockExact(st1, p, s) && LotsCovered(st.players[p], s, 0)
    ensures StockExact(st3, p, s) && LotsCovered(st3.players[p], s, 0)
  {
    hide Entries, TradeOk, BuyOk, SellOk, BuyLeg, SellLeg, TakeLots, StockExact, LotsCovered;
    KnownThroughout(st, st1, st2, t, incoming, bc, p);
    BuyLegKeepsStock(st1, t, incoming, bc, t.sellerId, t.symbol);
    BuyLegKeepsStock(st1, t, incoming, bc, p, s);
    SellLegKeepsStock(st2, t, incoming, sc, p, s);
    TakeLotsLeavesRoom(st, t, incoming, p, s);
    BuyLegKeepsLots(st1, t, bc, p, s, if p == t.sellerId && s == t.symbol then t.quantity else 0);
    SellLegSettlesLots(st2, t, sc, p, s);
  }

  lemma KnownThroughout(st: State, st1: State, st2: State, t: Trade, incoming: string, bc: int, p: string)
    requires TradeOk(st, t, incoming) && p in st.players && st1 == TakeLots(st, t) && st2 == BuyLeg(st1, t, bc)
    ensures SellOk(st, t) && t.quantity > 0
    ensures t.buyerId in st1.players && t.sellerId in st1.players && p in st1.players
    ensures t.sellerId in st2.players && p in st2.players && p in SellLeg(st2, t, 0).players
    ensures forall c :: p in SellLeg(st2, t, c).players
  {
  }

  /** What the stages of a trade keep for a player's cash and for every entry. */
  lemma StagesKeep(st: State, st1: State, st2: State, st3: State, t: Trade, incoming: string, bc: int, sc: int, p: string)
    requires Entries(st, incoming) && TradeOk(st, t, incoming) && p in st.players && bc >= 0 && sc >= 0
    requires st1 == TakeLots(st, t) && st2 == BuyLeg(st1, t, bc) && st3 == SellLeg(st2, t, sc)
    requires CashSandwich(st, p) && forall s :: StockExact(st, p, s)
    ensures BuyOk(st1, t, incoming) && Entries(st2, incoming) && SellOk(st2, t)
    ensures p in st3.players && CashSandwich(st3, p) && forall s :: StockExact(st1, p, s)
  {
    hide Entries, TradeOk, BuyOk, SellOk, BuyLeg, SellLeg, TakeLots, CashSandwich, StockExact;
    KnownThroughout(st, st1, st2, t, incoming, bc, p);
    TakeLotsKeeps(st, t, incoming, p);
    OkParts(st1, t, incoming);
    BuyLegKeepsSandwich(st1, t, incoming, bc, p);
    BuyLegKeepsEntries(st1, t, incoming, bc);
    BuyLegKeepsSell(st1, t, incoming, bc);
    SellLegKeepsSandwich(st2, t, sc, p);
  }

  lemma TradeKeepsPlayer(st: State, t: Trade, incoming: string, market: bool, p: string)
    requires LedgerOk(st, incoming) && TradeOk(st, t, incoming) && p in st.players
    ensures PlayerOk(ApplyTrade(st, t, incoming, market), p)
  {
    var bc, sc := BuyerCharges(t, incoming, market), TradeSellerCharges(st, t, incoming, market);
    assert PlayerOk(st, t.sellerId) && PlayerOk(st, p);
    var st1 := TakeLots(st, t);
    var st2 := BuyLeg(st1, t, bc);
    var st3 := SellLeg(st2, t, sc);
    hide LedgerOk, Entries, TradeOk, BuyOk, SellOk, BuyLeg, SellLeg, TakeLots, CashSandwich, StockExact, LotsCovered;
    StagesKeep(st, st1, st2, st3, t, incoming, bc, sc, p);
    StagesKeep(st, st1, st2, st3, t, incoming, bc, sc, t.sellerId);
    forall s ensures StockExact(st3, p, s) && LotsCovered(st3.players[p], s, 0) {
      LegsKeepStockAndLots(st, st1, st2, st3, t, incoming, bc, sc, p, s);
    }
  }

  lemma OkParts(st: State, t: Trade, incoming: string)
    requires TradeOk(st, t, incoming)
    ensures BuyOk(st, t, incoming) && SellOk(st, t)
  {
  }

  lemma TakeLotsKeeps(st: State, t: Trade, incoming: string, p: string)
    requires Entries(st, incoming) && TradeOk(st, t, incoming) && p in st.players
    requires CashSandwich(st, p) && forall s :: StockExact(st, p, s)
    ensures var st1 := TakeLots(st, t);
      && Entries(st1, incoming) && TradeOk(st1, t, incoming) && t.quantity > 0
      && CashSandwich(st1, p) && forall s :: StockExact(st1, p, s)
  {
    hide AfterSale;
    var st1 := TakeLots(st, t);
    forall s ensures StockExact(st1, p, s) {
      assert StockExact(st, p, s);
    }
  }

  lemma BuyLegKeepsSell(st: State, t: Trade, incoming: string, charges: int)
    requires TradeOk(st, t, incoming)
    ensures SellOk(BuyLeg(st, t, charges), t)
  {
  }

  /** A trade keeps every entry in order, reserved cash sandwiched, reserved shares exact and lots covered. */
  lemma TradeKeepsLedger(st: State, t: Trade, incoming: string, market: bool)
    requires LedgerOk(st, incoming) && TradeOk(st, t, incoming)
    ensures LedgerOk(ApplyTrade(st, t, incoming, market), incoming)
  {
    var bc, sc := BuyerCharges(t, incoming, market), TradeSellerCharges(st, t, incoming, market);
    var st1 := TakeLots(st, t);
    TakeLotsKeepsEntries(st, t, incoming);
    BuyLegKeepsEntries(st1, t, incoming, bc);
    BuyLegKeepsSell(st1, t, incoming, bc);
    SellLegKeepsEntries(BuyLeg(st1, t, bc), t, incoming, sc);
    forall p | p in st.players ensures PlayerOk(ApplyTrade(st, t, incoming, market), p) {
      TradeKeepsPlayer(st, t, incoming, market, p);
    }
  }

  lemma TakeLotsKeepsEntries(st: State, t: Trade, incoming: string)
    requires Entries(st, incoming) && TradeOk(st, t, incoming)
    ensures Entries(TakeLots(st, t), incoming) && TradeOk(TakeLots(st, t), t, incoming)
  {
    hide AfterSale;
  }

  /** A trade keeps everyone outside the set solvent, as long as what is due on an incoming buy covers its cost. */
  lemma TradeKeepsSolvent(st: State, t: Trade, incoming: string, market: bool, overspent: set<string>, due: int, due': int)
    requires Entries(st, incoming) && TradeOk(st, t, incoming) && AllSolventIn(st, overspent, incoming, due)
    requires if t.buyOrderId == incoming then t.buyerId !in overspent ==> 0 <= due' <= due - t.price * t.quantity
             else due' == due
    ensures AllSolventIn(ApplyTrade(st, t, incoming, market), overspent, incoming, due')
  {
    var bc, sc := BuyerCharges(t, incoming, market), TradeSellerCharges(st, t, incoming, market);
    assert bc >= 0 && sc >= 0;
    var st1 := TakeLots(st, t);
    var st2 := BuyLeg(st1, t, bc);
    TakeLotsKeepsEntries(st, t, incoming);
    BuyLegKeepsSell(st1, t, incoming, bc);
    forall p | p in st.players && p !in overspent ensures SolventIn(SellLeg(st2, t, sc), p, incoming, due') {
      assert SolventIn(st, p, incoming, due);
      assert SolventIn(st1, p, incoming, due);
      BuyLegKeepsSolvent(st1, t, incoming, bc, p, due, due');
      SellLegKeepsSolvent(st2, t, sc, p, incoming, due');
    }
  }

  // ---- Conservation ----

  ghost function CashOf(): Player -> int { (p: Player) => p.cash }

  ghost function SharesOf(symbol: string): Player -> int { (p: Player) => Get(p.portfolio, symbol) }

  ghost function TotalCash(st: State): int { Sum(st.players, CashOf()) }

  ghost function TotalShares(st: State, symbol: string): int { Sum(st.players, SharesOf(symbol)) }

  ghost function AmountOf(): int -> int { (amount: int) => amount }

  /** All charges ever paid. */
  ghost function TotalPaid(st: State): int { Sum(st.paid, AmountOf()) }

  lemma TakeLotsTotals(st: State, t: Trade, symbol: string)
    requires t.sellerId in st.players
    ensures TotalCash(TakeLots(st, t)) == TotalCash(st) && TotalShares(TakeLots(st, t), symbol) == TotalShares(st, symbol)
    ensures TotalPaid(TakeLots(st, t)) == TotalPaid(st)
  {
    hide AfterSale;
    SumUpdate(st.players, t.sellerId, TakeLots(st, t).players[t.sellerId], CashOf());
    SumUpdate(st.players, t.sellerId, TakeLots(st, t).players[t.sellerId], SharesOf(symbol));
  }

  lemma BuyLegTotals(st: State, t: Trade, charges: int, symbol: string)
    requires t.buyerId in st.players
    ensures TotalCash(BuyLeg(st, t, charges)) == TotalCash(st) - t.price * t.quantity - charges
    ensures TotalPaid(BuyLeg(st, t, charges)) == TotalPaid(st) + charges
    ensures TotalShares(BuyLeg(st, t, charges), symbol)
         == TotalShares(st, symbol) + if symbol == t.symbol then t.quantity else 0
  {
    hide AfterPurchase;
    SumUpdate(st.players, t.buyerId, BuyLeg(st, t, charges).players[t.buyerId], CashOf());
    SumUpdate(st.paid, t.buyerId, Get(st.paid, t.buyerId) + charges, AmountOf());
    SumUpdate(st.players, t.buyerId, BuyLeg(st, t, charges).players[t.buyerId], SharesOf(symbol));
  }

  lemma SellLegCash(st: State, t: Trade, charges: int)
    requires t.sellerId in st.players
    ensures TotalCash(SellLeg(st, t, charges)) == TotalCash(st) + t.price * t.quantity - charges
    ensures TotalPaid(SellLeg(st, t, charges)) == TotalPaid(st) + charges
  {
    SumUpdate(st.players, t.sellerId, SellLeg(st, t, charges).players[t.sellerId], CashOf());
    SumUpdate(st.paid, t.sellerId, Get(st.paid, t.sellerId) + charges, AmountOf());
  }

  lemma SellLegShares(st: State, t: Trade, incoming: string, charges: int, symbol: string)
    requires Entries(st, incoming) && SellOk(st, t) && StockExact(st, t.sellerId, t.symbol)
    ensures TotalShares(SellLeg(st, t, charges), symbol)
         == TotalShares(st, symbol) - if symbol == t.symbol then t.quantity else 0
  {
    SellLegIsExact(st, t, incoming, charges);
    hide Entries, SellOk, StockExact;
    SumUpdate(st.players, t.sellerId, SellLeg(st, t, charges).players[t.sellerId], SharesOf(symbol));
  }

  /** A trade takes out of circulation exactly its charges, and moves shares without making or losing any,
      also when buyer and seller are the same player. */
  lemma TradeConserves(st: State, t: Trade, incoming: string, market: bool, symbol: string)
    requires LedgerOk(st, incoming) && TradeOk(st, t, incoming)
    ensures var st' := ApplyTrade(st, t, incoming, market);
      && TotalCash(st') == TotalCash(st) - BuyerCharges(t, incoming, market) - TradeSellerCharges(st, t, incoming, market)
      && TotalPaid(st') == TotalPaid(st) + BuyerCharges(t, incoming, market) + TradeSellerCharges(st, t, incoming, market)
      && TotalShares(st', symbol) == TotalShares(st, symbol)
  {
    var bc, sc := BuyerCharges(t, incoming, market), TradeSellerCharges(st, t, incoming, market);
    var st1 := TakeLots(st, t);
    assert PlayerOk(st, t.sellerId);
    TakeLotsKeeps(st, t, incoming, t.sellerId);
    OkParts(st1, t, incoming);
    hide LedgerOk, PlayerOk, Entries, TradeOk, CashSandwich, StockExact, BuyLeg, SellLeg, TakeLots, TotalCash, TotalShares,
         TotalPaid, BuyerCharges, TradeSellerCharges;
    KnownThroughout(st, st1, BuyLeg(st1, t, bc), t, incoming, bc, t.sellerId);
    BuyLegKeepsEntries(st1, t, incoming, bc);
    BuyLegKeepsSell(st1, t, incoming, bc);
    BuyLegKeepsStock(st1, t, incoming, bc, t.sellerId, t.symbol);
    TakeLotsTotals(st, t, symbol);
    BuyLegTotals(st1, t, bc, symbol);
    SellLegCash(BuyLeg(st1, t, bc), t, sc);
    SellLegShares(BuyLeg(st1, t, bc), t, incoming, sc, symbol);
  }
}
