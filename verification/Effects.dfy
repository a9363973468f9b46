/** What settling one trade does, field by field and in numbers, also when buyer and seller are one player. */
module Effects {
  import opened Orders
  import opened Lots
  import opened Charges
  import opened Ledger
  import opened Invariants

  /** What one trade takes in charges. */
  datatype Bill = Bill(buyerFee: int, buyerSurcharge: int, sellerFee: int, sellerSurcharge: int, flipTax: int)

  /** The least integers that cover 10 basis points of the cost on either side, 15 more for an incoming market order,
      and 35 of the price of the shares sold that were acquired within the last 300 seconds. */
  predicate Bills(b: Bill, t: Trade, lots: seq<Lot>, incoming: string, market: bool)
    requires t.quantity >= 0
  {
    var cost := t.price * t.quantity;
    && LeastCovering(b.buyerFee, cost, 10) && LeastCovering(b.sellerFee, cost, 10)
    && (if t.buyOrderId == incoming && market then LeastCovering(b.buyerSurcharge, cost, 15) else b.buyerSurcharge == 0)
    && (if t.sellOrderId == incoming && market then LeastCovering(b.sellerSurcharge, cost, 15) else b.sellerSurcharge == 0)
    && LeastCovering(b.flipTax, t.price * CountWithin(Sold(lots, t.quantity), t.executedAt, 300_000_000_000), 35)
  }

  function BuyerPays(b: Bill, t: Trade): int {
    t.price * t.quantity + b.buyerFee + b.buyerSurcharge
  }

  function SellerGets(b: Bill, t: Trade): int {
    t.price * t.quantity - b.sellerFee - b.sellerSurcharge - b.flipTax
  }

  function BillOf(st: State, t: Trade, incoming: string, market: bool): Bill {
    var cost := t.price * t.quantity;
    Bill(ExchangeFee(cost), if t.buyOrderId == incoming && market then MarketSurcharge(cost) else 0,
         ExchangeFee(cost), if t.sellOrderId == incoming && market then MarketSurcharge(cost) else 0,
         RapidFlipTax(FlipNotional(st, t)))
  }

  lemma BillIsDue(st: State, t: Trade, incoming: string, market: bool)
    requires t.sellerId in st.players && t.quantity > 0 && Positive(LotsOf(st.players[t.sellerId].lots, t.symbol))
    ensures Bills(BillOf(st, t, incoming, market), t, LotsOf(st.players[t.sellerId].lots, t.symbol), incoming, market)
    ensures var b := BillOf(st, t, incoming, market);
      && BuyerCharges(t, incoming, market) == b.buyerFee + b.buyerSurcharge
      && TradeSellerCharges(st, t, incoming, market) == b.sellerFee + b.sellerSurcharge + b.flipTax
  {
    var lots := LotsOf(st.players[t.sellerId].lots, t.symbol);
    RatesInNumbers(t.price * t.quantity);
    RatesInNumbers(FlipNotional(st, t));
    TaxableWithinFiveMinutes(lots, t.quantity, t.executedAt);
    hide LeastCovering, ExchangeFee, MarketSurcharge, RapidFlipTax, Taxable, CountWithin, Sold, Positive;
  }

  // ---- Cash ----

  /** The buyer pays the cost and its charges, the seller gets the cost less its own, a player who is both does both, and
      nobody else's cash changes; the charges are on record. */
  lemma TradeMovesCash(st: State, t: Trade, incoming: string, market: bool) returns (b: Bill)
    requires PlayersKnown(st, t) && t.quantity > 0 && Positive(LotsOf(st.players[t.sellerId].lots, t.symbol))
    ensures Bills(b, t, LotsOf(st.players[t.sellerId].lots, t.symbol), incoming, market)
    ensures forall p :: p in st.players ==>
      ApplyTrade(st, t, incoming, market).players[p].cash
      == st.players[p].cash - (if p == t.buyerId then BuyerPays(b, t) else 0) + (if p == t.sellerId then SellerGets(b, t) else 0)
    ensures forall p ::
      Get(ApplyTrade(st, t, incoming, market).paid, p)
      == Get(st.paid, p) + (if p == t.buyerId then b.buyerFee + b.buyerSurcharge else 0)
                         + (if p == t.sellerId then b.sellerFee + b.sellerSurcharge + b.flipTax else 0)
  {
    b := BillOf(st, t, incoming, market);
    BillIsDue(st, t, incoming, market);
    LegsMoveCash(st, t, BuyerCharges(t, incoming, market), TradeSellerCharges(st, t, incoming, market));
    hide Bills, BillOf, TakeLots, BuyLeg, SellLeg, BuyerCharges, TradeSellerCharges, Positive, LotsOf;
  }

  lemma LegsMoveCash(st: State, t: Trade, bc: int, sc: int)
    requires PlayersKnown(st, t)
    ensures var st' := SellLeg(BuyLeg(TakeLots(st, t), t, bc), t, sc);
      && st'.players.Keys == st.players.Keys
      && (forall p :: p in st.players ==>
            st'.players[p].cash == st.players[p].cash - (if p == t.buyerId then t.price * t.quantity + bc else 0)
                                                      + (if p == t.sellerId then t.price * t.quantity - sc else 0))
      && (forall p ::
            Get(st'.paid, p) == Get(st.paid, p) + (if p == t.buyerId then bc else 0) + (if p == t.sellerId then sc else 0))
  {
    hide AfterSale, AfterPurchase;
  }

  /** Between two players. */
  lemma TwoPlayersTrade(st: State, t: Trade, incoming: string, market: bool) returns (b: Bill)
    requires PlayersKnown(st, t) && t.quantity > 0 && Positive(LotsOf(st.players[t.sellerId].lots, t.symbol))
    requires t.buyerId != t.sellerId
    ensures Bills(b, t, LotsOf(st.players[t.sellerId].lots, t.symbol), incoming, market)
    ensures var st' := ApplyTrade(st, t, incoming, market);
      && st'.players[t.buyerId].cash == st.players[t.buyerId].cash - BuyerPays(b, t)
      && st'.players[t.sellerId].cash == st.players[t.sellerId].cash + SellerGets(b, t)
  {
    b := TradeMovesCash(st, t, incoming, market);
    hide Bills, ApplyTrade, Positive, LotsOf;
  }

  /** A player trading with itself loses the charges of both sides. */
  lemma SelfTradeCostsCharges(st: State, t: Trade, incoming: string, market: bool) returns (b: Bill)
    requires PlayersKnown(st, t) && t.quantity > 0 && Positive(LotsOf(st.players[t.sellerId].lots, t.symbol))
    requires t.buyerId == t.sellerId
    ensures Bills(b, t, LotsOf(st.players[t.sellerId].lots, t.symbol), incoming, market)
    ensures ApplyTrade(st, t, incoming, market).players[t.buyerId].cash
         == st.players[t.buyerId].cash - b.buyerFee - b.buyerSurcharge - b.sellerFee - b.sellerSurcharge - b.flipTax
  {
    b := TradeMovesCash(st, t, incoming, market);
    hide Bills, ApplyTrade, Positive, LotsOf;
  }

  // ---- Shares and reservations ----

  function AtLeast0(x: int): int { if x > 0 then x else 0 }

  /** Shares change hands in full, the seller's reserved shares fall with them, and the buyer's reserved cash falls by
      what the buyer pays, down to zero. */
  lemma TradeMovesShares(st: State, t: Trade, incoming: string, market: bool, p: string, s: string)
    requires LedgerOk(st, incoming) && TradeOk(st, t, incoming) && p in st.players
    ensures var a, b := st.players[p], ApplyTrade(st, t, incoming, market).players[p];
      var sold := if p == t.sellerId && s == t.symbol then t.quantity else 0;
      && Get(b.portfolio, s) == Get(a.portfolio, s) - sold + (if p == t.buyerId && s == t.symbol then t.quantity else 0)
      && Get(b.reservedStocks, s) == Get(a.reservedStocks, s) - sold
      && b.reservedCash
         == (if p == t.buyerId then AtLeast0(a.reservedCash - BuyerPays(BillOf(st, t, incoming, market), t)) else a.reservedCash)
      && b.playerId == a.playerId && b.username == a.username
  {
    var bc, sc := BuyerCharges(t, incoming, market), TradeSellerCharges(st, t, incoming, market);
    var st1, st2 := SellerIsExact(st, t, incoming, bc, sc);
    hide LedgerOk, TradeOk, TradeSellerCharges, BuyLeg, SellLeg, TakeLots;
    BuyerSide(st1, t, bc, p, s);
    SellerSide(st2, t, sc, p, s);
    TakingKeeps(st, t, p);
    ChargesAreBilled(st, t, incoming, market);
    TradeInLegs(st, t, incoming, market);
    hide ApplyTrade, BillOf, BuyerPays, BuyerCharges, AtLeast0;
  }

  lemma TradeInLegs(st: State, t: Trade, incoming: string, market: bool)
    requires PlayersKnown(st, t)
    ensures PlayersKnown(TakeLots(st, t), t)
    ensures var st2 := BuyLeg(TakeLots(st, t), t, BuyerCharges(t, incoming, market));
      PlayersKnown(st2, t)
      && ApplyTrade(st, t, incoming, market) == SellLeg(st2, t, TradeSellerCharges(st, t, incoming, market))
  {
    hide BuyerCharges, TradeSellerCharges, PaidBuyer, PaidSeller, FilledBuy, FilledSell, AfterSale;
  }

  lemma SellerIsExact(st: State, t: Trade, incoming: string, bc: int, sc: int) returns (st1: State, st2: State)
    requires LedgerOk(st, incoming) && TradeOk(st, t, incoming) && bc >= 0
    ensures PlayersKnown(st, t) && st1 == TakeLots(st, t) && PlayersKnown(st1, t) && st1.players.Keys == st.players.Keys
    ensures st2 == BuyLeg(st1, t, bc) && PlayersKnown(st2, t) && st2.players.Keys == st.players.Keys
    ensures t.buyOrderId in st1.open && t.sellOrderId in st2.open
    ensures var a, b := st2.players[t.sellerId], SellLeg(st2, t, sc).players[t.sellerId];
      && Get(b.portfolio, t.symbol) == Get(a.portfolio, t.symbol) - t.quantity
      && Get(b.reservedStocks, t.symbol) == Get(a.reservedStocks, t.symbol) - t.quantity
  {
    st1 := TakeLots(st, t);
    st2 := BuyLeg(st1, t, bc);
    assert PlayerOk(st, t.sellerId);
    TakeLotsKeeps(st, t, incoming, t.sellerId);
    BuyLegKeepsEntries(st1, t, incoming, bc);
    BuyLegKeepsSell(st1, t, incoming, bc);
    BuyLegKeepsStock(st1, t, incoming, bc, t.sellerId, t.symbol);
    SellLegIsExact(st2, t, incoming, sc);
    hide LedgerOk, Entries, StockExact, CashSandwich, PlayerOk, AfterSale, PaidBuyer, FilledBuy, SellLeg;
  }

  lemma ChargesAreBilled(st: State, t: Trade, incoming: string, market: bool)
    ensures BuyerPays(BillOf(st, t, incoming, market), t) == t.price * t.quantity + BuyerCharges(t, incoming, market)
  {
  }

  lemma TakingKeeps(st: State, t: Trade, p: string)
    requires t.sellerId in st.players && p in st.players
    ensures var a, b := st.players[p], TakeLots(st, t).players[p]; b == a.(lots := b.lots)
  {
    hide AfterSale;
  }

  lemma BuyerSide(st: State, t: Trade, bc: int, p: string, s: string)
    requires PlayersKnown(st, t) && p in st.players && t.buyOrderId in st.open
    ensures var a, b := st.players[p], BuyLeg(st, t, bc).players[p];
      && Get(b.portfolio, s) == Get(a.portfolio, s) + (if p == t.buyerId && s == t.symbol then t.quantity else 0)
      && b.reservedStocks == a.reservedStocks && b.playerId == a.playerId && b.username == a.username
      && b.reservedCash == if p == t.buyerId then AtLeast0(a.reservedCash - (t.price * t.quantity + bc)) else a.reservedCash
  {
    hide AfterPurchase;
  }

  lemma SellerSide(st: State, t: Trade, sc: int, p: string, s: string)
    requires PlayersKnown(st, t) && p in st.players && t.sellOrderId in st.open
    requires var a, b := st.players[t.sellerId], SellLeg(st, t, sc).players[t.sellerId];
      && Get(b.portfolio, t.symbol) == Get(a.portfolio, t.symbol) - t.quantity
      && Get(b.reservedStocks, t.symbol) == Get(a.reservedStocks, t.symbol) - t.quantity
    ensures var a, b := st.players[p], SellLeg(st, t, sc).players[p];
      var sold := if p == t.sellerId && s == t.symbol then t.quantity else 0;
      && Get(b.portfolio, s) == Get(a.portfolio, s) - sold && Get(b.reservedStocks, s) == Get(a.reservedStocks, s) - sold
      && b.reservedCash == a.reservedCash && b.playerId == a.playerId && b.username == a.username && b.lots == a.lots
  {
  }

  // ---- Lots ----

  lemma {:induction false} UnitsOfMore(lots: seq<Lot>, lot: Lot)
    ensures Units(lots + [lot]) == Units(lots) + UnitsOf(lot)
  {
    if lots == [] {
      assert lots + [lot] == [lot] && [lot][1..] == [];
    } else {
      assert (lots + [lot])[1..] == lots[1..] + [lot] && (lots + [lot])[0] == lots[0];
      UnitsOfMore(lots[1..], lot);
    }
  }

  /** The shares sold leave the front of the seller's queue, and the shares bought join the end of the buyer's with the
      price and the time of the trade; all other queues stay. */
  lemma TradeMovesLots(st: State, t: Trade, incoming: string, market: bool, p: string, s: string)
    requires PlayersKnown(st, t) && p in st.players && t.quantity > 0
    requires Positive(LotsOf(st.players[t.sellerId].lots, t.symbol))
    ensures var before := Units(LotsOf(st.players[p].lots, s));
      var kept := if p == t.sellerId && s == t.symbol then before[Min(t.quantity, |before|)..] else before;
      Units(LotsOf(ApplyTrade(st, t, incoming, market).players[p].lots, s))
      == if p == t.buyerId && s == t.symbol then kept + seq(t.quantity, _ => Share(t.price, t.executedAt)) else kept
  {
    var st1 := TakeLots(st, t);
    ConsumeDropsOldestShares(LotsOf(st.players[t.sellerId].lots, t.symbol), t.quantity);
    hide Consume, Units, BuyerCharges, TradeSellerCharges, Positive;
    LotsTaken(st, t, p, s);
    LotsAdded(st1, t, BuyerCharges(t, incoming, market), p, s);
    LotsStay(BuyLeg(st1, t, BuyerCharges(t, incoming, market)), t, TradeSellerCharges(st, t, incoming, market), p);
    hide TakeLots, BuyLeg, SellLeg;
  }

  lemma LotsTaken(st: State, t: Trade, p: string, s: string)
    requires PlayersKnown(st, t) && p in st.players && t.quantity > 0
    ensures PlayersKnown(TakeLots(st, t), t) && p in TakeLots(st, t).players
    ensures var before := LotsOf(st.players[p].lots, s);
      LotsOf(TakeLots(st, t).players[p].lots, s)
      == if p == t.sellerId && s == t.symbol then Consume(before, t.quantity) else before
  {
  }

  lemma LotsAdded(st: State, t: Trade, bc: int, p: string, s: string)
    requires PlayersKnown(st, t) && p in st.players && t.quantity > 0
    ensures PlayersKnown(BuyLeg(st, t, bc), t) && p in BuyLeg(st, t, bc).players
    ensures var before := Units(LotsOf(st.players[p].lots, s));
      Units(LotsOf(BuyLeg(st, t, bc).players[p].lots, s))
      == if p == t.buyerId && s == t.symbol then before + seq(t.quantity, _ => Share(t.price, t.executedAt)) else before
  {
    UnitsOfMore(LotsOf(st.players[t.buyerId].lots, t.symbol), Lot(t.quantity, t.price, t.executedAt));
    hide Units;
  }

  lemma LotsStay(st: State, t: Trade, sc: int, p: string)
    requires PlayersKnown(st, t) && p in st.players
    ensures p in SellLeg(st, t, sc).players && SellLeg(st, t, sc).players[p].lots == st.players[p].lots
  {
  }

  // ---- Open orders ----

  /** An order with so much less left and so much less cash held, not below nothing. */
  function BoughtOff(o: OpenOrder, quantity: int, pays: int): OpenOrder {
    OpenOrder(o.order.(remaining := o.order.remaining - quantity), AtLeast0(o.reservedCash - pays), o.reservedQuantity)
  }

  /** An order with so much less left and so many fewer shares held. */
  function SoldOff(o: OpenOrder, quantity: int): OpenOrder {
    OpenOrder(o.order.(remaining := o.order.remaining - quantity), o.reservedCash, o.reservedQuantity - quantity)
  }

  /** The two orders of the trade have that much less left; the buy gives up of its reservation what its buyer pays, down
      to zero, the sell the shares sold; no other order changes. */
  lemma TradeMovesOrders(st: State, t: Trade, incoming: string, market: bool)
    requires LedgerOk(st, incoming) && TradeOk(st, t, incoming)
    ensures t.buyOrderId != t.sellOrderId
    ensures ApplyTrade(st, t, incoming, market).open
         == st.open[t.buyOrderId := BoughtOff(st.open[t.buyOrderId], t.quantity, BuyerPays(BillOf(st, t, incoming, market), t))]
                   [t.sellOrderId := SoldOff(st.open[t.sellOrderId], t.quantity)]
  {
    OfferHeld(st, t, incoming);
    ChargesAreBilled(st, t, incoming, market);
    hide LedgerOk, TradeOk, BillOf, BuyerPays;
    LegsMoveOrders(st, t, BuyerCharges(t, incoming, market), TradeSellerCharges(st, t, incoming, market));
    hide BuyLeg, SellLeg, TakeLots, BuyerCharges, TradeSellerCharges, BoughtOff, SoldOff;
  }

  lemma LegsMoveOrders(st: State, t: Trade, bc: int, sc: int)
    requires PlayersKnown(st, t) && t.buyOrderId in st.open && t.sellOrderId in st.open && t.buyOrderId != t.sellOrderId
    requires t.quantity <= st.open[t.sellOrderId].reservedQuantity
    ensures SellLeg(BuyLeg(TakeLots(st, t), t, bc), t, sc).open
         == st.open[t.buyOrderId := BoughtOff(st.open[t.buyOrderId], t.quantity, t.price * t.quantity + bc)]
                   [t.sellOrderId := SoldOff(st.open[t.sellOrderId], t.quantity)]
  {
    hide PaidBuyer, PaidSeller, AfterSale;
  }

  lemma OfferHeld(st: State, t: Trade, incoming: string)
    requires LedgerOk(st, incoming) && TradeOk(st, t, incoming)
    ensures t.buyOrderId in st.open && t.sellOrderId in st.open && PlayersKnown(st, t)
    ensures t.quantity <= st.open[t.sellOrderId].reservedQuantity && t.buyOrderId != t.sellOrderId
  {
    hide PlayerOk;
    assert EntryOk(st.open[t.sellOrderId]);
  }
}
