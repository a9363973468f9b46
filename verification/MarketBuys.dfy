/** What a placement does to each player's cash, and exactly when a market buy leaves its player solvent. */
module MarketBuys {
  import opened Orders
  import opened Lots
  import opened Sums
  import opened Matching
  import opened Ledger
  import opened Reservations
  import opened Settlement
  import opened Arena
  import opened Placing
  import opened Indexes
  import opened Runs
  import opened Theorems

  /** A player's cash together with all charges ever paid. */
  function Worth(st: State, p: string): int
    requires p in st.players
  {
    st.players[p].cash + Get(st.paid, p)
  }

  /** What player p pays for shares, less what p receives for shares. */
  function NetCost(trades: seq<Trade>, p: string): int {
    if trades == [] then 0
    else
      (if trades[0].buyerId == p then trades[0].price * trades[0].quantity else 0)
      - (if trades[0].sellerId == p then trades[0].price * trades[0].quantity else 0)
      + NetCost(trades[1..], p)
  }

  lemma TradeMovesWorth(st: State, t: Trade, incoming: string, market: bool, p: string)
    requires PlayersKnown(st, t) && p in st.players
    ensures Worth(ApplyTrade(st, t, incoming, market), p)
         == Worth(st, p) - (if t.buyerId == p then t.price * t.quantity else 0)
                         + (if t.sellerId == p then t.price * t.quantity else 0)
  {
    var bc, sc := BuyerCharges(t, incoming, market), TradeSellerCharges(st, t, incoming, market);
    var st1 := TakeLots(st, t);
    var st2 := BuyLeg(st1, t, bc);
    TakeLotsWorth(st, t, p);
    BuyLegWorth(st1, t, bc, p);
    SellLegWorth(st2, t, sc, p);
    hide TakeLots, BuyLeg, SellLeg, BuyerCharges, TradeSellerCharges;
  }

  lemma TakeLotsWorth(st: State, t: Trade, p: string)
    requires PlayersKnown(st, t) && p in st.players
    ensures var st' := TakeLots(st, t); PlayersKnown(st', t) && p in st'.players && Worth(st', p) == Worth(st, p)
  {
    hide AfterSale;
  }

  lemma BuyLegWorth(st: State, t: Trade, charges: int, p: string)
    requires PlayersKnown(st, t) && p in st.players
    ensures var st' := BuyLeg(st, t, charges);
      && PlayersKnown(st', t) && p in st'.players
      && Worth(st', p) == Worth(st, p) - if t.buyerId == p then t.price * t.quantity else 0
  {
    hide AfterPurchase;
  }

  lemma SellLegWorth(st: State, t: Trade, charges: int, p: string)
    requires PlayersKnown(st, t) && p in st.players
    ensures var st' := SellLeg(st, t, charges);
      p in st'.players && Worth(st', p) == Worth(st, p) + if t.sellerId == p then t.price * t.quantity else 0
  {
  }

  lemma {:induction false} TradesMoveWorth(st: State, trades: seq<Trade>, incoming: string, market: bool, p: string)
    requires AllKnown(st, trades) && p in st.players
    ensures p in ApplyTrades(st, trades, incoming, market).players
    ensures Worth(ApplyTrades(st, trades, incoming, market), p) == Worth(st, p) - NetCost(trades, p)
    decreases |trades|
  {
    hide ApplyTrade, Worth;
    if trades != [] {
      assert PlayersKnown(st, trades[0]);
      var st1 := ApplyTrade(st, trades[0], incoming, market);
      forall t | t in trades[1..] ensures PlayersKnown(st1, t) { assert t in trades; }
      TradeMovesWorth(st, trades[0], incoming, market, p);
      TradesMoveWorth(st1, trades[1..], incoming, market, p);
    }
  }

  lemma OpeningKeepsWorth(st: State, order: Order, reference: int, r: ReserveResult, p: string)
    requires Opens(st, order, reference, r) && p in st.players
    ensures p in Opened(st, order, r).players && Worth(Opened(st, order, r), p) == Worth(st, p)
  {
    hide ReserveNeed;
  }

  lemma ClosingKeepsWorth(st: State, id: string, rests: bool, p: string)
    requires p in st.players
    ensures p in Closed(st, id, rests).players && Worth(Closed(st, id, rests), p) == Worth(st, p)
  {
  }

  lemma SettleMovesWorth(st: State, v: BookView, order: Order, reference: int, r: ReserveResult, now: int, p: string)
    requires Ready(st, v, order, reference, r) && p in st.players
    ensures var st' := Settle(st, order, r, Place(v, order, now).1);
      p in st'.players && Worth(st', p) == Worth(st, p) - NetCost(Matched(v, order, now).trades, p)
  {
    var m := Matched(v, order, now);
    hide Ready, InSync, Framed, Match, Settle, Place, Settled, Closed, Opened, Entry, CleanupAll, ApplyTrades, AllKnown,
         Opens, Matched;
    var st0, st1, st2 := SettleStages(st, v, order, reference, r, now);
    OpeningIsInSync(st, v, order, reference, r, now);
    OpeningKeepsWorth(st, Entry(v, order, now), reference, r, p);
    TradesMoveWorth(st0, m.trades, order.id, order.kind.Market?, p);
    ClosingKeepsWorth(st1, order.id, Rests(m.order), p);
    CleanupAllForgets(st2, m.removed);
  }

  /** The trades an order would make in a book, known before it is placed. */
  function TradesFor(v: BookView, req: OrderRequest): seq<Trade> {
    Match(Submitted(OrderOf(req)), SideOf(v, Opposite(req.side)), v.lastTradePrice, req.now).trades
  }

  /** A placement changes cash and charges of every player by exactly what its trades cost or bring that player. */
  lemma PlacingMovesWorth(w: World, req: OrderRequest, p: string)
    requires WorldOk(w) && Legal(w, DoPlaceOrder(req)) && PlaceOrder(w, req).1.PlacedOrder? && p in w.ledger.players
    ensures var st' := PlaceOrder(w, req).0.ledger;
      && req.symbol in w.books && p in st'.players
      && Worth(st', p) == Worth(w.ledger, p) - NetCost(TradesFor(w.books[req.symbol], req), p)
  {
    hide WorldOk, PlaceOrder, Settle, Ready, Place, Match, Worth;
    var order, r, v := PlacedIsReady(w, req);
    SettleMovesWorth(w.ledger, v, order, req.reference, r, req.now, p);
  }

  // ---- Market buys ----

  /** What the trades cost their buyer, shares the buyer sells to itself apart. */
  function OwnCost(trades: seq<Trade>, p: string): int {
    if trades == [] then 0
    else (if trades[0].sellerId != p then trades[0].price * trades[0].quantity else 0) + OwnCost(trades[1..], p)
  }

  lemma {:induction false} OneBuyer(trades: seq<Trade>, p: string)
    requires forall i :: 0 <= i < |trades| ==> trades[i].buyerId == p
    ensures NetCost(trades, p) == OwnCost(trades, p)
  {
    if trades != [] { OneBuyer(trades[1..], p); }
  }

  lemma {:induction false} MatchHasOneBuyer(order: Order, opposing: seq<Order>, last: int, now: int)
    requires order.side.Buy?
    ensures forall t :: t in Match(order, opposing, last, now).trades ==> t.buyerId == order.playerId
    decreases |opposing|
  {
    if opposing != [] {
      MatchHasOneBuyer(order.(remaining := order.remaining - Min(order.remaining, opposing[0].remaining)), opposing[1..],
                       opposing[0].price, now);
    }
  }

  /** A buy that does not rest leaves what is open to buy as it was: it meets and removes sells only. */
  lemma BuysStay(open: map<string, OpenOrder>, open': map<string, OpenOrder>, done: Order, asks: seq<Order>,
                 asks': seq<Order>, removed: seq<string>, symbol: string, p: string)
    requires PlacedOpen(open, open', done, false, asks, asks', removed)
    requires Listed(open, asks, symbol) && SideValid(asks, Sell)
    ensures Sum(open', Notional(p)) == Sum(open, Notional(p))
  {
    forall j | j in open && HasId(asks, j) ensures open[j].order.side.Sell? {
      var i :| 0 <= i < |asks| && asks[i].id == j;
      assert RestingOk(asks[i], Sell);
    }
    hide HasId, Listed, SideValid;
    forall j | j in open ensures Notional(p)(open[j]) == if j in open' then Notional(p)(open'[j]) else 0 {
      if HasId(asks, j) {
        assert j in open' ==> SameTerms(open[j].order, open'[j].order);
      }
    }
    SumOfPart(open, open', Notional(p));
  }

  lemma MarketBuyKeepsNotional(w: World, req: OrderRequest, p: string)
    requires WorldOk(w) && Legal(w, DoPlaceOrder(req)) && PlaceOrder(w, req).1.PlacedOrder?
    requires req.side.Buy? && req.kind.Market?
    ensures Sum(PlaceOrder(w, req).0.ledger.open, Notional(p)) == Sum(w.ledger.open, Notional(p))
  {
    hide WorldOk, PlaceOrder, Settle, Ready, Place, Match, PlacedOpen, Listed, SideValid, Notional, Valid, BookAgrees;
    var order, r, v := PlacedIsReady(w, req);
    SettleOpens(w.ledger, v, order, req.reference, r, req.now);
    MatchedTerms(w.ledger, v, order, req.reference, r, req.now);
    ReadyAsks(w.ledger, v, order, req.reference, r);
    var m := Matched(v, order, req.now);
    BuysStay(w.ledger.open, PlaceOrder(w, req).0.ledger.open, m.order, v.asks, m.opposing, m.removed, order.symbol, p);
  }

  lemma ReadyAsks(st: State, v: BookView, order: Order, reference: int, r: ReserveResult)
    requires Ready(st, v, order, reference, r)
    ensures Listed(st.open, v.asks, order.symbol) && SideValid(v.asks, Sell)
  {
  }

  /** Exactly when a market buy leaves its player solvent up to charges: if and only if what its trades cost, shares
      bought from itself apart, is within what the player was worth beyond the open buys. Both sides of the condition
      are known before the order is placed. */
  lemma MarketBuyKeepsSolvencyExactly(w: World, req: OrderRequest)
    requires WorldOk(w) && Legal(w, DoPlaceOrder(req)) && PlaceOrder(w, req).1.PlacedOrder?
    requires req.side.Buy? && req.kind.Market?
    ensures var p, st, st' := req.playerId, w.ledger, PlaceOrder(w, req).0.ledger;
      && req.symbol in w.books && p in st.players && p in st'.players
      && (Worth(st', p) >= Sum(st'.open, Notional(p))
          <==> OwnCost(TradesFor(w.books[req.symbol], req), p) <= Worth(st, p) - Sum(st.open, Notional(p)))
  {
    var p := req.playerId;
    PlacerIsKnown(w, req);
    PlacingMovesWorth(w, req, p);
    MarketBuyKeepsNotional(w, req, p);
    var v := w.books[req.symbol];
    MatchHasOneBuyer(Submitted(OrderOf(req)), v.asks, v.lastTradePrice, req.now);
    hide WorldOk, PlaceOrder, Match, Worth, NetCost, OwnCost, Notional;
    OneBuyer(TradesFor(v, req), p);
  }

  lemma PlacerIsKnown(w: World, req: OrderRequest)
    requires PlaceOrder(w, req).1.PlacedOrder?
    ensures req.playerId in w.ledger.players
  {
    hide Reserve, Settle, Place, Accepted;
  }
}
