/** Lots stay in order of acquisition over every run, so every sale in it is taxed as little as possible. */
module Taxes {
  import opened Orders
  import opened Lots
  import opened Matching
  import opened Ledger
  import opened Invariants
  import opened Reservations
  import opened Settlement
  import opened Arena
  import opened Placing
  import opened Runs
  import opened Theorems

  predicate InOrder(lots: seq<Lot>, clock: int) {
    Chronological(lots) && forall i :: 0 <= i < |lots| ==> lots[i].acquiredAt <= clock
  }

  ghost predicate LotsInOrder(st: State, clock: int) {
    forall p, s :: p in st.players ==> InOrder(LotsOf(st.players[p].lots, s), clock)
  }

  lemma ConsumeKeepsOrder(lots: seq<Lot>, qty: nat, clock: int)
    requires Positive(lots) && InOrder(lots, clock)
    ensures InOrder(Consume(lots, qty), clock)
  {
    var k := OnlyHeadShrinks(lots, qty);
    hide Consume;
  }

  lemma TakeLotsKeepsOrder(st: State, t: Trade)
    requires t.sellerId in st.players && t.quantity > 0
    requires LotsInOrder(st, t.executedAt) && Positive(LotsOf(st.players[t.sellerId].lots, t.symbol))
    ensures LotsInOrder(TakeLots(st, t), t.executedAt)
  {
    var st1 := TakeLots(st, t);
    ConsumeKeepsOrder(LotsOf(st.players[t.sellerId].lots, t.symbol), t.quantity, t.executedAt);
    hide Consume, InOrder, Positive;
    assert InOrder([], t.executedAt) by { NothingInOrder(t.executedAt); }
    forall p, s | p in st1.players ensures InOrder(LotsOf(st1.players[p].lots, s), t.executedAt) {
      assert InOrder(LotsOf(st.players[p].lots, s), t.executedAt);
    }
  }

  lemma NothingInOrder(clock: int)
    ensures InOrder([], clock)
  {
  }

  lemma BuyLegKeepsOrder(st: State, t: Trade, charges: int)
    requires t.buyerId in st.players && LotsInOrder(st, t.executedAt)
    ensures LotsInOrder(BuyLeg(st, t, charges), t.executedAt)
  {
    var st1 := BuyLeg(st, t, charges);
    forall p, s | p in st1.players ensures InOrder(LotsOf(st1.players[p].lots, s), t.executedAt) {
      assert InOrder(LotsOf(st.players[p].lots, s), t.executedAt);
    }
  }

  lemma SellLegKeepsOrder(st: State, t: Trade, charges: int)
    requires t.sellerId in st.players && LotsInOrder(st, t.executedAt)
    ensures LotsInOrder(SellLeg(st, t, charges), t.executedAt)
  {
    hide InOrder;
    var st1 := SellLeg(st, t, charges);
    forall p, s | p in st1.players ensures InOrder(LotsOf(st1.players[p].lots, s), t.executedAt) {
      assert InOrder(LotsOf(st.players[p].lots, s), t.executedAt);
    }
  }

  lemma TradeKeepsOrder(st: State, t: Trade, incoming: string, market: bool)
    requires PlayersKnown(st, t) && t.quantity > 0
    requires LotsInOrder(st, t.executedAt) && Positive(LotsOf(st.players[t.sellerId].lots, t.symbol))
    ensures LotsInOrder(ApplyTrade(st, t, incoming, market), t.executedAt)
  {
    hide LotsInOrder, BuyerCharges, TradeSellerCharges, Positive, TakeLots, BuyLeg, SellLeg;
    TakeLotsKeepsOrder(st, t);
    var st1 := TakeLots(st, t);
    SamePlayersKnown(st, t);
    BuyLegKeepsOrder(st1, t, BuyerCharges(t, incoming, market));
    SellLegKeepsOrder(BuyLeg(st1, t, BuyerCharges(t, incoming, market)), t, TradeSellerCharges(st, t, incoming, market));
  }

  lemma SamePlayersKnown(st: State, t: Trade)
    requires PlayersKnown(st, t)
    ensures PlayersKnown(TakeLots(st, t), t)
    ensures forall c :: t.sellerId in BuyLeg(TakeLots(st, t), t, c).players
  {
  }

  /** A whole match keeps the lots in order. */
  lemma {:induction false} MatchKeepsOrder(
      st: State, order: Order, opposing: seq<Order>, last: int, now: int, market: bool)
    requires InSync(st, order, opposing) && LotsInOrder(st, now)
    ensures var m := Match(order, opposing, last, now);
      AllKnown(st, m.trades) && LotsInOrder(ApplyTrades(st, m.trades, order.id, market), now)
    decreases order.remaining
  {
    hide InSync, LedgerOk, TradeOk, LotsInOrder, ApplyTrade;
    if HeadCrosses(order, opposing) {
      var t, st1, rest := MatchUnfolds(st, order, opposing, last, now, market);
      var n := Match(rest, AfterFill(order, opposing), opposing[0].price, now);
      RemainingNonNegative(st1, rest, AfterFill(order, opposing));
      RemainingNonNegative(st, order, opposing);
      TradeIsKnown(st, t, order.id);
      SellerLots(st, t, order.id);
      TradeKeepsOrder(st, t, order.id, market);
      MatchKeepsOrder(st1, rest, AfterFill(order, opposing), opposing[0].price, now, market);
      ApplyTradesCons(st, t, st1, n.trades, order.id, market);
    }
  }

  lemma SellerLots(st: State, t: Trade, incoming: string)
    requires LedgerOk(st, incoming) && TradeOk(st, t, incoming)
    ensures t.quantity > 0 && Positive(LotsOf(st.players[t.sellerId].lots, t.symbol))
  {
    assert PlayerOk(st, t.sellerId);
    assert LotsCovered(st.players[t.sellerId], t.symbol, 0);
  }

  /** Only trades touch lots and portfolios. */
  ghost predicate SameHoldings(a: State, b: State) {
    && a.players.Keys == b.players.Keys
    && forall p :: p in a.players ==>
         b.players[p].lots == a.players[p].lots && b.players[p].portfolio == a.players[p].portfolio
  }

  lemma SameHoldingsInOrder(a: State, b: State, clock: int)
    requires SameHoldings(a, b) && LotsInOrder(a, clock)
    ensures LotsInOrder(b, clock)
  {
    hide InOrder;
    forall p, s | p in b.players ensures InOrder(LotsOf(b.players[p].lots, s), clock) {
      assert InOrder(LotsOf(a.players[p].lots, s), clock);
    }
  }

  lemma LaterClock(st: State, clock: int, now: int)
    requires LotsInOrder(st, clock) && clock <= now
    ensures LotsInOrder(st, now)
  {
    forall p, s | p in st.players ensures InOrder(LotsOf(st.players[p].lots, s), now) {
      assert InOrder(LotsOf(st.players[p].lots, s), clock);
    }
  }

  lemma OpenedSameHoldings(st: State, order: Order, reference: int, r: ReserveResult)
    requires Opens(st, order, reference, r)
    ensures SameHoldings(st, Opened(st, order, r))
  {
    hide ReserveNeed;
  }

  lemma ClosedSameHoldings(st: State, id: string, rests: bool)
    ensures SameHoldings(st, Closed(st, id, rests))
  {
    if id in st.open && st.open[id].order.playerId in st.players {
      var o := st.open[id];
      var a, b := Trim(Owner(st, o), o).0,
        Release(Owner(st, o), o.order.symbol, o.order.side, o.reservedCash, o.reservedQuantity);
      assert a.lots == Owner(st, o).lots == b.lots && a.portfolio == Owner(st, o).portfolio == b.portfolio;
      hide Trim, Release;
    }
  }

  lemma SettleKeepsOrder(st: State, v: BookView, order: Order, reference: int, r: ReserveResult, now: int)
    requires Ready(st, v, order, reference, r) && LotsInOrder(st, now)
    ensures LotsInOrder(Settle(st, order, r, Place(v, order, now).1), now)
  {
    var m := Matched(v, order, now);
    hide Ready, InSync, LedgerOk, Framed, Settle, Place, Settled, Closed, Opened, Entry, CleanupAll, Match,
         ApplyTrades, AllKnown, LotsInOrder, Opens;
    var st0, st1, st2 := SettleStages(st, v, order, reference, r, now);
    OpeningIsInSync(st, v, order, reference, r, now);
    OpenedSameHoldings(st, Entry(v, order, now), reference, r);
    SameHoldingsInOrder(st, st0, now);
    MatchKeepsOrder(st0, Submitted(order), SideOf(v, Opposite(order.side)), v.lastTradePrice, now, order.kind.Market?);
    ClosedSameHoldings(st1, order.id, Rests(m.order));
    SameHoldingsInOrder(st1, st2, now);
    CleanupAllForgets(st2, m.removed);
    SamePlayersSameHoldings(st2, CleanupAll(st2, m.removed));
    SameHoldingsInOrder(st2, CleanupAll(st2, m.removed), now);
  }

  lemma SamePlayersSameHoldings(a: State, b: State)
    requires a.players == b.players
    ensures SameHoldings(a, b)
  {
  }

  // ---- Runs whose times do not decrease ----

  function ClockAfter(a: Action, clock: int): int {
    if a.DoPlaceOrder? then a.req.now else clock
  }

  predicate TimesRise(actions: seq<Action>, clock: int) {
    actions == [] || (clock <= ClockAfter(actions[0], clock) && TimesRise(actions[1..], ClockAfter(actions[0], clock)))
  }

  function LastClock(actions: seq<Action>, clock: int): int {
    if actions == [] then clock else LastClock(actions[1..], ClockAfter(actions[0], clock))
  }

  lemma RefusalSameHoldings(w: World, req: OrderRequest)
    requires WorldOk(w) && PlaceOrder(w, req).1.Refused?
    ensures SameHoldings(w.ledger, PlaceOrder(w, req).0.ledger)
  {
    hide WorldOk, PlaceOrder;
    RefusedOrderKeeps(w, req, "");
  }

  lemma CancelSameHoldings(w: World, playerId: string, symbol: string, orderId: string)
    ensures SameHoldings(w.ledger, CancelOrder(w, playerId, symbol, orderId).0.ledger)
  {
    CleanupSameHoldings(w.ledger, orderId);
    hide Cancel, Cleanup;
  }

  lemma CleanupSameHoldings(st: State, id: string)
    ensures SameHoldings(st, Cleanup(st, id)) && SameHoldings(st, st)
  {
  }

  lemma IntelSameHoldings(w: World, playerId: string, price: int, sold: bool)
    ensures SameHoldings(w.ledger, BuyIntel(w, playerId, price, sold).0.ledger)
  {
  }

  lemma StepKeepsOrder(w: World, a: Action, clock: int)
    requires WorldOk(w) && Legal(w, a) && LotsInOrder(w.ledger, clock) && clock <= ClockAfter(a, clock)
    ensures LotsInOrder(Step(w, a).ledger, ClockAfter(a, clock))
  {
    hide WorldOk, LotsInOrder, PlaceOrder, CancelOrder, BuyIntel, SameHoldings, Settle, Place, Ready;
    LaterClock(w.ledger, clock, ClockAfter(a, clock));
    match a {
      case DoPlaceOrder(req) =>
        PlaceReplies(w, req);
        if PlaceOrder(w, req).1.Refused? {
          RefusalSameHoldings(w, req);
          SameHoldingsInOrder(w.ledger, PlaceOrder(w, req).0.ledger, req.now);
        } else {
          var order, r, v := PlacedIsReady(w, req);
          SettleKeepsOrder(w.ledger, v, order, req.reference, r, req.now);
        }
      case DoCancelOrder(playerId, symbol, orderId) =>
        CancelSameHoldings(w, playerId, symbol, orderId);
        SameHoldingsInOrder(w.ledger, CancelOrder(w, playerId, symbol, orderId).0.ledger, clock);
      case DoBuyIntel(playerId, price, sold) =>
        IntelSameHoldings(w, playerId, price, sold);
        SameHoldingsInOrder(w.ledger, BuyIntel(w, playerId, price, sold).0.ledger, clock);
    }
  }

  lemma {:induction false} RunKeepsOrder(w: World, actions: seq<Action>, clock: int)
    requires WorldOk(w) && LegalRun(w, actions) && LotsInOrder(w.ledger, clock) && TimesRise(actions, clock)
    ensures LotsInOrder(Run(w, actions).ledger, LastClock(actions, clock))
    decreases |actions|
  {
    hide WorldOk, LotsInOrder, Step, Legal, ClockAfter;
    if actions != [] {
      StepKeepsOrder(w, actions[0], clock);
      StepKeeps(w, actions[0]);
      RunKeepsOrder(Step(w, actions[0]), actions[1..], ClockAfter(actions[0], clock));
    }
  }

  /** After any run from a clean start whose times do not decrease, whatever a player sells next is taxed no
      more than under any other choice of lots. */
  lemma SalesAreTaxMinimal(start: World, actions: seq<Action>, clock: int, p: string, symbol: string,
                           qty: nat, picks: seq<int>, now: int)
    requires Start(start) && LegalRun(start, actions) && LotsInOrder(start.ledger, clock) && TimesRise(actions, clock)
    requires p in Run(start, actions).ledger.players
    requires var lots := LotsOf(Run(start, actions).ledger.players[p].lots, symbol);
      Choice(lots, picks) && Picked(picks) == Min(qty, Total(lots))
    ensures var lots := LotsOf(Run(start, actions).ledger.players[p].lots, symbol);
      Taxable(lots, qty, now) <= FreshPicked(lots, picks, now)
  {
    StartIsOk(start);
    RunKeeps(start, actions);
    RunKeepsOrder(start, actions, clock);
    hide Start, LegalRun, Run, Taxable, FreshPicked, Agree, BooksValid, AllSolvent;
    var st := Run(start, actions).ledger;
    assert PlayerOk(st, p);
    assert LotsCovered(st.players[p], symbol, 0);
    assert InOrder(LotsOf(st.players[p].lots, symbol), LastClock(actions, clock));
    SaleIsTaxMinimal(LotsOf(st.players[p].lots, symbol), qty, picks, now);
  }

  // ---- Bought shares keep their lots ----

  /** Shares held without a lot to date them, which no sale can tax. */
  function Undated(player: Player, symbol: string): int {
    Get(player.portfolio, symbol) - Total(LotsOf(player.lots, symbol))
  }

  ghost predicate NoMoreUndated(a: State, b: State) {
    a.players.Keys == b.players.Keys
    && forall p, s :: p in a.players ==> Undated(b.players[p], s) <= Undated(a.players[p], s)
  }

  lemma TakeLotsUndated(st: State, t: Trade, p: string, s: string)
    requires t.sellerId in st.players && p in st.players && t.quantity > 0
    requires Positive(LotsOf(st.players[t.sellerId].lots, t.symbol))
    ensures Undated(TakeLots(st, t).players[p], s)
         <= Undated(st.players[p], s) + if p == t.sellerId && s == t.symbol then t.quantity else 0
  {
    ConsumeTotal(LotsOf(st.players[t.sellerId].lots, t.symbol), t.quantity);
    hide Consume;
  }

  lemma BuyLegUndated(st: State, t: Trade, charges: int, p: string, s: string)
    requires t.buyerId in st.players && p in st.players && t.quantity > 0
    ensures Undated(BuyLeg(st, t, charges).players[p], s) == Undated(st.players[p], s)
  {
    TotalAppend(LotsOf(st.players[t.buyerId].lots, t.symbol), Lot(t.quantity, t.price, t.executedAt));
  }

  lemma SellLegUndated(st: State, t: Trade, incoming: string, charges: int, p: string, s: string)
    requires Entries(st, incoming) && SellOk(st, t) && StockExact(st, t.sellerId, t.symbol) && p in st.players
    ensures Undated(SellLeg(st, t, charges).players[p], s)
         == Undated(st.players[p], s) - if p == t.sellerId && s == t.symbol then t.quantity else 0
  {
    SellLegIsExact(st, t, incoming, charges);
    hide Entries, SellOk, StockExact;
  }

  lemma TradeKeepsDates(st: State, t: Trade, incoming: string, market: bool)
    requires LedgerOk(st, incoming) && TradeOk(st, t, incoming)
    ensures NoMoreUndated(st, ApplyTrade(st, t, incoming, market))
  {
    var bc, sc := BuyerCharges(t, incoming, market), TradeSellerCharges(st, t, incoming, market);
    var st1 := TakeLots(st, t);
    var st2 := BuyLeg(st1, t, bc);
    var st3 := SellLeg(st2, t, sc);
    assert PlayerOk(st, t.sellerId);
    SellerLots(st, t, incoming);
    hide LedgerOk, PlayerOk, Entries, TradeOk, BuyOk, SellOk, BuyLeg, SellLeg, TakeLots, CashSandwich, StockExact, Undated, Positive;
    StagesKeep(st, st1, st2, st3, t, incoming, bc, sc, t.sellerId);
    KnownThroughout(st, st1, st2, t, incoming, bc, t.sellerId);
    BuyLegKeepsStock(st1, t, incoming, bc, t.sellerId, t.symbol);
    forall p, s | p in st.players ensures Undated(st3.players[p], s) <= Undated(st.players[p], s) {
      KnownThroughout(st, st1, st2, t, incoming, bc, p);
      TakeLotsUndated(st, t, p, s);
      BuyLegUndated(st1, t, bc, p, s);
      SellLegUndated(st2, t, incoming, sc, p, s);
    }
  }

  lemma NoMoreUndatedChain(a: State, b: State, c: State)
    requires NoMoreUndated(a, b) && NoMoreUndated(b, c)
    ensures NoMoreUndated(a, c)
  {
    hide Undated;
  }

  lemma SameHoldingsKeepDates(a: State, b: State)
    requires SameHoldings(a, b)
    ensures NoMoreUndated(a, b)
  {
  }

  lemma {:induction false} MatchKeepsDates(
      st: State, order: Order, opposing: seq<Order>, last: int, now: int, market: bool)
    requires InSync(st, order, opposing)
    ensures var m := Match(order, opposing, last, now);
      AllKnown(st, m.trades) && NoMoreUndated(st, ApplyTrades(st, m.trades, order.id, market))
    decreases order.remaining
  {
    hide InSync, LedgerOk, TradeOk, ApplyTrade, Undated;
    if HeadCrosses(order, opposing) {
      hide NoMoreUndated;
      var t, st1, rest := MatchUnfolds(st, order, opposing, last, now, market);
      var n := Match(rest, AfterFill(order, opposing), opposing[0].price, now);
      RemainingNonNegative(st1, rest, AfterFill(order, opposing));
      RemainingNonNegative(st, order, opposing);
      TradeIsKnown(st, t, order.id);
      TradeKeepsDates(st, t, order.id, market);
      MatchKeepsDates(st1, rest, AfterFill(order, opposing), opposing[0].price, now, market);
      ApplyTradesCons(st, t, st1, n.trades, order.id, market);
      NoMoreUndatedChain(st, st1, ApplyTrades(st1, n.trades, order.id, market));
    }
  }

  lemma SettleKeepsDates(st: State, v: BookView, order: Order, reference: int, r: ReserveResult, now: int)
    requires Ready(st, v, order, reference, r)
    ensures NoMoreUndated(st, Settle(st, order, r, Place(v, order, now).1))
  {
    var m := Matched(v, order, now);
    hide Ready, InSync, LedgerOk, Framed, Settle, Place, Settled, Closed, Opened, Entry, CleanupAll, Match,
         ApplyTrades, AllKnown, Opens, NoMoreUndated, SameHoldings;
    var st0, st1, st2 := SettleStages(st, v, order, reference, r, now);
    OpeningIsInSync(st, v, order, reference, r, now);
    OpenedSameHoldings(st, Entry(v, order, now), reference, r);
    SameHoldingsKeepDates(st, st0);
    MatchKeepsDates(st0, Submitted(order), SideOf(v, Opposite(order.side)), v.lastTradePrice, now, order.kind.Market?);
    NoMoreUndatedChain(st, st0, st1);
    ClosedSameHoldings(st1, order.id, Rests(m.order));
    SameHoldingsKeepDates(st1, st2);
    NoMoreUndatedChain(st, st1, st2);
    CleanupAllForgets(st2, m.removed);
    SamePlayersSameHoldings(st2, CleanupAll(st2, m.removed));
    SameHoldingsKeepDates(st2, CleanupAll(st2, m.removed));
    NoMoreUndatedChain(st, st2, CleanupAll(st2, m.removed));
  }

  lemma StepKeepsDates(w: World, a: Action)
    requires WorldOk(w) && Legal(w, a)
    ensures NoMoreUndated(w.ledger, Step(w, a).ledger)
  {
    hide WorldOk, NoMoreUndated, PlaceOrder, CancelOrder, BuyIntel, SameHoldings, Settle, Place, Ready;
    match a {
      case DoPlaceOrder(req) =>
        PlaceReplies(w, req);
        if PlaceOrder(w, req).1.Refused? {
          RefusalSameHoldings(w, req);
          SameHoldingsKeepDates(w.ledger, PlaceOrder(w, req).0.ledger);
        } else {
          var order, r, v := PlacedIsReady(w, req);
          SettleKeepsDates(w.ledger, v, order, req.reference, r, req.now);
        }
      case DoCancelOrder(playerId, symbol, orderId) =>
        CancelSameHoldings(w, playerId, symbol, orderId);
        SameHoldingsKeepDates(w.ledger, CancelOrder(w, playerId, symbol, orderId).0.ledger);
      case DoBuyIntel(playerId, price, sold) =>
        IntelSameHoldings(w, playerId, price, sold);
        SameHoldingsKeepDates(w.ledger, BuyIntel(w, playerId, price, sold).0.ledger);
    }
  }

  lemma {:induction false} RunKeepsDates(w: World, actions: seq<Action>)
    requires WorldOk(w) && LegalRun(w, actions)
    ensures NoMoreUndated(w.ledger, Run(w, actions).ledger)
    decreases |actions|
  {
    hide WorldOk, Step, Legal, Undated;
    if actions != [] {
      StepKeepsDates(w, actions[0]);
      StepKeeps(w, actions[0]);
      RunKeepsDates(Step(w, actions[0]), actions[1..]);
    }
  }

  /** No run makes shares without a lot: a player whose shares all had lots has lots for exactly the portfolio. */
  lemma LotsCoverHoldings(start: World, actions: seq<Action>, p: string, symbol: string)
    requires Start(start) && LegalRun(start, actions) && p in start.ledger.players
    ensures p in Run(start, actions).ledger.players
    ensures 0 <= Undated(Run(start, actions).ledger.players[p], symbol) <= Undated(start.ledger.players[p], symbol)
  {
    StartIsOk(start);
    RunKeeps(start, actions);
    RunKeepsDates(start, actions);
    hide Start, LegalRun, Run, Agree, BooksValid, AllSolvent;
    assert PlayerOk(Run(start, actions).ledger, p);
    assert LotsCovered(Run(start, actions).ledger.players[p], symbol, 0);
  }
}
