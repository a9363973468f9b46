/** Settling the trades of one match while the open orders follow the book. */
module Settlement {
  import opened Orders
  import opened Lots
  import opened Charges
  import opened Matching
  import opened Ledger
  import opened Invariants

  predicate HasId(orders: seq<Order>, id: string) {
    exists i :: 0 <= i < |orders| && orders[i].id == id
  }

  predicate DistinctIds(orders: seq<Order>) {
    forall i, j :: 0 <= i < j < |orders| ==> orders[i].id != orders[j].id
  }

  /** Every order of the list is open, with the same terms and the same quantity left. */
  predicate Listed(open: map<string, OpenOrder>, orders: seq<Order>, symbol: string) {
    && DistinctIds(orders)
    && forall i :: 0 <= i < |orders| ==>
         && orders[i].id in open
         && SameOrder(open[orders[i].id].order, orders[i])
         && orders[i].symbol == symbol
  }

  /** An order in flight and the opposing list agree with the ledger. */
  ghost predicate InSync(st: State, order: Order, opposing: seq<Order>) {
    && LedgerOk(st, order.id)
    && SideValid(opposing, Opposite(order.side))
    && Listed(st.open, opposing, order.symbol)
    && order.id in st.open && SameOrder(st.open[order.id].order, order)
    && order.remaining >= 0
  }

  predicate HeadCrosses(order: Order, opposing: seq<Order>) {
    order.remaining > 0 && opposing != [] && Crosses(order, opposing[0].price)
  }

  function Fill(order: Order, opposing: seq<Order>): int
    requires opposing != []
  {
    Min(order.remaining, opposing[0].remaining)
  }

  /** What is left of the opposing list after one fill. */
  function AfterFill(order: Order, opposing: seq<Order>): seq<Order>
    requires opposing != []
  {
    if Fill(order, opposing) == opposing[0].remaining then opposing[1..]
    else [opposing[0].(remaining := opposing[0].remaining - Fill(order, opposing), status := Partial)] + opposing[1..]
  }

  lemma FillIsTradeOk(st: State, order: Order, opposing: seq<Order>, now: int)
    requires InSync(st, order, opposing) && HeadCrosses(order, opposing)
    ensures TradeOk(st, TradeOf(order, opposing[0], Fill(order, opposing), now), order.id)
  {
    hide PlayerOk;
    var resting := opposing[0];
    assert RestingOk(resting, Opposite(order.side));
    assert EntryOk(st.open[order.id]);
  }

  /** Quantity q goes off the open orders a and b; every other open order is left alone. */
  ghost predicate Moved(st: State, st': State, a: string, b: string, q: int) {
    && st'.open.Keys == st.open.Keys && st'.players.Keys == st.players.Keys
    && forall id :: id in st.open ==>
         if id == a || id == b then st'.open[id].order == st.open[id].order.(remaining := st.open[id].order.remaining - q)
         else st'.open[id] == st.open[id]
  }

  /** A trade takes its quantity off the two orders it names and leaves every other open order alone. */
  lemma TradeMovesTwoOrders(st: State, t: Trade, incoming: string, market: bool)
    requires TradeOk(st, t, incoming)
    ensures Moved(st, ApplyTrade(st, t, incoming, market), t.buyOrderId, t.sellOrderId, t.quantity)
    ensures Moved(st, ApplyTrade(st, t, incoming, market), t.sellOrderId, t.buyOrderId, t.quantity)
  {
    hide TakeLots, BuyerCharges, TradeSellerCharges;
    TakeLotsOpen(st, t);
  }

  lemma TakeLotsOpen(st: State, t: Trade)
    requires t.sellerId in st.players
    ensures TakeLots(st, t).open == st.open && TakeLots(st, t).players.Keys == st.players.Keys
  {
  }

  lemma ListedAfterFill(open: map<string, OpenOrder>, open': map<string, OpenOrder>, order: Order, opposing: seq<Order>)
    requires opposing != [] && Listed(open, opposing, order.symbol) && order.remaining > 0
    requires forall i :: 0 <= i < |opposing| ==> opposing[i].id != order.id
    requires open'.Keys == open.Keys
    requires forall id :: id in open && id != order.id && id != opposing[0].id ==> open'[id] == open[id]
    requires var id := opposing[0].id;
      open'[id].order == open[id].order.(remaining := open[id].order.remaining - Fill(order, opposing))
    ensures Listed(open', AfterFill(order, opposing), order.symbol)
  {
    var after, tail := AfterFill(order, opposing), opposing[1..];
    hide SameOrder;
    forall i | 0 <= i < |tail|
      ensures tail[i].id != opposing[0].id && tail[i].id in open' && open'[tail[i].id] == open[tail[i].id]
           && SameOrder(open[tail[i].id].order, tail[i]) && tail[i].symbol == order.symbol
    {
      assert tail[i] == opposing[i + 1];
    }
    assert DistinctIds(tail);
    assert Listed(open', tail, order.symbol);
    if Fill(order, opposing) != opposing[0].remaining {
      var head := opposing[0].(remaining := opposing[0].remaining - Fill(order, opposing), status := Partial);
      LoweredHead(open[head.id].order, opposing[0], Fill(order, opposing));
      assert after == [head] + tail;
      hide Fill, AfterFill;
      HeadListed(open', head, tail, order.symbol);
    }
  }

  lemma LoweredHead(a: Order, b: Order, fill: int)
    requires SameOrder(a, b)
    ensures SameOrder(a.(remaining := a.remaining - fill), b.(remaining := b.remaining - fill, status := Partial))
  {
  }

  lemma HeadListed(open: map<string, OpenOrder>, head: Order, tail: seq<Order>, symbol: string)
    requires Listed(open, tail, symbol)
    requires head.id in open && SameOrder(open[head.id].order, head) && head.symbol == symbol
    requires forall i :: 0 <= i < |tail| ==> tail[i].id != head.id
    ensures Listed(open, [head] + tail, symbol)
  {
    hide SameOrder;
  }

  lemma FillKeepsListed(st: State, order: Order, opposing: seq<Order>, st': State)
    requires InSync(st, order, opposing) && HeadCrosses(order, opposing)
    requires Moved(st, st', order.id, opposing[0].id, Fill(order, opposing))
    ensures Listed(st'.open, AfterFill(order, opposing), order.symbol)
    ensures SameOrder(st'.open[order.id].order, order.(remaining := order.remaining - Fill(order, opposing)))
  {
    OtherSideIds(st, order, opposing);
    hide LedgerOk, SideValid, AfterFill;
    ListedAfterFill(st.open, st'.open, order, opposing);
  }

  /** The trade a fill makes: it names the order and the head of the list, for the quantity filled. */
  predicate IsFill(order: Order, opposing: seq<Order>, t: Trade)
    requires opposing != []
  {
    && t.quantity == Fill(order, opposing)
    && ((t.buyOrderId == order.id && t.sellOrderId == opposing[0].id)
        || (t.sellOrderId == order.id && t.buyOrderId == opposing[0].id))
  }

  lemma FillKeepsSync(st: State, order: Order, opposing: seq<Order>, t: Trade, market: bool, st': State)
    requires InSync(st, order, opposing) && HeadCrosses(order, opposing) && TradeOk(st, t, order.id)
    requires IsFill(order, opposing, t) && st' == ApplyTrade(st, t, order.id, market)
    ensures InSync(st', order.(remaining := order.remaining - t.quantity), AfterFill(order, opposing))
  {
    hide LedgerOk, ApplyTrade, Listed, SideValid, AfterFill, TradeOk, SameOrder, Crosses, Moved;
    TradeKeepsLedger(st, t, order.id, market);
    TradeMovesTwoOrders(st, t, order.id, market);
    AfterFillValid(order, opposing);
    FillKeepsListed(st, order, opposing, st');
    MovedKeeps(st, st', order.id, opposing[0].id, t.quantity);
  }

  lemma MovedKeeps(st: State, st': State, a: string, b: string, q: int)
    requires Moved(st, st', a, b, q)
    ensures st'.open.Keys == st.open.Keys && st'.players.Keys == st.players.Keys
  {
  }

  lemma AfterFillValid(order: Order, opposing: seq<Order>)
    requires opposing != [] && SideValid(opposing, Opposite(order.side)) && order.remaining > 0
    ensures SideValid(AfterFill(order, opposing), Opposite(order.side))
  {
  }

  /** The incoming order is not among the orders it meets. */
  lemma OtherSideIds(st: State, order: Order, opposing: seq<Order>)
    requires InSync(st, order, opposing)
    ensures forall i :: 0 <= i < |opposing| ==> opposing[i].id != order.id
    ensures order.side.Buy? || order.side.Sell?
  {
    hide PlayerOk;
    assert EntryOk(st.open[order.id]);
    forall i | 0 <= i < |opposing| ensures opposing[i].id != order.id {
      assert RestingOk(opposing[i], Opposite(order.side));
    }
  }

  // ---- A whole match ----

  lemma TradeNames(order: Order, opposing: seq<Order>, t: Trade, now: int)
    requires opposing != [] && t == TradeOf(order, opposing[0], Fill(order, opposing), now)
    ensures IsFill(order, opposing, t)
  {
  }

  lemma FillIsPositive(st: State, order: Order, opposing: seq<Order>)
    requires InSync(st, order, opposing) && HeadCrosses(order, opposing)
    ensures Fill(order, opposing) > 0
  {
    hide LedgerOk, Listed;
    assert RestingOk(opposing[0], Opposite(order.side));
  }

  /** The first trade of a match, the ledger after it, and the match that remains. */
  lemma MatchUnfolds(st: State, order: Order, opposing: seq<Order>, last: int, now: int, market: bool)
    returns (t: Trade, st1: State, rest: Order)
    requires InSync(st, order, opposing) && HeadCrosses(order, opposing)
    ensures t == TradeOf(order, opposing[0], Fill(order, opposing), now) && TradeOk(st, t, order.id)
    ensures st1 == ApplyTrade(st, t, order.id, market)
    ensures rest == order.(remaining := order.remaining - t.quantity) && rest.remaining < order.remaining
    ensures InSync(st1, rest, AfterFill(order, opposing))
    ensures var n := Match(rest, AfterFill(order, opposing), opposing[0].price, now);
      Match(order, opposing, last, now)
      == n.(trades := [t] + n.trades,
            removed := (if t.quantity == opposing[0].remaining then [opposing[0].id] else []) + n.removed)
  {
    hide InSync, LedgerOk, ApplyTrade, TradeOk, AfterFill, Match, Crosses;
    t := TradeOf(order, opposing[0], Fill(order, opposing), now);
    FillIsTradeOk(st, order, opposing, now);
    TradeIsKnown(st, t, order.id);
    TradeNames(order, opposing, t, now);
    FillIsPositive(st, order, opposing);
    st1 := ApplyTrade(st, t, order.id, market);
    rest := order.(remaining := order.remaining - t.quantity);
    FillKeepsSync(st, order, opposing, t, market, st1);
    MatchStep(order, opposing, last, now);
  }

  lemma MatchStep(order: Order, opposing: seq<Order>, last: int, now: int)
    requires HeadCrosses(order, opposing)
    ensures var fill := Fill(order, opposing); var t := TradeOf(order, opposing[0], fill, now);
      var n := Match(order.(remaining := order.remaining - fill), AfterFill(order, opposing), opposing[0].price, now);
      Match(order, opposing, last, now)
      == n.(trades := [t] + n.trades,
            removed := (if fill == opposing[0].remaining then [opposing[0].id] else []) + n.removed)
  {
    var fill := Fill(order, opposing);
    if fill < opposing[0].remaining {
      var t := TradeOf(order, opposing[0], fill, now);
      assert [t] + [] == [t];
    }
  }

  lemma ApplyTradesCons(st: State, t: Trade, st1: State, rest: seq<Trade>, incoming: string, market: bool)
    requires PlayersKnown(st, t) && st1 == ApplyTrade(st, t, incoming, market) && AllKnown(st1, rest)
    ensures AllKnown(st, [t] + rest)
    ensures ApplyTrades(st, [t] + rest, incoming, market) == ApplyTrades(st1, rest, incoming, market)
    ensures ChargesOf(st, [t] + rest, incoming, market)
         == BuyerCharges(t, incoming, market) + TradeSellerCharges(st, t, incoming, market)
          + ChargesOf(st1, rest, incoming, market)
  {
    hide ApplyTrade, BuyerCharges, TradeSellerCharges;
    assert ([t] + rest)[1..] == rest;
    forall u | u in [t] + rest ensures PlayersKnown(st, u) {
      if u in rest { assert PlayersKnown(st1, u); }
    }
  }

  /** After a match the ledger is in order again, and the order and the opposing list agree with it. */
  lemma {:induction false} MatchKeepsSync(st: State, order: Order, opposing: seq<Order>, last: int, now: int, market: bool)
    requires InSync(st, order, opposing)
    ensures var m := Match(order, opposing, last, now);
      AllKnown(st, m.trades) && InSync(ApplyTrades(st, m.trades, order.id, market), m.order, m.opposing)
    decreases order.remaining
  {
    hide InSync;
    if HeadCrosses(order, opposing) {
      var t, st1, rest := MatchUnfolds(st, order, opposing, last, now, market);
      var n := Match(rest, AfterFill(order, opposing), opposing[0].price, now);
      assert rest.remaining >= 0 by { RemainingNonNegative(st1, rest, AfterFill(order, opposing)); }
      MatchKeepsSync(st1, rest, AfterFill(order, opposing), opposing[0].price, now, market);
      ApplyTradesCons(st, t, st1, n.trades, order.id, market);
    }
  }

  lemma RemainingNonNegative(st: State, order: Order, opposing: seq<Order>)
    requires InSync(st, order, opposing)
    ensures order.remaining >= 0 && LedgerOk(st, order.id) && Entries(st, order.id)
    ensures order.id in st.open && st.open[order.id].order.kind == order.kind && st.open[order.id].order.side == order.side
    ensures st.open[order.id].order.playerId == order.playerId
    ensures st.open[order.id].order.playerId in st.players
  {
  }

  /** Charges leave circulation, nothing else does; no share is made or lost. */
  lemma {:induction false} MatchConserves(
      st: State, order: Order, opposing: seq<Order>, last: int, now: int, market: bool, symbol: string)
    requires InSync(st, order, opposing)
    ensures var m := Match(order, opposing, last, now);
      && AllKnown(st, m.trades)
      && var st' := ApplyTrades(st, m.trades, order.id, market);
         && TotalCash(st') == TotalCash(st) - ChargesOf(st, m.trades, order.id, market)
         && TotalPaid(st') == TotalPaid(st) + ChargesOf(st, m.trades, order.id, market)
         && TotalShares(st', symbol) == TotalShares(st, symbol)
    decreases order.remaining
  {
    hide InSync, LedgerOk, TradeOk, TotalCash, TotalShares, TotalPaid, BuyerCharges, TradeSellerCharges;
    if HeadCrosses(order, opposing) {
      var t, st1, rest := MatchUnfolds(st, order, opposing, last, now, market);
      var n := Match(rest, AfterFill(order, opposing), opposing[0].price, now);
      RemainingNonNegative(st1, rest, AfterFill(order, opposing));
      RemainingNonNegative(st, order, opposing);
      MatchConserves(st1, rest, AfterFill(order, opposing), opposing[0].price, now, market, symbol);
      TradeConserves(st, t, order.id, market, symbol);
      TradeIsKnown(st, t, order.id);
      ApplyTradesCons(st, t, st1, n.trades, order.id, market);
    }
  }

  lemma TradeIsKnown(st: State, t: Trade, incoming: string)
    requires TradeOk(st, t, incoming)
    ensures PlayersKnown(st, t)
  {
  }

  /** What an order in flight may still cost: the notional of a limit buy, the trades to come of a market buy. */
  function Due(order: Order, trades: seq<Trade>): int {
    if !order.side.Buy? then 0 else if order.kind.Limit? then order.price * order.remaining else Cost(trades)
  }

  lemma {:induction false} CostIsNonNegative(order: Order, opposing: seq<Order>, last: int, now: int)
    requires SideValid(opposing, Opposite(order.side)) && order.remaining >= 0
    ensures Cost(Match(order, opposing, last, now).trades) >= 0
    decreases |opposing|
  {
    if order.remaining > 0 && opposing != [] && Crosses(order, opposing[0].price) {
      var fill := Min(order.remaining, opposing[0].remaining);
      var m := Match(order, opposing, last, now);
      assert RestingOk(opposing[0], Opposite(order.side));
      assert opposing[0].price * fill >= 0;
      if order.remaining >= opposing[0].remaining {
        var rest := order.(remaining := order.remaining - fill);
        CostIsNonNegative(rest, opposing[1..], opposing[0].price, now);
        assert m.trades[1..] == Match(rest, opposing[1..], opposing[0].price, now).trades;
      } else {
        assert m.trades[1..] == [];
      }
    }
  }

  /** A fill takes its cost off what is due. */
  lemma DueFalls(st: State, order: Order, opposing: seq<Order>, t: Trade, rest: Order, later: seq<Trade>)
    requires InSync(st, order, opposing) && TradeOk(st, t, order.id) && HeadCrosses(order, opposing)
    requires IsFill(order, opposing, t) && rest == order.(remaining := order.remaining - t.quantity)
    requires Cost(later) >= 0
    ensures t.buyOrderId == order.id ==> 0 <= Due(rest, later) <= Due(order, [t] + later) - t.price * t.quantity
    ensures t.buyOrderId != order.id ==> Due(rest, later) == Due(order, [t] + later)
  {
    assert ([t] + later)[1..] == later;
    RemainingNonNegative(st, order, opposing);
    OtherSideIds(st, order, opposing);
    hide LedgerOk, Listed, SideValid;
    if t.buyOrderId == order.id && order.kind.Limit? {
      LimitCostFalls(order.price, order.remaining, t.quantity, t.price);
    }
  }

  /** Everyone outside the set stays solvent up to charges through a whole match. */
  lemma {:induction false} MatchKeepsSolvent(
      st: State, order: Order, opposing: seq<Order>, last: int, now: int, market: bool, overspent: set<string>)
    requires InSync(st, order, opposing)
    requires AllSolventIn(st, overspent, order.id, Due(order, Match(order, opposing, last, now).trades))
    ensures var m := Match(order, opposing, last, now);
      && AllKnown(st, m.trades)
      && AllSolventIn(ApplyTrades(st, m.trades, order.id, market), overspent, order.id, Due(m.order, []))
    decreases order.remaining
  {
    hide InSync, LedgerOk, TradeOk, AllSolventIn, Due;
    if HeadCrosses(order, opposing) {
      var t, st1, rest := MatchUnfolds(st, order, opposing, last, now, market);
      var after := AfterFill(order, opposing);
      var n := Match(rest, after, opposing[0].price, now);
      RemainingNonNegative(st1, rest, after);
      RemainingNonNegative(st, order, opposing);
      TradeNames(order, opposing, t, now);
      SyncSide(st1, rest, after);
      CostIsNonNegative(rest, after, opposing[0].price, now);
      DueFalls(st, order, opposing, t, rest, n.trades);
      TradeKeepsSolvent(st, t, order.id, market, overspent, Due(order, [t] + n.trades), Due(rest, n.trades));
      MatchKeepsSolvent(st1, rest, after, opposing[0].price, now, market, overspent);
      TradeIsKnown(st, t, order.id);
      ApplyTradesCons(st, t, st1, n.trades, order.id, market);
    }
  }

  lemma SyncSide(st: State, order: Order, opposing: seq<Order>)
    requires InSync(st, order, opposing)
    ensures SideValid(opposing, Opposite(order.side))
  {
  }

  /** Only the order and the orders it meets change; those used up are down to zero, none disappears yet. */
  ghost predicate Framed(st: State, st': State, id: string, opposing: seq<Order>, removed: seq<string>) {
    && st'.open.Keys == st.open.Keys && st'.players.Keys == st.players.Keys
    && (forall j :: j in st.open && j != id && !HasId(opposing, j) ==> st'.open[j] == st.open[j])
    && (forall j :: j in st.open ==> SameTerms(st.open[j].order, st'.open[j].order))
    && (forall j :: j in removed ==> j in st'.open && j != id && st'.open[j].order.remaining == 0)
  }

  lemma {:induction false} MatchFrame(st: State, order: Order, opposing: seq<Order>, last: int, now: int, market: bool)
    requires InSync(st, order, opposing)
    ensures var m := Match(order, opposing, last, now);
      && AllKnown(st, m.trades)
      && Framed(st, ApplyTrades(st, m.trades, order.id, market), order.id, opposing, m.removed)
    decreases order.remaining
  {
    hide InSync, LedgerOk, TradeOk, ApplyTrade, AfterFill;
    if HeadCrosses(order, opposing) {
      hide Framed;
      var t, st1, rest := MatchUnfolds(st, order, opposing, last, now, market);
      var n := Match(rest, AfterFill(order, opposing), opposing[0].price, now);
      RemainingNonNegative(st1, rest, AfterFill(order, opposing));
      MatchFrame(st1, rest, AfterFill(order, opposing), opposing[0].price, now, market);
      TradeIsKnown(st, t, order.id);
      TradeNames(order, opposing, t, now);
      ApplyTradesCons(st, t, st1, n.trades, order.id, market);
      TradeMovesTwoOrders(st, t, order.id, market);
      HeadLeaves(st, order, opposing);
      FrameStep(st, st1, ApplyTrades(st1, n.trades, order.id, market), order.id, opposing[0], t.quantity,
                opposing, AfterFill(order, opposing), n.removed);
    }
  }

  lemma FrameStep(st: State, st1: State, st2: State, id: string, head: Order, fill: int,
                  opposing: seq<Order>, after: seq<Order>, removed: seq<string>)
    requires Moved(st, st1, id, head.id, fill) && Framed(st1, st2, id, after, removed)
    requires head.id != id && head.id in st.open && st.open[head.id].order.remaining == head.remaining
    requires HasId(opposing, head.id) && (fill == head.remaining ==> !HasId(after, head.id))
    requires forall j :: HasId(after, j) ==> HasId(opposing, j)
    ensures Framed(st, st2, id, opposing, (if fill == head.remaining then [head.id] else []) + removed)
  {
    hide HasId;
    forall j | j in st.open && j != id && !HasId(opposing, j) ensures st2.open[j] == st.open[j] {
      assert !HasId(after, j);
    }
  }

  /** Once used up, the head is neither the order itself nor met again. */
  lemma HeadLeaves(st: State, order: Order, opposing: seq<Order>)
    requires InSync(st, order, opposing) && HeadCrosses(order, opposing)
    ensures var head := opposing[0];
      && head.id != order.id && head.id in st.open && HasId(opposing, head.id)
      && st.open[head.id].order.remaining == head.remaining
      && (Fill(order, opposing) == head.remaining ==> !HasId(AfterFill(order, opposing), head.id))
    ensures forall j :: HasId(AfterFill(order, opposing), j) ==> HasId(opposing, j)
  {
    OtherSideIds(st, order, opposing);
    hide LedgerOk, SideValid;
    forall j | HasId(AfterFill(order, opposing), j) ensures HasId(opposing, j) {
      AfterFillIds(order, opposing, j);
    }
  }

  lemma AfterFillIds(order: Order, opposing: seq<Order>, id: string)
    requires opposing != [] && HasId(AfterFill(order, opposing), id)
    ensures HasId(opposing, id)
  {
    var after := AfterFill(order, opposing);
    var i :| 0 <= i < |after| && after[i].id == id;
    assert opposing[i + |opposing| - |after|].id == id;
  }
}
