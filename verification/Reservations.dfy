/** Opening and closing an order: what reserving, trimming, releasing and refunding keep. */
module Reservations {
  import opened Orders
  import opened Lots
  import opened Sums
  import opened Ledger
  import opened Invariants

  /** No order is in flight: every open order rests, and the books of every player agree with it. */
  ghost predicate Settled(st: State) {
    LedgerOk(st, "") && "" !in st.open
  }

  /** The reservation of an incoming order becomes an open order of its own. */
  function Opened(st: State, order: Order, r: ReserveResult): State
    requires r.Reserved?
  {
    st.(players := st.players[order.playerId := r.player],
        open := st.open[order.id := OpenOrder(order, r.cash, r.quantity)])
  }

  predicate Opens(st: State, order: Order, reference: int, r: ReserveResult) {
    && order.playerId in st.players && order.id !in st.open && order.id != ""
    && order.remaining == order.quantity > 0
    && (order.kind.Limit? ==> order.price > 0)
    && r == Reserve(st.players[order.playerId], order.symbol, order.side, order.kind, order.price, order.quantity, reference)
    && r.Reserved?
  }

  lemma NeedCoversNotional(kind: OrderType, price: int, qty: int, reference: int)
    requires qty > 0
    ensures ReserveNeed(kind, price, qty, reference) >= 0
    ensures price > 0 && !kind.Market? ==> ReserveNeed(kind, price, qty, reference) >= price * qty
  {
    var reservePrice := if price > 0 then price else if reference > 0 then reference else 100;
    var unit := if kind.Market? then reservePrice * 5 / 4 else reservePrice;
    assert unit >= 0;
    assert unit * qty >= 0;
  }

  lemma OpeningKeepsPlayer(st: State, order: Order, reference: int, r: ReserveResult, p: string)
    requires Opens(st, order, reference, r) && p in st.players && PlayerOk(st, p)
    ensures PlayerOk(Opened(st, order, r), p)
  {
    var st1, o := Opened(st, order, r), OpenOrder(order, r.cash, r.quantity);
    NeedCoversNotional(order.kind, order.price, order.quantity, reference);
    hide ReserveNeed;
    SumUpdate(st.open, order.id, o, CashHeld(p));
    forall s ensures StockExact(st1, p, s) && LotsCovered(st1.players[p], s, 0) {
      assert StockExact(st, p, s) && LotsCovered(st.players[p], s, 0);
      SumUpdate(st.open, order.id, o, StockHeld(p, s));
    }
  }

  lemma OpeningKeepsLedger(st: State, order: Order, reference: int, r: ReserveResult)
    requires Opens(st, order, reference, r) && Settled(st)
    ensures LedgerOk(Opened(st, order, r), order.id)
  {
    NeedCoversNotional(order.kind, order.price, order.quantity, reference);
    hide PlayerOk, ReserveNeed;
    forall p | p in st.players ensures PlayerOk(Opened(st, order, r), p) {
      OpeningKeepsPlayer(st, order, reference, r, p);
    }
  }

  /** A reservation that covers what is due keeps its owner solvent. */
  lemma OpeningKeepsSolvent(st: State, order: Order, reference: int, r: ReserveResult, overspent: set<string>, due: int)
    requires Opens(st, order, reference, r) && Settled(st) && AllSolvent(st, overspent)
    requires order.side.Buy? && order.playerId !in overspent ==> due <= r.cash
    ensures AllSolventIn(Opened(st, order, r), overspent, order.id, due)
  {
    NeedCoversNotional(order.kind, order.price, order.quantity, reference);
    RestingWeighsTheSame(st, overspent, order.id, "", due);
    OpenedCash(st, order, reference, r);
    hide ReserveNeed, PlayerOk, Opens, Reserve, Entries;
    forall p | p in st.players && p !in overspent ensures SolventIn(Opened(st, order, r), p, order.id, due) {
      assert SolventIn(st, p, order.id, due);
      OpenedWeight(st, order, r, p, due);
      OpenedStaysSolvent(st, order, r, p, due);
    }
  }

  lemma OpenedStaysSolvent(st: State, order: Order, r: ReserveResult, p: string, due: int)
    requires order.playerId in st.players && r.Reserved? && p in st.players && SolventIn(st, p, order.id, due)
    requires order.side.Buy? && p == order.playerId ==>
      due <= r.cash && r.player.reservedCash == st.players[p].reservedCash + r.cash <= r.player.cash == st.players[p].cash
    requires !order.side.Buy? ==>
      r.player.reservedCash == st.players[order.playerId].reservedCash && r.player.cash == st.players[order.playerId].cash
    requires Sum(Opened(st, order, r).open, WeightIn(p, order.id, due))
          == Sum(st.open, WeightIn(p, order.id, due)) + if p == order.playerId && order.side.Buy? then Max(r.cash, due) else 0
    ensures SolventIn(Opened(st, order, r), p, order.id, due)
  {
    hide WeightIn;
  }

  lemma OpenedCash(st: State, order: Order, reference: int, r: ReserveResult)
    requires Opens(st, order, reference, r)
    ensures order.playerId in st.players && order.id !in st.open && r.Reserved? && order.quantity > 0
    ensures var a, need := st.players[order.playerId], ReserveNeed(order.kind, order.price, order.quantity, reference);
      && r.player.cash == a.cash
      && (order.side.Buy? ==> r.cash == need && r.player.reservedCash == a.reservedCash + need <= a.cash)
      && (!order.side.Buy? ==> r.player.reservedCash == a.reservedCash)
  {
    hide ReserveNeed;
  }

  lemma OpenedWeight(st: State, order: Order, r: ReserveResult, p: string, due: int)
    requires order.id !in st.open && r.Reserved?
    ensures Sum(Opened(st, order, r).open, WeightIn(p, order.id, due))
         == Sum(st.open, WeightIn(p, order.id, due))
            + if p == order.playerId && order.side.Buy? then Max(r.cash, due) else 0
  {
    SumUpdate(st.open, order.id, OpenOrder(order, r.cash, r.quantity), WeightIn(p, order.id, due));
  }

  // ---- Trimming a remainder that rests ----

  lemma TrimKeepsCash(st: State, id: string, incoming: string, p: string)
    requires Entries(st, incoming) && id in st.open && p in st.players && CashSandwich(st, p)
    requires st.open[id].order.price >= 0
    ensures CashSandwich(TrimOpen(st, id), p)
  {
    var o, st1 := st.open[id], TrimOpen(st, id);
    assert EntryOk(o);
    assert o.order.price * o.order.remaining >= 0;
    SumUpdate(st.open, id, st1.open[id], CashHeld(p));
    assert forall j :: j in st1.open ==> CashHeld(p)(st1.open[j]) >= 0;
    SumNonNegative(st1.open, CashHeld(p));
    hide Entries;
  }

  lemma TrimKeepsStock(st: State, id: string, incoming: string, p: string, s: string)
    requires Entries(st, incoming) && id in st.open && p in st.players
    requires StockExact(st, p, s) && LotsCovered(st.players[p], s, 0)
    ensures StockExact(TrimOpen(st, id), p, s) && LotsCovered(TrimOpen(st, id).players[p], s, 0)
  {
    var o, st1 := st.open[id], TrimOpen(st, id);
    assert EntryOk(o);
    SumUpdate(st.open, id, st1.open[id], StockHeld(p, s));
    hide Entries;
  }

  lemma TrimKeepsPlayer(st: State, id: string, incoming: string, p: string)
    requires Entries(st, incoming) && id in st.open && p in st.players && PlayerOk(st, p)
    requires st.open[id].order.price >= 0
    ensures p in TrimOpen(st, id).players && PlayerOk(TrimOpen(st, id), p)
  {
    TrimKeepsCash(st, id, incoming, p);
    hide Entries, CashSandwich, StockExact, LotsCovered, Trim;
    forall s ensures StockExact(TrimOpen(st, id), p, s) && LotsCovered(TrimOpen(st, id).players[p], s, 0) {
      assert StockExact(st, p, s) && LotsCovered(st.players[p], s, 0);
      TrimKeepsStock(st, id, incoming, p, s);
    }
  }

  lemma TrimKeepsLedger(st: State, id: string)
    requires LedgerOk(st, id) && id in st.open && id != "" && "" !in st.open
    requires st.open[id].order.kind.Limit? && st.open[id].order.price > 0
    ensures Settled(TrimOpen(st, id))
  {
    hide PlayerOk;
    var o := st.open[id];
    assert o.order.price * o.order.remaining >= 0;
    assert RestingEntry(TrimOpen(st, id).open[id]);
    forall p | p in st.players ensures PlayerOk(TrimOpen(st, id), p) {
      TrimKeepsPlayer(st, id, id, p);
    }
  }

  lemma TrimKeepsSolvent(st: State, id: string, overspent: set<string>)
    requires Entries(st, id) && id in st.open && st.open[id].order.price >= 0
    requires AllSolvent(st, overspent)
    ensures AllSolvent(TrimOpen(st, id), overspent)
  {
    var o, st1 := st.open[id], TrimOpen(st, id);
    assert o.order.price * o.order.remaining >= 0;
    forall p | p in st.players && p !in overspent ensures Solvent(st1, p) {
      assert Solvent(st, p);
      SumUpdate(st.open, id, st1.open[id], Weight(p));
    }
  }

  // ---- Closing an order for good ----

  /** The order is gone and its owner has back what it held, no clamp on shares having fired. */
  ghost predicate Dropped(st: State, st': State, id: string) {
    && id in st.open && st.open[id].order.playerId in st.players
    && st'.open == st.open - {id} && st'.paid == st.paid && st'.players.Keys == st.players.Keys
    && var o := st.open[id];
       && (forall p :: p in st.players && p != o.order.playerId ==> st'.players[p] == st.players[p])
       && GivesBack(Owner(st, o), st'.players[o.order.playerId], o)
  }

  /** What an order holds is of its own kind, and its owner has it reserved. */
  lemma HeldIsReserved(st: State, id: string, incoming: string)
    requires LedgerOk(st, incoming) && id in st.open
    ensures var o := st.open[id];
      && o.order.playerId in st.players && Owner(st, o).reservedCash >= 0
      && (o.order.side.Buy? ==> o.reservedCash >= 0 && o.reservedQuantity == 0)
      && (o.order.side.Sell? ==>
            o.reservedCash == 0 && 0 <= o.reservedQuantity <= Get(Owner(st, o).reservedStocks, o.order.symbol))
      && (o.order.side.Buy? || o.order.side.Sell?)
  {
    var o := st.open[id];
    assert PlayerOk(st, o.order.playerId);
    assert StockExact(st, o.order.playerId, o.order.symbol);
    assert CashSandwich(st, o.order.playerId);
    if o.order.side.Sell? { OfferIsCovered(st, incoming, id); }
  }

  lemma CleanupDrops(st: State, id: string, incoming: string)
    requires LedgerOk(st, incoming) && id in st.open
    ensures Dropped(st, Cleanup(st, id), id)
  {
    HeldIsReserved(st, id, incoming);
    hide LedgerOk;
    var o := st.open[id];
    RefundGivesBack(Owner(st, o), o);
    hide Refund;
  }

  lemma RefundGivesBack(a: Player, o: OpenOrder)
    requires a.reservedCash >= 0 && o.reservedCash >= 0
    requires 0 <= o.reservedQuantity && (o.reservedQuantity > 0 ==> o.reservedQuantity <= Get(a.reservedStocks, o.order.symbol))
    ensures GivesBack(a, Refund(a, o), o)
  {
  }

  /** The owner has back what the order held, no clamp on shares having fired. */
  ghost predicate GivesBack(a: Player, b: Player, o: OpenOrder) {
    b == a.(reservedCash := Floor0(a.reservedCash - o.reservedCash), reservedStocks := b.reservedStocks)
    && forall s :: Get(b.reservedStocks, s)
                == Get(a.reservedStocks, s) - if s == o.order.symbol then o.reservedQuantity else 0
  }

  /** An incoming order that does not rest gives back what is left of its reservation. */
  function Released(st: State, id: string): State {
    if id !in st.open || st.open[id].order.playerId !in st.players then st
    else
      var o := st.open[id];
      st.(players := st.players[o.order.playerId :=
            Release(Owner(st, o), o.order.symbol, o.order.side, o.reservedCash, o.reservedQuantity)],
          open := st.open - {id})
  }

  lemma ReleaseDrops(st: State, id: string)
    requires LedgerOk(st, id) && id in st.open
    ensures Dropped(st, Released(st, id), id)
  {
    HeldIsReserved(st, id, id);
    hide LedgerOk;
    var o := st.open[id];
    ReleaseGivesBack(Owner(st, o), o);
    hide Release;
  }

  lemma ReleaseGivesBack(a: Player, o: OpenOrder)
    requires a.reservedCash >= 0 && (o.order.side.Buy? || o.order.side.Sell?)
    requires o.order.side.Buy? ==> o.reservedCash >= 0 && o.reservedQuantity == 0
    requires o.order.side.Sell? ==> o.reservedCash == 0 && 0 <= o.reservedQuantity <= Get(a.reservedStocks, o.order.symbol)
    ensures GivesBack(a, Release(a, o.order.symbol, o.order.side, o.reservedCash, o.reservedQuantity), o)
  {
  }

  lemma DropKeepsCash(st: State, st': State, id: string, incoming: string, p: string)
    requires Entries(st, incoming) && Dropped(st, st', id) && p in st.players && CashSandwich(st, p)
    ensures CashSandwich(st', p)
  {
    SumRemove(st.open, id, CashHeld(p));
    assert forall j :: j in st'.open ==> CashHeld(p)(st'.open[j]) >= 0;
    SumNonNegative(st'.open, CashHeld(p));
    assert EntryOk(st.open[id]);
    hide Entries;
  }

  lemma DropKeepsStock(st: State, st': State, id: string, incoming: string, p: string, s: string)
    requires Entries(st, incoming) && Dropped(st, st', id) && p in st.players
    requires StockExact(st, p, s) && LotsCovered(st.players[p], s, 0)
    ensures StockExact(st', p, s) && LotsCovered(st'.players[p], s, 0)
  {
    SumRemove(st.open, id, StockHeld(p, s));
    assert forall j :: j in st'.open ==> StockHeld(p, s)(st'.open[j]) >= 0;
    SumNonNegative(st'.open, StockHeld(p, s));
    assert EntryOk(st.open[id]);
    hide Entries;
  }

  lemma DropKeepsPlayer(st: State, st': State, id: string, incoming: string, p: string)
    requires Entries(st, incoming) && Dropped(st, st', id) && p in st.players && PlayerOk(st, p)
    ensures p in st'.players && PlayerOk(st', p)
  {
    DropKeepsCash(st, st', id, incoming, p);
    hide Entries, CashSandwich, StockExact, LotsCovered;
    forall s ensures StockExact(st', p, s) && LotsCovered(st'.players[p], s, 0) {
      assert StockExact(st, p, s) && LotsCovered(st.players[p], s, 0);
      DropKeepsStock(st, st', id, incoming, p, s);
    }
  }

  lemma DropKeepsLedger(st: State, st': State, id: string, incoming: string)
    requires LedgerOk(st, incoming) && Dropped(st, st', id)
    ensures LedgerOk(st', incoming)
    ensures id == incoming ==> LedgerOk(st', "")
  {
    hide PlayerOk;
    forall p | p in st.players ensures PlayerOk(st', p) {
      DropKeepsPlayer(st, st', id, incoming, p);
    }
  }

  /** What is left weighs what everything weighed, less the order dropped. */
  lemma DroppedWeight(st: State, open': map<string, OpenOrder>, id: string, incoming: string, p: string, due: int)
    requires Entries(st, incoming) && id in st.open && open' == st.open - {id}
    ensures 0 <= Sum(open', Weight(p)) == Sum(st.open, WeightIn(p, id, due)) - WeightIn(p, id, due)(st.open[id])
  {
    SumRemove(st.open, id, WeightIn(p, id, due));
    SumSame(open', Weight(p), WeightIn(p, id, due));
    assert forall j :: j in open' ==> Weight(p)(open'[j]) >= 0;
    SumNonNegative(open', Weight(p));
  }

  /** Dropping an order keeps everyone solvent, whatever was still due on it. */
  lemma DropInFlightKeepsSolvent(
      st: State, st': State, id: string, incoming: string, overspent: set<string>, due: int)
    requires Entries(st, incoming) && Dropped(st, st', id) && AllSolventIn(st, overspent, id, due)
    ensures AllSolvent(st', overspent)
  {
    assert EntryOk(st.open[id]);
    forall p | p in st.players && p !in overspent ensures Solvent(st', p) {
      assert SolventIn(st, p, id, due);
      DroppedWeight(st, st'.open, id, incoming, p, due);
      hide Entries, Weight, AllSolventIn;
      if p != st.open[id].order.playerId { assert st'.players[p] == st.players[p]; }
    }
  }

  lemma DropKeepsSolvent(st: State, st': State, id: string, incoming: string, overspent: set<string>)
    requires Entries(st, incoming) && Dropped(st, st', id) && AllSolvent(st, overspent)
    ensures AllSolvent(st', overspent)
  {
    var due := st.open[id].order.price * st.open[id].order.remaining;
    RestingWeighsTheSame(st, overspent, id, incoming, due);
    hide Dropped, AllSolvent, AllSolventIn, Entries;
    DropInFlightKeepsSolvent(st, st', id, incoming, overspent, due);
  }

  lemma DropConserves(st: State, st': State, id: string, symbol: string)
    requires Dropped(st, st', id)
    ensures TotalCash(st') == TotalCash(st) && TotalShares(st', symbol) == TotalShares(st, symbol)
    ensures TotalPaid(st') == TotalPaid(st)
  {
    var p := st.open[id].order.playerId;
    assert st'.players == st.players[p := st'.players[p]];
    SumUpdate(st.players, p, st'.players[p], CashOf());
    SumUpdate(st.players, p, st'.players[p], SharesOf(symbol));
  }

  /** Between actions, normalizing an open order never releases anything. */
  lemma NormalizeIsIdle(st: State, id: string)
    requires Settled(st)
    requires id in st.open ==> st.open[id].order.remaining > 0
    ensures Normalize(st, id) == st
  {
    if id in st.open {
      var o := st.open[id];
      assert RestingEntry(o);
      assert st.players[o.order.playerId := Owner(st, o)] == st.players && st.open[id := o] == st.open;
    }
  }

  /** A fully filled resting order holds nothing, so cleaning it up only forgets it. */
  lemma FilledHoldsNothing(st: State, id: string, incoming: string)
    requires Entries(st, incoming) && id in st.open && id != incoming && st.open[id].order.remaining == 0
    ensures st.open[id].reservedCash == 0 && st.open[id].reservedQuantity == 0
    ensures Cleanup(st, id) == st.(open := st.open - {id})
  {
    var o := st.open[id];
    assert o.order.price * o.order.remaining == 0;
    assert st.players[o.order.playerId := Owner(st, o)] == st.players;
  }
}
