/** Placing an order keeps the ledger in order and the two order indexes equal. */
module Placing {
  import opened Orders
  import opened Sums
  import opened Matching
  import opened Ledger
  import opened Invariants
  import opened Reservations
  import opened Settlement
  import opened Arena

  /** An accepted order with its reservation, against a book that agrees with the ledger. */
  ghost predicate Ready(st: State, v: BookView, order: Order, reference: int, r: ReserveResult) {
    && Settled(st) && Valid(v) && BookAgrees(st.open, v, order.symbol)
    && Accepted(order) && order.remaining == 0
    && Opens(st, Submitted(order), reference, r)
  }

  function Matched(v: BookView, order: Order, now: int): MatchResult {
    Match(Submitted(order), SideOf(v, Opposite(order.side)), v.lastTradePrice, now)
  }

  /** The opened order carries its final status while it is settled. */
  function Entry(v: BookView, order: Order, now: int): Order {
    Place(v, order, now).1.order.(remaining := order.quantity)
  }

  lemma EntryTerms(v: BookView, order: Order, now: int)
    requires Valid(v) && Accepted(order)
    ensures SameOrder(Entry(v, order, now), Submitted(order))
  {
    MatchKeepsOpposing(Submitted(order), SideOf(v, Opposite(order.side)), v.lastTradePrice, now);
    hide Match, Insert;
  }

  lemma SyncAtOpening(st: State, entry: Order, order: Order, opposing: seq<Order>, reference: int, r: ReserveResult)
    requires Settled(st) && Opens(st, entry, reference, r) && SameOrder(entry, order) && order.remaining >= 0
    requires SideValid(opposing, Opposite(order.side)) && Listed(st.open, opposing, order.symbol)
    ensures InSync(Opened(st, entry, r), order, opposing)
  {
    hide LedgerOk, SideValid, Reserve;
    OpeningKeepsLedger(st, entry, reference, r);
    OpenedListed(st.open, Opened(st, entry, r).open, opposing, order.symbol, entry);
  }

  lemma OpenedListed(open: map<string, OpenOrder>, open': map<string, OpenOrder>, orders: seq<Order>, symbol: string, entry: Order)
    requires Listed(open, orders, symbol) && entry.id !in open
    requires entry.id in open' && open' == open[entry.id := open'[entry.id]]
    ensures Listed(open', orders, symbol)
  {
  }

  lemma OpeningIsInSync(st: State, v: BookView, order: Order, reference: int, r: ReserveResult, now: int)
    requires Ready(st, v, order, reference, r)
    ensures Opens(st, Entry(v, order, now), reference, r)
    ensures InSync(Opened(st, Entry(v, order, now), r), Submitted(order), SideOf(v, Opposite(order.side)))
  {
    hide Settled, InSync, Listed, SideValid, Entry, Reserve, Opened;
    EntryTerms(v, order, now);
    SyncAtOpening(st, Entry(v, order, now), Submitted(order), SideOf(v, Opposite(order.side)), reference, r);
  }

  lemma CleanupForgets(st: State, id: string)
    requires Settled(st) && (id in st.open ==> st.open[id].order.remaining == 0)
    ensures Cleanup(st, id) == st.(open := st.open - {id}) && Settled(Cleanup(st, id))
  {
    if id in st.open {
      FilledHoldsNothing(st, id, "");
      CleanupDrops(st, id, "");
      DropKeepsLedger(st, Cleanup(st, id), id, "");
    } else {
      assert st.open - {id} == st.open;
    }
  }

  /** Cleaning up the orders a match used up only forgets them. */
  lemma {:induction false} CleanupAllForgets(st: State, ids: seq<string>)
    requires Settled(st) && forall id :: id in ids && id in st.open ==> st.open[id].order.remaining == 0
    ensures CleanupAll(st, ids) == st.(open := st.open - (set id | id in ids))
    ensures Settled(CleanupAll(st, ids))
    decreases |ids|
  {
    hide Settled, Cleanup;
    if ids == [] {
      assert st.open - {} == st.open;
    } else {
      CleanupForgets(st, ids[0]);
      CleanupAllForgets(st.(open := st.open - {ids[0]}), ids[1..]);
      assert st.open - {ids[0]} - (set id | id in ids[1..]) == st.open - (set id | id in ids);
    }
  }

  lemma {:induction false} CleanupAllKeepsSolvent(st: State, ids: seq<string>, overspent: set<string>)
    requires Settled(st) && forall id :: id in ids && id in st.open ==> st.open[id].order.remaining == 0
    requires AllSolvent(st, overspent)
    ensures AllSolvent(CleanupAll(st, ids), overspent)
    decreases |ids|
  {
    if ids != [] {
      CleanupForgets(st, ids[0]);
      if ids[0] in st.open {
        CleanupDrops(st, ids[0], "");
        DropKeepsSolvent(st, Cleanup(st, ids[0]), ids[0], "", overspent);
      }
      hide Settled, AllSolvent, Cleanup;
      CleanupAllKeepsSolvent(Cleanup(st, ids[0]), ids[1..], overspent);
    }
  }

  /** The state between the trades and the cleanup. */
  function Closed(st1: State, id: string, rests: bool): State {
    if rests then TrimOpen(st1, id) else Released(st1, id)
  }

  lemma ClosingSettles(st1: State, id: string, rests: bool)
    requires LedgerOk(st1, id) && id in st1.open && id != "" && "" !in st1.open
    requires rests ==> st1.open[id].order.kind.Limit? && st1.open[id].order.price > 0
    ensures Settled(Closed(st1, id, rests))
  {
    if rests {
      TrimKeepsLedger(st1, id);
    } else {
      ReleaseDrops(st1, id);
      DropKeepsLedger(st1, Released(st1, id), id, id);
    }
  }

  lemma ClosingKeepsSolvent(st1: State, id: string, rests: bool, overspent: set<string>, due: int)
    requires LedgerOk(st1, id) && id in st1.open && AllSolventIn(st1, overspent, id, due)
    requires rests ==> st1.open[id].order.price > 0
    requires rests && st1.open[id].order.side.Buy? ==> due == st1.open[id].order.price * st1.open[id].order.remaining
    ensures AllSolvent(Closed(st1, id, rests), overspent)
  {
    hide PlayerOk, AllSolvent, AllSolventIn;
    if rests {
      RestingWeighsTheSame(st1, overspent, id, id, due);
      TrimKeepsSolvent(st1, id, overspent);
    } else {
      ReleaseDrops(st1, id);
      DropInFlightKeepsSolvent(st1, Released(st1, id), id, id, overspent, due);
    }
  }

  /** What closing does to the open orders. */
  lemma ClosingFrame(st1: State, id: string, rests: bool)
    requires Entries(st1, id) && id in st1.open
    ensures var st2 := Closed(st1, id, rests);
      && st2.open.Keys == (if rests then st1.open.Keys else st1.open.Keys - {id})
      && st2.players.Keys == st1.players.Keys
      && (forall j :: j in st2.open && j != id ==> st2.open[j] == st1.open[j])
      && (rests ==> st2.open[id].order == st1.open[id].order)
  {
  }

  lemma TrimConserves(st: State, id: string, symbol: string)
    requires id in st.open && st.open[id].order.playerId in st.players
    ensures TotalCash(TrimOpen(st, id)) == TotalCash(st) && TotalShares(TrimOpen(st, id), symbol) == TotalShares(st, symbol)
    ensures TrimOpen(st, id).paid == st.paid
  {
    var o := st.open[id];
    var player := Trim(Owner(st, o), o).0;
    assert TrimOpen(st, id).players == st.players[o.order.playerId := player];
    assert player.cash == Owner(st, o).cash && player.portfolio == Owner(st, o).portfolio;
    hide Trim, TrimOpen;
    SumUpdate(st.players, o.order.playerId, player, CashOf());
    SumUpdate(st.players, o.order.playerId, player, SharesOf(symbol));
  }

  lemma ClosingConserves(st1: State, id: string, rests: bool, symbol: string)
    requires LedgerOk(st1, id) && id in st1.open
    ensures var st2 := Closed(st1, id, rests);
      TotalCash(st2) == TotalCash(st1) && TotalShares(st2, symbol) == TotalShares(st1, symbol) && st2.paid == st1.paid
  {
    if rests {
      hide TrimOpen, PlayerOk, TotalCash, TotalShares;
      TrimConserves(st1, id, symbol);
    } else {
      ReleaseDrops(st1, id);
      hide PlayerOk, Released, TotalCash, TotalShares;
      DropConserves(st1, Released(st1, id), id, symbol);
    }
  }

  lemma PlaceReports(v: BookView, order: Order, now: int)
    ensures var p := Place(v, order, now).1; var m := Matched(v, order, now);
      && p.trades == m.trades && p.removed == m.removed
      && p.order == m.order.(status := StatusOf(m.order))
      && p.resting == (if Rests(m.order) then Some(p.order) else None)
  {
    hide Match;
  }

  /** The order as matching leaves it has the terms it came with. */
  lemma MatchedTerms(st: State, v: BookView, order: Order, reference: int, r: ReserveResult, now: int)
    requires Ready(st, v, order, reference, r)
    ensures var m := Matched(v, order, now);
      && SameTerms(order, m.order) && m.order.id == order.id && m.order.kind == order.kind
      && (Rests(m.order) ==> m.order.kind.Limit? && m.order.price > 0)
  {
    ReadyToMatch(st, v, order, reference, r);
    MatchKeepsOpposing(Submitted(order), SideOf(v, Opposite(order.side)), v.lastTradePrice, now);
    hide Ready, Match, Accepted;
  }

  lemma ReadyToMatch(st: State, v: BookView, order: Order, reference: int, r: ReserveResult)
    requires Ready(st, v, order, reference, r)
    ensures SideValid(SideOf(v, Opposite(order.side)), Opposite(order.side)) && Submitted(order).remaining >= 0
    ensures (order.kind.Limit? && order.price > 0) || order.kind.Market?
  {
  }

  lemma RestingIsPriced(st1: State, order: Order, opposing: seq<Order>)
    requires InSync(st1, order, opposing)
    ensures LedgerOk(st1, order.id) && order.id in st1.open && SameOrder(st1.open[order.id].order, order)
    ensures Entries(st1, order.id) && Listed(st1.open, opposing, order.symbol)
  {
  }

  lemma AfterTrades(st: State, v: BookView, order: Order, reference: int, r: ReserveResult, now: int)
    returns (st0: State, st1: State)
    requires Ready(st, v, order, reference, r)
    ensures st0 == Opened(st, Entry(v, order, now), r)
    ensures var m := Matched(v, order, now); var opposing := SideOf(v, Opposite(order.side));
      && AllKnown(st0, m.trades)
      && st1 == ApplyTrades(st0, m.trades, order.id, order.kind.Market?)
      && InSync(st1, m.order, m.opposing)
      && Framed(st0, st1, order.id, opposing, m.removed)
  {
    OpeningIsInSync(st, v, order, reference, r, now);
    hide Ready, InSync, Framed, Match, AllKnown, Entry, Opened, ApplyTrades;
    var opposing := SideOf(v, Opposite(order.side));
    st0 := Opened(st, Entry(v, order, now), r);
    MatchKeepsSync(st0, Submitted(order), opposing, v.lastTradePrice, now, order.kind.Market?);
    MatchFrame(st0, Submitted(order), opposing, v.lastTradePrice, now, order.kind.Market?);
    st1 := ApplyTrades(st0, Matched(v, order, now).trades, order.id, order.kind.Market?);
  }

  lemma RemovedAreFilled(st0: State, st1: State, id: string, opposing: seq<Order>, removed: seq<string>, rests: bool)
    requires Framed(st0, st1, id, opposing, removed) && Entries(st1, id) && id in st1.open
    ensures forall j :: j in removed && j in Closed(st1, id, rests).open ==>
      Closed(st1, id, rests).open[j].order.remaining == 0
  {
    ClosingFrame(st1, id, rests);
    hide Closed, Entries;
  }

  /** The stages of settling an accepted order: opened, traded, closed, and the filled orders forgotten. */
  lemma SettleStages(st: State, v: BookView, order: Order, reference: int, r: ReserveResult, now: int)
    returns (st0: State, st1: State, st2: State)
    requires Ready(st, v, order, reference, r)
    ensures st0 == Opened(st, Entry(v, order, now), r)
    ensures var m := Matched(v, order, now); var opposing := SideOf(v, Opposite(order.side));
      && AllKnown(st0, m.trades)
      && st1 == ApplyTrades(st0, m.trades, order.id, order.kind.Market?)
      && InSync(st1, m.order, m.opposing)
      && Framed(st0, st1, order.id, opposing, m.removed)
      && st2 == Closed(st1, order.id, Rests(m.order))
      && Settle(st, order, r, Place(v, order, now).1) == CleanupAll(st2, m.removed)
      && (forall j :: j in m.removed && j in st2.open ==> st2.open[j].order.remaining == 0)
    ensures Settled(st2)
  {
    st0, st1 := AfterTrades(st, v, order, reference, r, now);
    MatchedTerms(st, v, order, reference, r, now);
    var m := Matched(v, order, now);
    RestingIsPriced(st1, m.order, m.opposing);
    PlaceReports(v, order, now);
    NoEmptyId(st, v, order, reference, r, st0, st1, now);
    hide Ready, InSync, LedgerOk, Framed, Match, AllKnown, Opened, ApplyTrades, CleanupAll, Closed, Entries, Listed, Matched, Place;
    st2 := Closed(st1, order.id, Rests(m.order));
    ClosingSettles(st1, order.id, Rests(m.order));
    RemovedAreFilled(st0, st1, order.id, SideOf(v, Opposite(order.side)), m.removed, Rests(m.order));
    SettleIs(st, v, order, r, now, st0, st1);
  }

  lemma NoEmptyId(st: State, v: BookView, order: Order, reference: int, r: ReserveResult, st0: State, st1: State, now: int)
    requires Ready(st, v, order, reference, r) && st0 == Opened(st, Entry(v, order, now), r)
    requires st1.open.Keys == st0.open.Keys
    requires SameOrder(Entry(v, order, now), Submitted(order))
    ensures "" !in st1.open && order.id != ""
  {
    hide Entry;
  }

  lemma SettleIs(st: State, v: BookView, order: Order, r: ReserveResult, now: int, st0: State, st1: State)
    requires r.Reserved? && st0 == Opened(st, Entry(v, order, now), r)
    requires AllKnown(st0, Matched(v, order, now).trades)
    requires st1 == ApplyTrades(st0, Matched(v, order, now).trades, order.id, order.kind.Market?)
    ensures Settle(st, order, r, Place(v, order, now).1)
         == CleanupAll(Closed(st1, order.id, Rests(Matched(v, order, now).order)), Matched(v, order, now).removed)
  {
    PlaceReports(v, order, now);
    hide Opened, ApplyTrades, AllKnown, CleanupAll, TrimOpen, Released, Matched, Place;
  }

  /** After placing, the ledger is settled again. */
  lemma SettleKeepsLedger(st: State, v: BookView, order: Order, reference: int, r: ReserveResult, now: int)
    requires Ready(st, v, order, reference, r)
    ensures Settled(Settle(st, order, r, Place(v, order, now).1))
  {
    hide Ready, InSync, Framed, Match, Settle, Place, Settled, Closed, Opened, Entry, CleanupAll;
    var st0, st1, st2 := SettleStages(st, v, order, reference, r, now);
    CleanupAllForgets(st2, Matched(v, order, now).removed);
  }

  /** The reservation of the order covers what its trades cost. */
  predicate Covered(v: BookView, order: Order, r: ReserveResult, now: int)
    requires r.Reserved?
  {
    order.side.Buy? && order.kind.Market? ==> Cost(Matched(v, order, now).trades) <= r.cash
  }

  lemma OpeningCovers(st: State, v: BookView, order: Order, reference: int, r: ReserveResult, now: int)
    requires Ready(st, v, order, reference, r) && Covered(v, order, r, now)
    ensures order.side.Buy? ==> Due(Submitted(order), Matched(v, order, now).trades) <= r.cash
  {
    NeedCoversNotional(order.kind, order.price, order.quantity, reference);
    hide ReserveNeed, Match, Cost, Settled, BookAgrees, Valid;
  }

  /** Everyone outside the set is solvent up to charges after a placement, if its owner is outside only when the
      reservation covers its trades. */
  lemma SettleKeepsSolvent(
      st: State, v: BookView, order: Order, reference: int, r: ReserveResult, now: int, overspent: set<string>)
    requires Ready(st, v, order, reference, r) && AllSolvent(st, overspent)
    requires order.playerId !in overspent ==> Covered(v, order, r, now)
    ensures AllSolvent(Settle(st, order, r, Place(v, order, now).1), overspent)
  {
    var opposing := SideOf(v, Opposite(order.side));
    var m := Matched(v, order, now);
    var due := Due(Submitted(order), m.trades);
    var st0, st1, st2 := SettleStages(st, v, order, reference, r, now);
    MatchedTerms(st, v, order, reference, r, now);
    OpeningIsInSync(st, v, order, reference, r, now);
    EntryTerms(v, order, now);
    if order.playerId !in overspent { OpeningCovers(st, v, order, reference, r, now); }
    ReadySettled(st, v, order, reference, r);
    hide Ready, InSync, LedgerOk, Framed, Match, Settle, Place, Settled, Closed, Opened, Entry, CleanupAll, AllSolvent,
         AllSolventIn, Matched, ApplyTrades, Opens, AllKnown, Due, Covered;
    OpeningKeepsSolvent(st, Entry(v, order, now), reference, r, overspent, due);
    MatchKeepsSolventHere(st0, v, order, now, overspent);
    RestingIsPriced(st1, m.order, m.opposing);
    DueWhenDone(st1.open[order.id].order, m.order);
    ClosingKeepsSolvent(st1, order.id, Rests(m.order), overspent, Due(m.order, []));
    CleanupAllKeepsSolvent(st2, m.removed, overspent);
  }

  lemma ReadySettled(st: State, v: BookView, order: Order, reference: int, r: ReserveResult)
    requires Ready(st, v, order, reference, r)
    ensures Settled(st)
  {
  }

  lemma DueWhenDone(entry: Order, order: Order)
    requires SameOrder(entry, order)
    ensures Rests(order) && order.kind.Limit? && entry.side.Buy? ==> Due(order, []) == entry.price * entry.remaining
  {
  }

  lemma MatchKeepsSolventHere(st0: State, v: BookView, order: Order, now: int, overspent: set<string>)
    requires InSync(st0, Submitted(order), SideOf(v, Opposite(order.side)))
    requires AllSolventIn(st0, overspent, order.id, Due(Submitted(order), Matched(v, order, now).trades))
    ensures var m := Matched(v, order, now);
      && AllKnown(st0, m.trades)
      && AllSolventIn(ApplyTrades(st0, m.trades, order.id, order.kind.Market?), overspent, order.id, Due(m.order, []))
  {
    hide InSync, AllSolventIn, Match, AllKnown, ApplyTrades, Due;
    MatchKeepsSolvent(st0, Submitted(order), SideOf(v, Opposite(order.side)), v.lastTradePrice, now,
                      order.kind.Market?, overspent);
  }

  /** Placing takes out of circulation exactly the charges of its trades, and conserves every share. */
  lemma SettleConserves(
      st: State, v: BookView, order: Order, reference: int, r: ReserveResult, now: int, symbol: string)
    requires Ready(st, v, order, reference, r)
    ensures var st' := Settle(st, order, r, Place(v, order, now).1);
      var st0 := Opened(st, Entry(v, order, now), r); var trades := Matched(v, order, now).trades;
      && AllKnown(st0, trades)
      && TotalCash(st') == TotalCash(st) - ChargesOf(st0, trades, order.id, order.kind.Market?)
      && TotalPaid(st') == TotalPaid(st) + ChargesOf(st0, trades, order.id, order.kind.Market?)
      && TotalShares(st', symbol) == TotalShares(st, symbol)
  {
    var m := Matched(v, order, now);
    var st0, st1, st2 := SettleStages(st, v, order, reference, r, now);
    OpeningIsInSync(st, v, order, reference, r, now);
    EntryTerms(v, order, now);
    hide Ready, InSync, LedgerOk, Framed, Match, Settle, Place, Settled, Closed, Entry, CleanupAll,
         Matched, ApplyTrades, AllKnown, TotalCash, TotalShares, ChargesOf;
    OpeningConserves(st, Entry(v, order, now), reference, r, symbol);
    MatchConservesHere(st0, v, order, now, symbol);
    RestingIsPriced(st1, m.order, m.opposing);
    ClosingConserves(st1, order.id, Rests(m.order), symbol);
    CleanupAllForgets(st2, m.removed);
    SamePlayersSameTotals(st2, CleanupAll(st2, m.removed), symbol);
  }

  lemma SamePlayersSameTotals(a: State, b: State, symbol: string)
    requires a.players == b.players
    ensures TotalCash(a) == TotalCash(b) && TotalShares(a, symbol) == TotalShares(b, symbol)
  {
  }

  lemma OpeningConserves(st: State, order: Order, reference: int, r: ReserveResult, symbol: string)
    requires Opens(st, order, reference, r)
    ensures TotalCash(Opened(st, order, r)) == TotalCash(st) && Opened(st, order, r).paid == st.paid
    ensures TotalShares(Opened(st, order, r), symbol) == TotalShares(st, symbol)
  {
    hide ReserveNeed;
    SumUpdate(st.players, order.playerId, r.player, CashOf());
    SumUpdate(st.players, order.playerId, r.player, SharesOf(symbol));
  }

  lemma MatchConservesHere(st0: State, v: BookView, order: Order, now: int, symbol: string)
    requires InSync(st0, Submitted(order), SideOf(v, Opposite(order.side)))
    ensures var m := Matched(v, order, now);
      && AllKnown(st0, m.trades)
      && var st1 := ApplyTrades(st0, m.trades, order.id, order.kind.Market?);
         && TotalCash(st1) == TotalCash(st0) - ChargesOf(st0, m.trades, order.id, order.kind.Market?)
         && TotalPaid(st1) == TotalPaid(st0) + ChargesOf(st0, m.trades, order.id, order.kind.Market?)
         && TotalShares(st1, symbol) == TotalShares(st0, symbol)
  {
    hide InSync, Match, AllKnown, ApplyTrades, TotalCash, TotalShares, TotalPaid, ChargesOf;
    MatchConserves(st0, Submitted(order), SideOf(v, Opposite(order.side)), v.lastTradePrice, now, order.kind.Market?, symbol);
  }
}
