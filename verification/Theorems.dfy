/** The promises of the game engine, over every legal run from a clean start. */
module Theorems {
  import opened Orders
  import opened Lots
  import opened Sums
  import opened Matching
  import opened Ledger
  import opened Invariants
  import opened Reservations
  import opened Settlement
  import opened Arena
  import opened Placing
  import opened Runs

  /** No open orders, no reservations, nothing resting; cash and holdings are not negative. */
  ghost predicate Start(w: World) {
    && w.ledger.open == map[]
    && w.ledger.paid == map[]
    && (forall s :: s in w.books ==> w.books[s].bids == [] && w.books[s].asks == [])
    && forall p :: p in w.ledger.players ==> CleanPlayer(w.ledger.players[p])
  }

  ghost predicate CleanPlayer(p: Player) {
    && p.cash >= 0 && p.reservedCash == 0
    && forall s :: Get(p.reservedStocks, s) == 0 <= Get(p.portfolio, s) && LotsCovered(p, s, 0)
  }

  lemma StartIsOk(w: World)
    requires Start(w)
    ensures WorldOk(w)
  {
    forall p | p in w.ledger.players ensures PlayerOk(w.ledger, p) && Solvent(w.ledger, p) {
      assert CleanPlayer(w.ledger.players[p]);
      forall s ensures StockExact(w.ledger, p, s) && LotsCovered(w.ledger.players[p], s, 0) {
        assert Get(w.ledger.players[p].reservedStocks, s) == 0;
      }
    }
  }

  /** Every legal action keeps the world in order. */
  lemma StepKeeps(w: World, a: Action)
    requires WorldOk(w) && Legal(w, a)
    ensures WorldOk(Step(w, a))
  {
    hide WorldOk, CancelOrder, BuyIntel, PlaceOrder;
    match a {
      case DoPlaceOrder(req) =>
        PlaceReplies(w, req);
        if PlaceOrder(w, req).1.Refused? {
          RefusedOrderKeeps(w, req, "");
        } else {
          PlacedOrderKeeps(w, req);
        }
      case DoCancelOrder(playerId, symbol, orderId) =>
        CancelKeeps(w, playerId, symbol, orderId, "");
      case DoBuyIntel(playerId, price, sold) =>
        IntelKeeps(w, playerId, price, sold, "");
    }
  }

  lemma PlaceReplies(w: World, req: OrderRequest)
    ensures PlaceOrder(w, req).1.Refused? || PlaceOrder(w, req).1.PlacedOrder?
  {
    hide Reserve, Release, Settle, Place, Accepted;
  }

  lemma {:induction false} RunKeeps(w: World, actions: seq<Action>)
    requires WorldOk(w) && LegalRun(w, actions)
    ensures WorldOk(Run(w, actions))
    decreases |actions|
  {
    hide WorldOk, Step, Legal;
    if actions != [] {
      StepKeeps(w, actions[0]);
      RunKeeps(Step(w, actions[0]), actions[1..]);
    }
  }

  // ---- Solvency ----

  /** The notional of a buy of player p. */
  ghost function Notional(p: string): OpenOrder -> int {
    (o: OpenOrder) => if o.order.playerId == p && o.order.side.Buy? then o.order.price * o.order.remaining else 0
  }

  /** Solvency up to charges: after any run, a player none of whose market buys cost more than was reserved for it has
      cash, together with all charges ever paid, for the notional of every open buy; so cash is never below minus
      the charges. */
  lemma SolventUpToCharges(start: World, actions: seq<Action>, p: string)
    requires Start(start) && LegalRun(start, actions)
    requires p in Run(start, actions).ledger.players && p !in Run(start, actions).overspent
    ensures var st := Run(start, actions).ledger;
      && st.players[p].cash + Get(st.paid, p) >= Sum(st.open, Notional(p)) >= 0
      && st.players[p].reservedCash + Get(st.paid, p) >= Sum(st.open, Notional(p))
  {
    StartIsOk(start);
    RunKeeps(start, actions);
    NotionalIsCovered(Run(start, actions), p);
  }

  lemma NotionalIsCovered(w: World, p: string)
    requires WorldOk(w) && p in w.ledger.players && p !in w.overspent
    ensures Get(w.ledger.paid, p) + w.ledger.players[p].cash >= Sum(w.ledger.open, Notional(p)) >= 0
    ensures Get(w.ledger.paid, p) + w.ledger.players[p].reservedCash >= Sum(w.ledger.open, Notional(p))
  {
    hide Agree, BooksValid, Settled, Notional, Weight;
    SettledEntries(w.ledger);
    NoEmptyOpen(w.ledger);
    NotionalAtMostWeight(w.ledger, p);
    assert Solvent(w.ledger, p);
  }

  lemma NoEmptyOpen(st: State)
    requires Settled(st)
    ensures "" !in st.open
  {
  }

  lemma NotionalAtMostWeight(st: State, p: string)
    requires Entries(st, "") && "" !in st.open
    ensures 0 <= Sum(st.open, Notional(p)) <= Sum(st.open, Weight(p))
  {
    forall id | id in st.open ensures 0 <= Notional(p)(st.open[id]) <= Weight(p)(st.open[id]) {
      assert RestingEntry(st.open[id]);
      assert st.open[id].order.price * st.open[id].order.remaining >= 0;
    }
    SumNonNegative(st.open, Notional(p));
    SumAtMost(st.open, Notional(p), Weight(p));
  }

  // ---- Reservations ----

  /** Reservation sandwich: reserved cash lies between zero and what open orders hold, and an open buy holds
      at most its notional. */
  lemma ReservationSandwich(start: World, actions: seq<Action>, p: string, id: string)
    requires Start(start) && LegalRun(start, actions)
    ensures var st := Run(start, actions).ledger;
      && (p in st.players ==> 0 <= st.players[p].reservedCash <= Sum(st.open, CashHeld(p)))
      && (id in st.open && st.open[id].order.side.Buy? ==>
            0 <= st.open[id].reservedCash <= st.open[id].order.price * st.open[id].order.remaining)
  {
    StartIsOk(start);
    RunKeeps(start, actions);
    hide Start, Run, LegalRun, Agree, BooksValid, AllSolvent;
    var st := Run(start, actions).ledger;
    if p in st.players { assert PlayerOk(st, p); }
    if id in st.open { assert RestingEntry(st.open[id]); }
  }

  /** Shares are exact: reserved shares are those on offer, the portfolio has them, and covers the lots. */
  lemma SharesAreExact(start: World, actions: seq<Action>, p: string, symbol: string)
    requires Start(start) && LegalRun(start, actions) && p in Run(start, actions).ledger.players
    ensures var st := Run(start, actions).ledger; var player := st.players[p];
      && Get(player.reservedStocks, symbol) == Sum(st.open, StockHeld(p, symbol))
      && Get(player.portfolio, symbol) >= Get(player.reservedStocks, symbol)
      && Get(player.portfolio, symbol) >= Total(LotsOf(player.lots, symbol))
  {
    StartIsOk(start);
    RunKeeps(start, actions);
    hide Start, Run, LegalRun, Agree, BooksValid, AllSolvent;
    assert PlayerOk(Run(start, actions).ledger, p);
    assert StockExact(Run(start, actions).ledger, p, symbol);
  }

  // ---- The two order indexes ----

  /** Two indexes agree: after any run every book is well formed, the open orders of its symbol are exactly the
      orders resting in it, each once, and both copies are equal but for the status. */
  lemma IndexesAgree(start: World, actions: seq<Action>, symbol: string, id: string)
    requires Start(start) && LegalRun(start, actions) && symbol in Run(start, actions).books
    ensures var w := Run(start, actions); var v := w.books[symbol];
      && Valid(v)
      && (id in w.ledger.open && w.ledger.open[id].order.symbol == symbol <==> HasId(v.bids + v.asks, id))
      && DistinctIds(v.bids + v.asks)
      && (forall i :: 0 <= i < |v.bids + v.asks| && (v.bids + v.asks)[i].id == id ==>
            SameOrder(w.ledger.open[id].order, (v.bids + v.asks)[i]))
  {
    StartIsOk(start);
    RunKeeps(start, actions);
    hide Start, Run, LegalRun, Settled, AllSolvent;
    var w := Run(start, actions);
    assert BookAgrees(w.ledger.open, w.books[symbol], symbol);
    BookListsOpenOrders(w.ledger.open, w.books[symbol], symbol, id);
  }

  lemma BookListsOpenOrders(open: map<string, OpenOrder>, v: BookView, symbol: string, id: string)
    requires BookAgrees(open, v, symbol) && Valid(v)
    ensures id in open && open[id].order.symbol == symbol <==> HasId(v.bids + v.asks, id)
    ensures DistinctIds(v.bids + v.asks)
    ensures forall i :: 0 <= i < |v.bids + v.asks| && (v.bids + v.asks)[i].id == id ==>
      SameOrder(open[id].order, (v.bids + v.asks)[i])
  {
    var all := v.bids + v.asks;
    forall i | 0 <= i < |all| ensures all[i].id in open && SameOrder(open[all[i].id].order, all[i]) && all[i].symbol == symbol {
      if i < |v.bids| { assert all[i] == v.bids[i]; } else { assert all[i] == v.asks[i - |v.bids|]; }
    }
    forall i, j | 0 <= i < j < |all| ensures all[i].id != all[j].id {
      if i < |v.bids| && j >= |v.bids| {
        assert RestingOk(v.bids[i], Buy) && RestingOk(v.asks[j - |v.bids|], Sell);
      } else if j < |v.bids| {
        assert v.bids[i].id != v.bids[j].id;
      } else {
        assert v.asks[i - |v.bids|].id != v.asks[j - |v.bids|].id;
      }
    }
    if id in open && open[id].order.symbol == symbol {
      OnItsSide(v, open[id].order.side, id);
    }
  }

  lemma OnItsSide(v: BookView, side: Side, id: string)
    requires HasId(SideOf(v, side), id)
    ensures HasId(v.bids + v.asks, id)
  {
    var list := SideOf(v, side);
    var i :| 0 <= i < |list| && list[i].id == id;
    assert (v.bids + v.asks)[if side.Buy? then i else |v.bids| + i].id == id;
  }

  // ---- Conservation ----

  /** What players have spent on intel. */
  function IntelSpent(w: World, actions: seq<Action>): int
    decreases |actions|
  {
    if actions == [] then 0
    else
      (if actions[0].DoBuyIntel? && BuyIntel(w, actions[0].playerId, actions[0].price, actions[0].sold).1.Bought?
       then actions[0].price else 0)
      + IntelSpent(Step(w, actions[0]), actions[1..])
  }

  lemma PaidOnly(w: World, playerId: string, symbol: string, orderId: string)
    requires WorldOk(w)
    ensures CancelOrder(w, playerId, symbol, orderId).0.ledger.paid == w.ledger.paid
  {
    hide Cancel, Settled, Agree, BooksValid, AllSolvent, Refund;
  }

  /** One action: cash leaves the players only as charges or for intel, and shares never appear or vanish. */
  lemma StepConserves(w: World, a: Action, share: string)
    requires WorldOk(w) && Legal(w, a)
    ensures var w' := Step(w, a);
      && TotalCash(w'.ledger) + TotalPaid(w'.ledger) + IntelSpent(w, [a]) == TotalCash(w.ledger) + TotalPaid(w.ledger)
      && TotalShares(w'.ledger, share) == TotalShares(w.ledger, share)
  {
    OneSpent(w, a);
    hide WorldOk, CancelOrder, PlaceOrder, TotalCash, TotalShares, IntelSpent;
    match a {
      case DoPlaceOrder(req) =>
        PlaceReplies(w, req);
        if PlaceOrder(w, req).1.Refused? {
          RefusedOrderKeeps(w, req, share);
        } else {
          PlacedOrderConserves(w, req, share);
        }
      case DoCancelOrder(playerId, symbol, orderId) =>
        CancelKeeps(w, playerId, symbol, orderId, share);
        PaidOnly(w, playerId, symbol, orderId);
      case DoBuyIntel(playerId, price, sold) =>
        IntelKeeps(w, playerId, price, sold, share);
    }
  }

  lemma OneSpent(w: World, a: Action)
    ensures IntelSpent(w, [a])
         == if a.DoBuyIntel? && BuyIntel(w, a.playerId, a.price, a.sold).1.Bought? then a.price else 0
  {
    hide BuyIntel, Step;
    assert [a][1..] == [];
  }

  lemma PlacedOrderConserves(w: World, req: OrderRequest, share: string)
    requires WorldOk(w) && Legal(w, DoPlaceOrder(req)) && PlaceOrder(w, req).1.PlacedOrder?
    ensures var w' := PlaceOrder(w, req).0;
      && TotalCash(w'.ledger) + TotalPaid(w'.ledger) == TotalCash(w.ledger) + TotalPaid(w.ledger)
      && TotalShares(w'.ledger, share) == TotalShares(w.ledger, share)
  {
    hide WorldOk, PlaceOrder, Settle, Place, Ready, TotalCash, TotalShares, TotalPaid, ChargesOf, AllKnown, Matched, Opened, Entry;
    var order, r, v := PlacedIsReady(w, req);
    SettleConserves(w.ledger, v, order, req.reference, r, req.now, share);
  }

  /** Over any run: the cash players no longer have went into charges or intel, to the unit; and the shares of
      every symbol are conserved, self-trades included. */
  lemma {:induction false} RunConserves(w: World, actions: seq<Action>, share: string)
    requires WorldOk(w) && LegalRun(w, actions)
    ensures var w' := Run(w, actions);
      && TotalCash(w'.ledger) + TotalPaid(w'.ledger) + IntelSpent(w, actions) == TotalCash(w.ledger) + TotalPaid(w.ledger)
      && TotalShares(w'.ledger, share) == TotalShares(w.ledger, share)
    decreases |actions|
  {
    hide WorldOk, Step, Legal, TotalCash, TotalShares, TotalPaid, BuyIntel;
    if actions != [] {
      OneSpent(w, actions[0]);
      StepConserves(w, actions[0], share);
      StepKeeps(w, actions[0]);
      RunConserves(Step(w, actions[0]), actions[1..], share);
    }
  }

  /** The ledger at the moment the trades of a request are settled: the order opened, nothing traded yet. */
  function InFlight(w: World, req: OrderRequest): State {
    var order := OrderOf(req);
    if req.playerId !in w.ledger.players || req.symbol !in w.books then w.ledger
    else
      var r := Reserve(w.ledger.players[req.playerId], req.symbol, req.side, order.kind, req.price, req.quantity, req.reference);
      if r.Reserved? then Opened(w.ledger, Entry(w.books[req.symbol], order, req.now), r) else w.ledger
  }

  /** Placing an order costs the players together exactly the fees, surcharges and taxes of its trades;
      a refused order costs nothing. */
  lemma PlacingCostsItsCharges(w: World, req: OrderRequest)
    requires WorldOk(w) && Legal(w, DoPlaceOrder(req))
    ensures var (w', reply) := PlaceOrder(w, req);
      if reply.PlacedOrder? then
        var trades := reply.placement.trades;
        && AllKnown(InFlight(w, req), trades)
        && TotalCash(w'.ledger)
           == TotalCash(w.ledger) - ChargesOf(InFlight(w, req), trades, req.id, OrderOf(req).kind.Market?)
      else TotalCash(w'.ledger) == TotalCash(w.ledger)
  {
    hide WorldOk, PlaceOrder, Settle, Ready, TotalCash, TotalShares, TotalPaid, ChargesOf, AllKnown, Matched, Entry, Place;
    PlaceReplies(w, req);
    if PlaceOrder(w, req).1.Refused? {
      RefusedOrderKeeps(w, req, "");
    } else {
      var order, r, v := PlacedIsReady(w, req);
      SettleConserves(w.ledger, v, order, req.reference, r, req.now, "");
      PlaceReports(v, order, req.now);
      ReservedAs(w.ledger, v, order, req.reference, r, req);
    }
  }

  lemma ReservedAs(st: State, v: BookView, order: Order, reference: int, r: ReserveResult, req: OrderRequest)
    requires Ready(st, v, order, reference, r) && order == OrderOf(req) && reference == req.reference
    ensures req.playerId in st.players && r.Reserved?
    ensures r == Reserve(st.players[req.playerId], req.symbol, req.side, order.kind, req.price, req.quantity, req.reference)
  {
    hide Reserve;
  }
}
