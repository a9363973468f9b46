/** What every run of actions keeps, stated for players, orders and books. */
module Runs {
  import opened Orders
  import opened Sums
  import opened Matching
  import opened Ledger
  import opened Invariants
  import opened Reservations
  import opened Settlement
  import opened Arena
  import opened Placing
  import opened Indexes

  // ---- Refused orders ----

  /** The same player, except that a stock reservation of zero may be written down. */
  ghost predicate SamePlayer(a: Player, b: Player) {
    && b == a.(reservedStocks := b.reservedStocks)
    && forall s :: Get(b.reservedStocks, s) == Get(a.reservedStocks, s)
  }

  lemma ReplaceKeeps(st: State, p: string, b: Player, overspent: set<string>, symbol: string)
    requires Settled(st) && p in st.players && SamePlayer(st.players[p], b) && AllSolvent(st, overspent)
    ensures var st' := st.(players := st.players[p := b]);
      && Settled(st') && AllSolvent(st', overspent)
      && TotalCash(st') == TotalCash(st) && TotalShares(st', symbol) == TotalShares(st, symbol)
  {
    var st' := st.(players := st.players[p := b]);
    SumUpdate(st.players, p, b, CashOf());
    SumUpdate(st.players, p, b, SharesOf(symbol));
    forall q | q in st'.players && q !in overspent ensures Solvent(st', q) {
      assert Solvent(st, q);
    }
    hide PlayerOk, SamePlayer, Solvent;
    forall q | q in st'.players ensures PlayerOk(st', q) {
      assert PlayerOk(st, q);
      SameStaysOk(st, st', p, b, q);
    }
  }

  lemma SameStaysOk(st: State, st': State, p: string, b: Player, q: string)
    requires p in st.players && SamePlayer(st.players[p], b) && st' == st.(players := st.players[p := b])
    requires q in st.players && PlayerOk(st, q)
    ensures PlayerOk(st', q)
  {
    forall s ensures StockExact(st', q, s) && LotsCovered(st'.players[q], s, 0) {
      assert StockExact(st, q, s) && LotsCovered(st.players[q], s, 0);
    }
  }

  /** Releasing a fresh reservation in full gives the player back. */
  lemma ReleaseUndoesReserve(player: Player, symbol: string, side: Side, kind: OrderType, price: int, qty: int, reference: int)
    requires player.reservedCash >= 0 && Get(player.reservedStocks, symbol) >= 0
    ensures var r := Reserve(player, symbol, side, kind, price, qty, reference);
      r.Reserved? ==> SamePlayer(player, Release(r.player, symbol, side, r.cash, r.quantity))
  {
    hide ReserveNeed;
  }

  lemma ReservationsNonNegative(st: State, p: string, symbol: string)
    requires Settled(st) && p in st.players
    ensures st.players[p].reservedCash >= 0 && Get(st.players[p].reservedStocks, symbol) >= 0
  {
    assert PlayerOk(st, p);
    assert StockExact(st, p, symbol);
    SumNonNegative(st.open, StockHeld(p, symbol));
  }

  lemma RefusedOrderKeeps(w: World, req: OrderRequest, symbol: string)
    requires WorldOk(w) && PlaceOrder(w, req).1.Refused?
    ensures var w' := PlaceOrder(w, req).0;
      && WorldOk(w') && w'.books == w.books && w'.ledger.open == w.ledger.open && w'.ledger.paid == w.ledger.paid
      && w'.ledger.players.Keys == w.ledger.players.Keys
      && (forall p :: p in w.ledger.players ==> SamePlayer(w.ledger.players[p], w'.ledger.players[p]))
      && TotalCash(w'.ledger) == TotalCash(w.ledger) && TotalShares(w'.ledger, symbol) == TotalShares(w.ledger, symbol)
  {
    var p := req.playerId;
    hide Settled, Agree, BooksValid, AllSolvent, Reserve, Release, Settle, Place, Accepted, TotalCash, TotalShares;
    if p in w.ledger.players {
      var player, kind := w.ledger.players[p], OrderOf(req).kind;
      var r := Reserve(player, req.symbol, req.side, kind, req.price, req.quantity, req.reference);
      ReservationsNonNegative(w.ledger, p, req.symbol);
      ReleaseUndoesReserve(player, req.symbol, req.side, kind, req.price, req.quantity, req.reference);
      if r.Reserved? {
        ReplaceKeeps(w.ledger, p, Release(r.player, req.symbol, req.side, r.cash, r.quantity), w.overspent, symbol);
      }
    }
  }

  // ---- Placed orders ----

  lemma OpensFromRequest(st: State, req: OrderRequest, r: ReserveResult)
    requires req.playerId in st.players && req.id != "" && req.id !in st.open && Accepted(OrderOf(req))
    requires r == Reserve(st.players[req.playerId], req.symbol, req.side, OrderOf(req).kind, req.price, req.quantity,
                          req.reference)
    requires r.Reserved?
    ensures Opens(st, Submitted(OrderOf(req)), req.reference, r)
  {
    hide Reserve;
  }

  /** What a placed request means: an accepted order, reserved for, against the book of its symbol. */
  lemma PlacedIsReady(w: World, req: OrderRequest) returns (order: Order, r: ReserveResult, v: BookView)
    requires WorldOk(w) && Legal(w, DoPlaceOrder(req)) && PlaceOrder(w, req).1.PlacedOrder?
    ensures order == OrderOf(req) && order.symbol in w.books && v == w.books[order.symbol]
    ensures Ready(w.ledger, v, order, req.reference, r)
    ensures PlaceOrder(w, req)
         == (World(Settle(w.ledger, order, r, Place(v, order, req.now).1), w.books[order.symbol := Place(v, order, req.now).0],
                   if Overspends(order, r, Place(v, order, req.now).1) then w.overspent + {req.playerId} else w.overspent),
             PlacedOrder(Place(v, order, req.now).1))
  {
    hide Settled, AllSolvent, Reserve, Settle, Place, BookAgrees, Valid, Accepted, Opens, Submitted;
    order := OrderOf(req);
    r := Reserve(w.ledger.players[req.playerId], req.symbol, req.side, order.kind, req.price, req.quantity, req.reference);
    v := w.books[req.symbol];
    OpensFromRequest(w.ledger, req, r);
  }

  lemma MoreOverspent(st: State, a: set<string>, b: set<string>)
    requires AllSolvent(st, a) && a <= b
    ensures AllSolvent(st, b)
  {
  }

  lemma PlacedOrderKeeps(w: World, req: OrderRequest)
    requires WorldOk(w) && Legal(w, DoPlaceOrder(req)) && PlaceOrder(w, req).1.PlacedOrder?
    ensures WorldOk(PlaceOrder(w, req).0)
  {
    hide Settled, AllSolvent, BooksValid, Agree, Ready, PlaceOrder, Settle, Place, Covered;
    var order, r, v := PlacedIsReady(w, req);
    OverspendsUnlessCovered(w.ledger, v, order, req.reference, r, req.now);
    var w' := PlaceOrder(w, req).0;
    SettleKeepsLedger(w.ledger, v, order, req.reference, r, req.now);
    MoreOverspent(w.ledger, w.overspent, w'.overspent);
    SettleKeepsSolvent(w.ledger, v, order, req.reference, r, req.now, w'.overspent);
    PlaceKeepsAgree(w.ledger, w.books, order, req.reference, r, req.now);
  }

  lemma OverspendsUnlessCovered(st: State, v: BookView, order: Order, reference: int, r: ReserveResult, now: int)
    requires Ready(st, v, order, reference, r)
    ensures r.Reserved? && (Overspends(order, r, Place(v, order, now).1) <==> !Covered(v, order, r, now))
    ensures order.playerId in st.players
  {
    PlaceReports(v, order, now);
    hide Settled, BookAgrees, Valid, Place, Matched, Cost;
  }

  // ---- Cancelled orders ----

  lemma CancelFinds(open: map<string, OpenOrder>, v: BookView, symbol: string, id: string)
    requires BookAgrees(open, v, symbol) && Valid(v) && Cancel(v, id).1.Some?
    ensures id in open && open[id].order.symbol == symbol
  {
    hide IndexOf;
  }

  lemma WithoutListed(open: map<string, OpenOrder>, orders: seq<Order>, symbol: string, i: nat)
    requires Listed(open, orders, symbol) && i < |orders|
    ensures Listed(open - {orders[i].id}, Without(orders, i), symbol)
    ensures forall j :: HasId(orders, j) && j != orders[i].id ==> HasId(Without(orders, i), j)
  {
    var after := Without(orders, i);
    assert forall k :: 0 <= k < |after| ==> after[k] == if k < i then orders[k] else orders[k + 1];
    forall j | HasId(orders, j) && j != orders[i].id ensures HasId(after, j) {
      var k :| 0 <= k < |orders| && orders[k].id == j;
      assert after[if k < i then k else k - 1].id == j;
    }
  }

  lemma NotInOther(open: map<string, OpenOrder>, orders: seq<Order>, symbol: string, id: string)
    requires Listed(open, orders, symbol) && !HasId(orders, id)
    ensures Listed(open - {id}, orders, symbol)
  {
  }

  lemma OtherSideLacks(open: map<string, OpenOrder>, v: BookView, symbol: string, side: Side, i: nat)
    requires BookAgrees(open, v, symbol) && Valid(v) && (side.Buy? || side.Sell?)
    requires i < |SideOf(v, side)|
    ensures !HasId(SideOf(v, Opposite(side)), SideOf(v, side)[i].id)
  {
    var id := SideOf(v, side)[i].id;
    assert RestingOk(SideOf(v, side)[i], side);
    if HasId(SideOf(v, Opposite(side)), id) {
      SideOfListed(open, SideOf(v, Opposite(side)), symbol, Opposite(side), id);
    }
  }

  lemma CancelSameBook(open: map<string, OpenOrder>, v: BookView, symbol: string, id: string)
    requires BookAgrees(open, v, symbol) && Valid(v) && Cancel(v, id).1.Some?
    ensures BookAgrees(open - {id}, Cancel(v, id).0, symbol)
  {
    var i, j := IndexOf(v.bids, id), IndexOf(v.asks, id);
    hide IndexOf, Valid, Without;
    if i < |v.bids| {
      OtherSideLacks(open, v, symbol, Buy, i);
      hide HasId, Listed;
      WithoutListed(open, v.bids, symbol, i);
      NotInOther(open, v.asks, symbol, id);
    } else {
      OtherSideLacks(open, v, symbol, Sell, j);
      hide HasId, Listed;
      WithoutListed(open, v.asks, symbol, j);
      NotInOther(open, v.bids, symbol, id);
    }
  }

  lemma CancelOtherBook(open: map<string, OpenOrder>, v: BookView, symbol: string, id: string)
    requires BookAgrees(open, v, symbol) && id in open && open[id].order.symbol != symbol
    ensures BookAgrees(open - {id}, v, symbol)
  {
  }

  lemma CancelKeepsAgree(open: map<string, OpenOrder>, books: map<string, BookView>, s: string, id: string)
    requires Agree(open, books) && BooksValid(books) && s in books && Cancel(books[s], id).1.Some?
    ensures id in open && open[id].order.symbol == s
    ensures Agree(open - {id}, books[s := Cancel(books[s], id).0])
    ensures BooksValid(books[s := Cancel(books[s], id).0])
  {
    hide BookAgrees, Cancel, Valid;
    CancelFinds(open, books[s], s, id);
    CancelKeepsValid(books[s], id);
    CancelSameBook(open, books[s], s, id);
    forall z | z in books && z != s ensures BookAgrees(open - {id}, books[z], z) {
      CancelOtherBook(open, books[z], z, id);
    }
  }

  lemma CleanupKeeps(st: State, id: string, overspent: set<string>, share: string)
    requires Settled(st) && id in st.open && AllSolvent(st, overspent)
    ensures var st' := Cleanup(st, id);
      && Settled(st') && AllSolvent(st', overspent) && st'.open == st.open - {id}
      && TotalCash(st') == TotalCash(st) && TotalShares(st', share) == TotalShares(st, share)
  {
    CleanupDrops(st, id, "");
    hide LedgerOk, Cleanup, AllSolvent, TotalCash, TotalShares;
    DropKeepsLedger(st, Cleanup(st, id), id, "");
    SettledEntries(st);
    DropKeepsSolvent(st, Cleanup(st, id), id, "", overspent);
    DropConserves(st, Cleanup(st, id), id, share);
  }

  lemma SettledEntries(st: State)
    requires Settled(st)
    ensures Entries(st, "")
  {
  }

  lemma CancelKeeps(w: World, playerId: string, symbol: string, orderId: string, share: string)
    requires WorldOk(w)
    ensures var w' := CancelOrder(w, playerId, symbol, orderId).0;
      && WorldOk(w')
      && TotalCash(w'.ledger) == TotalCash(w.ledger) && TotalShares(w'.ledger, share) == TotalShares(w.ledger, share)
  {
    hide Settled, AllSolvent, Agree, BooksValid, Cancel, Cleanup, TotalCash, TotalShares;
    if CancelOrder(w, playerId, symbol, orderId).1.CancelledOrder? {
      var s := if symbol == "" then w.ledger.open[orderId].order.symbol else symbol;
      CleanupKeeps(w.ledger, orderId, w.overspent, share);
      CancelKeepsAgree(w.ledger.open, w.books, s, orderId);
    }
  }

  // ---- Intel ----

  lemma SpendKeepsPlayer(st: State, p: string, cash: int, q: string)
    requires p in st.players && q in st.players && PlayerOk(st, q)
    ensures PlayerOk(st.(players := st.players[p := st.players[p].(cash := cash)]), q)
  {
    var st' := st.(players := st.players[p := st.players[p].(cash := cash)]);
    forall s ensures StockExact(st', q, s) && LotsCovered(st'.players[q], s, 0) {
      assert StockExact(st, q, s) && LotsCovered(st.players[q], s, 0);
    }
  }

  /** Spending free cash keeps everything: what reserved cash covers, cash still covers. */
  lemma SpendKeeps(st: State, p: string, cash: int, overspent: set<string>, share: string)
    requires Settled(st) && AllSolvent(st, overspent) && p in st.players && cash >= st.players[p].reservedCash
    ensures var st' := st.(players := st.players[p := st.players[p].(cash := cash)]);
      && Settled(st') && AllSolvent(st', overspent)
      && TotalCash(st') == TotalCash(st) - st.players[p].cash + cash
      && TotalShares(st', share) == TotalShares(st, share)
  {
    var st' := st.(players := st.players[p := st.players[p].(cash := cash)]);
    SumUpdate(st.players, p, st'.players[p], CashOf());
    SumUpdate(st.players, p, st'.players[p], SharesOf(share));
    forall q | q in st'.players && q !in overspent ensures Solvent(st', q) {
      assert Solvent(st, q);
    }
    hide PlayerOk, Solvent;
    forall q | q in st'.players ensures PlayerOk(st', q) {
      SpendKeepsPlayer(st, p, cash, q);
    }
  }

  lemma IntelKeeps(w: World, playerId: string, price: int, sold: bool, share: string)
    requires WorldOk(w)
    ensures var (w', reply) := BuyIntel(w, playerId, price, sold);
      && WorldOk(w') && w'.books == w.books && w'.ledger.open == w.ledger.open
      && TotalCash(w'.ledger) == TotalCash(w.ledger) - (if reply.Bought? then price else 0)
      && TotalShares(w'.ledger, share) == TotalShares(w.ledger, share)
  {
    hide Settled, AllSolvent, Agree, BooksValid, TotalCash, TotalShares;
    if BuyIntel(w, playerId, price, sold).1.Bought? {
      SpendKeeps(w.ledger, playerId, w.ledger.players[playerId].cash - price, w.overspent, share);
    }
  }
}
