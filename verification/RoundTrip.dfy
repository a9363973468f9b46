/** Placing a limit order that does not cross and cancelling it again. */
module RoundTrip {
  import opened Orders
  import opened Matching
  import opened Ledger
  import opened Reservations
  import opened Settlement
  import opened Arena
  import opened Placing
  import opened Indexes
  import opened Runs

  // ---- The book ----

  predicate DoesNotCross(v: BookView, order: Order) {
    var opposing := SideOf(v, Opposite(order.side));
    order.kind.Limit? && (opposing == [] || !Crosses(order, opposing[0].price))
  }

  lemma NothingMatches(v: BookView, order: Order, now: int)
    requires DoesNotCross(v, order)
    ensures Matched(v, order, now)
         == MatchResult(Submitted(order), SideOf(v, Opposite(order.side)), [], [], v.lastTradePrice)
  {
  }

  lemma WithoutInserted(orders: seq<Order>, i: nat, order: Order)
    requires i <= |orders| && !HasId(orders, order.id)
    ensures var after := orders[..i] + [order] + orders[i..];
      IndexOf(after, order.id) == i && Without(after, i) == orders
  {
    var after := orders[..i] + [order] + orders[i..];
    assert after[i] == order;
    forall k | 0 <= k < i ensures after[k].id != order.id {
      assert after[k] == orders[k];
    }
  }

  lemma LacksId(orders: seq<Order>, id: string)
    requires !HasId(orders, id)
    ensures IndexOf(orders, id) == |orders|
  {
  }

  lemma PlaceNonCrossing(v: BookView, order: Order, now: int)
    requires Accepted(order) && DoesNotCross(v, order)
    ensures var (placed, p) := Place(v, order, now); var done := Submitted(order).(status := Open);
      && p == Placement(done, [], Some(done), [])
      && placed == WithSide(v, order.side, Insert(SideOf(v, order.side), done)).(sequence := v.sequence + 1)
  {
    NothingMatches(v, order, now);
    hide Match, Insert, DoesNotCross;
  }

  lemma CancelInserted(v: BookView, done: Order)
    requires Valid(v) && (done.side.Buy? || done.side.Sell?)
    requires !HasId(v.bids, done.id) && !HasId(v.asks, done.id)
    ensures Cancel(WithSide(v, done.side, Insert(SideOf(v, done.side), done)), done.id)
         == (v.(sequence := v.sequence + 1), Some(done.(status := Cancelled)))
  {
    ValidSide(v, done.side);
    var own := SideOf(v, done.side);
    LacksId(v.bids, done.id);
    hide Insert, IndexOf, HasId, Valid, SideValid, Without, Cancel, WithSide;
    var i := InsertPosition(own, done);
    OwnLacksId(v, done.side, done.id);
    WithoutInserted(own, i, done);
    InsertedAt(own, i, done);
    CancelOwn(v, done, Insert(own, done), i);
  }

  lemma OwnLacksId(v: BookView, side: Side, id: string)
    requires !HasId(v.bids, id) && !HasId(v.asks, id)
    ensures !HasId(SideOf(v, side), id)
  {
  }

  lemma InsertedAt(own: seq<Order>, i: nat, done: Order)
    requires i <= |own| && Insert(own, done) == own[..i] + [done] + own[i..]
    ensures i < |Insert(own, done)| && Insert(own, done)[i] == done
  {
    hide Insert;
  }

  lemma CancelOwn(v: BookView, done: Order, own: seq<Order>, i: nat)
    requires done.side.Buy? || done.side.Sell?
    requires i < |own| && own[i] == done && IndexOf(own, done.id) == i && Without(own, i) == SideOf(v, done.side)
    requires IndexOf(v.bids, done.id) == |v.bids|
    ensures Cancel(WithSide(v, done.side, own), done.id) == (v.(sequence := v.sequence + 1), Some(done.(status := Cancelled)))
  {
    hide IndexOf, Without;
  }

  /** The book afterwards is the book before, two sequence numbers on. */
  lemma BookRoundTrip(v: BookView, order: Order, now: int)
    requires Valid(v) && Accepted(order) && DoesNotCross(v, order)
    requires !HasId(v.bids, order.id) && !HasId(v.asks, order.id)
    ensures var done := Submitted(order).(status := Open);
      && Place(v, order, now).1 == Placement(done, [], Some(done), [])
      && Cancel(Place(v, order, now).0, order.id)
         == (v.(sequence := v.sequence + 2), Some(done.(status := Cancelled)))
  {
    var done := Submitted(order).(status := Open);
    PlaceNonCrossing(v, order, now);
    AcceptedSide(order);
    hide Insert, HasId, Valid, Place, Cancel, DoesNotCross, Accepted;
    CancelInserted(v, done);
    CancelIgnoresSequence(WithSide(v, order.side, Insert(SideOf(v, order.side), done)), order.id, v.sequence + 1);
  }

  lemma CancelIgnoresSequence(v: BookView, id: string, sequence: int)
    ensures var (after, found) := Cancel(v, id); var (after', found') := Cancel(v.(sequence := sequence), id);
      found' == found && (found.Some? ==> after' == after.(sequence := sequence + 1))
  {
    hide IndexOf, Without;
  }

  // ---- The ledger ----

  /** Reserve, trim and refund: the player is back where it was. */
  lemma PlayerRoundTrip(player: Player, entry: Order, reference: int, r: ReserveResult)
    requires player.reservedCash >= 0 && Get(player.reservedStocks, entry.symbol) >= 0
    requires entry.kind.Limit? && entry.price > 0 && entry.remaining == entry.quantity > 0
    requires r == Reserve(player, entry.symbol, entry.side, entry.kind, entry.price, entry.quantity, reference)
    requires r.Reserved?
    ensures var (p, o) := Trim(r.player, OpenOrder(entry, r.cash, r.quantity));
      SamePlayer(player, Refund(p, o)) && p.playerId == player.playerId && o.order == entry
  {
    NeedCoversNotional(entry.kind, entry.price, entry.quantity, reference);
    assert entry.price * entry.quantity > 0;
    hide ReserveNeed;
  }

  lemma LedgerRoundTrip(st: State, entry: Order, reference: int, r: ReserveResult)
    requires Settled(st) && Opens(st, entry, reference, r) && entry.kind.Limit? && entry.price > 0
    ensures var st3 := Cleanup(TrimOpen(Opened(st, entry, r), entry.id), entry.id);
      && st3.open == st.open && st3.paid == st.paid && st3.players.Keys == st.players.Keys
      && forall p :: p in st.players ==> SamePlayer(st.players[p], st3.players[p])
  {
    hide Settled, Reserve, Trim, Refund, ReserveNeed, SamePlayer;
    ReservationsNonNegative(st, entry.playerId, entry.symbol);
    PlayerRoundTrip(st.players[entry.playerId], entry, reference, r);
    SelfSame();
    var o := OpenOrder(entry, r.cash, r.quantity);
    var (p2, o2) := Trim(r.player, o);
    var st1 := Opened(st, entry, r);
    var st2 := TrimOpen(st1, entry.id);
    assert st2 == State(st.players[entry.playerId := p2], st.open[entry.id := o2], st.paid);
    assert Cleanup(st2, entry.id)
        == State(st.players[entry.playerId := Refund(p2, o2)], st.open[entry.id := o2] - {entry.id}, st.paid);
    assert st.open[entry.id := o2] - {entry.id} == st.open;
    hide Cleanup, TrimOpen, Opened;
  }

  lemma SelfSame()
    ensures forall p: Player :: SamePlayer(p, p)
  {
  }

  // ---- The world ----

  lemma FreshInBook(open: map<string, OpenOrder>, v: BookView, symbol: string, id: string)
    requires BookAgrees(open, v, symbol) && id !in open
    ensures !HasId(v.bids, id) && !HasId(v.asks, id)
  {
  }

  lemma RestsInFull(st: State, v: BookView, order: Order, reference: int, r: ReserveResult, now: int, done: Order)
    requires Ready(st, v, order, reference, r) && done == Submitted(order).(status := Open)
    requires Place(v, order, now).1 == Placement(done, [], Some(done), [])
    ensures Opens(st, done, reference, r) && order.id != ""
    ensures Settle(st, order, r, Place(v, order, now).1) == TrimOpen(Opened(st, done, r), order.id)
  {
    hide Place, Settled, Valid, BookAgrees, Reserve, Opened, TrimOpen;
    assert Settle(st, order, r, Placement(done, [], Some(done), []))
        == CleanupAll(TrimOpen(ApplyTrades(Opened(st, done, r), [], order.id, order.kind.Market?), order.id), []);
  }

  /** Placing a limit order that does not cross, and cancelling it, restores the world: books but for the
      sequence number, open orders, and every player's cash, reservations, holdings and lots. */
  lemma PlaceThenCancel(w: World, req: OrderRequest, symbol: string)
    requires WorldOk(w) && Legal(w, DoPlaceOrder(req)) && PlaceOrder(w, req).1.PlacedOrder?
    requires req.symbol in w.books && DoesNotCross(w.books[req.symbol], OrderOf(req))
    requires symbol == "" || symbol == req.symbol
    ensures var w1 := PlaceOrder(w, req).0; var (w2, reply) := CancelOrder(w1, req.playerId, symbol, req.id);
      && reply.CancelledOrder?
      && w2.books == w.books[req.symbol := w.books[req.symbol].(sequence := w.books[req.symbol].sequence + 2)]
      && w2.ledger.open == w.ledger.open && w2.ledger.paid == w.ledger.paid && w2.overspent == w.overspent
      && w2.ledger.players.Keys == w.ledger.players.Keys
      && forall p :: p in w.ledger.players ==> SamePlayer(w.ledger.players[p], w2.ledger.players[p])
  {
    hide WorldOk, PlaceOrder, Settle, Place, Ready, Reserve, Opened, TrimOpen, Cleanup, Cancel, DoesNotCross, CancelOrder,
         Settled, Opens, Accepted, Valid, BookAgrees, SamePlayer, HasId;
    var order, r, v := PlacedIsReady(w, req);
    var done := Submitted(order).(status := Open);
    ReadyParts(w.ledger, v, order, req.reference, r);
    FreshInBook(w.ledger.open, v, order.symbol, order.id);
    BookRoundTrip(v, order, req.now);
    RestsInFull(w.ledger, v, order, req.reference, r, req.now, done);
    PricedLimit(v, order);
    LedgerRoundTrip(w.ledger, done, req.reference, r);
    var w1 := PlaceOrder(w, req).0;
    OpenAfterTrim(w.ledger, done, req.reference, r);
    CancelIs(w1, req.playerId, symbol, req.id, order.symbol);
  }

  lemma ReadyParts(st: State, v: BookView, order: Order, reference: int, r: ReserveResult)
    requires Ready(st, v, order, reference, r)
    ensures Settled(st) && Valid(v) && BookAgrees(st.open, v, order.symbol) && Accepted(order) && order.id !in st.open
  {
  }

  lemma PricedLimit(v: BookView, order: Order)
    requires Accepted(order) && DoesNotCross(v, order)
    ensures order.kind.Limit? && order.price > 0
  {
  }

  lemma OpenAfterTrim(st: State, entry: Order, reference: int, r: ReserveResult)
    requires Opens(st, entry, reference, r)
    ensures var st2 := TrimOpen(Opened(st, entry, r), entry.id);
      && entry.id in st2.open && st2.open[entry.id].order == entry && entry.playerId in st2.players
  {
    hide Reserve;
  }

  lemma CancelIs(w: World, playerId: string, symbol: string, id: string, s: string)
    requires playerId in w.ledger.players && id in w.ledger.open
    requires w.ledger.open[id].order.playerId == playerId && w.ledger.open[id].order.symbol == s && s in w.books
    requires symbol == "" || symbol == s
    requires Cancel(w.books[s], id).1.Some?
    ensures CancelOrder(w, playerId, symbol, id)
         == (w.(ledger := Cleanup(w.ledger, id), books := w.books[s := Cancel(w.books[s], id).0]),
             CancelledOrder(Cancel(w.books[s], id).1.value))
  {
    hide Cancel, Cleanup;
  }
}
