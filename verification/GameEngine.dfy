/** The game engine: players are read by value, changed as touched copies and written back at the end of an
    action; open orders are changed in place beside the books. */
module GameEngine {
  import opened Orders
  import opened Lots
  import opened Charges
  import opened Matching
  import opened Ledger
  import opened Invariants
  import opened Reservations
  import opened Settlement
  import opened Arena
  import opened Placing
  import opened Runs
  import opened Theorems
  import opened OrderBook
  import opened PlayerStore
  import opened Exchange

  type Touched = map<string, Player>

  /** Appends what was bought as the newest lot. */
  method AddAcquiredLot(lots: Holdings, symbol: string, qty: int, price: int, at: int) returns (after: Holdings)
    ensures after == AfterPurchase(lots, symbol, qty, price, at)
  {
    if qty <= 0 {
      return lots;
    }
    after := lots[symbol := LotsOf(lots, symbol) + [Lot(qty, price, at)]];
  }

  /** The ledger with touched copies in place of stored records and the incoming order among the open ones,
      left of it still unfilled. */
  function Flight(stored: map<string, Player>, touched: Touched, open: map<string, OpenOrder>, paid: map<string, int>,
                  id: string, incoming: OpenOrder, left: int): State
  {
    State(stored + touched, open[id := incoming.(order := incoming.order.(remaining := left))], paid)
  }

  lemma BuyerSettled(stored: map<string, Player>, touched: Touched, open: map<string, OpenOrder>, open': map<string, OpenOrder>,
                     paid: map<string, int>, id: string, incoming: OpenOrder, incoming': OpenOrder, left: int, left': int,
                     t: Trade, charges: int, buyer': Player)
    requires t.buyerId in touched && id !in open
    requires var due := t.price * t.quantity + charges;
      && buyer' == PaidBuyer(touched[t.buyerId], t, due, t.buyOrderId == id || t.buyOrderId in open)
      && (if t.buyOrderId == id then
            incoming' == incoming.(reservedCash := Floor0(incoming.reservedCash - due)) && left' == left - t.quantity && open' == open
          else
            incoming' == incoming && left' == left
            && open' == if t.buyOrderId in open then open[t.buyOrderId := FilledBuy(open[t.buyOrderId], t, due)] else open)
    ensures Flight(stored, touched[t.buyerId := buyer'], open', paid[t.buyerId := Get(paid, t.buyerId) + charges], id, incoming', left')
         == BuyLeg(Flight(stored, touched, open, paid, id, incoming, left), t, charges)
  {
    var due := t.price * t.quantity + charges;
    var entry := incoming.(order := incoming.order.(remaining := left));
    var entry' := incoming'.(order := incoming'.order.(remaining := left'));
    hide PaidBuyer;
    if t.buyOrderId == id {
      assert FilledBuy(entry, t, due) == entry';
    }
    hide FilledBuy;
    var st := Flight(stored, touched, open, paid, id, incoming, left);
    assert stored + touched[t.buyerId := buyer'] == st.players[t.buyerId := buyer'];
    assert st.open == open[id := entry];
    if t.buyOrderId == id {
      assert open'[id := entry'] == st.open[id := FilledBuy(st.open[id], t, due)];
    } else if t.buyOrderId in open {
      assert open'[id := entry'] == st.open[t.buyOrderId := FilledBuy(st.open[t.buyOrderId], t, due)];
    }
  }

  lemma SellerSettled(stored: map<string, Player>, touched: Touched, open: map<string, OpenOrder>, open': map<string, OpenOrder>,
                      paid: map<string, int>, id: string, incoming: OpenOrder, incoming': OpenOrder, left: int, left': int,
                      t: Trade, charges: int, seller': Player)
    requires t.sellerId in touched && id !in open
    requires seller' == PaidSeller(touched[t.sellerId], t, charges, t.sellOrderId == id || t.sellOrderId in open)
    requires if t.sellOrderId == id then
        && incoming' == incoming.(reservedQuantity := Floor0(incoming.reservedQuantity - t.quantity))
        && left' == left - t.quantity && open' == open
      else
        incoming' == incoming && left' == left
        && open' == if t.sellOrderId in open then open[t.sellOrderId := FilledSell(open[t.sellOrderId], t)] else open
    ensures Flight(stored, touched[t.sellerId := seller'], open', paid[t.sellerId := Get(paid, t.sellerId) + charges], id, incoming', left')
         == SellLeg(Flight(stored, touched, open, paid, id, incoming, left), t, charges)
  {
    var entry := incoming.(order := incoming.order.(remaining := left));
    var entry' := incoming'.(order := incoming'.order.(remaining := left'));
    hide PaidSeller;
    if t.sellOrderId == id {
      assert FilledSell(entry, t) == entry';
    }
    hide FilledSell;
    var st := Flight(stored, touched, open, paid, id, incoming, left);
    assert stored + touched[t.sellerId := seller'] == st.players[t.sellerId := seller'];
    assert st.open == open[id := entry];
    if t.sellOrderId == id {
      assert open'[id := entry'] == st.open[id := FilledSell(st.open[id], t)];
    } else if t.sellOrderId in open {
      assert open'[id := entry'] == st.open[t.sellOrderId := FilledSell(st.open[t.sellOrderId], t)];
    }
  }

  /** The three stages of a trade. */
  lemma TradeInParts(st: State, t: Trade, id: string, market: bool, taxable: int, buyerCharges: int, sellerCharges: int)
    returns (st1: State, st2: State, st3: State)
    requires PlayersKnown(st, t)
    requires taxable == Taxable(LotsOf(st.players[t.sellerId].lots, t.symbol), t.quantity, t.executedAt)
    requires var cost := t.price * t.quantity;
      && buyerCharges == ExchangeFee(cost) + (if t.buyOrderId == id && market then MarketSurcharge(cost) else 0)
      && sellerCharges == ExchangeFee(cost) + (if t.sellOrderId == id && market then MarketSurcharge(cost) else 0)
                          + RapidFlipTax(t.price * taxable)
    ensures st1 == TakeLots(st, t) && t.buyerId in st1.players
    ensures st2 == BuyLeg(st1, t, buyerCharges) && t.sellerId in st2.players
    ensures st3 == SellLeg(st2, t, sellerCharges) == Ledger.ApplyTrade(st, t, id, market)
  {
    hide Taxable, LotsOf, ExchangeFee, MarketSurcharge, RapidFlipTax;
    st1 := TakeLots(st, t);
    st2 := BuyLeg(st1, t, buyerCharges);
    st3 := SellLeg(st2, t, sellerCharges);
  }

  /** Reserves cash for a buy or shares for a sell. */
  method ReserveForIncoming(player: Player, symbol: string, side: Side, kind: OrderType, price: int, qty: int, reference: int)
    returns (r: ReserveResult)
    ensures r == Reserve(player, symbol, side, kind, price, qty, reference)
  {
    match side {
      case Buy =>
        var reservePrice := price;
        if reservePrice <= 0 {
          reservePrice := reference;
          if reservePrice <= 0 {
            reservePrice := 100;
          }
        }
        if kind.Market? {
          reservePrice := reservePrice * 5 / 4;
        }
        var notional := reservePrice * qty;
        var reserveCash := notional + ExchangeFee(notional);
        if kind.Market? {
          reserveCash := reserveCash + MarketSurcharge(notional);
        }
        var availableCash := player.cash - player.reservedCash;
        if availableCash < reserveCash {
          return NoFunds(reserveCash, availableCash);
        }
        return Reserved(player.(reservedCash := player.reservedCash + reserveCash), reserveCash, 0);
      case Sell =>
        var availableStock := Get(player.portfolio, symbol) - Get(player.reservedStocks, symbol);
        if availableStock < qty {
          return NoStock(qty, availableStock);
        }
        var stocks := player.reservedStocks[symbol := Get(player.reservedStocks, symbol) + qty];
        return Reserved(player.(reservedStocks := stocks), 0, qty);
      case OtherSide(_) =>
        return NoSide;
    }
  }

  method ReleaseIncomingReservation(player: Player, symbol: string, side: Side, cash: int, qty: int) returns (after: Player)
    ensures after == Release(player, symbol, side, cash, qty)
  {
    after := player;
    match side {
      case Buy =>
        after := after.(reservedCash := after.reservedCash - cash);
        if after.reservedCash < 0 {
          after := after.(reservedCash := 0);
        }
      case Sell =>
        var stocks := after.reservedStocks[symbol := Get(after.reservedStocks, symbol) - qty];
        if stocks[symbol] < 0 {
          stocks := stocks[symbol := 0];
        }
        after := after.(reservedStocks := stocks);
      case OtherSide(_) =>
    }
  }

  /** Trims what a resting order holds down to its target. */
  method FinalizeRestingReservation(open: OpenOrder, player: Player) returns (player': Player, open': OpenOrder)
    ensures (player', open') == Trim(player, open)
  {
    player', open' := player, open;
    if open.order.side.Buy? {
      var target := open.order.price * open.order.remaining;
      if open.reservedCash > target {
        var release := open.reservedCash - target;
        player' := player'.(reservedCash := player'.reservedCash - release);
        if player'.reservedCash < 0 {
          player' := player'.(reservedCash := 0);
        }
        open' := open'.(reservedCash := target);
      }
    } else {
      var target := open.order.remaining;
      if open.reservedQuantity > target {
        var release := open.reservedQuantity - target;
        player' := player'.(reservedStocks := Lowered(player'.reservedStocks, open.order.symbol, release));
        open' := open'.(reservedQuantity := target);
      }
    }
  }

  class Engine {
    const players: Store
    const market: Service
    var openOrders: map<string, OpenOrder>
    /** Charges paid so far, by player. */
    ghost var paid: map<string, int>
    /** Players with a market buy whose trades cost more than was reserved for it. */
    ghost var overspent: set<string>

    /** A fresh engine over stored players and empty books. */
    constructor (players: Store, market: Service)
      requires players.Valid() && market.Valid()
      requires Start(World(State(players.ById(), map[], map[]), market.Views(), {}))
      ensures this.players == players && this.market == market && Valid()
      ensures WorldNow() == World(State(players.ById(), map[], map[]), market.Views(), {})
    {
      this.players, this.market := players, market;
      openOrders, paid, overspent := map[], map[], {};
      hide Start, WorldOk, Service.Views, Service.Valid, Store.ById, Store.Valid;
      StartIsOk(World(State(players.ById(), map[], map[]), market.Views(), {}));
    }

    /** The ledger as it stands with the touched copies in place of the stored records. */
    ghost function With(touched: Touched): State
      requires players.Valid()
      reads this, players
    {
      State(players.ById() + touched, openOrders, paid)
    }

    ghost function InFlight(touched: Touched, id: string, incoming: OpenOrder, left: int): State
      requires players.Valid()
      reads this, players
    {
      Flight(players.ById(), touched, openOrders, paid, id, incoming, left)
    }

    /** Touched copies are copies of stored records. */
    ghost predicate Copies(touched: Touched)
      requires players.Valid()
      reads this, players
    {
      forall p :: p in touched ==>
        p in players.ById() && touched[p].playerId == p && touched[p].username == players.ById()[p].username
    }

    method GetTouchedPlayer(id: string, touched: Touched) returns (found: Option<Player>, touched': Touched)
      requires players.Valid() && Copies(touched)
      ensures Copies(touched') && players.ById() + touched' == players.ById() + touched
      ensures found == if id in players.ById() then Some((players.ById() + touched)[id]) else None
      ensures found.Some? ==> id in touched' && touched'[id] == found.value
      ensures touched.Keys <= touched'.Keys
    {
      hide Index, Filed;
      touched' := touched;
      if id in touched {
        return Some(touched[id]), touched';
      }
      found := players.GetByPlayerID(id);
      if found.Some? {
        StoredIds(id);
        touched' := touched[id := found.value];
      }
    }

    lemma StoredIds(id: string)
      requires players.Valid() && id in players.ById()
      ensures players.ById()[id].playerId == id
    {
      var u := FromIndex(players.players, id);
    }

    lemma CopyChanged(touched: Touched, p: string, player: Player)
      requires players.Valid() && Copies(touched) && p in touched
      requires player.playerId == touched[p].playerId && player.username == touched[p].username
      ensures Copies(touched[p := player])
    {
    }

    /** The buyer's half of a trade. */
    method SettleBuyer(t: Trade, charges: int, id: string, incoming: OpenOrder, touched: Touched,
                       touchedOrders: set<string>, ghost left: int)
      returns (incoming': OpenOrder, touched': Touched, touchedOrders': set<string>, ghost left': int)
      requires players.Valid() && Copies(touched) && t.buyerId in touched && id !in openOrders
      modifies this`openOrders, this`paid
      ensures Copies(touched') && id !in openOrders && touched.Keys <= touched'.Keys
      ensures InFlight(touched', id, incoming', left') == BuyLeg(old(InFlight(touched, id, incoming, left)), t, charges)
      ensures incoming'.order == incoming.order
      ensures left' == if t.buyOrderId == id then left - t.quantity else left
    {
      hide AfterPurchase, BuyLeg, Store.Valid, Store.ById, Flight;
      incoming', touchedOrders', left' := incoming, touchedOrders, left;
      ghost var open0, paid0 := openOrders, paid;
      var due := t.price * t.quantity + charges;
      var buyer := touched[t.buyerId];
      var lots := AddAcquiredLot(buyer.lots, t.symbol, t.quantity, t.price, t.executedAt);
      buyer := buyer.(cash := buyer.cash - due,
                      portfolio := buyer.portfolio[t.symbol := Get(buyer.portfolio, t.symbol) + t.quantity],
                      lots := lots);
      if t.buyOrderId == id {
        buyer := buyer.(reservedCash := Floor0(buyer.reservedCash - due));
        incoming' := incoming.(reservedCash := Floor0(incoming.reservedCash - due));
        left' := left - t.quantity;
      } else if t.buyOrderId in openOrders {
        openOrders := openOrders[t.buyOrderId := FilledBuy(openOrders[t.buyOrderId], t, due)];
        buyer := buyer.(reservedCash := Floor0(buyer.reservedCash - due));
        touchedOrders' := touchedOrders + {t.buyOrderId};
      }
      CopyChanged(touched, t.buyerId, buyer);
      hide Copies;
      touched' := touched[t.buyerId := buyer];
      paid := paid[t.buyerId := Get(paid, t.buyerId) + charges];
      BuyerSettled(players.ById(), touched, open0, openOrders, paid0, id, incoming, incoming', left, left', t, charges, buyer);
    }

    /** The seller's half of a trade. */
    method SettleSeller(t: Trade, charges: int, id: string, incoming: OpenOrder, touched: Touched,
                        touchedOrders: set<string>, ghost left: int)
      returns (incoming': OpenOrder, touched': Touched, touchedOrders': set<string>, ghost left': int)
      requires players.Valid() && Copies(touched) && t.sellerId in touched && id !in openOrders
      modifies this`openOrders, this`paid
      ensures Copies(touched') && id !in openOrders && touched.Keys <= touched'.Keys
      ensures InFlight(touched', id, incoming', left') == SellLeg(old(InFlight(touched, id, incoming, left)), t, charges)
      ensures incoming'.order == incoming.order
      ensures left' == if t.sellOrderId == id then left - t.quantity else left
    {
      hide SellLeg, Store.Valid, Store.ById, Flight;
      incoming', touchedOrders', left' := incoming, touchedOrders, left;
      ghost var open0, paid0 := openOrders, paid;
      var seller := touched[t.sellerId];
      seller := seller.(cash := seller.cash + t.price * t.quantity - charges,
                        portfolio := Lowered(seller.portfolio, t.symbol, t.quantity));
      if t.sellOrderId == id {
        seller := seller.(reservedStocks := Lowered(seller.reservedStocks, t.symbol, t.quantity));
        incoming' := incoming.(reservedQuantity := Floor0(incoming.reservedQuantity - t.quantity));
        left' := left - t.quantity;
      } else if t.sellOrderId in openOrders {
        openOrders := openOrders[t.sellOrderId := FilledSell(openOrders[t.sellOrderId], t)];
        seller := seller.(reservedStocks := Lowered(seller.reservedStocks, t.symbol, t.quantity));
        touchedOrders' := touchedOrders + {t.sellOrderId};
      }
      CopyChanged(touched, t.sellerId, seller);
      hide Copies;
      touched' := touched[t.sellerId := seller];
      paid := paid[t.sellerId := Get(paid, t.sellerId) + charges];
      SellerSettled(players.ById(), touched, open0, openOrders, paid0, id, incoming, incoming', left, left', t, charges, seller);
    }

    /** Takes the sold shares out of the seller's lots. */
    method TakeSellerLots(t: Trade, touched: Touched, ghost id: string, ghost incoming: OpenOrder, ghost left: int)
      returns (touched': Touched, taxable: int)
      requires players.Valid() && Copies(touched) && t.sellerId in touched
      ensures Copies(touched') && touched'.Keys == touched.Keys
      ensures InFlight(touched', id, incoming, left) == TakeLots(InFlight(touched, id, incoming, left), t)
      ensures taxable == Taxable(LotsOf(touched[t.sellerId].lots, t.symbol), t.quantity, t.executedAt)
    {
      hide AfterSale, Taxable, LotsOf, Store.Valid, Store.ById;
      var seller := touched[t.sellerId];
      var lots;
      lots, taxable := ConsumeLotsForSale(seller.lots, t.symbol, t.quantity, t.executedAt);
      seller := seller.(lots := lots);
      touched' := touched[t.sellerId := seller];
      assert players.ById() + touched' == (players.ById() + touched)[t.sellerId := seller];
    }

    /** Settles one trade against touched copies; it fails only when a player is unknown. */
    method ApplyTrade(t: Trade, incomingId: string, incoming: OpenOrder, touched: Touched, touchedOrders: set<string>,
                      ghost left: int)
      returns (ok: bool, incoming': OpenOrder, touched': Touched, touchedOrders': set<string>, ghost left': int)
      requires players.Valid() && Copies(touched) && incomingId !in openOrders
      modifies this`openOrders, this`paid
      ensures Copies(touched') && incomingId !in openOrders && touched.Keys <= touched'.Keys
      ensures incoming'.order == incoming.order
      ensures var st := old(InFlight(touched, incomingId, incoming, left));
        && ok == PlayersKnown(st, t)
        && InFlight(touched', incomingId, incoming', left')
           == if ok then Ledger.ApplyTrade(st, t, incomingId, incoming.order.kind.Market?) else st
      ensures ok ==> left' == left - (if t.buyOrderId == incomingId then t.quantity else 0)
                                   - (if t.sellOrderId == incomingId then t.quantity else 0)
    {
      hide Store.Valid, Store.ById, Ledger.ApplyTrade, ExchangeFee, MarketSurcharge;
      incoming', touched', touchedOrders', left' := incoming, touched, touchedOrders, left;
      ghost var st := InFlight(touched, incomingId, incoming, left);
      var market := incoming.order.kind.Market?;
      var cost := t.price * t.quantity;
      var buyer, seller;
      buyer, touched' := GetTouchedPlayer(t.buyerId, touched');
      if buyer.None? {
        return false, incoming', touched', touchedOrders', left';
      }
      seller, touched' := GetTouchedPlayer(t.sellerId, touched');
      if seller.None? {
        return false, incoming', touched', touchedOrders', left';
      }
      var buyerSurcharge, sellerSurcharge := 0, 0;
      if t.buyOrderId == incomingId && market {
        buyerSurcharge := MarketSurcharge(cost);
      }
      if t.sellOrderId == incomingId && market {
        sellerSurcharge := MarketSurcharge(cost);
      }
      assert InFlight(touched', incomingId, incoming, left) == st;
      hide Copies, InFlight, Flight;
      incoming', touched', touchedOrders', left' := SettleSides(
        t, incomingId, incoming, touched', touchedOrders, ExchangeFee(cost) + buyerSurcharge,
        ExchangeFee(cost) + sellerSurcharge, left');
      ok := true;
    }

    /** The sale out of the seller's lots, and then both sides of the trade. */
    method SettleSides(t: Trade, incomingId: string, incoming: OpenOrder, touched: Touched, touchedOrders: set<string>,
                       buyerCharges: int, sellerCharges: int, ghost left: int)
      returns (incoming': OpenOrder, touched': Touched, touchedOrders': set<string>, ghost left': int)
      requires players.Valid() && Copies(touched) && incomingId !in openOrders
      requires t.buyerId in touched && t.sellerId in touched
      requires var cost, market := t.price * t.quantity, incoming.order.kind.Market?;
        && buyerCharges == ExchangeFee(cost) + (if t.buyOrderId == incomingId && market then MarketSurcharge(cost) else 0)
        && sellerCharges == ExchangeFee(cost) + (if t.sellOrderId == incomingId && market then MarketSurcharge(cost) else 0)
      modifies this`openOrders, this`paid
      ensures Copies(touched') && incomingId !in openOrders && touched.Keys <= touched'.Keys
      ensures incoming'.order == incoming.order
      ensures var st := old(InFlight(touched, incomingId, incoming, left));
        && PlayersKnown(st, t)
        && InFlight(touched', incomingId, incoming', left')
           == Ledger.ApplyTrade(st, t, incomingId, incoming.order.kind.Market?)
      ensures left' == left - (if t.buyOrderId == incomingId then t.quantity else 0)
                            - (if t.sellOrderId == incomingId then t.quantity else 0)
    {
      hide BuyLeg, SellLeg, TakeLots, AfterSale, Taxable, LotsOf, Store.Valid, Store.ById, Ledger.ApplyTrade, ExchangeFee,
           MarketSurcharge, RapidFlipTax;
      ghost var st := InFlight(touched, incomingId, incoming, left);
      assert PlayersKnown(st, t) && touched[t.sellerId] == st.players[t.sellerId];
      hide Flight, InFlight, Copies;
      var rapidFlipQty;
      touched', rapidFlipQty := TakeSellerLots(t, touched, incomingId, incoming, left);
      var charges := sellerCharges + RapidFlipTax(t.price * rapidFlipQty);
      ghost var st1, st2, st3 :=
        TradeInParts(st, t, incomingId, incoming.order.kind.Market?, rapidFlipQty, buyerCharges, charges);
      incoming', touched', touchedOrders', left' :=
        SettleBuyer(t, buyerCharges, incomingId, incoming, touched', touchedOrders, left);
      incoming', touched', touchedOrders', left' :=
        SettleSeller(t, charges, incomingId, incoming', touched', touchedOrders', left');
    }

    /** Forgets an open order and gives back what it held. */
    method CleanupOpenOrder(orderId: string, touched: Touched) returns (touched': Touched)
      requires players.Valid() && Copies(touched)
      modifies this`openOrders
      ensures Copies(touched') && touched.Keys <= touched'.Keys
      ensures With(touched') == Cleanup(old(With(touched)), orderId)
    {
      hide Store.Valid, Store.ById;
      touched' := touched;
      if orderId !in openOrders {
        return;
      }
      var open := openOrders[orderId];
      var owner;
      owner, touched' := GetTouchedPlayer(open.order.playerId, touched');
      assert With(touched') == old(With(touched));
      if owner.Some? {
        var player := owner.value;
        if open.reservedCash > 0 {
          player := player.(reservedCash := Floor0(player.reservedCash - open.reservedCash));
        }
        if open.reservedQuantity > 0 {
          player := player.(reservedStocks := Lowered(player.reservedStocks, open.order.symbol, open.reservedQuantity));
        }
        assert player == Refund(owner.value, open);
        RefundedIs(players.ById(), touched', openOrders, paid, orderId, player);
        hide Refund, Cleanup, Copies;
        CopyChanged(touched', open.order.playerId, player);
        touched' := touched'[open.order.playerId := player];
      }
      openOrders := openOrders - {orderId};
    }

    /** Trims an open order that holds too much, or forgets it when nothing of it is left. */
    method NormalizeOpenOrder(orderId: string, touched: Touched) returns (touched': Touched)
      requires players.Valid() && Copies(touched)
      modifies this`openOrders
      ensures Copies(touched') && touched.Keys <= touched'.Keys
      ensures With(touched') == Normalize(old(With(touched)), orderId)
    {
      hide Store.Valid, Store.ById, Cleanup, Trim;
      touched' := touched;
      if orderId !in openOrders {
        return;
      }
      var open := openOrders[orderId];
      var owner;
      owner, touched' := GetTouchedPlayer(open.order.playerId, touched');
      if owner.None? {
        return;
      }
      assert With(touched') == old(With(touched));
      if open.order.remaining <= 0 {
        touched' := CleanupOpenOrder(orderId, touched');
        return;
      }
      var player, open' := FinalizeRestingReservation(open, owner.value);
      TrimKeepsNames(owner.value, open);
      TrimmedIs(players.ById(), touched', openOrders, paid, orderId, player, open');
      CopyChanged(touched', open.order.playerId, player);
      hide Normalize, TrimOpen, Copies;
      touched' := touched'[open.order.playerId := player];
      openOrders := openOrders[orderId := open'];
    }

    /** Writes every touched copy back to the store. */
    method WriteBack(touched: Touched)
      requires players.Valid() && Copies(touched)
      modifies players
      ensures players.Valid() && players.ById() == old(players.ById()) + touched
    {
      hide Filed, Index, Fits, Store.ById, Store.Valid, Written;
      ghost var before := players.ById();
      var todo := touched.Keys;
      WrittenEnds(before, touched);
      while todo != {}
        invariant players.Valid() && todo <= touched.Keys
        invariant players.ById() == Written(before, touched, todo)
        decreases |todo|
      {
        var p :| p in todo;
        WriteNext(before, touched, todo, p);
        RecordFits(touched[p], p);
        players.Upsert(touched[p]);
        todo := todo - {p};
      }
    }

    // ---- Placing ----

    /** Settles the trades of a match one after the other. */
    method SettleTrades(trades: seq<Trade>, id: string, incoming: OpenOrder, touched: Touched, ghost left: int)
      returns (incoming': OpenOrder, touched': Touched, touchedOrders: set<string>, ghost left': int)
      requires players.Valid() && Copies(touched) && id !in openOrders
      requires AllKnown(InFlight(touched, id, incoming, left), trades)
      modifies this`openOrders, this`paid
      ensures Copies(touched') && id !in openOrders && touched.Keys <= touched'.Keys
      ensures incoming'.order == incoming.order
      ensures InFlight(touched', id, incoming', left')
           == ApplyTrades(old(InFlight(touched, id, incoming, left)), trades, id, incoming.order.kind.Market?)
    {
      hide Store.Valid, Store.ById, Flight, Ledger.ApplyTrade;
      incoming', touched', touchedOrders, left' := incoming, touched, {}, left;
      ghost var market := incoming.order.kind.Market?;
      ghost var goal := ApplyTrades(InFlight(touched, id, incoming, left), trades, id, market);
      assert trades[0..] == trades;
      for i := 0 to |trades|
        invariant Copies(touched') && id !in openOrders && touched.Keys <= touched'.Keys
        invariant incoming'.order == incoming.order
        invariant AllKnown(InFlight(touched', id, incoming', left'), trades[i..])
        invariant goal == ApplyTrades(InFlight(touched', id, incoming', left'), trades[i..], id, market)
      {
        NextTrade(InFlight(touched', id, incoming', left'), trades, i, id, market);
        var ok;
        ok, incoming', touched', touchedOrders, left' :=
          ApplyTrade(trades[i], id, incoming', touched', touchedOrders, left');
        assert ok;
      }
      assert trades[|trades|..] == [];
    }

    /** Rests what is left of the incoming order with a trimmed reservation, or releases the reservation. */
    method CloseIncoming(placement: Placement, incoming: OpenOrder, touched: Touched, touchedOrders: set<string>)
      returns (touched': Touched, touchedOrders': set<string>)
      requires players.Valid() && Copies(touched) && incoming.order.id !in openOrders
      requires incoming.order == placement.order && incoming.order.playerId in touched
      requires placement.resting.Some? ==> placement.resting.value == placement.order
      modifies this`openOrders
      ensures Copies(touched') && touched.Keys <= touched'.Keys
      ensures With(touched') == Closed(old(InFlight(touched, incoming.order.id, incoming, incoming.order.remaining)),
                                       incoming.order.id, placement.resting.Some?)
    {
      hide Store.Valid, Store.ById, Trim, Release;
      ghost var st := InFlight(touched, incoming.order.id, incoming, incoming.order.remaining);
      var id, playerId := incoming.order.id, incoming.order.playerId;
      touchedOrders' := touchedOrders;
      if placement.resting.Some? {
        var player, open := FinalizeRestingReservation(incoming.(order := placement.resting.value), touched[playerId]);
        TrimKeepsNames(touched[playerId], incoming);
        touched' := touched[playerId := player];
        openOrders := openOrders[id := open];
        touchedOrders' := touchedOrders + {id};
        RestedIs(players.ById(), touched, st, incoming, openOrders, touched', paid);
      } else {
        var player := ReleaseIncomingReservation(touched[playerId], incoming.order.symbol, incoming.order.side,
                                                 incoming.reservedCash, incoming.reservedQuantity);
        ReleaseKeepsNames(touched[playerId], incoming.order.symbol, incoming.order.side, incoming.reservedCash,
                          incoming.reservedQuantity);
        touched' := touched[playerId := player];
        ReleasedIs(players.ById(), touched, st, incoming, openOrders, touched', paid);
      }
    }

    method CleanupRemoved(removed: seq<string>, touched: Touched) returns (touched': Touched)
      requires players.Valid() && Copies(touched)
      modifies this`openOrders
      ensures Copies(touched') && touched.Keys <= touched'.Keys
      ensures With(touched') == CleanupAll(old(With(touched)), removed)
    {
      hide Store.Valid, Store.ById, Cleanup, With;
      touched' := touched;
      ghost var goal := CleanupAll(With(touched), removed);
      assert removed[0..] == removed;
      for i := 0 to |removed|
        invariant Copies(touched') && touched.Keys <= touched'.Keys
        invariant goal == CleanupAll(With(touched'), removed[i..])
      {
        assert removed[i..][1..] == removed[i + 1..];
        touched' := CleanupOpenOrder(removed[i], touched');
      }
      assert removed[|removed|..] == [];
    }

    /** Normalizing the orders a placement touched changes nothing. */
    method NormalizeTouched(touchedOrders: set<string>, touched: Touched) returns (touched': Touched)
      requires players.Valid() && Copies(touched)
      requires Settled(With(touched)) && forall id :: id in openOrders ==> openOrders[id].order.remaining > 0
      modifies this`openOrders
      ensures Copies(touched') && touched.Keys <= touched'.Keys
      ensures With(touched') == old(With(touched))
    {
      hide Store.Valid, Store.ById, Settled, Normalize;
      touched' := touched;
      var todo := touchedOrders;
      ghost var st := With(touched);
      while todo != {}
        invariant Copies(touched') && touched.Keys <= touched'.Keys && With(touched') == st
        decreases |todo|
      {
        var id :| id in todo;
        NormalizeIsIdle(st, id);
        touched' := NormalizeOpenOrder(id, touched');
        todo := todo - {id};
      }
    }

    // ---- Actions ----

    /** The world the engine is in. */
    ghost function WorldNow(): World
      requires players.Valid()
      reads this, players, market, market.books.Values
    {
      World(State(players.ById(), openOrders, paid), market.Views(), overspent)
    }

    ghost predicate Valid()
      reads this, players, market, market.books.Values
    {
      players.Valid() && market.Valid() && WorldOk(WorldNow())
    }

    lemma RecordFits(player: Player, id: string)
      requires players.Valid() && id in players.ById()
      requires player.playerId == id && player.username == players.ById()[id].username
      ensures Fits(players.players, player)
    {
      var u := FromIndex(players.players, id);
    }

    /** From the book's result to the end of the action. */
    method FinishPlacing(order: Order, r: ReserveResult, placement: Placement, req: OrderRequest, ghost w: World)
      requires WorldOk(w) && Legal(w, DoPlaceOrder(req)) && order == OrderOf(req) && r.Reserved?
      requires Arena.PlaceOrder(w, req).1 == PlacedOrder(placement)
      requires req.playerId in w.ledger.players && r.player.playerId == req.playerId
      requires r == Reserve(w.ledger.players[req.playerId], req.symbol, req.side, order.kind, req.price, req.quantity, req.reference)
      requires players.Valid() && players.ById() == w.ledger.players[req.playerId := r.player]
      requires openOrders == w.ledger.open && paid == w.ledger.paid
      modifies this`openOrders, this`paid, players
      ensures players.Valid()
      ensures State(players.ById(), openOrders, paid) == Arena.PlaceOrder(w, req).0.ledger
    {
      hide WorldOk, Arena.PlaceOrder, Reserve, Settled, Index, Filed, Closed, CleanupAll, ApplyTrades, AllKnown;
      ghost var st0, st1, st2, st3 := SettlingPlan(w, req, order, r, placement);
      var incoming := OpenOrder(placement.order, r.cash, r.quantity);
      var touched := map[req.playerId := r.player];
      assert players.ById() + touched == players.ById();
      ghost var left := order.quantity;
      assert InFlight(touched, order.id, incoming, left) == st0;
      var touchedOrders;
      incoming, touched, touchedOrders, left := SettleTrades(placement.trades, order.id, incoming, touched, left);
      assert left == st1.open[order.id].order.remaining;
      assert incoming.order.(remaining := left) == incoming.order;
      touched, touchedOrders := CloseIncoming(placement, incoming, touched, touchedOrders);
      touched := CleanupRemoved(placement.removed, touched);
      touched := NormalizeTouched(touchedOrders, touched);
      WriteBack(touched);
    }

    lemma RecordOf(id: string)
      requires players.Valid() && id in players.ById()
      ensures players.ById()[id].playerId == id
      ensures Fits(players.players, players.ById()[id])
    {
      var u := FromIndex(players.players, id);
    }

    /** Gives the whole reservation back. */
    method Withdraw(req: OrderRequest, r: ReserveResult, ghost before: map<string, Player>)
      requires players.Valid() && r.Reserved? && r.player.playerId == req.playerId
      requires players.ById() == before[req.playerId := r.player]
      modifies players
      ensures players.Valid()
      ensures players.ById() == before[req.playerId := Release(r.player, req.symbol, req.side, r.cash, r.quantity)]
    {
      hide Release, Index, Filed;
      var back := ReleaseIncomingReservation(r.player, req.symbol, req.side, r.cash, r.quantity);
      ReleaseKeepsNames(r.player, req.symbol, req.side, r.cash, r.quantity);
      RecordFits(back, req.playerId);
      players.Upsert(back);
    }

    /** From a granted reservation on: the book, and either the settlement or the release. */
    method Submit(req: OrderRequest, order: Order, player: Player, r: ReserveResult) returns (reply: Reply)
      requires Valid() && Legal(WorldNow(), DoPlaceOrder(req))
      requires order == OrderOf(req) && req.playerId in players.ById() && player == players.ById()[req.playerId]
      requires r == Reserve(player, req.symbol, req.side, order.kind, req.price, req.quantity, req.reference) && r.Reserved?
      requires req.symbol != "" && req.quantity > 0 && !(req.side.Buy? && req.price <= 0 && req.symbol !in market.books)
      modifies this, players, market, market.books.Values
      ensures Valid()
      ensures (WorldNow(), reply) == Arena.PlaceOrder(old(WorldNow()), req)
    {
      hide WorldOk, Reserve, Release, Settle, Matching.Place, Accepted, Validate, Store.Valid, Store.ById,
           Service.Valid, Service.Views, Arena.PlaceOrder, Cost;
      ghost var w := WorldNow();
      StepKeeps(w, DoPlaceOrder(req));
      SubmittedIs(w, req, r);
      RecordOf(req.playerId);
      ReserveKeepsNames(player, req.symbol, req.side, order.kind, req.price, req.quantity, req.reference);
      players.Upsert(r.player);
      var result := market.PlaceOrder(order, req.now);
      if result.PlaceFailed? {
        Withdraw(req, r, w.ledger.players);
        assert WorldNow() == Arena.PlaceOrder(w, req).0;
        reply := Refused(if result.error.NoSuchSymbol? then UnknownSymbol else NotAccepted(result.error.error));
      } else {
        reply := PlacedOrder(result.placement);
        FinishPlacing(order, r, result.placement, req, w);
        if Overspends(order, r, result.placement) {
          overspent := overspent + {req.playerId};
        }
        assert WorldNow() == Arena.PlaceOrder(w, req).0;
      }
    }

    method HandlePlaceOrder(req: OrderRequest) returns (reply: Reply)
      requires Valid() && Legal(WorldNow(), DoPlaceOrder(req))
      modifies this, players, market, market.books.Values
      ensures Valid()
      ensures (WorldNow(), reply) == Arena.PlaceOrder(old(WorldNow()), req)
    {
      hide WorldOk, Reserve, Release, Settle, Matching.Place, Accepted, Validate, Index, Filed, Book.View, Book.Valid;
      var found := players.GetByPlayerID(req.playerId);
      if found.None? {
        return Refused(UnknownPlayer);
      }
      if req.symbol == "" || req.quantity <= 0 {
        return Refused(BadRequest);
      }
      if req.side.Buy? && req.price <= 0 && req.symbol !in market.books {
        return Refused(UnknownSymbol);
      }
      var order := OrderOf(req);
      var r := ReserveForIncoming(found.value, req.symbol, req.side, order.kind, req.price, req.quantity, req.reference);
      if !r.Reserved? {
        return Refused(NotReserved(r));
      }
      reply := Submit(req, order, found.value, r);
    }

    method HandleCancelOrder(playerId: string, symbol: string, orderId: string) returns (reply: Reply)
      requires Valid()
      modifies this, players, market.books.Values
      ensures Valid()
      ensures (WorldNow(), reply) == Arena.CancelOrder(old(WorldNow()), playerId, symbol, orderId)
    {
      hide WorldOk, Cleanup, Matching.Cancel, Store.Valid, Store.ById, Service.Valid, Service.Views, Arena.CancelOrder;
      ghost var w := WorldNow();
      StepKeeps(w, DoCancelOrder(playerId, symbol, orderId));
      CancellingIs(w, playerId, symbol, orderId);
      var found := players.GetByPlayerID(playerId);
      if found.None? {
        return Refused(UnknownPlayer);
      }
      if orderId !in openOrders {
        return Refused(UnknownOrder);
      }
      var open := openOrders[orderId];
      if open.order.playerId != playerId {
        return Refused(ForeignOrder);
      }
      var s := symbol;
      if s == "" {
        s := open.order.symbol;
      }
      var result := market.CancelOrder(s, orderId);
      if result.CancelFailed? {
        if s in market.books { CancelMisses(w.books[s], orderId); }
        assert WorldNow() == w;
        return Refused(if result.error.NoSuchSymbol? then UnknownSymbol else UnknownOrder);
      }
      ForgetOrder(playerId, orderId, found.value);
      assert WorldNow() == Arena.CancelOrder(w, playerId, symbol, orderId).0;
      reply := CancelledOrder(result.order);
    }

    /** Cleans a cancelled order up on a copy of its owner and writes that back. */
    method ForgetOrder(playerId: string, orderId: string, player: Player)
      requires players.Valid() && playerId in players.ById() && player == players.ById()[playerId]
      modifies this`openOrders, players
      ensures players.Valid()
      ensures State(players.ById(), openOrders, paid) == Cleanup(State(old(players.ById()), old(openOrders), paid), orderId)
    {
      hide Cleanup, Index, Filed;
      RecordOf(playerId);
      var touched := map[playerId := player];
      assert players.ById() + touched == players.ById();
      touched := CleanupOpenOrder(orderId, touched);
      WriteBack(touched);
    }

    /** Debits the quoted price and refunds it when the purchase fails. */
    method HandleIntelBuy(playerId: string, price: int, sold: bool) returns (reply: Reply)
      requires Valid()
      modifies players
      ensures Valid()
      ensures (WorldNow(), reply) == Arena.BuyIntel(old(WorldNow()), playerId, price, sold)
    {
      hide WorldOk, Store.Valid, Store.ById, Service.Views, Service.Valid;
      ghost var w := WorldNow();
      StepKeeps(w, DoBuyIntel(playerId, price, sold));
      var found := players.GetByPlayerID(playerId);
      if found.None? {
        return Refused(UnknownPlayer);
      }
      var player := found.value;
      var availableCash := player.cash - player.reservedCash;
      if availableCash < price {
        return Refused(TooExpensive(price, availableCash));
      }
      RecordOf(playerId);
      player := player.(cash := player.cash - price);
      players.Upsert(player);
      if !sold {
        player := player.(cash := player.cash + price);
        RecordOf(playerId);
        players.Upsert(player);
        assert players.ById() == w.ledger.players;
        return Refused(NotSold);
      }
      reply := Bought(price);
    }
  }

  /** The store once all touched copies but those still to do are written back. */
  ghost function Written(before: map<string, Player>, touched: Touched, todo: set<string>): map<string, Player> {
    before + (touched - todo)
  }

  lemma WrittenEnds(before: map<string, Player>, touched: Touched)
    ensures Written(before, touched, touched.Keys) == before
    ensures Written(before, touched, {}) == before + touched
  {
    assert touched - {} == touched;
  }

  lemma WriteNext(before: map<string, Player>, touched: Touched, todo: set<string>, p: string)
    requires p in todo && todo <= touched.Keys
    ensures Written(before, touched, todo)[p := touched[p]] == Written(before, touched, todo - {p})
    ensures p in before ==> p in Written(before, touched, todo) && Written(before, touched, todo)[p] == before[p]
  {
  }

  /** What a request comes to once its reservation is granted. */
  lemma SubmittedIs(w: World, req: OrderRequest, r: ReserveResult)
    requires req.playerId in w.ledger.players && r.Reserved?
    requires r == Reserve(w.ledger.players[req.playerId], req.symbol, req.side, OrderOf(req).kind, req.price, req.quantity, req.reference)
    requires req.symbol != "" && req.quantity > 0 && !(req.side.Buy? && req.price <= 0 && req.symbol !in w.books)
    ensures var order := OrderOf(req);
      Arena.PlaceOrder(w, req)
      == if req.symbol in w.books && Accepted(order) then
           var (book, p) := Matching.Place(w.books[req.symbol], order, req.now);
           (World(Settle(w.ledger, order, r, p), w.books[req.symbol := book],
                  if Overspends(order, r, p) then w.overspent + {req.playerId} else w.overspent),
            PlacedOrder(p))
         else
           (w.(ledger := w.ledger.(players := w.ledger.players[req.playerId :=
                Release(r.player, req.symbol, req.side, r.cash, r.quantity)])),
            Refused(if req.symbol !in w.books then UnknownSymbol else NotAccepted(Validate(order).value)))
  {
    hide Reserve, Release, Settle, Matching.Place, Accepted, Validate;
  }

  /** What a cancellation comes to. */
  lemma CancellingIs(w: World, playerId: string, symbol: string, orderId: string)
    ensures Arena.CancelOrder(w, playerId, symbol, orderId)
         == if playerId !in w.ledger.players then (w, Refused(UnknownPlayer))
            else if orderId !in w.ledger.open then (w, Refused(UnknownOrder))
            else if w.ledger.open[orderId].order.playerId != playerId then (w, Refused(ForeignOrder))
            else
              var s := if symbol == "" then w.ledger.open[orderId].order.symbol else symbol;
              if s !in w.books then (w, Refused(UnknownSymbol))
              else if Matching.Cancel(w.books[s], orderId).1.None? then (w, Refused(UnknownOrder))
              else (World(Cleanup(w.ledger, orderId), w.books[s := Matching.Cancel(w.books[s], orderId).0], w.overspent),
                    CancelledOrder(Matching.Cancel(w.books[s], orderId).1.value))
  {
    hide Cleanup, Matching.Cancel;
  }

  lemma CancelMisses(v: BookView, id: string)
    ensures Matching.Cancel(v, id).1.None? ==> Matching.Cancel(v, id).0 == v
  {
  }

  lemma ReserveKeepsNames(player: Player, symbol: string, side: Side, kind: OrderType, price: int, qty: int, reference: int)
    ensures var r := Reserve(player, symbol, side, kind, price, qty, reference);
      r.Reserved? ==> r.player.playerId == player.playerId && r.player.username == player.username
  {
    hide ReserveNeed;
  }

  /** The stages a placed request goes through, as values. */
  lemma SettlingPlan(w: World, req: OrderRequest, order: Order, r: ReserveResult, placement: Placement)
    returns (st0: State, st1: State, st2: State, st3: State)
    requires WorldOk(w) && Legal(w, DoPlaceOrder(req)) && order == OrderOf(req) && r.Reserved?
    requires Arena.PlaceOrder(w, req).1 == PlacedOrder(placement)
    requires req.playerId in w.ledger.players
    requires r == Reserve(w.ledger.players[req.playerId], req.symbol, req.side, order.kind, req.price, req.quantity, req.reference)
    ensures placement.order.id == order.id && placement.order.playerId == req.playerId && placement.order.kind == order.kind
    ensures placement.resting.Some? ==> placement.resting.value == placement.order
    ensures order.id !in w.ledger.open
    ensures st0 == State(w.ledger.players[req.playerId := r.player],
      w.ledger.open[order.id := OpenOrder(placement.order.(remaining := order.quantity), r.cash, r.quantity)], w.ledger.paid)
    ensures AllKnown(st0, placement.trades)
    ensures st1 == ApplyTrades(st0, placement.trades, order.id, order.kind.Market?)
    ensures order.id in st1.open && st1.open[order.id].order.remaining == placement.order.remaining
    ensures st2 == Closed(st1, order.id, placement.resting.Some?)
    ensures st3 == CleanupAll(st2, placement.removed) == Arena.PlaceOrder(w, req).0.ledger
    ensures Settled(st3) && forall id :: id in st3.open ==> st3.open[id].order.remaining > 0
  {
    hide WorldOk, Ready, Arena.PlaceOrder, Settle, Matching.Place, InSync, Framed, Settled, Closed, CleanupAll,
         ApplyTrades, AllKnown, Matched, Reserve;
    var order0, r0, v := PlacedIsReady(w, req);
    st0, st1, st2 := SettleStages(w.ledger, v, order, req.reference, r0, req.now);
    st3 := CleanupAll(st2, placement.removed);
    ReservedAs(w.ledger, v, order, req.reference, r0, req);
    MatchedTerms(w.ledger, v, order, req.reference, r0, req.now);
    PlaceReports(v, order, req.now);
    RestingIsPriced(st1, Matched(v, order, req.now).order, Matched(v, order, req.now).opposing);
    PlacedOrderKeeps(w, req);
    OpenHaveSomethingLeft(Arena.PlaceOrder(w, req).0);
  }

  lemma OpenHaveSomethingLeft(w: World)
    requires WorldOk(w)
    ensures Settled(w.ledger)
    ensures forall id :: id in w.ledger.open ==> w.ledger.open[id].order.remaining > 0
  {
    hide Settled, AllSolvent;
    var open := w.ledger.open;
    forall id | id in open ensures open[id].order.remaining > 0 {
      var v := w.books[open[id].order.symbol];
      assert BookAgrees(open, v, open[id].order.symbol) && Matching.Valid(v);
      var list := SideOf(v, open[id].order.side);
      var i :| 0 <= i < |list| && list[i].id == id;
      assert SameOrder(open[id].order, list[i]);
    }
  }

  lemma NextTrade(st: State, trades: seq<Trade>, i: nat, id: string, market: bool)
    requires i < |trades| && AllKnown(st, trades[i..])
    ensures PlayersKnown(st, trades[i])
    ensures var st1 := Ledger.ApplyTrade(st, trades[i], id, market);
      && AllKnown(st1, trades[i + 1..])
      && ApplyTrades(st, trades[i..], id, market) == ApplyTrades(st1, trades[i + 1..], id, market)
  {
    hide Ledger.ApplyTrade;
    assert trades[i..][0] == trades[i] && trades[i..][1..] == trades[i + 1..];
    var st1 := Ledger.ApplyTrade(st, trades[i], id, market);
    forall t | t in trades[i + 1..] ensures PlayersKnown(st1, t) {
      assert t in trades[i..];
    }
  }

  lemma RestedIs(stored: map<string, Player>, touched: Touched, st: State, incoming: OpenOrder,
                 open': map<string, OpenOrder>, touched': Touched, paid: map<string, int>)
    requires incoming.order.playerId in touched
    requires st.players == stored + touched && st.paid == paid
    requires incoming.order.id in st.open && st.open[incoming.order.id] == incoming
    requires var (player, o) := Trim(touched[incoming.order.playerId], incoming);
      touched' == touched[incoming.order.playerId := player] && open' == st.open[incoming.order.id := o]
    ensures State(stored + touched', open', paid) == Closed(st, incoming.order.id, true)
  {
    TrimKeepsNames(touched[incoming.order.playerId], incoming);
    hide Trim;
    assert stored + touched' == st.players[incoming.order.playerId := touched'[incoming.order.playerId]];
  }

  lemma ReleasedIs(stored: map<string, Player>, touched: Touched, st: State, incoming: OpenOrder,
                   open': map<string, OpenOrder>, touched': Touched, paid: map<string, int>)
    requires incoming.order.playerId in touched
    requires st.players == stored + touched && st.paid == paid
    requires incoming.order.id in st.open && st.open[incoming.order.id] == incoming
    requires touched' == touched[incoming.order.playerId :=
      Release(touched[incoming.order.playerId], incoming.order.symbol, incoming.order.side, incoming.reservedCash,
              incoming.reservedQuantity)]
    requires open' == st.open - {incoming.order.id}
    ensures State(stored + touched', open', paid) == Closed(st, incoming.order.id, false)
  {
    hide Release;
    assert stored + touched' == st.players[incoming.order.playerId := touched'[incoming.order.playerId]];
  }

  /** Trimming an open order on a touched copy is normalizing it. */
  lemma TrimmedIs(stored: map<string, Player>, touched: Touched, open: map<string, OpenOrder>, paid: map<string, int>,
                  id: string, player: Player, o: OpenOrder)
    requires id in open && open[id].order.playerId in touched && open[id].order.remaining > 0
    requires (player, o) == Trim(touched[open[id].order.playerId], open[id])
    ensures State(stored + touched[open[id].order.playerId := player], open[id := o], paid)
         == Normalize(State(stored + touched, open, paid), id)
  {
    TrimKeepsNames(touched[open[id].order.playerId], open[id]);
    hide Trim;
    assert stored + touched[open[id].order.playerId := player] == (stored + touched)[open[id].order.playerId := player];
  }

  /** Refunding on a touched copy and forgetting the order is cleaning it up. */
  lemma RefundedIs(stored: map<string, Player>, touched: Touched, open: map<string, OpenOrder>, paid: map<string, int>,
                   id: string, player: Player)
    requires id in open && open[id].order.playerId in touched
    requires player == Refund(touched[open[id].order.playerId], open[id])
    ensures State(stored + touched[open[id].order.playerId := player], open - {id}, paid)
         == Cleanup(State(stored + touched, open, paid), id)
    ensures player.playerId == touched[open[id].order.playerId].playerId
    ensures player.username == touched[open[id].order.playerId].username
  {
    assert player.playerId == touched[open[id].order.playerId].playerId;
    hide Refund;
    assert stored + touched[open[id].order.playerId := player] == (stored + touched)[open[id].order.playerId := player];
  }

  lemma ReleaseKeepsNames(player: Player, symbol: string, side: Side, cash: int, qty: int)
    ensures Release(player, symbol, side, cash, qty).playerId == player.playerId
    ensures Release(player, symbol, side, cash, qty).username == player.username
  {
  }

  lemma TrimKeepsNames(player: Player, o: OpenOrder)
    ensures Trim(player, o).0.playerId == player.playerId && Trim(player, o).0.username == player.username
    ensures Trim(player, o).1.order == o.order
  {
  }
}
