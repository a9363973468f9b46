/** Where the solvency promise ends: its bound is reached, and it fails for market buys. */
module Limits {
  import opened Orders
  import opened Lots
  import opened Charges
  import opened Matching
  import opened Ledger
  import opened Reservations
  import opened Arena
  import opened Theorems

  function Holder(id: string, cash: int, shares: int): Player {
    Player(id, id, cash, 0, map["X" := shares], map[], map[])
  }

  function Empty(): BookView {
    BookView([], [], 0, 0)
  }

  /** Player a with cash, player b with shares, one empty book. */
  function TwoPlayers(cash: int, shares: int): World {
    World(State(map["a" := Holder("a", cash, 0), "b" := Holder("b", 0, shares)], map[], map[]), map["X" := Empty()], {})
  }

  lemma TwoPlayersStart(cash: int, shares: int)
    requires cash >= 0 && shares >= 0
    ensures Start(TwoPlayers(cash, shares))
  {
  }

  function LimitRequest(id: string, playerId: string, side: Side, price: int, quantity: int): OrderRequest {
    OrderRequest(id, playerId, "X", side, OrderType.Limit, price, quantity, 0, 0)
  }

  function Spender(cash: int, reserved: int): Player {
    Player("a", "a", cash, reserved, map["X" := 0], map[], map[])
  }

  /** After the buy has come to rest. */
  function BuyResting(price: int, quantity: int, cash: int, shares: int): World {
    var o := Order("o1", "a", "X", Buy, OrderType.Limit, price, quantity, quantity, Open);
    World(State(map["a" := Spender(cash, price * quantity), "b" := Holder("b", 0, shares)],
                map["o1" := OpenOrder(o, price * quantity, 0)], map[]),
          map["X" := BookView([o], [], 0, 1)], {})
  }

  lemma BuyRests(price: int, quantity: int, cash: int, shares: int)
    requires price > 0 && quantity > 0 && cash == price * quantity + ExchangeFee(price * quantity)
    ensures Step(TwoPlayers(cash, shares), DoPlaceOrder(LimitRequest("o1", "a", Buy, price, quantity)))
         == BuyResting(price, quantity, cash, shares)
  {
    var notional := price * quantity;
    assert notional > 0;
    var w, req := TwoPlayers(cash, shares), LimitRequest("o1", "a", Buy, price, quantity);
    var order, a := OrderOf(req), w.ledger.players["a"];
    var r := Reserve(a, "X", Buy, OrderType.Limit, price, quantity, 0);
    assert r == Reserved(Spender(cash, cash), cash, 0);
    var done := Submitted(order).(status := Open);
    var p := Placement(done, [], Some(done), []);
    assert Insert([], done) == [done];
    assert Place(Empty(), order, 0) == (BookView([done], [], 0, 1), p);
    hide ExchangeFee, Reserve, Place;
    var st0 := Opened(w.ledger, done, r);
    assert st0 == State(map["a" := Spender(cash, cash), "b" := Holder("b", 0, shares)],
                        map["o1" := OpenOrder(done, cash, 0)], map[]);
    assert TrimOpen(st0, "o1") == BuyResting(price, quantity, cash, shares).ledger;
    assert Settle(w.ledger, order, r, p) == CleanupAll(TrimOpen(ApplyTrades(st0, [], "o1", false), "o1"), []);
    hide Settle, TrimOpen, Opened;
    assert map["X" := Empty()]["X" := BookView([done], [], 0, 1)] == map["X" := BookView([done], [], 0, 1)];
  }

  /** What a placed order comes to when a single trade fills it. */
  lemma FilledAtOnce(w: World, req: OrderRequest, r: ReserveResult, t: Trade, removed: seq<string>) returns (st0: State)
    requires req.playerId in w.ledger.players && req.symbol in w.books && req.symbol != "" && req.quantity > 0
    requires r == Reserve(w.ledger.players[req.playerId], req.symbol, req.side, OrderOf(req).kind, req.price, req.quantity, req.reference)
    requires r.Reserved? && Accepted(OrderOf(req)) && t.buyerId in w.ledger.players && t.sellerId in w.ledger.players
    requires Place(w.books[req.symbol], OrderOf(req), req.now).1
          == Placement(OrderOf(req).(status := Filled), [t], None, removed)
    ensures st0 == Opened(w.ledger, OrderOf(req).(status := Filled, remaining := req.quantity), r) && PlayersKnown(st0, t)
    ensures var w' := Step(w, DoPlaceOrder(req));
      && w'.ledger == CleanupAll(Released(Ledger.ApplyTrade(st0, t, req.id, OrderOf(req).kind.Market?), req.id), removed)
      && (!OrderOf(req).kind.Market? ==> w'.overspent == w.overspent)
  {
    hide Reserve, Place, Accepted, Ledger.ApplyTrade, Released, CleanupAll;
    var order, market := OrderOf(req), OrderOf(req).kind.Market?;
    st0 := Opened(w.ledger, order.(status := Filled, remaining := order.quantity), r);
    assert PlayersKnown(st0, t) && [t][1..] == [];
    assert ApplyTrades(st0, [t], order.id, market) == Ledger.ApplyTrade(st0, t, order.id, market);
    hide Opened, ApplyTrades;
  }

  /** The trade: the buyer pays. */
  lemma BuyerPays(st0: State, t: Trade, market: bool) returns (st1: State)
    requires t.buyerId != t.sellerId && PlayersKnown(st0, t) && st0.paid == map[]
    requires t.buyOrderId in st0.open && t.sellOrderId in st0.open
    ensures st1 == Ledger.ApplyTrade(st0, t, "o2", market)
    ensures st1.players.Keys == st0.players.Keys && st1.open.Keys == st0.open.Keys
    ensures forall id :: id in st0.open ==> st1.open[id].order.playerId == st0.open[id].order.playerId
    ensures var charges := BuyerCharges(t, "o2", market);
      st1.players[t.buyerId].cash == st0.players[t.buyerId].cash - t.price * t.quantity - charges
      && Get(st1.paid, t.buyerId) == charges
  {
    hide AfterSale, AfterPurchase, BuyerCharges, TradeSellerCharges;
    st1 := Ledger.ApplyTrade(st0, t, "o2", market);
  }

  /** Closing both orders changes no cash. */
  lemma BothClose(st1: State)
    requires st1.open.Keys == {"o1", "o2"}
    requires forall id :: id in st1.open ==> st1.open[id].order.playerId in st1.players
    ensures var st := CleanupAll(Released(st1, "o2"), ["o1"]);
      && st.open == map[] && st.paid == st1.paid && st.players.Keys == st1.players.Keys
      && forall p :: p in st1.players ==> st.players[p].cash == st1.players[p].cash
  {
    var st2 := Released(st1, "o2");
    assert CleanupAll(st2, ["o1"]) == Cleanup(st2, "o1") by { assert ["o1"][1..] == []; }
    assert st2.open.Keys == {"o1"};
  }

  /** A seller takes the whole order: the buyer pays its price and the fee. */
  lemma SellTakesAll(price: int, quantity: int, cash: int)
    requires price > 0 && quantity > 0
    ensures var w := BuyResting(price, quantity, cash, quantity); var req := LimitRequest("o2", "b", Sell, price, quantity);
      var w' := Step(w, DoPlaceOrder(req)); var fee := ExchangeFee(price * quantity);
      && "a" in w'.ledger.players && w'.ledger.players["a"].cash == cash - price * quantity - fee
      && Get(w'.ledger.paid, "a") == fee && w'.ledger.open == map[] && w'.overspent == {}
  {
    var w, req := BuyResting(price, quantity, cash, quantity), LimitRequest("o2", "b", Sell, price, quantity);
    var order, b, o := OrderOf(req), w.ledger.players["b"], w.ledger.open["o1"].order;
    var r := Reserve(b, "X", Sell, OrderType.Limit, price, quantity, 0);
    assert r == Reserved(b.(reservedStocks := map["X" := quantity]), 0, quantity);
    var t := TradeOf(order, o, quantity, 0);
    assert Match(Submitted(order), [o], 0, 0) == MatchResult(order, [], [t], ["o1"], price);
    assert Place(w.books["X"], order, 0).1 == Placement(order.(status := Filled), [t], None, ["o1"]);
    hide Reserve, Place, Match, Step, Released, CleanupAll, Ledger.ApplyTrade, ExchangeFee;
    var st0 := FilledAtOnce(w, req, r, t, ["o1"]);
    var st1 := BuyerPays(st0, t, false);
    BothClose(st1);
  }

  lemma SpendOnIntel(price: int, quantity: int, cash: int, cost: int)
    requires cost >= 0 && cash - price * quantity >= cost
    ensures Step(BuyResting(price, quantity, cash, quantity), DoBuyIntel("a", cost, true))
         == BuyResting(price, quantity, cash - cost, quantity)
  {
    var w := BuyResting(price, quantity, cash, quantity);
    assert w.ledger.players["a" := Spender(cash - cost, price * quantity)]
        == BuyResting(price, quantity, cash - cost, quantity).ledger.players;
  }

  lemma FirstStep(w: World, x: Action, rest: seq<Action>)
    ensures Run(w, [x] + rest) == Run(Step(w, x), rest)
    ensures LegalRun(w, [x] + rest) == (Legal(w, x) && LegalRun(Step(w, x), rest))
  {
    hide Step, Legal;
    assert ([x] + rest)[1..] == rest;
  }

  lemma ThreeSteps(w: World, x: Action, y: Action, z: Action)
    ensures Run(w, [x, y, z]) == Step(Step(Step(w, x), y), z)
    ensures LegalRun(w, [x, y, z]) == (Legal(w, x) && Legal(Step(w, x), y) && Legal(Step(Step(w, x), y), z))
  {
    hide Step, Legal;
    assert [x, y, z] == [x] + [y, z] && [y, z] == [y] + [z] && [z] == [z] + [];
    FirstStep(w, x, [y, z]);
    FirstStep(Step(w, x), y, [z]);
    FirstStep(Step(Step(w, x), y), z, []);
  }

  lemma FreshIds(price: int, quantity: int, cash: int, fee: int)
    ensures Legal(TwoPlayers(cash, quantity), DoPlaceOrder(LimitRequest("o1", "a", Buy, price, quantity)))
    ensures Legal(BuyResting(price, quantity, cash - fee, quantity), DoPlaceOrder(LimitRequest("o2", "b", Sell, price, quantity)))
  {
  }

  lemma FeeIsPositive(price: int, quantity: int)
    requires price > 0 && quantity > 0
    ensures ExchangeFee(price * quantity) > 0
  {
    assert price * quantity > 0;
  }

  /** The bound is reached for every price and quantity: a resting buy keeps no fee reserved, so its owner may
      spend the fee on intel and then end up at exactly minus the charges paid. */
  lemma BoundIsReached(price: int, quantity: int) returns (start: World, actions: seq<Action>)
    requires price > 0 && quantity > 0
    ensures Start(start) && LegalRun(start, actions)
    ensures var w := Run(start, actions); var fee := ExchangeFee(price * quantity);
      && "a" in w.ledger.players && "a" !in w.overspent && w.ledger.open == map[]
      && w.ledger.players["a"].cash == -fee < 0 && Get(w.ledger.paid, "a") == fee
  {
    hide ExchangeFee, Step, Start, LegalRun, Run, TwoPlayers, BuyResting, LimitRequest;
    var fee := ExchangeFee(price * quantity);
    var cash := price * quantity + fee;
    start := TwoPlayers(cash, quantity);
    var x := DoPlaceOrder(LimitRequest("o1", "a", Buy, price, quantity));
    var y := DoBuyIntel("a", fee, true);
    var z := DoPlaceOrder(LimitRequest("o2", "b", Sell, price, quantity));
    actions := [x, y, z];
    FeeIsPositive(price, quantity);
    TwoPlayersStart(cash, quantity);
    ThreeSteps(start, x, y, z);
    BuyRests(price, quantity, cash, quantity);
    SpendOnIntel(price, quantity, cash, fee);
    SellTakesAll(price, quantity, cash - fee);
    FreshIds(price, quantity, cash, fee);
  }

  // ---- Market buys ----

  /** After the sell has come to rest. */
  function SellResting(price: int, cash: int): World {
    var o := Order("o1", "b", "X", Sell, OrderType.Limit, price, 1, 1, Open);
    World(State(map["a" := Holder("a", cash, 0), "b" := Holder("b", 0, 1).(reservedStocks := map["X" := 1])],
                map["o1" := OpenOrder(o, 0, 1)], map[]),
          map["X" := BookView([], [o], 0, 1)], {})
  }

  lemma SellRests(price: int, cash: int)
    requires price > 0
    ensures Step(TwoPlayers(cash, 1), DoPlaceOrder(LimitRequest("o1", "b", Sell, price, 1))) == SellResting(price, cash)
  {
    var w, req := TwoPlayers(cash, 1), LimitRequest("o1", "b", Sell, price, 1);
    var order, b := OrderOf(req), w.ledger.players["b"];
    var r := Reserve(b, "X", Sell, OrderType.Limit, price, 1, 0);
    var b1 := b.(reservedStocks := map["X" := 1]);
    assert r == Reserved(b1, 0, 1);
    var done := Submitted(order).(status := Open);
    var p := Placement(done, [], Some(done), []);
    assert Insert([], done) == [done];
    assert Place(Empty(), order, 0) == (BookView([], [done], 0, 1), p);
    hide Reserve, Place;
    var st0 := Opened(w.ledger, done, r);
    assert st0.players == SellResting(price, cash).ledger.players;
    assert st0 == SellResting(price, cash).ledger;
    assert st0.players["b" := b1] == st0.players && st0.open["o1" := st0.open["o1"]] == st0.open;
    assert TrimOpen(st0, "o1") == st0;
    assert Settle(w.ledger, order, r, p) == CleanupAll(TrimOpen(ApplyTrades(st0, [], "o1", false), "o1"), []);
    hide Settle, TrimOpen, Opened;
    assert map["X" := Empty()]["X" := BookView([], [done], 0, 1)] == map["X" := BookView([], [done], 0, 1)];
  }

  function MarketBuy(reference: int): OrderRequest {
    OrderRequest("o2", "a", "X", Buy, Market, 0, 1, reference, 0)
  }

  /** A market buy pays the resting price whatever the reference price was. */
  lemma MarketBuyPays(price: int, cash: int, reference: int)
    requires price > 0 && reference > 0 && cash >= ReserveNeed(Market, 0, 1, reference)
    ensures var w := SellResting(price, cash);
      var w' := Step(w, DoPlaceOrder(MarketBuy(reference))); var charges := ExchangeFee(price) + MarketSurcharge(price);
      && "a" in w'.ledger.players && w'.ledger.players["a"].cash == cash - price - charges
      && Get(w'.ledger.paid, "a") == charges && w'.ledger.open == map[]
  {
    var w, req := SellResting(price, cash), MarketBuy(reference);
    var order, a, o := OrderOf(req), w.ledger.players["a"], w.ledger.open["o1"].order;
    var need := ReserveNeed(Market, 0, 1, reference);
    hide ReserveNeed;
    var r := Reserve(a, "X", Buy, Market, 0, 1, reference);
    assert r == Reserved(a.(reservedCash := need), need, 0);
    var t := TradeOf(order, o, 1, 0);
    assert Match(Submitted(order), [o], 0, 0) == MatchResult(order, [], [t], ["o1"], price);
    assert Place(w.books["X"], order, 0).1 == Placement(order.(status := Filled), [t], None, ["o1"]);
    hide Reserve, Place, Match, Step, Released, CleanupAll, Ledger.ApplyTrade, ExchangeFee, MarketSurcharge;
    var st0 := FilledAtOnce(w, req, r, t, ["o1"]);
    var st1 := BuyerPays(st0, t, true);
    BothClose(st1);
  }

  /** With a market buy the promise fails by any amount: the reservation follows a reference price, the debit the
      price that rests in the book. */
  lemma MarketBuyBreaksBound(shortfall: nat) returns (start: World, actions: seq<Action>)
    ensures Start(start) && LegalRun(start, actions)
    ensures var w := Run(start, actions);
      "a" in w.ledger.players && w.ledger.players["a"].cash + Get(w.ledger.paid, "a") + shortfall == 0
  {
    hide ExchangeFee, MarketSurcharge;
    var cash := ReserveNeed(Market, 0, 1, 100);
    assert cash > 0;
    hide ReserveNeed;
    start := TwoPlayers(cash, 1);
    var x := DoPlaceOrder(LimitRequest("o1", "b", Sell, cash + shortfall, 1));
    var y := DoPlaceOrder(MarketBuy(100));
    actions := [x, y];
    TwoPlayersStart(cash, 1);
    SellRests(cash + shortfall, cash);
    MarketBuyPays(cash + shortfall, cash, 100);
    hide Step, Start;
    FirstStep(start, x, [y]);
    FirstStep(Step(start, x), y, []);
    assert [x, y] == [x] + [y] && [y] == [y] + [];
  }
}
