/** The limit order book. Every operation is proved against the lists of Matching. */
module OrderBook {
  import opened Orders
  import opened Lots
  import opened Matching
  import opened Ladders

  datatype PlaceResult = Rejected(error: OrderError) | Placed(placement: Placement)

  /** Cuts order i out of the queue of a price, and the price with it when the queue runs empty. */
  method DropFrom(side: Side, prices: seq<int>, levels: Levels, price: int, i: nat)
    returns (prices': seq<int>, levels': Levels)
    requires SideOk(side, prices, levels) && price in levels && i < |levels[price]|
    ensures SideOk(side, prices', levels')
    ensures var at := |Flatten(prices[..PriceIndex(prices, price)], levels)| + i; var list := Flatten(prices, levels);
      at < |list| && list[at] == levels[price][i] && Flatten(prices', levels') == Without(list, at)
      && list[..at] == Flatten(prices[..PriceIndex(prices, price)], levels) + levels[price][..i]
  {
    hide Flatten, RestingOk, LevelOk, Without, PriceIndex, SideOk, Ladder;
    prices', levels' := prices, levels;
    ghost var k := PriceIndex(prices, price);
    LevelIsListed(side, prices, levels, price);
    WithoutOne(levels[price], i);
    TakeOutOfLevel(side, prices, levels, k, i);
    var orders := levels[price][..i] + levels[price][i + 1..];
    if orders == [] {
      TakeOutLevel(side, prices, levels, k);
      LadderWithout(side, prices, levels, k);
      levels' := levels - {price};
      prices' := RemovePrice(prices, price);
    } else {
      LevelWithout(side, price, levels[price], i);
      LadderUpdate(side, prices, levels, price, orders);
      levels' := levels[price := orders];
    }
  }

  lemma LevelIsListed(side: Side, prices: seq<int>, levels: Levels, price: int)
    requires SideOk(side, prices, levels) && price in levels
    ensures Ladder(side, prices, levels) && price in prices
    ensures PriceIndex(prices, price) < |prices| && prices[PriceIndex(prices, price)] == price
    ensures LevelOk(side, price, levels[price])
  {
  }

  lemma WithoutOne(orders: seq<Order>, i: nat)
    requires i < |orders|
    ensures Without(orders, i) == orders[..i] + orders[i + 1..] && |Without(orders, i)| == |orders| - 1
  {
  }

  lemma LevelWithout(side: Side, price: int, orders: seq<Order>, i: nat)
    requires LevelOk(side, price, orders) && i < |orders| && |orders| > 1
    ensures LevelOk(side, price, Without(orders, i))
  {
    hide RestingOk;
  }

  /** Drops the oldest order at a price; false when the price has no queue. */
  method DropHead(side: Side, prices: seq<int>, levels: Levels, price: int)
    returns (ok: bool, prices': seq<int>, levels': Levels)
    requires SideOk(side, prices, levels)
    ensures SideOk(side, prices', levels')
    ensures ok <==> price in prices
    ensures !ok ==> prices' == prices && levels' == levels
    ensures ok ==> var at := |Flatten(prices[..PriceIndex(prices, price)], levels)|;
      at < |Flatten(prices, levels)| && Flatten(prices', levels') == Without(Flatten(prices, levels), at)
  {
    hide Flatten, RestingOk;
    prices', levels' := prices, levels;
    if LevelAt(levels, price) == [] {
      return false, prices', levels';
    }
    prices', levels' := DropFrom(side, prices, levels, price, 0);
    ok := true;
  }

  /** Queues an order under its price, opening the price when it is new. */
  method Enqueue(side: Side, prices: seq<int>, levels: Levels, order: Order)
    returns (prices': seq<int>, levels': Levels)
    requires SideOk(side, prices, levels) && RestingOk(order, side) && !side.OtherSide?
    ensures SideOk(side, prices', levels')
    ensures Flatten(prices', levels') == Insert(Flatten(prices, levels), order)
  {
    hide Flatten, Insert, InsertPrice, SortPrices;
    prices', levels' := prices, levels;
    if order.price !in levels {
      NewLevelIsInsert(side, prices, levels, order);
      LadderNewLevel(side, prices, levels, order.price, [order]);
      SortAppended(side, prices, order.price);
      prices' := SortPrices(side, prices + [order.price]);
      assert [] + [order] == [order];
    } else {
      AppendIsInsert(side, prices, levels, order);
      LadderUpdate(side, prices, levels, order.price, levels[order.price] + [order]);
    }
    levels' := levels'[order.price := LevelAt(levels, order.price) + [order]];
  }

  /** Looks for an order by id, best price first, and takes it out of its queue. */
  method TakeOut(side: Side, prices: seq<int>, levels: Levels, id: string)
    returns (found: Option<Order>, prices': seq<int>, levels': Levels)
    requires SideOk(side, prices, levels)
    ensures SideOk(side, prices', levels')
    ensures var list := Flatten(prices, levels); var at := IndexOf(list, id);
      if at < |list| then found == Some(list[at]) && Flatten(prices', levels') == Without(list, at)
      else found == None && prices' == prices && levels' == levels
  {
    hide Flatten, IndexOf, RestingOk, Without;
    prices', levels' := prices, levels;
    FlattenNothing(levels);
    ghost var list := Flatten(prices, levels);
    for k := 0 to |prices|
      invariant forall o :: o in Flatten(prices[..k], levels) ==> o.id != id
    {
      var price := prices[k];
      var orders := levels[price];
      for i := 0 to |orders|
        invariant forall j :: 0 <= j < i ==> orders[j].id != id
      {
        if orders[i].id == id {
          PriceIndexOfSorted(side, prices, k);
          found := Some(orders[i]);
          prices', levels' := DropFrom(side, prices, levels, price, i);
          FoundAt(list, Flatten(prices[..k], levels), orders[..i], id);
          return;
        }
      }
      NextLevel(prices, levels, k);
    }
    assert prices[..|prices|] == prices;
    found := None;
  }

  lemma PriceIndexOfSorted(side: Side, prices: seq<int>, k: nat)
    requires SortedPrices(side, prices) && k < |prices|
    ensures PriceIndex(prices, prices[k]) == k
  {
  }

  method LevelFromOrders(price: int, orders: seq<Order>) returns (level: Level)
    ensures level == Level(price, Resting(orders), |orders|)
  {
    var quantity := 0;
    for i := 0 to |orders|
      invariant quantity + Resting(orders[i..]) == Resting(orders)
    {
      quantity := quantity + orders[i].remaining;
      assert orders[i..][1..] == orders[i + 1..];
    }
    level := Level(price, quantity, |orders|);
  }

  /** The best depth levels of one side. */
  method TopLevels(side: Side, prices: seq<int>, levels: Levels, depth: nat) returns (shown: seq<Level>)
    requires Ladder(side, prices, levels)
    ensures shown == Top(LevelsOf(Flatten(prices, levels)), depth)
  {
    hide Flatten, LevelsOf, LevelOk, SortedPrices;
    shown := [];
    ghost var all := LevelsOf(Flatten(prices, levels));
    assert prices[0..] == prices;
    var i := 0;
    while i < |prices| && i < depth
      invariant i <= |prices| && i <= depth && |shown| == i
      invariant all == shown + LevelsOf(Flatten(prices[i..], levels))
    {
      LevelsOfLadder(side, prices, levels, i);
      var level := LevelFromOrders(prices[i], levels[prices[i]]);
      shown := shown + [level];
      i := i + 1;
    }
    if i == |prices| {
      FlattenNothing(levels);
      assert prices[i..] == [] && all == shown;
    } else {
      LevelsOfLadder(side, prices, levels, i);
    }
  }

  lemma FlattenNothing(levels: Levels)
    ensures Flatten([], levels) == [] && LevelsOf([]) == []
  {
  }

  lemma FirstOfBest(prices: seq<int>, levels: Levels)
    ensures prices != [] ==> PriceIndex(prices, prices[0]) == 0 && Flatten(prices[..0], levels) == []
    ensures Flatten(prices, levels) != [] ==> Without(Flatten(prices, levels), 0) == Flatten(prices, levels)[1..]
  {
    hide Flatten;
    FlattenNothing(levels);
  }

  lemma FoundAt(list: seq<Order>, before: seq<Order>, within: seq<Order>, id: string)
    requires |before| + |within| < |list| && list[..|before| + |within|] == before + within
    requires list[|before| + |within|].id == id
    requires forall o :: o in before ==> o.id != id
    requires forall j :: 0 <= j < |within| ==> within[j].id != id
    ensures IndexOf(list, id) == |before| + |within|
  {
    var at := |before| + |within|;
    forall j | 0 <= j < at ensures list[j].id != id {
      assert list[j] == list[..at][j];
    }
  }

  lemma NextLevel(prices: seq<int>, levels: Levels, k: nat)
    requires k < |prices|
    ensures Flatten(prices[..k + 1], levels) == Flatten(prices[..k], levels) + LevelAt(levels, prices[k])
  {
    assert prices[..k + 1] == prices[..k] + [prices[k]];
    assert [prices[k]][1..] == [];
    FlattenSplit(prices[..k], [prices[k]], levels);
  }

  lemma {:induction false} MatchTerms(order: Order, opposing: seq<Order>, last: int, now: int)
    requires SideValid(opposing, Opposite(order.side)) && order.remaining >= 0
    ensures var m := Match(order, opposing, last, now);
      m.order == order.(remaining := m.order.remaining) && 0 <= m.order.remaining <= order.remaining
  {
    MatchKeepsOpposing(order, opposing, last, now);
  }

  /** Matching and then finishing is placing. */
  lemma PlaceInTwoParts(v0: BookView, v1: BookView, v2: BookView, order: Order, now: int, p: Placement)
    requires !order.side.OtherSide?
    requires var m := Match(Submitted(order), SideOf(v0, Opposite(order.side)), v0.lastTradePrice, now);
      var done := m.order.(status := StatusOf(m.order));
      && m.order.side == order.side
      && v1 == WithSide(v0, Opposite(order.side), m.opposing)
               .(lastTradePrice := m.last, sequence := v0.sequence + |m.trades|)
      && v2 == (if Rests(done) then WithSide(v1, order.side, Insert(SideOf(v1, order.side), done)) else v1)
               .(sequence := v1.sequence + 1)
      && p == Placement(done, m.trades, if Rests(done) then Some(done) else None, m.removed)
    ensures (v2, p) == Matching.Place(v0, order, now)
  {
    hide Match, Insert, StatusOf;
  }

  /** Where the matching loop stands: the opposing list, the last price, and what has been reported so far. */
  datatype Progress = Progress(opposing: seq<Order>, last: int, trades: seq<Trade>, removed: seq<string>)

  /** The result the loop is heading for from a given standing. */
  ghost function Outcome(order: Order, g: Progress, now: int): MatchResult {
    var m := Match(order, g.opposing, g.last, now);
    m.(trades := g.trades + m.trades, removed := g.removed + m.removed)
  }

  ghost predicate Meets(order: Order, g: Progress) {
    order.remaining > 0 && g.opposing != [] && Crosses(order, g.opposing[0].price)
  }

  lemma Started(order: Order, g: Progress, now: int)
    requires g.trades == [] && g.removed == []
    ensures Outcome(order, g, now) == Match(order, g.opposing, g.last, now)
  {
  }

  lemma Stopped(order: Order, g: Progress, now: int)
    requires !Meets(order, g)
    ensures Outcome(order, g, now) == MatchResult(order, g.opposing, g.trades, g.removed, g.last)
  {
  }

  /** The standing after one more fill. */
  ghost function Next(order: Order, g: Progress, now: int): Progress
    requires Meets(order, g)
  {
    var head := g.opposing[0];
    var fill := Min(order.remaining, head.remaining);
    var trades := g.trades + [TradeOf(order, head, fill, now)];
    if fill == head.remaining then Progress(g.opposing[1..], head.price, trades, g.removed + [head.id])
    else Progress([head.(remaining := head.remaining - fill, status := Partial)] + g.opposing[1..],
                  head.price, trades, g.removed)
  }

  /** A fill does not change where the loop is heading. */
  lemma Advances(order: Order, g: Progress, now: int)
    requires Meets(order, g) && g.opposing[0].remaining > 0
    ensures Outcome(order, g, now)
         == Outcome(order.(remaining := order.remaining - Min(order.remaining, g.opposing[0].remaining)),
                    Next(order, g, now), now)
  {
    var head := g.opposing[0];
    if head.remaining <= order.remaining {
      var rest := order.(remaining := order.remaining - head.remaining);
      var m := Match(rest, g.opposing[1..], head.price, now);
      var t := TradeOf(order, head, head.remaining, now);
      assert g.trades + ([t] + m.trades) == g.trades + [t] + m.trades;
      assert g.removed + ([head.id] + m.removed) == g.removed + [head.id] + m.removed;
    }
  }

  class Book {
    const symbol: string
    var bids: Levels
    var asks: Levels
    var bidPrices: seq<int>
    var askPrices: seq<int>
    var lastTradePrice: int
    var sequence: int

    constructor (symbol: string, lastTradePrice: int)
      ensures Valid() && this.symbol == symbol
      ensures View() == BookView([], [], lastTradePrice, 0)
    {
      this.symbol := symbol;
      bids, asks := map[], map[];
      bidPrices, askPrices := [], [];
      this.lastTradePrice, sequence := lastTradePrice, 0;
    }

    ghost predicate SidesOk()
      reads this
    {
      SideOk(Buy, bidPrices, bids) && SideOk(Sell, askPrices, asks)
    }

    ghost predicate Valid()
      reads this
    {
      SidesOk() && (bidPrices != [] && askPrices != [] ==> bidPrices[0] < askPrices[0])
    }

    /** The book as two lists in price-time order. */
    ghost function View(): BookView
      reads this
    {
      BookView(Flatten(bidPrices, bids), Flatten(askPrices, asks), lastTradePrice, sequence)
    }

    /** Strictly sorted, non-empty, uncrossed price levels are a well-formed book, and conversely. */
    lemma ValidMeansWellFormed()
      requires SidesOk()
      ensures Valid() <==> Matching.Valid(View())
      ensures bidPrices == [] <==> View().bids == []
      ensures askPrices == [] <==> View().asks == []
      ensures bidPrices != [] ==> View().bids[0] == bids[bidPrices[0]][0] && View().bids[0].price == bidPrices[0]
      ensures askPrices != [] ==> View().asks[0] == asks[askPrices[0]][0] && View().asks[0].price == askPrices[0]
    {
      LadderIsValidSide(Buy, bidPrices, bids);
      LadderIsValidSide(Sell, askPrices, asks);
    }

    function PricesOf(side: Side): seq<int>
      reads this
    {
      if side.Buy? then bidPrices else askPrices
    }

    lemma HeadIsResting(side: Side)
      requires SidesOk() && !side.OtherSide?
      ensures var list := SideOf(View(), side);
        list != [] ==> RestingOk(list[0], side)
    {
      LadderIsValidSide(Buy, bidPrices, bids);
      LadderIsValidSide(Sell, askPrices, asks);
    }

    /** Comparing with the best price is asking whether the head of the opposing list crosses. */
    lemma CanCrossMeansMeets(order: Order)
      requires SidesOk() && !order.side.OtherSide?
      ensures var list := SideOf(View(), Opposite(order.side));
        CanCross(order) <==> list != [] && Crosses(order, list[0].price)
    {
      ValidMeansWellFormed();
    }

    predicate CanCross(order: Order)
      reads this
    {
      match order.side
      case Buy => askPrices != [] && (order.kind.Market? || order.price >= askPrices[0])
      case Sell => bidPrices != [] && (order.kind.Market? || order.price <= bidPrices[0])
      case OtherSide(_) => false
    }

    /** The order a new one on the given side would meet first. */
    method BestOpposing(side: Side) returns (best: Option<Order>)
      requires SidesOk()
      ensures var list := SideOf(View(), Opposite(side));
        best == if side.OtherSide? || list == [] then None else Some(list[0])
    {
      ValidMeansWellFormed();
      match side {
        case Buy =>
          if askPrices == [] { return None; }
          return Some(asks[askPrices[0]][0]);
        case Sell =>
          if bidPrices == [] { return None; }
          return Some(bids[bidPrices[0]][0]);
        case OtherSide(_) =>
          return None;
      }
    }

    method RemoveHead(side: Side, price: int) returns (ok: bool)
      requires SidesOk()
      modifies this
      ensures SidesOk()
      ensures ok <==> !side.OtherSide? && price in old(PricesOf(side))
      ensures !ok ==> View() == old(View())
      ensures var list := SideOf(old(View()), side);
        !side.OtherSide? && list != [] && price == list[0].price ==>
          ok && View() == WithSide(old(View()), side, list[1..])
    {
      ValidMeansWellFormed();
      FirstOfBest(bidPrices, bids);
      FirstOfBest(askPrices, asks);
      hide Flatten, SideOk, PriceIndex, Without;
      match side {
        case Buy =>
          ok, bidPrices, bids := DropHead(side, bidPrices, bids, price);
        case Sell =>
          ok, askPrices, asks := DropHead(side, askPrices, asks, price);
        case OtherSide(_) =>
          ok := false;
      }
    }

    /** Writes a partial fill back into the order at the head of a side. */
    method UpdateHead(head: Order)
      requires SidesOk() && (head.side.Buy? || head.side.Sell?)
      requires var list := SideOf(View(), head.side);
        list != [] && RestingOk(head, head.side) && head.price == list[0].price
      modifies this
      ensures SidesOk()
      ensures View() == WithSide(old(View()), head.side, [head] + SideOf(old(View()), head.side)[1..])
    {
      ValidMeansWellFormed();
      if head.side.Buy? {
        HeadUpdates(Buy, bidPrices, bids, head);
        LadderUpdate(Buy, bidPrices, bids, head.price, [head] + bids[head.price][1..]);
        bids := bids[head.price := [head] + bids[head.price][1..]];
      } else {
        HeadUpdates(Sell, askPrices, asks, head);
        LadderUpdate(Sell, askPrices, asks, head.price, [head] + asks[head.price][1..]);
        asks := asks[head.price := [head] + asks[head.price][1..]];
      }
    }

    method AddResting(order: Order)
      requires SidesOk() && (order.remaining > 0 ==> RestingOk(order, order.side))
      modifies this
      ensures SidesOk()
      ensures View() == if order.side.OtherSide? || order.remaining <= 0 then old(View())
                        else WithSide(old(View()), order.side, Insert(SideOf(old(View()), order.side), order))
    {
      if order.remaining <= 0 {
        return;
      }
      match order.side {
        case Buy =>
          bidPrices, bids := Enqueue(Buy, bidPrices, bids, order);
        case Sell =>
          askPrices, asks := Enqueue(Sell, askPrices, asks, order);
        case OtherSide(_) =>
      }
    }

    /** One fill against the best opposing order. */
    method FillBest(order: Order, now: int, ghost g: Progress)
      returns (rest: Order, trade: Trade, removed: seq<string>)
      requires SidesOk() && order.remaining > 0 && CanCross(order)
      requires g.opposing == SideOf(View(), Opposite(order.side)) && Meets(order, g)
      modifies this
      ensures SidesOk()
      ensures rest == order.(remaining := order.remaining - Min(order.remaining, g.opposing[0].remaining))
      ensures Next(order, g, now)
           == Progress(SideOf(View(), Opposite(order.side)), lastTradePrice, g.trades + [trade], g.removed + removed)
      ensures View() == WithSide(old(View()), Opposite(order.side), SideOf(View(), Opposite(order.side)))
                        .(lastTradePrice := lastTradePrice, sequence := old(sequence) + 1)
    {
      hide SideOk, Flatten;
      HeadIsResting(Opposite(order.side));
      var best := BestOpposing(order.side);
      assert best.Some?;
      var resting := best.value;
      var fill := Min(order.remaining, resting.remaining);
      var tradePrice := resting.price;
      if resting.kind.Market? {
        tradePrice := lastTradePrice;
      }
      if tradePrice == 0 {
        tradePrice := order.price;
      }
      trade := if order.side.Buy?
        then Trade(order.symbol, tradePrice, fill, order.side, order.id, resting.id, order.playerId, resting.playerId, now)
        else Trade(order.symbol, tradePrice, fill, order.side, resting.id, order.id, resting.playerId, order.playerId, now);
      rest := order.(remaining := order.remaining - fill);
      lastTradePrice := tradePrice;
      sequence := sequence + 1;
      removed := [];
      resting := resting.(remaining := resting.remaining - fill);
      if resting.remaining == 0 {
        var ok := RemoveHead(resting.side, resting.price);
        assert ok;
        removed := [resting.id];
      } else {
        UpdateHead(resting.(status := Partial));
      }
    }

    /** The matching loop of Place: fills until nothing is left or nothing crosses. */
    method MatchLoop(order: Order, now: int) returns (cur: Order, trades: seq<Trade>, removed: seq<string>)
      requires SidesOk() && !order.side.OtherSide? && order.remaining >= 0
      modifies this
      ensures SidesOk()
      ensures var m := Match(order, old(SideOf(View(), Opposite(order.side))), old(lastTradePrice), now);
        && cur == m.order && trades == m.trades && removed == m.removed
        && View() == WithSide(old(View()), Opposite(order.side), m.opposing)
                     .(lastTradePrice := m.last, sequence := old(sequence) + |m.trades|)
    {
      hide Match, SideOk, SideValid, Flatten;
      cur, trades, removed := order, [], [];
      ghost var v0 := View();
      ghost var g := Progress(SideOf(v0, Opposite(order.side)), v0.lastTradePrice, trades, removed);
      ghost var goal := Outcome(cur, g, now);
      Started(cur, g, now);
      CanCrossMeansMeets(cur);
      while cur.remaining > 0 && CanCross(cur)
        invariant SidesOk() && cur.remaining >= 0 && cur == order.(remaining := cur.remaining)
        invariant g == Progress(SideOf(View(), Opposite(order.side)), lastTradePrice, trades, removed)
        invariant goal == Outcome(cur, g, now)
        invariant CanCross(cur) <==> g.opposing != [] && Crosses(cur, g.opposing[0].price)
        invariant View() == WithSide(v0, Opposite(order.side), g.opposing)
                            .(lastTradePrice := g.last, sequence := v0.sequence + |trades|)
        decreases cur.remaining
      {
        HeadIsResting(Opposite(order.side));
        Advances(cur, g, now);
        var trade, used;
        ghost var g1 := Next(cur, g, now);
        cur, trade, used := FillBest(cur, now, g);
        trades := trades + [trade];
        removed := removed + used;
        g := g1;
        CanCrossMeansMeets(cur);
      }
      Stopped(cur, g, now);
    }

    /** The end of Place: a limit order rests with what it has left. */
    method Finish(order: Order, trades: seq<Trade>, removed: seq<string>) returns (p: Placement)
      requires SidesOk() && !order.side.OtherSide?
      requires Rests(order) ==> RestingOk(order, order.side)
      modifies this
      ensures SidesOk()
      ensures var done := order.(status := StatusOf(order));
        && p == Placement(done, trades, if Rests(done) then Some(done) else None, removed)
        && View() == (if Rests(done) then WithSide(old(View()), order.side, Insert(old(SideOf(View(), order.side)), done))
                      else old(View())).(sequence := old(sequence) + 1)
    {
      hide SideOk, Insert, Flatten;
      var done := order.(status := StatusOf(order));
      var resting := None;
      if done.remaining > 0 && !done.kind.Market? {
        AddResting(done);
        resting := Some(done);
      }
      sequence := sequence + 1;
      p := Placement(done, trades, resting, removed);
    }

    lemma PlaceReady(order: Order, now: int)
      requires Valid() && Accepted(order)
      ensures order.quantity > 0 && !order.side.OtherSide?
      ensures Matching.Valid(Matching.Place(View(), order, now).0)
      ensures var m := Match(Submitted(order), SideOf(View(), Opposite(order.side)), lastTradePrice, now);
        && m.order == Submitted(order).(remaining := m.order.remaining)
        && (Rests(m.order) ==> RestingOk(m.order, order.side))
    {
      ValidMeansWellFormed();
      PlaceKeepsValid(View(), order, now);
      MatchTerms(Submitted(order), SideOf(View(), Opposite(order.side)), lastTradePrice, now);
    }

    /** Matches an order and rests what a limit order leaves. It fails only on an order that does not validate. */
    method Place(order: Order, now: int) returns (r: PlaceResult)
      requires Valid() && order.remaining == 0
      modifies this
      ensures Valid()
      ensures if Accepted(order) then r.Placed? && (View(), r.placement) == Matching.Place(old(View()), order, now)
              else r == Rejected(Validate(order).value) && View() == old(View())
    {
      var invalid := Validate(order);
      if invalid.Some? {
        return Rejected(invalid.value);
      }
      PlaceReady(order, now);
      ghost var v0 := View();
      hide Match, SideOk, Insert, Matching.Valid, SideValid, Flatten, Accepted, Validate, Matching.Place, WithSide, SideOf;
      var cur := order;
      if cur.remaining == 0 {
        cur := cur.(remaining := cur.quantity);
      }
      var trades, removed;
      cur, trades, removed := MatchLoop(cur, now);
      ghost var v1 := View();
      var placement := Finish(cur, trades, removed);
      PlaceInTwoParts(v0, v1, View(), order, now, placement);
      r := Placed(placement);
      ValidMeansWellFormed();
    }

    /** Takes an order out of the book by id, bids before asks. */
    method Cancel(id: string) returns (found: Option<Order>)
      requires Valid()
      modifies this
      ensures Valid()
      ensures (View(), found) == Matching.Cancel(old(View()), id)
    {
      hide SideOk, Matching.Valid, SideValid, Flatten, IndexOf, Without;
      ghost var v0 := View();
      ValidMeansWellFormed();
      var order;
      order, bidPrices, bids := TakeOut(Buy, bidPrices, bids, id);
      if order.None? {
        order, askPrices, asks := TakeOut(Sell, askPrices, asks, id);
      }
      if order.None? {
        return None;
      }
      sequence := sequence + 1;
      found := Some(order.value.(status := Cancelled));
      CancelKeepsValid(v0, id);
      ValidMeansWellFormed();
    }

    method Snapshot(depth: int) returns (s: Matching.Snapshot)
      requires SidesOk()
      ensures s == SnapshotOf(View(), depth)
    {
      hide Flatten, LevelsOf, Top;
      var d := if depth <= 0 then 10 else depth;
      var shownBids := TopLevels(Buy, bidPrices, bids, d);
      var shownAsks := TopLevels(Sell, askPrices, asks, d);
      s := Matching.Snapshot(lastTradePrice, sequence, shownBids, shownAsks);
    }
  }
}
