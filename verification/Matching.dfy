/** Price-time matching on plain lists: the reference the order book is proved against. */
module Matching {
  import opened Orders
  import opened Lots

  /** A book as two lists, best order first, ties in order of arrival. */
  datatype BookView = BookView(bids: seq<Order>, asks: seq<Order>, lastTradePrice: int, sequence: int)

  function SideOf(v: BookView, side: Side): seq<Order> {
    if side.Buy? then v.bids else v.asks
  }

  function WithSide(v: BookView, side: Side, orders: seq<Order>): BookView {
    if side.Buy? then v.(bids := orders) else v.(asks := orders)
  }

  predicate Crosses(order: Order, restingPrice: int) {
    order.kind.Market?
    || Rank(Opposite(order.side), restingPrice) <= Rank(Opposite(order.side), order.price)
  }

  /** Whether the order takes a price: a market order any, a limit buy none above and a limit sell none below its own. */
  predicate Takes(order: Order, price: int) {
    order.kind == Market || (if order.side == Sell then price >= order.price else price <= order.price)
  }

  lemma CrossingIsTaking(order: Order, price: int)
    ensures Crosses(order, price) <==> Takes(order, price)
  {
  }

  function TradeOf(order: Order, resting: Order, quantity: int, now: int): Trade {
    if order.side.Buy? then
      Trade(order.symbol, resting.price, quantity, Buy, order.id, resting.id, order.playerId, resting.playerId, now)
    else
      Trade(order.symbol, resting.price, quantity, order.side, resting.id, order.id, resting.playerId, order.playerId, now)
  }

  datatype MatchResult = MatchResult(order: Order, opposing: seq<Order>, trades: seq<Trade>, removed: seq<string>, last: int)

  /** Fills the order against the head of the opposing list until nothing is left or nothing crosses. */
  function Match(order: Order, opposing: seq<Order>, last: int, now: int): MatchResult
    decreases |opposing|
  {
    if order.remaining <= 0 || opposing == [] || !Crosses(order, opposing[0].price) then
      MatchResult(order, opposing, [], [], last)
    else
      var resting := opposing[0];
      var fill := Min(order.remaining, resting.remaining);
      var trade := TradeOf(order, resting, fill, now);
      var rest := order.(remaining := order.remaining - fill);
      if fill < resting.remaining then
        MatchResult(rest, [resting.(remaining := resting.remaining - fill, status := Partial)] + opposing[1..],
                    [trade], [], resting.price)
      else
        var m := Match(rest, opposing[1..], resting.price, now);
        m.(trades := [trade] + m.trades, removed := [resting.id] + m.removed)
  }

  /** Files an order behind every order of equal or better price. */
  function Insert(orders: seq<Order>, order: Order): seq<Order> {
    if orders == [] || Rank(order.side, order.price) < Rank(order.side, orders[0].price) then [order] + orders
    else [orders[0]] + Insert(orders[1..], order)
  }

  function Submitted(order: Order): Order {
    order.(remaining := order.quantity)
  }

  function Rests(order: Order): bool {
    order.remaining > 0 && !order.kind.Market?
  }

  /** What placing an accepted order does to a book and what it reports. */
  function Place(v: BookView, order: Order, now: int): (BookView, Placement) {
    var m := Match(Submitted(order), SideOf(v, Opposite(order.side)), v.lastTradePrice, now);
    var done := m.order.(status := StatusOf(m.order));
    var v1 := WithSide(v, Opposite(order.side), m.opposing)
              .(lastTradePrice := m.last, sequence := v.sequence + |m.trades| + 1);
    if Rests(done) then
      (WithSide(v1, order.side, Insert(SideOf(v, order.side), done)),
       Placement(done, m.trades, Some(done), m.removed))
    else
      (v1, Placement(done, m.trades, None, m.removed))
  }

  function IndexOf(orders: seq<Order>, id: string): (i: nat)
    ensures i <= |orders|
    ensures i < |orders| ==> orders[i].id == id
    ensures forall k :: 0 <= k < i ==> orders[k].id != id
  {
    if orders == [] || orders[0].id == id then 0 else 1 + IndexOf(orders[1..], id)
  }

  function Without(orders: seq<Order>, i: nat): seq<Order>
    requires i < |orders|
  {
    orders[..i] + orders[i + 1..]
  }

  /** What cancelling does to a book, and the order it hands back; None when no order has that id. */
  function Cancel(v: BookView, id: string): (BookView, Option<Order>) {
    var i := IndexOf(v.bids, id);
    var j := IndexOf(v.asks, id);
    if i < |v.bids| then
      (v.(bids := Without(v.bids, i), sequence := v.sequence + 1), Some(v.bids[i].(status := Cancelled)))
    else if j < |v.asks| then
      (v.(asks := Without(v.asks, j), sequence := v.sequence + 1), Some(v.asks[j].(status := Cancelled)))
    else
      (v, None)
  }

  // ---- What a well-formed book looks like ----

  predicate RestingOk(o: Order, side: Side) {
    o.side == side && o.kind.Limit? && o.price > 0 && 0 < o.remaining <= o.quantity
  }

  predicate SideValid(orders: seq<Order>, side: Side) {
    && (forall i :: 0 <= i < |orders| ==> RestingOk(orders[i], side))
    && (forall i, j :: 0 <= i < j < |orders| ==> Rank(side, orders[i].price) <= Rank(side, orders[j].price))
  }

  predicate Valid(v: BookView) {
    && SideValid(v.bids, Buy)
    && SideValid(v.asks, Sell)
    && (v.bids != [] && v.asks != [] ==> v.bids[0].price < v.asks[0].price)
  }

  function FilledQuantity(trades: seq<Trade>): int {
    if trades == [] then 0 else trades[0].quantity + FilledQuantity(trades[1..])
  }

  function Cost(trades: seq<Trade>): int {
    if trades == [] then 0 else trades[0].price * trades[0].quantity + Cost(trades[1..])
  }

  /** The quantity resting at prices the order accepts. */
  function Crossable(order: Order, opposing: seq<Order>): int {
    if opposing == [] then 0
    else (if Crosses(order, opposing[0].price) then opposing[0].remaining else 0) + Crossable(order, opposing[1..])
  }

  lemma {:induction false} NothingFurtherCrosses(order: Order, opposing: seq<Order>)
    requires SideValid(opposing, Opposite(order.side))
    requires opposing != [] ==> !Crosses(order, opposing[0].price)
    ensures Crossable(order, opposing) == 0
  {
    if opposing != [] { NothingFurtherCrosses(order, opposing[1..]); }
  }

  lemma {:induction false} CrossableNonNegative(order: Order, opposing: seq<Order>)
    requires SideValid(opposing, Opposite(order.side))
    ensures Crossable(order, opposing) >= 0
  {
    if opposing != [] { CrossableNonNegative(order, opposing[1..]); }
  }

  /** Whatever Match leaves is still well formed, and no longer crosses an order that has something left. */
  lemma {:induction false} MatchKeepsOpposing(order: Order, opposing: seq<Order>, last: int, now: int)
    requires SideValid(opposing, Opposite(order.side)) && order.remaining >= 0
    ensures var m := Match(order, opposing, last, now);
      && SideValid(m.opposing, Opposite(order.side))
      && SameTerms(order, m.order) && m.order.status == order.status
      && 0 <= m.order.remaining <= order.remaining
      && (m.order.remaining > 0 && m.opposing != [] ==> !Crosses(order, m.opposing[0].price))
      && (m.opposing != [] ==>
            && opposing != []
            && Rank(Opposite(order.side), opposing[0].price) <= Rank(Opposite(order.side), m.opposing[0].price))
    decreases |opposing|
  {
    if order.remaining > 0 && opposing != [] && Crosses(order, opposing[0].price) {
      TailOfSide(opposing, Opposite(order.side));
      if order.remaining >= opposing[0].remaining {
        var rest, m, n := MatchTakesHead(order, opposing, last, now);
        MatchKeepsOpposing(rest, opposing[1..], opposing[0].price, now);
        hide Match, SideValid, Rank;
      } else {
        LoweredHeadKeepsSide(opposing, Opposite(order.side), order.remaining);
        hide SideValid;
      }
    }
  }

  lemma TailOfSide(opposing: seq<Order>, side: Side)
    requires SideValid(opposing, side) && opposing != []
    ensures SideValid(opposing[1..], side) && RestingOk(opposing[0], side)
    ensures |opposing| > 1 ==> Rank(side, opposing[0].price) <= Rank(side, opposing[1..][0].price)
  {
  }

  lemma LoweredHeadKeepsSide(opposing: seq<Order>, side: Side, fill: int)
    requires SideValid(opposing, side) && opposing != [] && 0 <= fill < opposing[0].remaining
    ensures SideValid([opposing[0].(remaining := opposing[0].remaining - fill, status := Partial)] + opposing[1..], side)
  {
  }

  /** The first trade of a match that uses up the head of the list, and the match that follows. */
  lemma MatchTakesHead(order: Order, opposing: seq<Order>, last: int, now: int) returns (rest: Order, m: MatchResult, n: MatchResult)
    requires order.remaining > 0 && opposing != [] && Crosses(order, opposing[0].price)
    requires order.remaining >= opposing[0].remaining
    ensures rest == order.(remaining := order.remaining - opposing[0].remaining)
    ensures m == Match(order, opposing, last, now) && n == Match(rest, opposing[1..], opposing[0].price, now)
    ensures m.order == n.order && m.opposing == n.opposing && m.last == n.last
    ensures m.trades == [TradeOf(order, opposing[0], opposing[0].remaining, now)] + n.trades
    ensures m.removed == [opposing[0].id] + n.removed
  {
    rest := order.(remaining := order.remaining - opposing[0].remaining);
    m, n := Match(order, opposing, last, now), Match(rest, opposing[1..], opposing[0].price, now);
  }

  /** The trade is between the incoming order on its own side and the resting one on the other, reported as the incoming
      order's doing, in its symbol, at the resting order's price. */
  predicate Between(order: Order, resting: Order, t: Trade, now: int) {
    && t.symbol == order.symbol && t.aggressor == order.side && t.price == resting.price && t.executedAt == now
    && (order.side == Buy ==>
          && t.buyOrderId == order.id && t.buyerId == order.playerId
          && t.sellOrderId == resting.id && t.sellerId == resting.playerId)
    && (order.side != Buy ==>
          && t.sellOrderId == order.id && t.sellerId == order.playerId
          && t.buyOrderId == resting.id && t.buyerId == resting.playerId)
  }

  /** The trade is between the two orders, at a price the incoming one takes, for all of the resting one or for a part. */
  predicate StruckWith(order: Order, resting: Order, t: Trade, now: int, all: bool) {
    && Between(order, resting, t, now)
    && Takes(order, resting.price)
    && 0 < t.quantity <= resting.remaining
    && (all <==> t.quantity == resting.remaining)
  }

  /** Trade i is struck with order i of the opposing list, at that order's own price; every order
      before the last one touched is used up. */
  lemma {:induction false} TradesFollowPriority(order: Order, opposing: seq<Order>, last: int, now: int)
    requires SideValid(opposing, Opposite(order.side)) && order.remaining >= 0
    ensures var m := Match(order, opposing, last, now); var k := |m.removed|;
      && k <= |m.trades| <= k + 1 && |m.trades| <= |opposing|
      && (forall i :: 0 <= i < |m.trades| ==> StruckWith(order, opposing[i], m.trades[i], now, i < k))
    decreases |opposing|
  {
    if order.remaining > 0 && opposing != [] && Crosses(order, opposing[0].price) {
      assert RestingOk(opposing[0], Opposite(order.side));
      CrossingIsTaking(order, opposing[0].price);
      if order.remaining >= opposing[0].remaining {
        var rest, m, n := MatchTakesHead(order, opposing, last, now);
        TradesFollowPriority(rest, opposing[1..], opposing[0].price, now);
        assert StruckWith(order, opposing[0], m.trades[0], now, true);
        hide Match, SideValid, StruckWith, Crosses, TradeOf, RestingOk, Takes;
        forall i | 1 <= i < |m.trades| ensures StruckWith(order, opposing[i], m.trades[i], now, i < |m.removed|) {
          assert opposing[i] == opposing[1..][i - 1] && m.trades[i] == n.trades[i - 1];
          SameStrike(order, rest, opposing[i], m.trades[i], now, i < |m.removed|);
        }
      }
    }
  }

  lemma SameStrike(a: Order, b: Order, resting: Order, t: Trade, now: int, all: bool)
    requires StruckWith(b, resting, t, now, all) && a.(remaining := b.remaining) == b
    ensures StruckWith(a, resting, t, now, all)
  {
  }

  /** An opposing list without its first k orders, the next one lowered by one more trade when there is one. */
  function LeftAfter(opposing: seq<Order>, trades: seq<Trade>, k: nat): seq<Order>
    requires k <= |trades| <= k + 1 && |trades| <= |opposing|
  {
    if |trades| == k then opposing[k..]
    else [opposing[k].(remaining := opposing[k].remaining - trades[k].quantity, status := Partial)] + opposing[k + 1..]
  }

  lemma LeftAfterOneMore(opposing: seq<Order>, first: Trade, trades: seq<Trade>, k: nat)
    requires opposing != [] && k <= |trades| <= k + 1 && |trades| <= |opposing| - 1
    ensures LeftAfter(opposing, [first] + trades, k + 1) == LeftAfter(opposing[1..], trades, k)
  {
    assert opposing[1..][k..] == opposing[k + 1..];
    if |trades| == k + 1 { assert opposing[1..][k + 1..] == opposing[k + 2..]; }
  }

  /** The orders used up are a prefix of the opposing list; of the rest only the head may have less left. */
  lemma {:induction false} MatchConsumesPrefix(order: Order, opposing: seq<Order>, last: int, now: int)
    ensures var m := Match(order, opposing, last, now); var k := |m.removed|;
      && k <= |m.trades| <= k + 1 && |m.trades| <= |opposing|
      && (forall i :: 0 <= i < k ==> m.removed[i] == opposing[i].id)
      && m.opposing == LeftAfter(opposing, m.trades, k)
    decreases |opposing|
  {
    if order.remaining > 0 && opposing != [] && Crosses(order, opposing[0].price)
       && order.remaining >= opposing[0].remaining {
      var rest, m, n := MatchTakesHead(order, opposing, last, now);
      MatchConsumesPrefix(rest, opposing[1..], opposing[0].price, now);
      hide Match, Crosses, TradeOf;
      LeftAfterOneMore(opposing, m.trades[0], n.trades, |n.removed|);
      assert m.trades == [m.trades[0]] + n.trades;
      hide LeftAfter;
      forall i | 0 <= i < |m.removed| ensures m.removed[i] == opposing[i].id {
        if i > 0 { assert n.removed[i - 1] == opposing[1..][i - 1].id; }
      }
    }
  }

  /** What is left of the order, and the last trade price, follow from the trades. */
  lemma {:induction false} MatchAccounts(order: Order, opposing: seq<Order>, last: int, now: int)
    ensures var m := Match(order, opposing, last, now);
      && m.order.remaining == order.remaining - FilledQuantity(m.trades)
      && m.last == (if m.trades == [] then last else m.trades[|m.trades| - 1].price)
    decreases |opposing|
  {
    if order.remaining > 0 && opposing != [] && Crosses(order, opposing[0].price) {
      var m := Match(order, opposing, last, now);
      var rest := order.(remaining := order.remaining - Min(order.remaining, opposing[0].remaining));
      if order.remaining >= opposing[0].remaining {
        MatchAccounts(rest, opposing[1..], opposing[0].price, now);
        assert m.trades[1..] == Match(rest, opposing[1..], opposing[0].price, now).trades;
      } else {
        assert m.trades[1..] == [];
      }
    }
  }

  /** As much is filled as the order asks for, or as much as rests at prices it accepts. */
  lemma {:induction false} FillsAllThatCrosses(order: Order, opposing: seq<Order>, last: int, now: int)
    requires SideValid(opposing, Opposite(order.side)) && order.remaining >= 0
    ensures FilledQuantity(Match(order, opposing, last, now).trades) == Min(order.remaining, Crossable(order, opposing))
    decreases |opposing|
  {
    CrossableNonNegative(order, opposing);
    if opposing == [] || !Crosses(order, opposing[0].price) {
      NothingFurtherCrosses(order, opposing);
    } else if order.remaining > 0 {
      CrossableNonNegative(order, opposing[1..]);
      var fill := Min(order.remaining, opposing[0].remaining);
      var rest := order.(remaining := order.remaining - fill);
      var m := Match(order, opposing, last, now);
      assert m.trades[0].quantity == fill;
      if fill == opposing[0].remaining {
        FillsAllThatCrosses(rest, opposing[1..], opposing[0].price, now);
        SameCrossable(order, rest, opposing[1..]);
        assert m.trades[1..] == Match(rest, opposing[1..], opposing[0].price, now).trades;
      } else {
        assert m.trades[1..] == [];
      }
    }
  }

  lemma {:induction false} SameCrossable(a: Order, b: Order, opposing: seq<Order>)
    requires a.(remaining := b.remaining) == b
    ensures Crossable(a, opposing) == Crossable(b, opposing)
  {
    if opposing != [] { SameCrossable(a, b, opposing[1..]); }
  }

  // ---- Best execution ----

  /** Any way of taking quantities from the resting orders. */
  predicate Allocation(opposing: seq<Order>, take: seq<int>) {
    |take| == |opposing| && forall i :: 0 <= i < |take| ==> 0 <= take[i] <= opposing[i].remaining
  }

  function Taken(take: seq<int>): int {
    if take == [] then 0 else take[0] + Taken(take[1..])
  }

  function AllocationCost(opposing: seq<Order>, take: seq<int>): int
    requires |take| == |opposing|
  {
    if take == [] then 0 else opposing[0].price * take[0] + AllocationCost(opposing[1..], take[1..])
  }

  /** The cost, ranked by side, of taking n units best price first. */
  function Greedy(opposing: seq<Order>, side: Side, n: int): int {
    if opposing == [] || n <= 0 then 0
    else
      var fill := Min(n, opposing[0].remaining);
      Rank(side, opposing[0].price) * fill + Greedy(opposing[1..], side, n - fill)
  }

  function Resting(opposing: seq<Order>): int {
    if opposing == [] then 0 else opposing[0].remaining + Resting(opposing[1..])
  }

  /** Each further unit costs at least as much as the best price. */
  lemma {:induction false} GreedyMarginal(opposing: seq<Order>, side: Side, n: int, e: int, best: int)
    requires SideValid(opposing, side) && n >= 0 && e >= 0 && n + e <= Resting(opposing)
    requires opposing != [] ==> best <= Rank(side, opposing[0].price)
    ensures Greedy(opposing, side, n + e) >= Greedy(opposing, side, n) + best * e
  {
    if opposing != [] {
      var r, p, tail := opposing[0].remaining, Rank(side, opposing[0].price), opposing[1..];
      RestingNonNegative(tail, side);
      if n >= r {
        GreedyMarginal(tail, side, n - r, e, best);
      } else {
        var g := Min(n + e, r);
        GreedyMarginal(tail, side, 0, n + e - g, best);
        assert Greedy(opposing, side, n) == p * n;
        SplitProduct(best, p, n, g - n, n + e - g);
      }
    }
  }

  lemma SplitProduct(best: int, p: int, n: int, x: int, y: int)
    requires best <= p && x >= 0
    ensures p * (n + x) + best * y >= p * n + best * (x + y)
  {
    assert p * (n + x) == p * n + p * x && best * (x + y) == best * x + best * y;
    assert best * x <= p * x;
  }

  lemma {:induction false} RestingNonNegative(opposing: seq<Order>, side: Side)
    requires SideValid(opposing, side)
    ensures Resting(opposing) >= 0
  {
    if opposing != [] { RestingNonNegative(opposing[1..], side); }
  }

  lemma {:induction false} TakenBounds(opposing: seq<Order>, take: seq<int>)
    requires Allocation(opposing, take)
    ensures 0 <= Taken(take) <= Resting(opposing)
  {
    if take != [] { TakenBounds(opposing[1..], take[1..]); }
  }

  /** No allocation of the same quantity ranks better than taking best price first. */
  lemma {:induction false} GreedyIsOptimal(opposing: seq<Order>, side: Side, take: seq<int>)
    requires SideValid(opposing, side) && (side.Buy? || side.Sell?) && Allocation(opposing, take)
    ensures Rank(side, AllocationCost(opposing, take)) >= Greedy(opposing, side, Taken(take))
  {
    if take != [] {
      var tail, n := opposing[1..], Taken(take);
      var p, fill := Rank(side, opposing[0].price), Min(n, opposing[0].remaining);
      TakenBounds(tail, take[1..]);
      GreedyIsOptimal(tail, side, take[1..]);
      GreedyMarginal(tail, side, n - fill, fill - take[0], p);
      GreedyHead(opposing, side, n);
      RankScales(side, opposing[0].price, take[0]);
      RankAdds(side, opposing[0].price * take[0], AllocationCost(tail, take[1..]));
      assert Rank(side, AllocationCost(opposing, take)) == p * take[0] + Rank(side, AllocationCost(tail, take[1..]));
      hide SideValid, Allocation, Resting, Greedy, AllocationCost, Rank, Taken;
      assert p * fill == p * take[0] + p * (fill - take[0]) by { SplitProduct(p, p, take[0], fill - take[0], 0); }
    }
  }

  lemma GreedyHead(opposing: seq<Order>, side: Side, n: int)
    requires opposing != [] && n >= 0 && opposing[0].remaining > 0
    ensures var fill := Min(n, opposing[0].remaining);
      Greedy(opposing, side, n) == Rank(side, opposing[0].price) * fill + Greedy(opposing[1..], side, n - fill)
  {
  }

  lemma RankAdds(side: Side, x: int, y: int)
    ensures Rank(side, x + y) == Rank(side, x) + Rank(side, y)
  {
  }

  lemma RankScales(side: Side, price: int, q: int)
    ensures Rank(side, price) * q == Rank(side, price * q)
  {
  }

  /** Match pays exactly the greedy cost. */
  lemma {:induction false} MatchIsGreedy(order: Order, opposing: seq<Order>, last: int, now: int)
    requires SideValid(opposing, Opposite(order.side)) && order.remaining >= 0 && !order.side.OtherSide?
    ensures var m := Match(order, opposing, last, now);
      Rank(Opposite(order.side), Cost(m.trades)) == Greedy(opposing, Opposite(order.side), FilledQuantity(m.trades))
    decreases |opposing|
  {
    var side := Opposite(order.side);
    if order.remaining > 0 && opposing != [] && Crosses(order, opposing[0].price) {
      var fill := Min(order.remaining, opposing[0].remaining);
      RankScales(side, opposing[0].price, fill);
      assert opposing[0].remaining > 0;
      if fill == opposing[0].remaining {
        var rest, m, n := MatchTakesHead(order, opposing, last, now);
        MatchIsGreedy(rest, opposing[1..], opposing[0].price, now);
        FillsAllThatCrosses(rest, opposing[1..], opposing[0].price, now);
        CrossableNonNegative(rest, opposing[1..]);
        hide Match, Crosses, SideValid, Crossable;
        FirstTradeAdds(m.trades[0], n.trades);
        assert m.trades == [m.trades[0]] + n.trades;
        assert FilledQuantity(n.trades) >= 0;
        RankAdds(side, opposing[0].price * fill, Cost(n.trades));
        GreedyHead(opposing, side, FilledQuantity(m.trades));
        hide Rank, Greedy, Cost, FilledQuantity;
      } else {
        assert Match(order, opposing, last, now).trades[1..] == [];
      }
    }
  }

  lemma FirstTradeAdds(t: Trade, later: seq<Trade>)
    ensures Cost([t] + later) == t.price * t.quantity + Cost(later)
    ensures FilledQuantity([t] + later) == t.quantity + FilledQuantity(later)
  {
    assert ([t] + later)[1..] == later;
  }

  /** Best execution: no allocation of the filled quantity over the resting orders costs a buyer less
      or pays a seller more. */
  lemma BestExecution(order: Order, opposing: seq<Order>, last: int, now: int, take: seq<int>)
    requires SideValid(opposing, Opposite(order.side)) && order.remaining >= 0 && !order.side.OtherSide?
    requires Allocation(opposing, take) && Taken(take) == FilledQuantity(Match(order, opposing, last, now).trades)
    ensures var cost := Cost(Match(order, opposing, last, now).trades);
      if order.side.Buy? then cost <= AllocationCost(opposing, take)
      else cost >= AllocationCost(opposing, take)
  {
    MatchIsGreedy(order, opposing, last, now);
    GreedyIsOptimal(opposing, Opposite(order.side), take);
  }

  // ---- Every operation keeps the book well formed ----

  lemma {:induction false} InsertKeepsSide(orders: seq<Order>, order: Order)
    requires SideValid(orders, order.side) && RestingOk(order, order.side)
    ensures SideValid(Insert(orders, order), order.side)
    ensures Insert(orders, order)[0] == order || (orders != [] && Insert(orders, order)[0] == orders[0])
  {
    if orders != [] && Rank(order.side, order.price) >= Rank(order.side, orders[0].price) {
      InsertKeepsSide(orders[1..], order);
    }
  }

  /** The new order goes behind every order of equal or better price and ahead of every worse one. */
  lemma {:induction false} InsertPosition(orders: seq<Order>, order: Order) returns (i: nat)
    requires SideValid(orders, order.side)
    ensures i <= |orders| && Insert(orders, order) == orders[..i] + [order] + orders[i..]
    ensures forall k :: 0 <= k < i ==> Rank(order.side, orders[k].price) <= Rank(order.side, order.price)
    ensures forall k :: i <= k < |orders| ==> Rank(order.side, orders[k].price) > Rank(order.side, order.price)
  {
    if orders == [] || Rank(order.side, order.price) < Rank(order.side, orders[0].price) {
      i := 0;
    } else {
      var j := InsertPosition(orders[1..], order);
      i := j + 1;
      Reassemble(orders, order, j);
    }
  }

  lemma Reassemble(orders: seq<Order>, order: Order, j: nat)
    requires orders != [] && j < |orders|
    ensures [orders[0]] + (orders[1..][..j] + [order] + orders[1..][j..]) == orders[..j + 1] + [order] + orders[j + 1..]
  {
  }

  /** Placing an accepted order keeps the book well formed; in particular the best bid stays below the best ask. */
  lemma PlaceKeepsValid(v: BookView, order: Order, now: int)
    requires Valid(v) && Accepted(order)
    ensures Valid(Place(v, order, now).0)
  {
    var opp := SideOf(v, Opposite(order.side));
    MatchKeepsOpposing(Submitted(order), opp, v.lastTradePrice, now);
    var m := Match(Submitted(order), opp, v.lastTradePrice, now);
    var done := m.order.(status := StatusOf(m.order));
    if Rests(done) {
      InsertKeepsSide(SideOf(v, order.side), done);
    }
  }

  lemma CancelKeepsValid(v: BookView, id: string)
    requires Valid(v)
    ensures Valid(Cancel(v, id).0)
  {
    var i, j := IndexOf(v.bids, id), IndexOf(v.asks, id);
    hide IndexOf;
    if i < |v.bids| {
      WithoutKeepsSide(v.bids, i, Buy);
    } else if j < |v.asks| {
      WithoutKeepsSide(v.asks, j, Sell);
    }
    hide SideValid;
  }

  lemma WithoutKeepsSide(orders: seq<Order>, i: nat, side: Side)
    requires SideValid(orders, side) && i < |orders|
    ensures SideValid(Without(orders, i), side)
    ensures |Without(orders, i)| == |orders| - 1
    ensures Without(orders, i) != [] ==>
      Without(orders, i)[0] == orders[0]
      || (|orders| > 1 && Without(orders, i)[0] == orders[1] && Rank(side, orders[0].price) <= Rank(side, orders[1].price))
  {
    var after := Without(orders, i);
    forall k | 0 <= k < |after| ensures after[k] == if k < i then orders[k] else orders[k + 1] {
    }
  }

  datatype BookOp = DoPlace(order: Order, now: int) | DoCancel(id: string)

  function BookStep(v: BookView, op: BookOp): BookView {
    match op
    case DoPlace(order, now) => if Accepted(order) then Place(v, order, now).0 else v
    case DoCancel(id) => Cancel(v, id).0
  }

  function BookRun(v: BookView, ops: seq<BookOp>): BookView
    decreases |ops|
  {
    if ops == [] then v else BookRun(BookStep(v, ops[0]), ops[1..])
  }

  /** A book is well formed after every run of placements and cancellations. */
  lemma {:induction false} RunKeepsValid(v: BookView, ops: seq<BookOp>)
    requires Valid(v)
    ensures Valid(BookRun(v, ops))
    decreases |ops|
  {
    if ops != [] {
      if ops[0].DoPlace? {
        if Accepted(ops[0].order) { PlaceKeepsValid(v, ops[0].order, ops[0].now); }
      } else {
        CancelKeepsValid(v, ops[0].id);
      }
      RunKeepsValid(BookStep(v, ops[0]), ops[1..]);
    }
  }

  // ---- What a snapshot shows ----

  datatype Level = Level(price: int, quantity: int, orderCount: int)

  datatype Snapshot = Snapshot(lastTradePrice: int, sequence: int, bids: seq<Level>, asks: seq<Level>)

  /** Neighbouring orders of one price, added up. */
  function LevelsOf(orders: seq<Order>): seq<Level> {
    if orders == [] then []
    else
      var rest := LevelsOf(orders[1..]);
      if rest != [] && rest[0].price == orders[0].price then
        [Level(rest[0].price, orders[0].remaining + rest[0].quantity, 1 + rest[0].orderCount)] + rest[1..]
      else
        [Level(orders[0].price, orders[0].remaining, 1)] + rest
  }

  function Top(levels: seq<Level>, depth: int): seq<Level> {
    if 0 <= depth < |levels| then levels[..depth] else levels
  }

  function SnapshotOf(v: BookView, depth: int): Snapshot {
    var d := if depth <= 0 then 10 else depth;
    Snapshot(v.lastTradePrice, v.sequence, Top(LevelsOf(v.bids), d), Top(LevelsOf(v.asks), d))
  }
}
