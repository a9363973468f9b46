/** Queues per price beside a sorted slice of prices, and the plain list they stand for. */
module Ladders {
  import opened Orders
  import opened Matching

  type Levels = map<int, seq<Order>>

  function LevelAt(levels: Levels, price: int): seq<Order> {
    if price in levels then levels[price] else []
  }

  /** The queues in the order of the price slice, one after the other. */
  function Flatten(prices: seq<int>, levels: Levels): seq<Order> {
    if prices == [] then [] else LevelAt(levels, prices[0]) + Flatten(prices[1..], levels)
  }

  predicate SortedPrices(side: Side, prices: seq<int>) {
    forall i, j :: 0 <= i < j < |prices| ==> Rank(side, prices[i]) < Rank(side, prices[j])
  }

  predicate LevelOk(side: Side, price: int, orders: seq<Order>) {
    orders != [] && forall i :: 0 <= i < |orders| ==> RestingOk(orders[i], side) && orders[i].price == price
  }

  /** Sorted prices, each with a non-empty queue of orders of that price and side. */
  predicate Ladder(side: Side, prices: seq<int>, levels: Levels) {
    && SortedPrices(side, prices)
    && forall i :: 0 <= i < |prices| ==> prices[i] in levels && LevelOk(side, prices[i], levels[prices[i]])
  }

  ghost predicate SideOk(side: Side, prices: seq<int>, levels: Levels) {
    Ladder(side, prices, levels) && forall p :: p in levels ==> p in prices
  }

  // ---- Prices ----

  function InsertPrice(side: Side, prices: seq<int>, price: int): seq<int> {
    if prices == [] || Rank(side, price) < Rank(side, prices[0]) then [price] + prices
    else [prices[0]] + InsertPrice(side, prices[1..], price)
  }

  /** Insertion sort by rank, the way a sorted price slice is rebuilt after an append. */
  function SortPrices(side: Side, prices: seq<int>): seq<int> {
    if prices == [] then []
    else InsertPrice(side, SortPrices(side, prices[..|prices| - 1]), prices[|prices| - 1])
  }

  lemma {:induction false} InsertPriceLast(side: Side, prices: seq<int>, price: int)
    requires forall i :: 0 <= i < |prices| ==> Rank(side, prices[i]) <= Rank(side, price)
    ensures InsertPrice(side, prices, price) == prices + [price]
  {
    if prices != [] { InsertPriceLast(side, prices[1..], price); }
  }

  lemma {:induction false} SortedIsFixed(side: Side, prices: seq<int>)
    requires SortedPrices(side, prices)
    ensures SortPrices(side, prices) == prices
  {
    if prices != [] {
      var init := prices[..|prices| - 1];
      SortedIsFixed(side, init);
      InsertPriceLast(side, init, prices[|prices| - 1]);
    }
  }

  lemma SortAppended(side: Side, prices: seq<int>, price: int)
    requires SortedPrices(side, prices)
    ensures SortPrices(side, prices + [price]) == InsertPrice(side, prices, price)
  {
    SortedIsFixed(side, prices);
    assert (prices + [price])[..|prices|] == prices;
  }

  lemma {:induction false} InsertPriceMembers(side: Side, prices: seq<int>, price: int)
    ensures forall p :: p in InsertPrice(side, prices, price) <==> p in prices || p == price
  {
    if prices != [] { InsertPriceMembers(side, prices[1..], price); }
  }

  lemma {:induction false} InsertPriceSorted(side: Side, prices: seq<int>, price: int)
    requires SortedPrices(side, prices) && !side.OtherSide? && price !in prices
    ensures SortedPrices(side, InsertPrice(side, prices, price))
  {
    if prices != [] && Rank(side, price) >= Rank(side, prices[0]) {
      var tail := InsertPrice(side, prices[1..], price);
      InsertPriceSorted(side, prices[1..], price);
      InsertPriceMembers(side, prices[1..], price);
      forall k | 0 <= k < |tail| ensures Rank(side, prices[0]) < Rank(side, tail[k]) {
        assert tail[k] in tail;
      }
    }
  }

  function PriceIndex(prices: seq<int>, target: int): (i: nat)
    ensures i <= |prices|
    ensures i < |prices| ==> prices[i] == target
    ensures forall k :: 0 <= k < i ==> prices[k] != target
  {
    if prices == [] || prices[0] == target then 0 else 1 + PriceIndex(prices[1..], target)
  }

  method RemovePrice(prices: seq<int>, target: int) returns (r: seq<int>)
    ensures var i := PriceIndex(prices, target);
      r == if i == |prices| then prices else prices[..i] + prices[i + 1..]
  {
    var i := 0;
    while i < |prices| && prices[i] != target
      invariant i <= |prices|
      invariant forall k :: 0 <= k < i ==> prices[k] != target
    {
      i := i + 1;
    }
    if i == |prices| {
      return prices;
    }
    return prices[..i] + prices[i + 1..];
  }

  // ---- Flattening ----

  lemma {:induction false} FlattenFrame(prices: seq<int>, a: Levels, b: Levels)
    requires forall p :: p in prices ==> LevelAt(a, p) == LevelAt(b, p)
    ensures Flatten(prices, a) == Flatten(prices, b)
  {
    if prices != [] {
      assert prices[0] in prices;
      FlattenFrame(prices[1..], a, b);
    }
  }

  lemma {:induction false} FlattenSplit(a: seq<int>, b: seq<int>, levels: Levels)
    ensures Flatten(a + b, levels) == Flatten(a, levels) + Flatten(b, levels)
  {
    if a == [] {
      assert a + b == b;
    } else {
      assert (a + b)[1..] == a[1..] + b;
      FlattenSplit(a[1..], b, levels);
    }
  }

  lemma SidesJoin(a: seq<Order>, b: seq<Order>, side: Side)
    requires SideValid(a, side) && SideValid(b, side)
    requires forall i, j :: 0 <= i < |a| && 0 <= j < |b| ==> Rank(side, a[i].price) <= Rank(side, b[j].price)
    ensures SideValid(a + b, side)
  {
    hide RestingOk;
  }

  lemma LevelIsSide(side: Side, price: int, orders: seq<Order>)
    requires LevelOk(side, price, orders)
    ensures SideValid(orders, side) && forall i :: 0 <= i < |orders| ==> orders[i].price == price
  {
  }

  /** Sorted non-empty levels flatten to a well-formed list that starts at the best price. */
  lemma {:induction false} LadderIsValidSide(side: Side, prices: seq<int>, levels: Levels)
    requires Ladder(side, prices, levels)
    ensures SideValid(Flatten(prices, levels), side)
    ensures prices == [] <==> Flatten(prices, levels) == []
    ensures prices != [] ==> Flatten(prices, levels)[0] == levels[prices[0]][0]
    ensures forall o :: o in Flatten(prices, levels) ==> o.price in prices
  {
    if prices != [] {
      var head, tail := levels[prices[0]], Flatten(prices[1..], levels);
      LadderIsValidSide(side, prices[1..], levels);
      LevelIsSide(side, prices[0], head);
      assert Flatten(prices, levels) == head + tail && head != [];
      hide Flatten, SideValid, LevelOk;
      forall i, j | 0 <= i < |head| && 0 <= j < |tail| ensures Rank(side, head[i].price) <= Rank(side, tail[j].price) {
        assert tail[j] in tail && tail[j].price in prices[1..];
      }
      SidesJoin(head, tail, side);
    }
  }

  lemma {:induction false} InsertSkips(a: seq<Order>, b: seq<Order>, order: Order)
    requires forall i :: 0 <= i < |a| ==> Rank(order.side, a[i].price) <= Rank(order.side, order.price)
    requires b != [] ==> Rank(order.side, order.price) < Rank(order.side, b[0].price)
    ensures Insert(a + b, order) == a + [order] + b
  {
    if a == [] {
      assert a + b == b;
    } else {
      assert (a + b)[1..] == a[1..] + b;
      InsertSkips(a[1..], b, order);
    }
  }

  lemma {:induction false} InsertPast(a: seq<Order>, b: seq<Order>, order: Order)
    requires forall i :: 0 <= i < |a| ==> Rank(order.side, a[i].price) <= Rank(order.side, order.price)
    ensures Insert(a + b, order) == a + Insert(b, order)
  {
    if a == [] {
      assert a + b == b;
    } else {
      assert (a + b)[1..] == a[1..] + b;
      InsertPast(a[1..], b, order);
    }
  }

  /** Appending to the queue of an existing price files the order behind its equals. */
  lemma {:induction false} AppendIsInsert(side: Side, prices: seq<int>, levels: Levels, order: Order)
    requires Ladder(side, prices, levels) && order.side == side && !side.OtherSide? && order.price in prices
    ensures Flatten(prices, levels[order.price := levels[order.price] + [order]])
         == Insert(Flatten(prices, levels), order)
  {
    var p := order.price;
    var after := levels[p := levels[p] + [order]];
    var tail := Flatten(prices[1..], levels);
    LadderIsValidSide(side, prices[1..], levels);
    if prices[0] == p {
      FlattenFrame(prices[1..], levels, after);
      if tail != [] { assert tail[0].price in prices[1..]; }
      InsertSkips(levels[p], tail, order);
    } else {
      assert p in prices[1..];
      AppendIsInsert(side, prices[1..], levels, order);
      InsertPast(levels[prices[0]], tail, order);
    }
  }

  /** A new price opens a queue at its place among the sorted prices. */
  lemma {:induction false} NewLevelIsInsert(side: Side, prices: seq<int>, levels: Levels, order: Order)
    requires Ladder(side, prices, levels) && order.side == side && !side.OtherSide? && order.price !in prices
    ensures Flatten(InsertPrice(side, prices, order.price), levels[order.price := [order]])
         == Insert(Flatten(prices, levels), order)
  {
    var p := order.price;
    var after := levels[p := [order]];
    LadderIsValidSide(side, prices, levels);
    if prices == [] || Rank(side, p) < Rank(side, prices[0]) {
      FlattenFrame(prices, levels, after);
      assert ([p] + prices)[1..] == prices;
    } else {
      var tail := Flatten(prices[1..], levels);
      NewLevelIsInsert(side, prices[1..], levels, order);
      InsertPast(levels[prices[0]], tail, order);
      var rest := InsertPrice(side, prices[1..], p);
      assert ([prices[0]] + rest)[1..] == rest;
    }
  }

  /** Writing back the first order of the best queue does the same to the list. */
  lemma HeadUpdates(side: Side, prices: seq<int>, levels: Levels, head: Order)
    requires Ladder(side, prices, levels) && prices != []
    ensures var p := prices[0];
      && Flatten(prices, levels) != []
      && Flatten(prices, levels[p := [head] + levels[p][1..]]) == [head] + Flatten(prices, levels)[1..]
  {
    var p := prices[0];
    var after := levels[p := [head] + levels[p][1..]];
    forall q | q in prices[1..] ensures q != p {
      var i :| 0 <= i < |prices[1..]| && prices[1..][i] == q;
      assert prices[i + 1] == q;
    }
    FlattenFrame(prices[1..], levels, after);
    var rest := Flatten(prices[1..], levels);
    assert Flatten(prices, levels) == levels[p] + rest && Flatten(prices, after) == after[p] + rest;
    hide Flatten, RestingOk;
    assert (levels[p] + rest)[1..] == levels[p][1..] + rest;
  }

  lemma AroundLevel(prices: seq<int>, levels: Levels, k: nat)
    requires k < |prices|
    ensures Flatten(prices, levels)
         == Flatten(prices[..k], levels) + LevelAt(levels, prices[k]) + Flatten(prices[k + 1..], levels)
  {
    assert prices == prices[..k] + ([prices[k]] + prices[k + 1..]);
    assert ([prices[k]] + prices[k + 1..])[1..] == prices[k + 1..];
    FlattenSplit(prices[..k], [prices[k]] + prices[k + 1..], levels);
  }

  lemma OtherLevelsKept(side: Side, prices: seq<int>, a: Levels, b: Levels, k: nat)
    requires SortedPrices(side, prices) && k < |prices|
    requires forall p :: p in prices && p != prices[k] ==> LevelAt(a, p) == LevelAt(b, p)
    ensures Flatten(prices[..k], a) == Flatten(prices[..k], b)
    ensures Flatten(prices[k + 1..], a) == Flatten(prices[k + 1..], b)
  {
    FlattenFrame(prices[..k], a, b);
    FlattenFrame(prices[k + 1..], a, b);
  }

  lemma WithoutInMiddle(a: seq<Order>, m: seq<Order>, c: seq<Order>, i: nat)
    requires i < |m|
    ensures (a + m + c)[|a| + i] == m[i]
    ensures (a + m + c)[..|a| + i] == a + m[..i]
    ensures Without(a + m + c, |a| + i) == a + Without(m, i) + c
  {
  }

  /** Where order i of queue k stands in the list, and what taking it out of its queue leaves. */
  lemma TakeOutOfLevel(side: Side, prices: seq<int>, levels: Levels, k: nat, i: nat)
    requires Ladder(side, prices, levels) && k < |prices| && i < |levels[prices[k]]|
    ensures var p := prices[k]; var at := |Flatten(prices[..k], levels)| + i; var list := Flatten(prices, levels);
      && at < |list| && list[at] == levels[p][i]
      && list[..at] == Flatten(prices[..k], levels) + levels[p][..i]
      && Flatten(prices, levels[p := Without(levels[p], i)]) == Without(list, at)
  {
    hide Flatten, Without, LevelOk;
    var p := prices[k];
    var after := levels[p := Without(levels[p], i)];
    AroundLevel(prices, levels, k);
    AroundLevel(prices, after, k);
    OtherLevelsKept(side, prices, levels, after, k);
    WithoutInMiddle(Flatten(prices[..k], levels), levels[p], Flatten(prices[k + 1..], levels), i);
  }

  /** The same when the order was alone in its queue, so that the price goes too. */
  lemma TakeOutLevel(side: Side, prices: seq<int>, levels: Levels, k: nat)
    requires Ladder(side, prices, levels) && k < |prices| && |levels[prices[k]]| == 1
    ensures var at := |Flatten(prices[..k], levels)|;
      && at < |Flatten(prices, levels)|
      && Flatten(prices[..k] + prices[k + 1..], levels - {prices[k]}) == Without(Flatten(prices, levels), at)
  {
    hide Flatten;
    var p := prices[k];
    AroundLevel(prices, levels, k);
    OtherLevelsKept(side, prices, levels, levels - {p}, k);
    FlattenSplit(prices[..k], prices[k + 1..], levels - {p});
    WithoutInMiddle(Flatten(prices[..k], levels), levels[p], Flatten(prices[k + 1..], levels), 0);
  }

  lemma DropPrice(side: Side, prices: seq<int>, k: nat)
    requires SortedPrices(side, prices) && k < |prices|
    ensures SortedPrices(side, prices[..k] + prices[k + 1..])
    ensures forall p :: p in prices[..k] + prices[k + 1..] <==> p in prices && p != prices[k]
  {
    var rest := prices[..k] + prices[k + 1..];
    assert forall i :: 0 <= i < |rest| ==> rest[i] == if i < k then prices[i] else prices[i + 1];
    assert prices == prices[..k] + [prices[k]] + prices[k + 1..];
  }

  lemma LadderWithout(side: Side, prices: seq<int>, levels: Levels, k: nat)
    requires SideOk(side, prices, levels) && k < |prices|
    ensures SideOk(side, prices[..k] + prices[k + 1..], levels - {prices[k]})
  {
    var rest := prices[..k] + prices[k + 1..];
    DropPrice(side, prices, k);
    forall i | 0 <= i < |rest|
      ensures rest[i] in levels - {prices[k]} && LevelOk(side, rest[i], (levels - {prices[k]})[rest[i]])
    {
      assert rest[i] in rest;
      var j :| 0 <= j < |prices| && prices[j] == rest[i];
    }
  }

  /** The new queue under a price keeps a ladder a ladder. */
  lemma LadderUpdate(side: Side, prices: seq<int>, levels: Levels, price: int, orders: seq<Order>)
    requires SideOk(side, prices, levels) && price in prices && LevelOk(side, price, orders)
    ensures SideOk(side, prices, levels[price := orders])
  {
  }

  lemma LadderNewLevel(side: Side, prices: seq<int>, levels: Levels, price: int, orders: seq<Order>)
    requires SideOk(side, prices, levels) && price !in prices && LevelOk(side, price, orders) && !side.OtherSide?
    ensures SideOk(side, InsertPrice(side, prices, price), levels[price := orders])
  {
    var after := InsertPrice(side, prices, price);
    InsertPriceSorted(side, prices, price);
    InsertPriceMembers(side, prices, price);
    forall i | 0 <= i < |after|
      ensures after[i] in levels[price := orders] && LevelOk(side, after[i], levels[price := orders][after[i]])
    {
      assert after[i] in after;
      if after[i] != price {
        var j :| 0 <= j < |prices| && prices[j] == after[i];
      }
    }
  }

  // ---- Snapshots ----

  lemma {:induction false} LevelsOfQueue(queue: seq<Order>, rest: seq<Order>, price: int)
    requires queue != [] && forall i :: 0 <= i < |queue| ==> queue[i].price == price
    requires rest == [] || rest[0].price != price
    ensures LevelsOf(queue + rest) == [Level(price, Resting(queue), |queue|)] + LevelsOf(rest)
  {
    assert (queue + rest)[1..] == queue[1..] + rest;
    if |queue| == 1 {
      assert queue[1..] + rest == rest;
      FirstLevel(rest);
    } else {
      LevelsOfQueue(queue[1..], rest, price);
    }
  }

  lemma FirstLevel(orders: seq<Order>)
    ensures orders != [] ==> LevelsOf(orders) != [] && LevelsOf(orders)[0].price == orders[0].price
  {
  }

  /** A ladder shows one level per price, in order. */
  lemma LevelsOfLadder(side: Side, prices: seq<int>, levels: Levels, k: nat)
    requires Ladder(side, prices, levels) && k < |prices|
    ensures var p := prices[k];
      LevelsOf(Flatten(prices[k..], levels))
      == [Level(p, Resting(levels[p]), |levels[p]|)] + LevelsOf(Flatten(prices[k + 1..], levels))
  {
    var tail := prices[k + 1..];
    assert prices[k..][1..] == tail;
    LadderIsValidSide(side, tail, levels);
    LevelsOfQueue(levels[prices[k]], Flatten(tail, levels), prices[k]);
  }
}
