/** What a book reports: the outcome of a placement, field by field, the first fault of a refused order, and the
    depth a snapshot shows. */
module Reports {
  import opened Orders
  import opened Lots
  import opened Matching

  // ---- Refused orders ----

  /** An order is accepted if and only if nothing is missing, its quantity is positive, its side and type are known, and
      a limit order has a positive price. */
  lemma AcceptedExactly(order: Order)
    ensures Accepted(order)
       <==> order.symbol != "" && order.playerId != "" && order.id != "" && order.quantity > 0
            && (order.side == Buy || order.side == Sell)
            && (order.kind == Market || (order.kind == OrderType.Limit && order.price > 0))
  {
  }

  /** What is wrong with a refused order is the first of its faults, in this order. */
  lemma FirstFault(order: Order)
    ensures Validate(order) == Some(NoSymbol) <==> order.symbol == ""
    ensures Validate(order) == Some(NoPlayer) <==> order.symbol != "" && order.playerId == ""
    ensures Validate(order) == Some(NoId) <==> order.symbol != "" && order.playerId != "" && order.id == ""
    ensures Validate(order) == Some(BadQuantity)
       <==> order.symbol != "" && order.playerId != "" && order.id != "" && order.quantity <= 0
    ensures Validate(order) == Some(BadSide(order.side)) <==> Complete(order) && order.side != Buy && order.side != Sell
    ensures Validate(order) == Some(BadType(order.kind))
       <==> Complete(order) && (order.side == Buy || order.side == Sell)
            && order.kind != OrderType.Limit && order.kind != Market
    ensures Validate(order) == Some(BadPrice)
       <==> Complete(order) && (order.side == Buy || order.side == Sell)
            && order.kind == OrderType.Limit && order.price <= 0
  {
  }

  predicate Complete(order: Order) {
    order.symbol != "" && order.playerId != "" && order.id != "" && order.quantity > 0
  }

  // ---- Placements ----

  /** The quantity resting at prices an order takes. */
  function Offered(order: Order, opposing: seq<Order>): int {
    if opposing == [] then 0
    else (if Takes(order, opposing[0].price) then opposing[0].remaining else 0) + Offered(order, opposing[1..])
  }

  lemma {:induction false} CrossableIsOffered(order: Order, opposing: seq<Order>)
    ensures Crossable(order, opposing) == Offered(order, opposing)
  {
    if opposing != [] {
      CrossingIsTaking(order, opposing[0].price);
      CrossableIsOffered(order, opposing[1..]);
    }
  }

  lemma MatchingReport(v: BookView, order: Order, now: int)
    requires Valid(v) && Accepted(order)
    ensures var opposing := SideOf(v, Opposite(order.side));
      var m := Match(Submitted(order), opposing, v.lastTradePrice, now);
      && |m.removed| <= |m.trades| <= |m.removed| + 1 && |m.trades| <= |opposing|
      && (forall i :: 0 <= i < |m.trades| ==> StruckWith(Submitted(order), opposing[i], m.trades[i], now, i < |m.removed|))
      && (forall i :: 0 <= i < |m.removed| ==> m.removed[i] == opposing[i].id)
      && FilledQuantity(m.trades) == Min(order.quantity, Crossable(Submitted(order), opposing))
      && m.order == order.(remaining := order.quantity - FilledQuantity(m.trades))
      && Crossable(Submitted(order), opposing) >= 0
      && m.opposing == LeftAfter(opposing, m.trades, |m.removed|)
      && m.last == (if m.trades == [] then v.lastTradePrice else m.trades[|m.trades| - 1].price)
  {
    var opposing := SideOf(v, Opposite(order.side));
    TradesFollowPriority(Submitted(order), opposing, v.lastTradePrice, now);
    MatchConsumesPrefix(Submitted(order), opposing, v.lastTradePrice, now);
    FillsAllThatCrosses(Submitted(order), opposing, v.lastTradePrice, now);
    MatchAccounts(Submitted(order), opposing, v.lastTradePrice, now);
    MatchKeepsOpposing(Submitted(order), opposing, v.lastTradePrice, now);
    CrossableNonNegative(Submitted(order), opposing);
    hide Match, Crossable, FilledQuantity, SideValid, StruckWith;
  }

  lemma {:induction false} SameOffer(order: Order, opposing: seq<Order>)
    ensures Offered(Submitted(order), opposing) == Offered(order, opposing)
  {
    if opposing != [] { SameOffer(order, opposing[1..]); }
  }

  lemma PlaceIs(v: BookView, order: Order, now: int)
    requires order.side == Buy || order.side == Sell
    requires Match(Submitted(order), SideOf(v, Opposite(order.side)), v.lastTradePrice, now).order.side == order.side
    ensures var (v', p) := Place(v, order, now);
      var m := Match(Submitted(order), SideOf(v, Opposite(order.side)), v.lastTradePrice, now);
      && p.trades == m.trades && p.removed == m.removed && p.order == m.order.(status := StatusOf(m.order))
      && p.resting == (if Rests(m.order) then Some(p.order) else None)
      && SideOf(v', Opposite(order.side)) == m.opposing
      && SideOf(v', order.side) == (if Rests(m.order) then Insert(SideOf(v, order.side), p.order) else SideOf(v, order.side))
      && v'.lastTradePrice == m.last && v'.sequence == v.sequence + |m.trades| + 1
  {
    hide Match, Insert;
  }

  /** What the status of a finished order says about the quantity filled. */
  lemma StatusSays(order: Order, filled: int, done: Order)
    requires done == order.(remaining := order.quantity - filled) && 0 <= filled <= order.quantity
    ensures StatusOf(done) == if filled == order.quantity then Filled else if filled > 0 then Partial
                              else if order.kind == Market then Cancelled else Open
  {
  }

  /** The trades, the order and the remainder that a placement reports. */
  lemma PlacementReport(v: BookView, order: Order, now: int)
    requires Valid(v) && Accepted(order)
    ensures var p := Place(v, order, now).1; var opposing := SideOf(v, Opposite(order.side));
      var filled := FilledQuantity(p.trades);
      && |p.removed| <= |p.trades| <= |p.removed| + 1 && |p.trades| <= |opposing|
      && (forall i :: 0 <= i < |p.trades| ==> StruckWith(order, opposing[i], p.trades[i], now, i < |p.removed|))
      && (forall i :: 0 <= i < |p.removed| ==> p.removed[i] == opposing[i].id)
      && filled == Min(order.quantity, Offered(order, opposing))
      && p.order == order.(remaining := order.quantity - filled, status :=
           if filled == order.quantity then Filled else if filled > 0 then Partial
           else if order.kind == Market then Cancelled else Open)
      && p.resting == (if filled < order.quantity && order.kind == OrderType.Limit then Some(p.order) else None)
  {
    var opposing := SideOf(v, Opposite(order.side));
    var m := Match(Submitted(order), opposing, v.lastTradePrice, now);
    AcceptedExactly(order);
    MatchingReport(v, order, now);
    CrossableIsOffered(Submitted(order), opposing);
    SameOffer(order, opposing);
    PlaceIs(v, order, now);
    hide Match, Insert, Crossable, Offered, FilledQuantity, Valid, Place, Accepted, StatusOf, StruckWith;
    StatusSays(order, FilledQuantity(m.trades), m.order);
    forall i | 0 <= i < |m.trades| ensures StruckWith(order, opposing[i], m.trades[i], now, i < |m.removed|) {
      SameStrike(order, Submitted(order), opposing[i], m.trades[i], now, i < |m.removed|);
    }
  }

  /** What a placement leaves of the book: the opposing side without what was filled, the remainder of a limit order filed
      behind its equals and betters, the price of the last trade, and one sequence number for each trade and one more. */
  lemma PlacementLeaves(v: BookView, order: Order, now: int)
    requires Valid(v) && Accepted(order)
    ensures var (v', p) := Place(v, order, now);
      && |p.removed| <= |p.trades| <= |p.removed| + 1 && |p.trades| <= |SideOf(v, Opposite(order.side))|
      && SideOf(v', Opposite(order.side)) == LeftAfter(SideOf(v, Opposite(order.side)), p.trades, |p.removed|)
      && SideOf(v', order.side)
         == (if p.resting.Some? then Insert(SideOf(v, order.side), p.resting.value) else SideOf(v, order.side))
      && v'.lastTradePrice == (if p.trades == [] then v.lastTradePrice else p.trades[|p.trades| - 1].price)
      && v'.sequence == v.sequence + |p.trades| + 1
  {
    AcceptedExactly(order);
    MatchingReport(v, order, now);
    PlaceIs(v, order, now);
    hide Match, Insert, LeftAfter, StruckWith, FilledQuantity, Crossable, Valid, StatusOf, Place, Accepted;
  }

  /** In a well-formed book bids fall and asks rise in price. */
  lemma SidesAreSorted(v: BookView)
    requires Valid(v)
    ensures forall i, j :: 0 <= i < j < |v.bids| ==> v.bids[i].price >= v.bids[j].price
    ensures forall i, j :: 0 <= i < j < |v.asks| ==> v.asks[i].price <= v.asks[j].price
    ensures forall i, j :: 0 <= i < |v.bids| && 0 <= j < |v.asks| ==> v.bids[i].price < v.asks[j].price
  {
    forall i, j | 0 <= i < |v.bids| && 0 <= j < |v.asks| ensures v.bids[i].price < v.asks[j].price {
      assert v.bids[i].price <= v.bids[0].price && v.asks[0].price <= v.asks[j].price;
    }
  }

  // ---- Cancellations ----

  /** Index i is that of the first order with the id. */
  predicate FirstWith(orders: seq<Order>, i: nat, id: string) {
    i < |orders| && orders[i].id == id && forall k :: 0 <= k < i ==> orders[k].id != id
  }

  /** Cancelling takes out the first bid with the id, else the first ask with it, hands it back cancelled and advances the
      sequence; when there is neither, nothing changes. */
  lemma CancelTakesFirst(v: BookView, id: string)
    ensures var (v', found) := Cancel(v, id);
      && (forall i: nat :: FirstWith(v.bids, i, id) ==>
            && v' == v.(bids := v.bids[..i] + v.bids[i + 1..], sequence := v.sequence + 1)
            && found == Some(v.bids[i].(status := Cancelled)))
      && ((forall k :: 0 <= k < |v.bids| ==> v.bids[k].id != id) ==>
            && (forall i: nat :: FirstWith(v.asks, i, id) ==>
                  && v' == v.(asks := v.asks[..i] + v.asks[i + 1..], sequence := v.sequence + 1)
                  && found == Some(v.asks[i].(status := Cancelled)))
            && ((forall k :: 0 <= k < |v.asks| ==> v.asks[k].id != id) ==> v' == v && found == None))
  {
    hide IndexOf;
    var a, b := IndexOf(v.bids, id), IndexOf(v.asks, id);
    assert forall i: nat :: FirstWith(v.bids, i, id) ==> i == a;
    assert forall i: nat :: FirstWith(v.asks, i, id) ==> i == b;
  }

  // ---- Snapshots ----

  function QuantityAt(orders: seq<Order>, price: int): int {
    if orders == [] then 0 else (if orders[0].price == price then orders[0].remaining else 0) + QuantityAt(orders[1..], price)
  }

  function CountAt(orders: seq<Order>, price: int): int {
    if orders == [] then 0 else (if orders[0].price == price then 1 else 0) + CountAt(orders[1..], price)
  }

  predicate InLevels(levels: seq<Level>, price: int) {
    exists i :: 0 <= i < |levels| && levels[i].price == price
  }

  predicate Priced(orders: seq<Order>, price: int) {
    exists k :: 0 <= k < |orders| && orders[k].price == price
  }

  /** The level adds up all that rests at its price. */
  predicate AddsUp(level: Level, orders: seq<Order>) {
    level.quantity == QuantityAt(orders, level.price) && level.orderCount == CountAt(orders, level.price)
  }

  /** Levels show each price of a list once, best first, with all that rests there. */
  ghost predicate ShowsAll(levels: seq<Level>, orders: seq<Order>, side: Side) {
    && (forall i, j :: 0 <= i < j < |levels| ==> Rank(side, levels[i].price) < Rank(side, levels[j].price))
    && (forall i :: 0 <= i < |levels| ==> AddsUp(levels[i], orders))
    && (forall p :: Priced(orders, p) <==> InLevels(levels, p))
  }

  lemma {:induction false} NothingAt(orders: seq<Order>, price: int)
    requires !Priced(orders, price)
    ensures QuantityAt(orders, price) == 0 && CountAt(orders, price) == 0
  {
    if orders != [] {
      assert forall k :: 0 <= k < |orders[1..]| ==> orders[1..][k] == orders[k + 1];
      assert orders[0].price != price;
      NothingAt(orders[1..], price);
    }
  }

  lemma OneMorePriced(o: Order, tail: seq<Order>, p: int)
    ensures Priced([o] + tail, p) <==> p == o.price || Priced(tail, p)
    ensures QuantityAt([o] + tail, p) == (if o.price == p then o.remaining else 0) + QuantityAt(tail, p)
    ensures CountAt([o] + tail, p) == (if o.price == p then 1 else 0) + CountAt(tail, p)
  {
    assert ([o] + tail)[1..] == tail && ([o] + tail)[0] == o;
    if k :| 0 <= k < |tail| && tail[k].price == p { assert ([o] + tail)[k + 1].price == p; }
  }

  lemma OneMoreLevel(l: Level, rest: seq<Level>, p: int)
    ensures InLevels([l] + rest, p) <==> p == l.price || InLevels(rest, p)
  {
    assert ([l] + rest)[0] == l;
    if i :| 0 <= i < |rest| && rest[i].price == p { assert ([l] + rest)[i + 1].price == p; }
  }

  /** One more order at the best price shown. */
  lemma FirstJoins(o: Order, tail: seq<Order>, head: Level, rest: seq<Level>, side: Side)
    requires ShowsAll([head] + rest, tail, side) && head.price == o.price
    ensures ShowsAll([Level(head.price, o.remaining + head.quantity, 1 + head.orderCount)] + rest, [o] + tail, side)
  {
    var before, l := [head] + rest, Level(head.price, o.remaining + head.quantity, 1 + head.orderCount);
    var after, all := [l] + rest, [o] + tail;
    hide QuantityAt, CountAt, Priced, InLevels;
    assert forall i :: 1 <= i < |after| ==> after[i] == before[i];
    assert AddsUp(before[0], tail);
    forall i | 0 <= i < |after| ensures AddsUp(after[i], all) {
      OneMorePriced(o, tail, after[i].price);
      if i > 0 { assert AddsUp(before[i], tail) && Rank(side, before[0].price) < Rank(side, before[i].price); }
    }
    forall p ensures Priced(all, p) <==> InLevels(after, p) {
      OneMorePriced(o, tail, p);
      OneMoreLevel(l, rest, p);
      OneMoreLevel(head, rest, p);
    }
    hide AddsUp;
    forall i, j | 0 <= i < j < |after| ensures Rank(side, after[i].price) < Rank(side, after[j].price) {
      assert after[i].price == before[i].price && after[j] == before[j];
    }
  }

  /** The first order at a price better than all shown. */
  lemma FirstOpens(o: Order, tail: seq<Order>, rest: seq<Level>, side: Side)
    requires ShowsAll(rest, tail, side)
    requires forall i :: 0 <= i < |rest| ==> Rank(side, o.price) < Rank(side, rest[i].price)
    ensures ShowsAll([Level(o.price, o.remaining, 1)] + rest, [o] + tail, side)
  {
    var l := Level(o.price, o.remaining, 1);
    var after, all := [l] + rest, [o] + tail;
    assert !InLevels(rest, o.price);
    NothingAt(tail, o.price);
    hide QuantityAt, CountAt, Priced, InLevels;
    OneMorePriced(o, tail, o.price);
    forall i | 0 <= i < |after| ensures AddsUp(after[i], all) {
      OneMorePriced(o, tail, after[i].price);
      if i > 0 { assert after[i] == rest[i - 1] && AddsUp(rest[i - 1], tail); }
    }
    forall p ensures Priced(all, p) <==> InLevels(after, p) {
      OneMorePriced(o, tail, p);
      OneMoreLevel(l, rest, p);
    }
    hide AddsUp;
  }

  /** The levels with one more order in front. */
  function WithFirst(o: Order, rest: seq<Level>): seq<Level> {
    if rest != [] && rest[0].price == o.price then
      [Level(rest[0].price, o.remaining + rest[0].quantity, 1 + rest[0].orderCount)] + rest[1..]
    else [Level(o.price, o.remaining, 1)] + rest
  }

  lemma {:induction false} LevelsUnfold(orders: seq<Order>)
    requires orders != []
    ensures LevelsOf(orders) == WithFirst(orders[0], LevelsOf(orders[1..]))
  {
  }

  lemma FirstShown(o: Order, tail: seq<Order>, rest: seq<Level>, side: Side)
    requires ShowsAll(rest, tail, side) && (side == Buy || side == Sell)
    requires forall j :: 0 <= j < |tail| ==> Rank(side, o.price) <= Rank(side, tail[j].price)
    ensures ShowsAll(WithFirst(o, rest), [o] + tail, side)
  {
    hide ShowsAll;
    if rest != [] && rest[0].price == o.price {
      assert rest == [rest[0]] + rest[1..];
      FirstJoins(o, tail, rest[0], rest[1..], side);
    } else {
      AheadOfAll(o, tail, rest, side);
      FirstOpens(o, tail, rest, side);
    }
  }

  lemma {:induction false} LevelsShowAll(orders: seq<Order>, side: Side)
    requires forall i, j :: 0 <= i < j < |orders| ==> Rank(side, orders[i].price) <= Rank(side, orders[j].price)
    requires side == Buy || side == Sell
    ensures ShowsAll(LevelsOf(orders), orders, side)
  {
    if orders != [] {
      var o, tail := orders[0], orders[1..];
      LevelsUnfold(orders);
      hide LevelsOf, ShowsAll, WithFirst;
      LevelsShowAll(tail, side);
      FirstShown(o, tail, LevelsOf(tail), side);
      hide Rank;
      assert orders == [o] + tail;
    }
  }

  lemma AheadOfAll(o: Order, tail: seq<Order>, rest: seq<Level>, side: Side)
    requires ShowsAll(rest, tail, side) && (side == Buy || side == Sell)
    requires forall j :: 0 <= j < |tail| ==> Rank(side, o.price) <= Rank(side, tail[j].price)
    requires rest != [] ==> rest[0].price != o.price
    ensures forall i :: 0 <= i < |rest| ==> Rank(side, o.price) < Rank(side, rest[i].price)
  {
    if rest != [] {
      assert InLevels(rest, rest[0].price);
      assert Priced(tail, rest[0].price);
    }
  }

  /** A snapshot shows of each side the best prices, as many as asked for, ten when that is not positive, or all when there
      are fewer; each with the total quantity and the number of orders resting there. */
  lemma SnapshotShows(v: BookView, depth: int) returns (bids: seq<Level>, asks: seq<Level>)
    requires Valid(v)
    ensures ShowsAll(bids, v.bids, Buy) && ShowsAll(asks, v.asks, Sell)
    ensures var s := SnapshotOf(v, depth); var d := if depth <= 0 then 10 else depth;
      && s.bids == bids[..Min(d, |bids|)] && s.asks == asks[..Min(d, |asks|)]
      && s.lastTradePrice == v.lastTradePrice && s.sequence == v.sequence
  {
    bids, asks := LevelsOf(v.bids), LevelsOf(v.asks);
    LevelsShowAll(v.bids, Buy);
    LevelsShowAll(v.asks, Sell);
    hide LevelsOf, ShowsAll, Valid, SideValid;
    TopIsPrefix(bids, if depth <= 0 then 10 else depth);
    TopIsPrefix(asks, if depth <= 0 then 10 else depth);
    hide Top;
  }

  lemma TopIsPrefix(levels: seq<Level>, depth: nat)
    ensures Top(levels, depth) == levels[..Min(depth, |levels|)]
  {
  }
}
