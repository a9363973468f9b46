/** What the immediate fills of an order cost its owner, against what was reserved for it. */
module Fills {
  import opened Orders
  import opened Lots
  import opened Charges
  import opened Matching
  import opened Ledger

  /** What trade t takes out of the buyer's cash. */
  function Debit(t: Trade, incoming: string, market: bool): int {
    t.price * t.quantity + BuyerCharges(t, incoming, market)
  }

  function Debits(trades: seq<Trade>, incoming: string, market: bool): int {
    if trades == [] then 0 else Debit(trades[0], incoming, market) + Debits(trades[1..], incoming, market)
  }

  /** The debit is what settlement really takes. */
  lemma DebitIsWhatBuyerPays(st: State, t: Trade, incoming: string, market: bool)
    requires PlayersKnown(st, t) && t.buyerId != t.sellerId
    ensures ApplyTrade(st, t, incoming, market).players[t.buyerId].cash
         == st.players[t.buyerId].cash - Debit(t, incoming, market)
  {
    hide AfterSale, AfterPurchase, BuyerCharges, TradeSellerCharges;
  }

  function Costs(trades: seq<Trade>): seq<int> {
    if trades == [] then [] else [trades[0].price * trades[0].quantity] + Costs(trades[1..])
  }

  lemma {:induction false} DebitsAreCostsAndFees(trades: seq<Trade>, incoming: string)
    ensures |Costs(trades)| == |trades|
    ensures Debits(trades, incoming, false)
         == TotalAmount(Costs(trades)) + TotalCharge(Costs(trades), EXCHANGE_FEE_BPS)
  {
    if trades != [] {
      DebitsAreCostsAndFees(trades[1..], incoming);
      assert Costs(trades)[1..] == Costs(trades[1..]);
    }
  }

  lemma CostOfOne(price: int, limit: int, quantity: int, rest: int)
    requires 0 < price <= limit && quantity > 0
    ensures 0 < price * quantity
    ensures price * quantity + limit * rest <= limit * (quantity + rest)
  {
    assert price * quantity <= limit * quantity;
    assert limit * (quantity + rest) == limit * quantity + limit * rest;
  }

  /** Trades at accepted prices cost at most the limit times the quantity filled. */
  lemma {:induction false} CostsWithinLimit(trades: seq<Trade>, limit: int)
    requires forall i :: 0 <= i < |trades| ==> 0 < trades[i].price <= limit && trades[i].quantity > 0
    ensures 0 <= TotalAmount(Costs(trades)) <= limit * FilledQuantity(trades)
    ensures forall i :: 0 <= i < |Costs(trades)| ==> Costs(trades)[i] > 0
  {
    if trades != [] {
      CostsWithinLimit(trades[1..], limit);
      assert Costs(trades)[1..] == Costs(trades[1..]);
      CostOfOne(trades[0].price, limit, trades[0].quantity, FilledQuantity(trades[1..]));
    }
  }

  lemma FillsOfBuy(order: Order, asks: seq<Order>, last: int, now: int)
    requires order.side.Buy? && order.kind.Limit? && order.remaining >= 0
    requires SideValid(asks, Sell)
    ensures var trades := Match(order, asks, last, now).trades;
      && (forall i :: 0 <= i < |trades| ==> 0 < trades[i].price <= order.price && trades[i].quantity > 0)
      && FilledQuantity(trades) <= order.remaining
  {
    TradesFollowPriority(order, asks, last, now);
    FillsAllThatCrosses(order, asks, last, now);
    var trades := Match(order, asks, last, now).trades;
    hide Match, Crossable;
    forall i | 0 <= i < |trades| ensures 0 < trades[i].price <= order.price && trades[i].quantity > 0 {
      assert RestingOk(asks[i], Sell) && Takes(order, asks[i].price);
    }
  }

  lemma DebitsBound(trades: seq<Trade>, incoming: string, limit: int, quantity: int)
    requires trades != [] && limit > 0
    requires forall i :: 0 <= i < |trades| ==> 0 < trades[i].price <= limit && trades[i].quantity > 0
    requires FilledQuantity(trades) <= quantity
    ensures Debits(trades, incoming, false)
         <= limit * quantity + ExchangeFee(limit * quantity) + |trades| - (|trades| + 999) / 1000
  {
    CostsWithinLimit(trades, limit);
    DebitsAreCostsAndFees(trades, incoming);
    FeeRoundingBound(Costs(trades));
    hide Costs, Debits, FilledQuantity, TotalAmount, TotalCharge, BpsCharge, ExchangeFee;
    var cost := TotalAmount(Costs(trades));
    LimitScales(limit, FilledQuantity(trades), quantity);
    FeeMonotone(cost, limit * quantity);
  }

  lemma LimitScales(limit: int, a: int, b: int)
    requires limit > 0 && a <= b
    ensures limit * a <= limit * b
  {
  }

  lemma FeeMonotone(a: int, b: int)
    requires 0 <= a <= b
    ensures ExchangeFee(a) <= ExchangeFee(b)
  {
    ChargeMonotone(a, b, EXCHANGE_FEE_BPS);
  }

  /** The n fills of a limit buy debit in total at most its reservation and n, less one for every thousand fills begun;
      so at most n - 1 more than was reserved, and a single fill is always covered. */
  lemma FillsStayWithinReservation(order: Order, asks: seq<Order>, last: int, now: int, reference: int)
    requires order.side.Buy? && order.kind.Limit? && order.price > 0 && order.quantity > 0
    requires SideValid(asks, Sell)
    ensures var trades := Match(Submitted(order), asks, last, now).trades;
      trades != [] ==>
        Debits(trades, order.id, false)
        <= ReserveNeed(order.kind, order.price, order.quantity, reference) + |trades| - (|trades| + 999) / 1000
  {
    FillsOfBuy(Submitted(order), asks, last, now);
    var trades := Match(Submitted(order), asks, last, now).trades;
    hide Match, Debits, ExchangeFee, SideValid;
    if trades != [] {
      DebitsBound(trades, order.id, order.price, order.quantity);
    }
  }

  /** Offers of one share at price one, each order with an id of its own. */
  function UnitAsks(n: nat): seq<Order> {
    seq(n, i requires 0 <= i =>
      Order(seq(i + 1, _ => 's'), "seller", "X", Sell, OrderType.Limit, 1, 1, 1, Open))
  }

  function UnitBuy(n: nat): Order {
    Order("b", "buyer", "X", Buy, OrderType.Limit, 1, n, 0, NoStatus)
  }

  lemma {:induction false} UnitFills(order: Order, asks: seq<Order>, last: int, now: int)
    requires order.side.Buy? && order.kind.Limit? && order.price == 1 && order.remaining == |asks|
    requires forall i :: 0 <= i < |asks| ==> asks[i].price == 1 && asks[i].remaining == 1
    ensures var trades := Match(order, asks, last, now).trades;
      |trades| == |asks| && Debits(trades, order.id, false) == 2 * |asks|
    decreases |asks|
  {
    if asks != [] {
      var rest := order.(remaining := order.remaining - 1);
      UnitFills(rest, asks[1..], 1, now);
      var t := TradeOf(order, asks[0], 1, now);
      var later := Match(rest, asks[1..], 1, now).trades;
      assert Match(order, asks, last, now).trades == [t] + later;
      assert ([t] + later)[1..] == later;
      assert Debit(t, order.id, false) == 2;
    }
  }

  /** The allowance is used up: a limit buy at price one that meets n single shares debits exactly that much more than
      was reserved for it, for every n. */
  lemma RoundingBoundIsTight(n: nat, last: int, now: int, reference: int)
    requires n >= 1
    ensures var order, asks := UnitBuy(n), UnitAsks(n); var trades := Match(Submitted(order), asks, last, now).trades;
      && SideValid(asks, Sell) && Accepted(order) && |trades| == n
      && Debits(trades, order.id, false)
         == ReserveNeed(order.kind, order.price, order.quantity, reference) + n - (n + 999) / 1000
  {
    UnitAsksAreValid(n);
    UnitFills(Submitted(UnitBuy(n)), UnitAsks(n), last, now);
    FeePerThousand(n);
    UnitNeed(n, reference);
    hide Match, Debits, UnitAsks, UnitBuy, SideValid, ExchangeFee, ReserveNeed, Accepted;
  }

  lemma UnitNeed(n: nat, reference: int)
    requires n >= 1
    ensures var order := UnitBuy(n);
      && Accepted(order) && order.quantity == n && order.id == Submitted(order).id
      && ReserveNeed(order.kind, order.price, order.quantity, reference) == n + ExchangeFee(n)
  {
    hide ExchangeFee;
  }

  lemma UnitAsksAreValid(n: nat)
    ensures var asks := UnitAsks(n);
      && |asks| == n && SideValid(asks, Sell)
      && forall i :: 0 <= i < n ==> asks[i].price == 1 && asks[i].remaining == 1
  {
  }

  /** A trade takes cash from its seller only when its cost is below one unit per charge that applies. */
  lemma SellerIsNotCharged(st: State, t: Trade, incoming: string, market: bool)
    requires t.sellerId in st.players && t.price > 0 && t.quantity > 0
    requires Positive(LotsOf(st.players[t.sellerId].lots, t.symbol))
    ensures var charges := TradeSellerCharges(st, t, incoming, market); var cost := t.price * t.quantity;
      var seller := st.players[t.sellerId];
      SellLeg(st, t, charges).players[t.sellerId].cash >= seller.cash
      <==> cost >= 1 + (if t.sellOrderId == incoming && market then 1 else 0)
                     + (if Taxable(LotsOf(seller.lots, t.symbol), t.quantity, t.executedAt) > 0 then 1 else 0)
  {
    var lots := LotsOf(st.players[t.sellerId].lots, t.symbol);
    var taxable := Taxable(lots, t.quantity, t.executedAt);
    TaxableCountsOldestShares(lots, t.quantity, t.executedAt);
    TaxableNotional(t.price, taxable, t.quantity);
    SellerProceedsNonNegative(t.price * t.quantity, t.sellOrderId == incoming && market, t.price * taxable);
    SellerReceives(st, t, TradeSellerCharges(st, t, incoming, market));
    hide SellerCharges, Taxable, SellLeg;
  }

  lemma TaxableNotional(price: int, taxable: int, quantity: int)
    requires price > 0 && 0 <= taxable <= quantity && quantity > 0
    ensures 0 <= price * taxable <= price * quantity && price * quantity >= 1
    ensures price * taxable > 0 <==> taxable > 0
  {
  }

  lemma SellerReceives(st: State, t: Trade, charges: int)
    requires t.sellerId in st.players
    ensures SellLeg(st, t, charges).players[t.sellerId].cash
         == st.players[t.sellerId].cash + t.price * t.quantity - charges
  {
  }
}
