/** Players, open orders and the settlement of one trade, clamps and all. */
module Ledger {
  import opened Orders
  import opened Lots
  import opened Charges

  datatype Player = Player(
    playerId: string, username: string, cash: int, reservedCash: int,
    portfolio: map<string, int>, reservedStocks: map<string, int>, lots: Holdings)

  datatype OpenOrder = OpenOrder(order: Order, reservedCash: int, reservedQuantity: int)

  /** Players by id, open orders by id, and the charges each player has paid so far. */
  datatype State = State(players: map<string, Player>, open: map<string, OpenOrder>, paid: map<string, int>)

  function Get(m: map<string, int>, key: string): int {
    if key in m then m[key] else 0
  }

  function Floor0(x: int): int { if x < 0 then 0 else x }

  /** Subtracts from one entry, not below zero. */
  function Lowered(m: map<string, int>, key: string, amount: int): map<string, int> {
    m[key := Floor0(Get(m, key) - amount)]
  }

  function Owner(st: State, o: OpenOrder): Player
    requires o.order.playerId in st.players
  {
    st.players[o.order.playerId]
  }

  // ---- Reservations ----

  /** The cash a buy must have free: its notional and fee, and for a market order a quarter more and the surcharge. */
  function ReserveNeed(kind: OrderType, price: int, qty: int, reference: int): int {
    var reservePrice := if price > 0 then price else if reference > 0 then reference else 100;
    var notional := (if kind.Market? then reservePrice * 5 / 4 else reservePrice) * qty;
    notional + ExchangeFee(notional) + if kind.Market? then MarketSurcharge(notional) else 0
  }

  datatype ReserveResult =
    | NoFunds(need: int, available: int)
    | NoStock(need: int, available: int)
    | NoSide
    | Reserved(player: Player, cash: int, quantity: int)

  function Reserve(player: Player, symbol: string, side: Side, kind: OrderType, price: int, qty: int, reference: int)
    : ReserveResult
  {
    match side
    case Buy =>
      var need := ReserveNeed(kind, price, qty, reference);
      var available := player.cash - player.reservedCash;
      if available < need then NoFunds(need, available)
      else Reserved(player.(reservedCash := player.reservedCash + need), need, 0)
    case Sell =>
      var available := Get(player.portfolio, symbol) - Get(player.reservedStocks, symbol);
      if available < qty then NoStock(qty, available)
      else Reserved(player.(reservedStocks := player.reservedStocks[symbol := Get(player.reservedStocks, symbol) + qty]),
                    0, qty)
    case OtherSide(_) => NoSide
  }

  /** Gives back what is left of an incoming order's reservation. */
  function Release(player: Player, symbol: string, side: Side, cash: int, qty: int): Player {
    match side
    case Buy => player.(reservedCash := Floor0(player.reservedCash - cash))
    case Sell => player.(reservedStocks := Lowered(player.reservedStocks, symbol, qty))
    case OtherSide(_) => player
  }

  /** What an open order should hold: cash for the rest of a buy, shares for the rest of a sell. */
  function Target(o: OpenOrder): int {
    if o.order.side.Buy? then o.order.price * o.order.remaining else o.order.remaining
  }

  /** Gives back what an open order holds beyond its target. */
  function Trim(player: Player, o: OpenOrder): (Player, OpenOrder) {
    if o.order.side.Buy? then
      if o.reservedCash > Target(o) then
        (player.(reservedCash := Floor0(player.reservedCash - (o.reservedCash - Target(o)))),
         o.(reservedCash := Target(o)))
      else (player, o)
    else if o.reservedQuantity > Target(o) then
      (player.(reservedStocks := Lowered(player.reservedStocks, o.order.symbol, o.reservedQuantity - Target(o))),
       o.(reservedQuantity := Target(o)))
    else (player, o)
  }

  function TrimOpen(st: State, id: string): State {
    if id in st.open && st.open[id].order.playerId in st.players then
      var (player, o) := Trim(Owner(st, st.open[id]), st.open[id]);
      st.(players := st.players[o.order.playerId := player], open := st.open[id := o])
    else st
  }

  /** What a removed or cancelled order held goes back to its owner. */
  function Refund(player: Player, o: OpenOrder): Player {
    var p1 := if o.reservedCash > 0 then player.(reservedCash := Floor0(player.reservedCash - o.reservedCash)) else player;
    if o.reservedQuantity > 0 then
      p1.(reservedStocks := Lowered(p1.reservedStocks, o.order.symbol, o.reservedQuantity))
    else p1
  }

  function Cleanup(st: State, id: string): State {
    if id !in st.open then st
    else
      var o := st.open[id];
      var players := if o.order.playerId in st.players
        then st.players[o.order.playerId := Refund(Owner(st, o), o)] else st.players;
      st.(players := players, open := st.open - {id})
  }

  function CleanupAll(st: State, ids: seq<string>): State
    decreases |ids|
  {
    if ids == [] then st else CleanupAll(Cleanup(st, ids[0]), ids[1..])
  }

  function Normalize(st: State, id: string): State {
    if id !in st.open || st.open[id].order.playerId !in st.players then st
    else if st.open[id].order.remaining <= 0 then Cleanup(st, id)
    else TrimOpen(st, id)
  }

  // ---- One trade ----

  function BuyerCharges(t: Trade, incoming: string, market: bool): int {
    ExchangeFee(t.price * t.quantity)
    + if t.buyOrderId == incoming && market then MarketSurcharge(t.price * t.quantity) else 0
  }

  /** The part of the sale still inside the rapid-flip window, valued at the trade price. */
  function FlipNotional(st: State, t: Trade): int {
    if t.sellerId in st.players then
      t.price * Taxable(LotsOf(st.players[t.sellerId].lots, t.symbol), t.quantity, t.executedAt)
    else 0
  }

  function TradeSellerCharges(st: State, t: Trade, incoming: string, market: bool): int {
    SellerCharges(t.price * t.quantity, t.sellOrderId == incoming && market, FlipNotional(st, t))
  }

  function TakeLots(st: State, t: Trade): State
    requires t.sellerId in st.players
  {
    var seller := st.players[t.sellerId];
    st.(players := st.players[t.sellerId := seller.(lots := AfterSale(seller.lots, t.symbol, t.quantity))])
  }

  /** The buyer after paying what is due; an order that is open gives up that much of its reservation. */
  function PaidBuyer(buyer: Player, t: Trade, due: int, held: bool): Player {
    buyer.(
      cash := buyer.cash - due,
      portfolio := buyer.portfolio[t.symbol := Get(buyer.portfolio, t.symbol) + t.quantity],
      lots := AfterPurchase(buyer.lots, t.symbol, t.quantity, t.price, t.executedAt),
      reservedCash := if held then Floor0(buyer.reservedCash - due) else buyer.reservedCash)
  }

  function FilledBuy(o: OpenOrder, t: Trade, due: int): OpenOrder {
    OpenOrder(o.order.(remaining := o.order.remaining - t.quantity), Floor0(o.reservedCash - due), o.reservedQuantity)
  }

  /** The buyer pays, receives the shares, and the order gives up what it spent of its reservation. */
  function BuyLeg(st: State, t: Trade, charges: int): State
    requires t.buyerId in st.players
  {
    var due := t.price * t.quantity + charges;
    var held := t.buyOrderId in st.open;
    State(
      st.players[t.buyerId := PaidBuyer(st.players[t.buyerId], t, due, held)],
      if held then st.open[t.buyOrderId := FilledBuy(st.open[t.buyOrderId], t, due)] else st.open,
      st.paid[t.buyerId := Get(st.paid, t.buyerId) + charges])
  }

  /** The seller after receiving the proceeds and handing over the shares. */
  function PaidSeller(seller: Player, t: Trade, charges: int, held: bool): Player {
    seller.(
      cash := seller.cash + t.price * t.quantity - charges,
      portfolio := Lowered(seller.portfolio, t.symbol, t.quantity),
      reservedStocks := if held then Lowered(seller.reservedStocks, t.symbol, t.quantity) else seller.reservedStocks)
  }

  function FilledSell(o: OpenOrder, t: Trade): OpenOrder {
    OpenOrder(o.order.(remaining := o.order.remaining - t.quantity), o.reservedCash, Floor0(o.reservedQuantity - t.quantity))
  }

  /** The seller receives the price less charges and hands over reserved shares. */
  function SellLeg(st: State, t: Trade, charges: int): State
    requires t.sellerId in st.players
  {
    var held := t.sellOrderId in st.open;
    State(
      st.players[t.sellerId := PaidSeller(st.players[t.sellerId], t, charges, held)],
      if held then st.open[t.sellOrderId := FilledSell(st.open[t.sellOrderId], t)] else st.open,
      st.paid[t.sellerId := Get(st.paid, t.sellerId) + charges])
  }

  predicate PlayersKnown(st: State, t: Trade) {
    t.buyerId in st.players && t.sellerId in st.players
  }

  function ApplyTrade(st: State, t: Trade, incoming: string, market: bool): (st': State)
    requires PlayersKnown(st, t)
    ensures st'.players.Keys == st.players.Keys
  {
    SellLeg(BuyLeg(TakeLots(st, t), t, BuyerCharges(t, incoming, market)), t, TradeSellerCharges(st, t, incoming, market))
  }

  function ApplyTrades(st: State, trades: seq<Trade>, incoming: string, market: bool): State
    requires AllKnown(st, trades)
    decreases |trades|
  {
    if trades == [] then st
    else
      var st1 := ApplyTrade(st, trades[0], incoming, market);
      StillKnown(st, st1, trades);
      ApplyTrades(st1, trades[1..], incoming, market)
  }

  predicate AllKnown(st: State, trades: seq<Trade>) {
    forall t :: t in trades ==> PlayersKnown(st, t)
  }

  lemma StillKnown(st: State, st1: State, trades: seq<Trade>)
    requires AllKnown(st, trades) && trades != [] && st1.players.Keys == st.players.Keys
    ensures AllKnown(st1, trades[1..])
  {
    forall t | t in trades[1..] ensures PlayersKnown(st1, t) {
      assert t in trades && PlayersKnown(st, t);
    }
  }

  /** Everything a run of trades takes in fees, surcharges and taxes. */
  function ChargesOf(st: State, trades: seq<Trade>, incoming: string, market: bool): int
    requires AllKnown(st, trades)
    decreases |trades|
  {
    if trades == [] then 0
    else
      var st1 := ApplyTrade(st, trades[0], incoming, market);
      StillKnown(st, st1, trades);
      BuyerCharges(trades[0], incoming, market) + TradeSellerCharges(st, trades[0], incoming, market)
      + ChargesOf(st1, trades[1..], incoming, market)
  }
}
