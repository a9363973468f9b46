/** The exchange service: one book per symbol, and the latest trades of each. */
module Exchange {
  import opened Orders
  import opened Matching
  import opened OrderBook

  const RECENT_LIMIT := 500

  datatype ExchangeError = NoSuchSymbol | Invalid(error: OrderError) | NotFound

  datatype PlaceReply = PlaceFailed(error: ExchangeError) | PlaceDone(placement: Placement)

  datatype CancelReply = CancelFailed(error: ExchangeError) | CancelDone(order: Order)

  /** The new trades in front of the old ones, cut at the limit. */
  function Recent(trades: seq<Trade>, before: seq<Trade>): (after: seq<Trade>)
    ensures |after| <= 500 && after <= trades + before
    ensures |after| == |trades| + |before| || |after| == 500
  {
    if |trades + before| > RECENT_LIMIT then (trades + before)[..RECENT_LIMIT] else trades + before
  }

  class Service {
    const books: map<string, Book>
    var recentTrades: map<string, seq<Trade>>

    ghost predicate Valid()
      reads this, books.Values
    {
      && (forall s :: s in books ==> books[s].Valid())
      && (forall s, z :: s in books && z in books && s != z ==> books[s] != books[z])
    }

    /** Every book as the lists it stands for. */
    ghost function Views(): (views: map<string, BookView>)
      reads this, books.Values
      ensures views.Keys == books.Keys
    {
      map s | s in books :: books[s].View()
    }

    constructor (books: map<string, Book>)
      requires forall s :: s in books ==> books[s].Valid()
      requires forall s, z :: s in books && z in books && s != z ==> books[s] != books[z]
      ensures Valid() && this.books == books && recentTrades == map[]
    {
      this.books := books;
      recentTrades := map[];
    }

    method PlaceOrder(order: Order, now: int) returns (r: PlaceReply)
      requires Valid() && order.remaining == 0
      modifies this, books.Values
      ensures Valid()
      ensures if order.symbol in books && Accepted(order) then
                var (book, placement) := Matching.Place(old(Views())[order.symbol], order, now);
                && r == PlaceDone(placement)
                && Views() == old(Views())[order.symbol := book]
                && recentTrades == old(recentTrades)[order.symbol := Recent(placement.trades,
                     if order.symbol in old(recentTrades) then old(recentTrades)[order.symbol] else [])]
              else
                && r == PlaceFailed(if order.symbol !in books then NoSuchSymbol else Invalid(Validate(order).value))
                && Views() == old(Views()) && recentTrades == old(recentTrades)
    {
      hide Matching.Place, Validate, Accepted, Book.View, Book.Valid;
      if order.symbol !in books {
        return PlaceFailed(NoSuchSymbol);
      }
      var book := books[order.symbol];
      var result := book.Place(order, now);
      if result.Rejected? {
        return PlaceFailed(Invalid(result.error));
      }
      var placement := result.placement;
      var before := if order.symbol in recentTrades then recentTrades[order.symbol] else [];
      var latest := placement.trades + before;
      if |latest| > RECENT_LIMIT {
        latest := latest[..RECENT_LIMIT];
      }
      recentTrades := recentTrades[order.symbol := latest];
      r := PlaceDone(placement);
    }

    method CancelOrder(symbol: string, orderId: string) returns (r: CancelReply)
      requires Valid()
      modifies books.Values
      ensures Valid()
      ensures if symbol in books then
                var (book, found) := Matching.Cancel(old(Views())[symbol], orderId);
                && Views() == old(Views())[symbol := book]
                && r == if found.Some? then CancelDone(found.value) else CancelFailed(NotFound)
              else Views() == old(Views()) && r == CancelFailed(NoSuchSymbol)
    {
      hide Matching.Cancel, Book.View, Book.Valid;
      if symbol !in books {
        return CancelFailed(NoSuchSymbol);
      }
      var found := books[symbol].Cancel(orderId);
      if found.None? {
        return CancelFailed(NotFound);
      }
      r := CancelDone(found.value);
    }
  }
}
