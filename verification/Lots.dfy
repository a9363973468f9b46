/** Position lots: first-in first-out consumption on a sale, and the rapid-flip quantity it yields. */
module Lots {

  const RAPID_FLIP_WINDOW := 300_000_000_000  // five minutes in nanoseconds

  datatype Lot = Lot(quantity: int, price: int, acquiredAt: int)

  type Holdings = map<string, seq<Lot>>

  function Min(a: int, b: int): int { if a < b then a else b }

  function Max(a: int, b: int): int { if a > b then a else b }

  predicate Fresh(acquiredAt: int, now: int) {
    now - acquiredAt <= RAPID_FLIP_WINDOW
  }

  predicate Positive(lots: seq<Lot>) {
    forall i :: 0 <= i < |lots| ==> lots[i].quantity > 0
  }

  predicate Chronological(lots: seq<Lot>) {
    forall i, j :: 0 <= i < j < |lots| ==> lots[i].acquiredAt <= lots[j].acquiredAt
  }

  function Total(lots: seq<Lot>): int {
    if lots == [] then 0 else lots[0].quantity + Total(lots[1..])
  }

  /** The quantity still inside the rapid-flip window. */
  function Exposure(lots: seq<Lot>, now: int): int {
    if lots == [] then 0
    else (if Fresh(lots[0].acquiredAt, now) then lots[0].quantity else 0) + Exposure(lots[1..], now)
  }

  /** The lots left after selling qty shares, oldest first. */
  function Consume(lots: seq<Lot>, qty: int): seq<Lot> {
    if lots == [] || qty <= 0 then lots
    else
      var c := Min(qty, lots[0].quantity);
      var left := lots[0].quantity - c;
      (if left > 0 then [lots[0].(quantity := left)] else []) + Consume(lots[1..], qty - c)
  }

  /** How many of the qty shares sold at time now were still fresh. */
  function Taxable(lots: seq<Lot>, qty: int, now: int): int {
    if lots == [] || qty <= 0 then 0
    else
      var c := Min(qty, lots[0].quantity);
      (if Fresh(lots[0].acquiredAt, now) then c else 0) + Taxable(lots[1..], qty - c, now)
  }

  function LotsOf(holdings: Holdings, symbol: string): seq<Lot> {
    if symbol in holdings then holdings[symbol] else []
  }

  function AfterSale(holdings: Holdings, symbol: string, qty: int): Holdings {
    if qty <= 0 || LotsOf(holdings, symbol) == [] then holdings
    else
      var left := Consume(LotsOf(holdings, symbol), qty);
      if left == [] then holdings - {symbol} else holdings[symbol := left]
  }

  function AfterPurchase(holdings: Holdings, symbol: string, qty: int, price: int, at: int): Holdings {
    if qty <= 0 then holdings
    else holdings[symbol := LotsOf(holdings, symbol) + [Lot(qty, price, at)]]
  }

  /** What consuming qty shares leaves of the first lot. */
  function KeptOf(lot: Lot, qty: int): seq<Lot> {
    if qty <= 0 then [lot]
    else if lot.quantity > Min(qty, lot.quantity) then [lot.(quantity := lot.quantity - Min(qty, lot.quantity))]
    else []
  }

  function TakenOf(lot: Lot, qty: int): int {
    if qty <= 0 then 0 else Min(qty, lot.quantity)
  }

  /** The loop state of the compaction: kept is final, the lots from i on are still to be read. */
  ghost predicate Compacting(was: seq<Lot>, qty: int, now: int, i: nat, kept: seq<Lot>, remaining: int, taxable: int) {
    && i <= |was|
    && Consume(was, qty) == kept + Consume(was[i..], remaining)
    && Taxable(was, qty, now) == taxable + Taxable(was[i..], remaining, now)
  }

  lemma CompactStart(was: seq<Lot>, qty: int, now: int)
    ensures Compacting(was, qty, now, 0, [], qty, 0)
  {
    assert was[0..] == was;
  }

  lemma CompactStep(was: seq<Lot>, qty: int, now: int, i: nat, kept: seq<Lot>, remaining: int, taxable: int)
    requires i < |was| && Compacting(was, qty, now, i, kept, remaining, taxable)
    ensures Compacting(was, qty, now, i + 1, kept + KeptOf(was[i], remaining), remaining - TakenOf(was[i], remaining),
                       taxable + if Fresh(was[i].acquiredAt, now) then TakenOf(was[i], remaining) else 0)
  {
    assert was[i..][1..] == was[i + 1..];
    var rest := Consume(was[i + 1..], remaining - TakenOf(was[i], remaining));
    assert Consume(was[i..], remaining) == KeptOf(was[i], remaining) + rest by {
      if remaining <= 0 { assert was[i..] == [was[i]] + was[i + 1..]; }
    }
    assert kept + (KeptOf(was[i], remaining) + rest) == kept + KeptOf(was[i], remaining) + rest;
  }

  lemma CompactDone(was: seq<Lot>, qty: int, now: int, kept: seq<Lot>, remaining: int, taxable: int)
    requires Compacting(was, qty, now, |was|, kept, remaining, taxable)
    ensures kept == Consume(was, qty) && taxable == Taxable(was, qty, now)
  {
    assert was[|was|..] == [];
  }

  /** Compacts the slice in place with a read and a write index; the first writeIdx elements remain. */
  method CompactInPlace(lots: array<Lot>, qty: int, now: int) returns (writeIdx: nat, taxable: int)
    modifies lots
    ensures writeIdx <= lots.Length
    ensures lots[..writeIdx] == Consume(old(lots[..]), qty)
    ensures taxable == Taxable(old(lots[..]), qty, now)
  {
    hide Compacting;
    taxable := 0;
    var remaining := qty;
    writeIdx := 0;
    ghost var was := lots[..];
    CompactStart(was, qty, now);
    ghost var kept := [];
    for i := 0 to lots.Length
      invariant writeIdx <= i && |was| == lots.Length
      invariant forall k :: i <= k < lots.Length ==> lots[k] == was[k]
      invariant kept == lots[..writeIdx] && Compacting(was, qty, now, i, kept, remaining, taxable)
    {
      ghost var taken := TakenOf(lots[i], remaining);
      ghost var remaining1 := remaining - taken;
      ghost var taxable1 := taxable + if Fresh(lots[i].acquiredAt, now) then taken else 0;
      CompactStep(was, qty, now, i, kept, remaining, taxable);
      kept := kept + KeptOf(lots[i], remaining);
      var lot := lots[i];
      if remaining <= 0 {
        lots[writeIdx] := lot;
        writeIdx := writeIdx + 1;
        assert lots[..writeIdx] == kept && remaining == remaining1 && taxable == taxable1;
        continue;
      }
      var consume := Min(remaining, lot.quantity);
      if Fresh(lot.acquiredAt, now) {
        taxable := taxable + consume;
      }
      lot := lot.(quantity := lot.quantity - consume);
      remaining := remaining - consume;
      if lot.quantity > 0 {
        lots[writeIdx] := lot;
        writeIdx := writeIdx + 1;
      }
      assert lots[..writeIdx] == kept && remaining == remaining1 && taxable == taxable1;
    }
    CompactDone(was, qty, now, kept, remaining, taxable);
  }

  /** Sells qty shares of a symbol out of a player's lots. */
  method ConsumeLotsForSale(holdings: Holdings, symbol: string, qty: int, now: int)
    returns (left: Holdings, taxable: int)
    ensures left == AfterSale(holdings, symbol, qty)
    ensures taxable == Taxable(LotsOf(holdings, symbol), qty, now)
  {
    left := holdings;
    if qty <= 0 || symbol !in holdings || holdings[symbol] == [] {
      return left, 0;
    }
    var s := holdings[symbol];
    var lots := new Lot[|s|](i requires 0 <= i < |s| => s[i]);
    assert lots[..] == s;
    var writeIdx;
    writeIdx, taxable := CompactInPlace(lots, qty, now);
    if writeIdx == 0 {
      left := left - {symbol};
    } else {
      left := left[symbol := lots[..writeIdx]];
    }
  }

  // ---- A queue of lots is a queue of single shares ----

  /** One share, as the lot it came from remembers it. */
  datatype Share = Share(price: int, acquiredAt: int)

  function UnitsOf(lot: Lot): seq<Share> {
    seq(Max(0, lot.quantity), _ => Share(lot.price, lot.acquiredAt))
  }

  function Units(lots: seq<Lot>): seq<Share> {
    if lots == [] then []
    else UnitsOf(lots[0]) + Units(lots[1..])
  }

  function CountFresh(shares: seq<Share>, now: int): nat {
    if shares == [] then 0
    else (if Fresh(shares[0].acquiredAt, now) then 1 else 0) + CountFresh(shares[1..], now)
  }

  lemma {:induction false} UnitsCountShares(lots: seq<Lot>)
    requires Positive(lots)
    ensures |Units(lots)| == Total(lots)
  {
    if lots != [] { UnitsCountShares(lots[1..]); }
  }

  lemma UnitsAppend(lot: Lot, lots: seq<Lot>)
    ensures Units([lot] + lots) == UnitsOf(lot) + Units(lots)
  {
    assert ([lot] + lots)[1..] == lots;
  }

  lemma {:induction false} ConsumeTotal(lots: seq<Lot>, qty: nat)
    requires Positive(lots)
    ensures Positive(Consume(lots, qty))
    ensures Total(lots) >= 0
    ensures Total(Consume(lots, qty)) == Max(0, Total(lots) - qty)
  {
    if lots != [] {
      var c := Min(qty, lots[0].quantity);
      ConsumeTotal(lots[1..], qty - c);
      var rest := Consume(lots[1..], qty - c);
      if qty > 0 {
        if lots[0].quantity > c {
          assert Consume(lots, qty)[1..] == lots[1..];
        } else {
          assert Consume(lots, qty) == rest;
        }
      }
    }
  }

  /** Consuming lots is dropping that many shares from the front of the queue. */
  lemma {:induction false} ConsumeDropsOldestShares(lots: seq<Lot>, qty: nat)
    requires Positive(lots)
    ensures Units(Consume(lots, qty)) == Units(lots)[Min(qty, |Units(lots)|)..]
  {
    if lots != [] && qty > 0 {
      var tail := lots[1..];
      var c := Min(qty, lots[0].quantity);
      if lots[0].quantity > c {
        HeadPartlyDropped(lots, qty);
      } else {
        ConsumeDropsOldestShares(tail, qty - c);
        assert Consume(lots, qty) == Consume(tail, qty - c);
        DropThrough(UnitsOf(lots[0]), Units(tail), qty);
      }
    }
  }

  lemma HeadPartlyDropped(lots: seq<Lot>, qty: nat)
    requires lots != [] && 0 < qty < lots[0].quantity
    ensures Units(Consume(lots, qty)) == Units(lots)[qty..]
  {
    var shrunk := lots[0].(quantity := lots[0].quantity - qty);
    assert Consume(lots, qty) == [shrunk] + lots[1..];
    UnitsAppend(shrunk, lots[1..]);
    assert UnitsOf(lots[0])[qty..] == UnitsOf(shrunk);
    assert Units(lots)[qty..] == UnitsOf(lots[0])[qty..] + Units(lots[1..]);
  }

  lemma DropThrough<T>(a: seq<T>, b: seq<T>, n: nat)
    requires n >= |a|
    ensures (a + b)[Min(n, |a + b|)..] == b[Min(n - |a|, |b|)..]
  {
  }

  lemma {:induction false} CountFreshSplit(a: seq<Share>, b: seq<Share>, now: int)
    ensures CountFresh(a + b, now) == CountFresh(a, now) + CountFresh(b, now)
  {
    if a == [] {
      assert a + b == b;
    } else {
      assert (a + b)[1..] == a[1..] + b;
      CountFreshSplit(a[1..], b, now);
    }
  }

  lemma {:induction false} CountFreshUniform(n: nat, s: Share, now: int)
    ensures CountFresh(seq(n, _ => s), now) == if Fresh(s.acquiredAt, now) then n else 0
  {
    if n > 0 {
      assert seq(n, _ => s)[1..] == seq(n - 1, _ => s);
      CountFreshUniform(n - 1, s, now);
    }
  }

  lemma {:induction false} ExposureCountsFreshShares(lots: seq<Lot>, now: int)
    requires Positive(lots)
    ensures Exposure(lots, now) == CountFresh(Units(lots), now)
  {
    if lots != [] {
      var s := Share(lots[0].price, lots[0].acquiredAt);
      CountFreshUniform(lots[0].quantity, s, now);
      CountFreshSplit(seq(lots[0].quantity, _ => s), Units(lots[1..]), now);
      ExposureCountsFreshShares(lots[1..], now);
    }
  }

  /** The taxable quantity is exactly the fall in exposure. */
  lemma {:induction false} TaxableIsFallInExposure(lots: seq<Lot>, qty: nat, now: int)
    requires Positive(lots)
    ensures Taxable(lots, qty, now) == Exposure(lots, now) - Exposure(Consume(lots, qty), now)
  {
    if lots != [] && qty > 0 {
      var c := Min(qty, lots[0].quantity);
      TaxableIsFallInExposure(lots[1..], qty - c, now);
      var left := if lots[0].quantity > c then [lots[0].(quantity := lots[0].quantity - c)] else [];
      assert (left + Consume(lots[1..], qty - c))[|left|..] == Consume(lots[1..], qty - c);
    }
  }

  /** The taxable quantity counts the fresh shares among the oldest ones sold. */
  lemma TaxableCountsOldestShares(lots: seq<Lot>, qty: nat, now: int)
    requires Positive(lots)
    ensures Taxable(lots, qty, now) == CountFresh(Units(lots)[..Min(qty, |Units(lots)|)], now)
    ensures 0 <= Taxable(lots, qty, now) <= qty
  {
    var n := Min(qty, |Units(lots)|);
    TaxableIsFallInExposure(lots, qty, now);
    ConsumeDropsOldestShares(lots, qty);
    ConsumeTotal(lots, qty);
    ExposureCountsFreshShares(lots, now);
    ExposureCountsFreshShares(Consume(lots, qty), now);
    hide Consume, Taxable, Exposure, Units, CountFresh, Total;
    FreshInTwoParts(Units(lots), n, now);
    CountFreshAtMost(Units(lots)[..n], now);
  }

  lemma FreshInTwoParts(shares: seq<Share>, n: nat, now: int)
    requires n <= |shares|
    ensures CountFresh(shares, now) == CountFresh(shares[..n], now) + CountFresh(shares[n..], now)
  {
    assert shares[..n] + shares[n..] == shares;
    CountFreshSplit(shares[..n], shares[n..], now);
  }

  /** How many of some shares were acquired no longer ago than a span. */
  function CountWithin(shares: seq<Share>, now: int, span: int): nat {
    if shares == [] then 0
    else (if now - shares[0].acquiredAt <= span then 1 else 0) + CountWithin(shares[1..], now, span)
  }

  /** The shares of a sale: the oldest ones held. */
  function Sold(lots: seq<Lot>, qty: nat): seq<Share> {
    Units(lots)[..Min(qty, |Units(lots)|)]
  }

  lemma {:induction false} FreshWithinFiveMinutes(shares: seq<Share>, now: int)
    ensures CountFresh(shares, now) == CountWithin(shares, now, 300_000_000_000)
  {
    if shares != [] { FreshWithinFiveMinutes(shares[1..], now); }
  }

  /** Taxed are exactly the shares sold that were acquired within the last 300 seconds. */
  lemma TaxableWithinFiveMinutes(lots: seq<Lot>, qty: nat, now: int)
    requires Positive(lots)
    ensures Taxable(lots, qty, now) == CountWithin(Sold(lots, qty), now, 300_000_000_000)
    ensures 0 <= Taxable(lots, qty, now) <= qty
  {
    TaxableCountsOldestShares(lots, qty, now);
    FreshWithinFiveMinutes(Sold(lots, qty), now);
  }

  /** After a sale the holdings know the symbol only if shares are left of it; other symbols are untouched. */
  lemma SaleForgetsEmptied(holdings: Holdings, symbol: string, qty: nat)
    requires Positive(LotsOf(holdings, symbol)) && (symbol in holdings ==> holdings[symbol] != []) && qty > 0
    ensures var left := AfterSale(holdings, symbol, qty);
      && (symbol in left <==> qty < Total(LotsOf(holdings, symbol)))
      && forall s :: s != symbol ==> (s in left <==> s in holdings) && LotsOf(left, s) == LotsOf(holdings, s)
  {
    ConsumeTotal(LotsOf(holdings, symbol), qty);
    UnitsCountShares(Consume(LotsOf(holdings, symbol), qty));
    PositiveTotal(Consume(LotsOf(holdings, symbol), qty));
    PositiveTotal(LotsOf(holdings, symbol));
    hide Consume, Total, Positive;
  }

  lemma {:induction false} PositiveTotal(lots: seq<Lot>)
    requires Positive(lots)
    ensures Total(lots) >= 0 && (Total(lots) == 0 <==> lots == [])
  {
    if lots != [] { PositiveTotal(lots[1..]); }
  }

  lemma CountFreshAtMost(shares: seq<Share>, now: int)
    ensures CountFresh(shares, now) <= |shares|
  {
  }

  /** Order is kept and only the head of what remains may have shrunk. */
  lemma {:induction false} OnlyHeadShrinks(lots: seq<Lot>, qty: nat) returns (k: nat)
    requires Positive(lots)
    ensures k <= |lots|
    ensures Consume(lots, qty) == lots[k..]
         || (k < |lots| && exists q :: 0 < q < lots[k].quantity
                                 && Consume(lots, qty) == [lots[k].(quantity := q)] + lots[k + 1..])
  {
    hide Consume;
    ConsumeNothing(lots);
    ConsumeNone(qty);
    if lots == [] || qty == 0 {
      k := 0;
    } else if lots[0].quantity > qty {
      k := 0;
      ConsumePart(lots, qty);
    } else {
      ConsumeWhole(lots, qty);
      var j := OnlyHeadShrinks(lots[1..], qty - lots[0].quantity);
      k := j + 1;
      assert lots[1..][j..] == lots[k..];
      if j < |lots[1..]| { assert lots[1..][j + 1..] == lots[k + 1..] && lots[1..][j] == lots[k]; }
    }
  }

  /** Two sales at one moment are one sale: same lots left, same shares taxed. */
  lemma SalesCompose(lots: seq<Lot>, a: nat, b: nat, now: int)
    requires Positive(lots)
    ensures Consume(Consume(lots, a), b) == Consume(lots, a + b)
    ensures Taxable(lots, a, now) + Taxable(Consume(lots, a), b, now) == Taxable(lots, a + b, now)
  {
    ConsumeComposes(lots, a, b);
    ConsumeTotal(lots, a);
    TaxableIsFallInExposure(lots, a, now);
    TaxableIsFallInExposure(Consume(lots, a), b, now);
    TaxableIsFallInExposure(lots, a + b, now);
  }

  lemma {:induction false} ConsumeComposes(lots: seq<Lot>, a: nat, b: nat)
    requires Positive(lots)
    ensures Consume(Consume(lots, a), b) == Consume(lots, a + b)
  {
    hide Consume;
    ConsumeNothing(lots);
    ConsumeNone(a + b);
    ConsumeNone(b);
    if lots == [] {
      ConsumeNone(a);
    } else if a > 0 {
      if lots[0].quantity > a {
        PartThenRest(lots, a, b);
      } else {
        ConsumeWhole(lots, a);
        ConsumeWhole(lots, a + b);
        ConsumeComposes(lots[1..], a - lots[0].quantity, b);
      }
    }
  }

  lemma {:induction false} ConsumeNone(qty: nat)
    ensures Consume([], qty) == []
  {
  }

  lemma {:induction false} PartThenRest(lots: seq<Lot>, a: nat, b: nat)
    requires lots != [] && 0 < a < lots[0].quantity
    ensures Consume(Consume(lots, a), b) == Consume(lots, a + b)
  {
    var shrunk, tail := lots[0].(quantity := lots[0].quantity - a), lots[1..];
    var left := [shrunk] + tail;
    ConsumePart(lots, a);
    ConsumeNothing(left);
    assert left[0] == shrunk && left[1..] == tail;
    hide Consume;
    if b >= shrunk.quantity {
      ConsumeWhole(left, b);
      ConsumeWhole(lots, a + b);
    } else if b > 0 {
      ConsumePart(left, b);
      ConsumePart(lots, a + b);
    }
  }

  lemma {:induction false} ConsumeNothing(lots: seq<Lot>)
    ensures Consume(lots, 0) == lots
  {
  }

  lemma {:induction false} ConsumePart(lots: seq<Lot>, qty: nat)
    requires lots != [] && 0 < qty < lots[0].quantity
    ensures Consume(lots, qty) == [lots[0].(quantity := lots[0].quantity - qty)] + lots[1..]
  {
  }

  lemma {:induction false} ConsumeWhole(lots: seq<Lot>, qty: nat)
    requires lots != [] && 0 < lots[0].quantity <= qty
    ensures Consume(lots, qty) == Consume(lots[1..], qty - lots[0].quantity)
  {
  }

  // ---- Selling oldest first is the cheapest choice of lots ----

  /** A way to take the sold shares out of the lots. */
  predicate Choice(lots: seq<Lot>, picks: seq<int>) {
    |picks| == |lots| && forall i :: 0 <= i < |lots| ==> 0 <= picks[i] <= lots[i].quantity
  }

  function Picked(picks: seq<int>): int {
    if picks == [] then 0 else picks[0] + Picked(picks[1..])
  }

  function FreshPicked(lots: seq<Lot>, picks: seq<int>, now: int): int
    requires |picks| == |lots|
  {
    if lots == [] then 0
    else (if Fresh(lots[0].acquiredAt, now) then picks[0] else 0) + FreshPicked(lots[1..], picks[1..], now)
  }

  /** No choice of lots taxes fewer shares than the quantity sold minus the stale shares held. */
  lemma {:induction false} AnyChoiceTaxesAtLeast(lots: seq<Lot>, picks: seq<int>, now: int)
    requires Choice(lots, picks)
    ensures FreshPicked(lots, picks, now) >= Max(0, Picked(picks) - (Total(lots) - Exposure(lots, now)))
  {
    if lots != [] { AnyChoiceTaxesAtLeast(lots[1..], picks[1..], now); }
  }

  /** On lots in order of acquisition, oldest first meets that bound. */
  lemma {:induction false} OldestFirstTaxesExactly(lots: seq<Lot>, qty: nat, now: int)
    requires Positive(lots) && Chronological(lots)
    ensures Taxable(lots, qty, now)
         == Max(0, Min(qty, Total(lots)) - (Total(lots) - Exposure(lots, now)))
  {
    if lots != [] {
      TotalsNonNegative(lots[1..], now);
      if Fresh(lots[0].acquiredAt, now) { FreshHeadMeansAllFresh(lots, now); }
      if qty > 0 {
        OldestFirstTaxesExactly(lots[1..], qty - Min(qty, lots[0].quantity), now);
      }
    }
  }

  lemma {:induction false} TotalsNonNegative(lots: seq<Lot>, now: int)
    requires Positive(lots)
    ensures 0 <= Exposure(lots, now) <= Total(lots)
  {
    if lots != [] { TotalsNonNegative(lots[1..], now); }
  }

  lemma {:induction false} FreshHeadMeansAllFresh(lots: seq<Lot>, now: int)
    requires lots != [] && Chronological(lots) && Fresh(lots[0].acquiredAt, now)
    ensures Exposure(lots, now) == Total(lots)
  {
    if |lots| > 1 {
      FreshHeadMeansAllFresh(lots[1..], now);
    }
  }

  /** Hence no way of choosing the lots for a sale pays less rapid-flip tax. */
  lemma SaleIsTaxMinimal(lots: seq<Lot>, qty: nat, picks: seq<int>, now: int)
    requires Positive(lots) && Chronological(lots)
    requires Choice(lots, picks) && Picked(picks) == Min(qty, Total(lots))
    ensures Taxable(lots, qty, now) <= FreshPicked(lots, picks, now)
  {
    OldestFirstTaxesExactly(lots, qty, now);
    AnyChoiceTaxesAtLeast(lots, picks, now);
  }
}
