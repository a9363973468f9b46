/** Basis-point charges: every fee, surcharge and tax is a ceiling division. */
module Charges {

  const EXCHANGE_FEE_BPS := 10
  const MARKET_SURCHARGE_BPS := 15
  const RAPID_FLIP_TAX_BPS := 35

  function BpsCharge(amount: int, bps: int): (charge: int)
    ensures charge >= 0
  {
    if amount <= 0 || bps <= 0 then 0 else (amount * bps + 9999) / 10000
  }

  function ExchangeFee(notional: int): (fee: int)
    ensures fee >= 0
  {
    BpsCharge(notional, EXCHANGE_FEE_BPS)
  }

  function MarketSurcharge(notional: int): (fee: int)
    ensures fee >= 0
  {
    BpsCharge(notional, MARKET_SURCHARGE_BPS)
  }

  function RapidFlipTax(notional: int): (tax: int)
    ensures tax >= 0
  {
    BpsCharge(notional, RAPID_FLIP_TAX_BPS)
  }

  /** The least non-negative integer whose ten-thousandfold covers so many basis points of an amount. */
  predicate LeastCovering(charge: int, amount: int, bps: int) {
    charge >= 0 && 10000 * charge >= amount * bps && (charge > 0 ==> 10000 * (charge - 1) < amount * bps)
  }

  /** The charge is that integer, also on amounts that are not positive. */
  lemma ChargeIsCeiling(amount: int, bps: int, c: int)
    requires bps >= 0
    ensures LeastCovering(BpsCharge(amount, bps), amount, bps)
    ensures c >= BpsCharge(amount, bps) <==> 10000 * c >= amount * bps && c >= 0
  {
    var n := amount * bps;
    if amount <= 0 || bps == 0 {
      assert n <= 0;
    } else {
      assert n > 0;
      assert n <= 10000 * ((n + 9999) / 10000) <= n + 9999;
    }
  }

  /** The three rates: 10 basis points for the exchange, 15 more on market orders, 35 on rapid flips. */
  lemma RatesInNumbers(amount: int)
    ensures LeastCovering(ExchangeFee(amount), amount, 10)
    ensures LeastCovering(MarketSurcharge(amount), amount, 15)
    ensures LeastCovering(RapidFlipTax(amount), amount, 35)
  {
    ChargeIsCeiling(amount, 10, 0);
    ChargeIsCeiling(amount, 15, 0);
    ChargeIsCeiling(amount, 35, 0);
  }

  lemma ChargeMonotone(a: int, b: int, bps: int)
    requires 0 <= a <= b && bps >= 0
    ensures BpsCharge(a, bps) <= BpsCharge(b, bps)
  {
    ChargeIsCeiling(a, bps, BpsCharge(b, bps));
    ChargeIsCeiling(b, bps, BpsCharge(b, bps));
    hide BpsCharge, LeastCovering;
    ProductMonotone(a, b, bps);
  }

  lemma ProductMonotone(a: int, b: int, x: int)
    requires a <= b && x >= 0
    ensures a * x <= b * x
  {
  }

  /** Splitting an amount never makes it cheaper, and costs at most one unit more. */
  lemma SplitCostsAtMostOne(a: int, b: int, bps: int)
    requires a >= 0 && b >= 0 && bps >= 0
    ensures BpsCharge(a + b, bps) <= BpsCharge(a, bps) + BpsCharge(b, bps) <= BpsCharge(a + b, bps) + 1
  {
    assert (a + b) * bps == a * bps + b * bps;
    if a > 0 && b > 0 && bps > 0 {
      assert a * bps > 0 && b * bps > 0;
      TwoCeilings(a * bps, b * bps);
    }
  }

  lemma TwoCeilings(x: int, y: int)
    requires x > 0 && y > 0
    ensures (x + y + 9999) / 10000 <= (x + 9999) / 10000 + (y + 9999) / 10000 <= (x + y + 9999) / 10000 + 1
  {
  }

  function TotalAmount(amounts: seq<int>): int {
    if amounts == [] then 0 else amounts[0] + TotalAmount(amounts[1..])
  }

  function TotalCharge(amounts: seq<int>, bps: int): int {
    if amounts == [] then 0 else BpsCharge(amounts[0], bps) + TotalCharge(amounts[1..], bps)
  }

  /** Rounding accumulates by at most one unit per extra fill. */
  lemma {:induction false} RoundingBound(amounts: seq<int>, bps: int)
    requires |amounts| >= 1 && bps >= 0
    requires forall i :: 0 <= i < |amounts| ==> amounts[i] >= 0
    ensures TotalAmount(amounts) >= 0
    ensures BpsCharge(TotalAmount(amounts), bps) <= TotalCharge(amounts, bps)
         <= BpsCharge(TotalAmount(amounts), bps) + |amounts| - 1
  {
    if |amounts| == 1 {
      assert amounts[1..] == [];
    } else {
      RoundingBound(amounts[1..], bps);
      SplitCostsAtMostOne(amounts[0], TotalAmount(amounts[1..]), bps);
    }
  }

  /** The exchange fee is a unit per thousand begun. */
  lemma FeePerThousand(amount: int)
    requires amount >= 0
    ensures ExchangeFee(amount) == (amount + 999) / 1000
  {
  }

  lemma {:induction false} FeesAreNearTotal(amounts: seq<int>)
    requires forall i :: 0 <= i < |amounts| ==> amounts[i] > 0
    ensures TotalAmount(amounts) >= |amounts|
    ensures 1000 * TotalCharge(amounts, EXCHANGE_FEE_BPS) <= TotalAmount(amounts) + 999 * |amounts|
  {
    if amounts != [] {
      FeePerThousand(amounts[0]);
      FeesAreNearTotal(amounts[1..]);
    }
  }

  /** For the fee the allowance is smaller: the fees of n fills exceed the fee of their total by at most n less one
      for every thousand fills begun. */
  lemma FeeRoundingBound(amounts: seq<int>)
    requires forall i :: 0 <= i < |amounts| ==> amounts[i] > 0
    ensures TotalAmount(amounts) >= |amounts|
    ensures TotalCharge(amounts, EXCHANGE_FEE_BPS) <= ExchangeFee(TotalAmount(amounts)) + |amounts| - (|amounts| + 999) / 1000
  {
    FeesAreNearTotal(amounts);
    FeePerThousand(TotalAmount(amounts));
  }

  lemma {:induction false} SurchargesAreNearTotal(amounts: seq<int>)
    requires forall i :: 0 <= i < |amounts| ==> amounts[i] > 0
    ensures TotalAmount(amounts) >= |amounts|
    ensures 2000 * TotalCharge(amounts, MARKET_SURCHARGE_BPS) <= 3 * TotalAmount(amounts) + 1999 * |amounts|
  {
    if amounts != [] {
      assert BpsCharge(amounts[0], MARKET_SURCHARGE_BPS) == (15 * amounts[0] + 9999) / 10000;
      SurchargesAreNearTotal(amounts[1..]);
    }
  }

  /** The same for the surcharge: at most n more, less one for every two thousand fills begun. */
  lemma SurchargeRoundingBound(amounts: seq<int>)
    requires forall i :: 0 <= i < |amounts| ==> amounts[i] > 0
    ensures TotalAmount(amounts) >= |amounts|
    ensures TotalCharge(amounts, MARKET_SURCHARGE_BPS)
         <= MarketSurcharge(TotalAmount(amounts)) + |amounts| - (|amounts| + 1999) / 2000
  {
    SurchargesAreNearTotal(amounts);
    assert TotalAmount(amounts) > 0 ==> MarketSurcharge(TotalAmount(amounts)) == (15 * TotalAmount(amounts) + 9999) / 10000;
  }

  /** What settlement keeps back from a seller: fee, surcharge on market orders, tax on the fresh part. */
  function SellerCharges(cost: int, market: bool, taxable: int): (c: int)
    ensures c >= 0
  {
    ExchangeFee(cost) + (if market then MarketSurcharge(cost) else 0) + RapidFlipTax(taxable)
  }

  /** A sale takes no cash from the seller exactly when its cost covers one unit per charge that applies. */
  lemma SellerProceedsNonNegative(cost: int, market: bool, taxable: int)
    requires cost >= 1 && 0 <= taxable <= cost
    ensures SellerCharges(cost, market, taxable) <= cost
       <==> cost >= 1 + (if market then 1 else 0) + (if taxable > 0 then 1 else 0)
  {
    ChargeMonotone(taxable, cost, RAPID_FLIP_TAX_BPS);
    if cost >= 4 {
      assert ExchangeFee(cost) * 10000 <= cost * 10 + 9999;
      assert MarketSurcharge(cost) * 10000 <= cost * 15 + 9999;
      assert RapidFlipTax(cost) * 10000 <= cost * 35 + 9999;
    }
  }
}
