/**
 The taker fee and the cash amount of a trade.
 */
module Fees {
  import opened Domain
  import opened Rounding
  import opened Seqs

  /** The fee grid: fees are whole multiples of ten millionths (0.00001). */
  const FEE_STEP: Micro := 10

  /** Rounding toward zero (`ROUND_DOWN`). */
  function Truncate(x: real): int {
    if x >= 0.0 then x.Floor else -((-x).Floor)
  }

  function Raw(rate: real, shares: Micro, price: real): real {
    shares as real * rate * price * (1.0 - price)
  }

  function FeeAmount(rate: real, shares: Micro, price: real): Micro {
    Truncate(Raw(rate, shares, price) / 10.0) * FEE_STEP
  }

  function GrossAmount(shares: Micro, price: real): Micro {
    Round(shares as real * price)
  }

  /** Cash that changes hands for one trade of `market`; only a taker pays the fee. */
  function CashAmount(market: Market, side: Side, role: Role, shares: Micro, price: real): Micro {
    var fee := if role == Taker then FeeAmount(market.feeRate, shares, price) else 0;
    if side == Buy then GrossAmount(shares, price) + fee else GrossAmount(shares, price) - fee
  }

  /** A maker's cash is shares times price, rounded half-even to a millionth. */
  lemma MakerCash(market: Market, side: Side, shares: Micro, price: real)
    ensures NearestEven(shares as real * price, CashAmount(market, side, Maker, shares, price))
  {
    RoundIsNearest(shares as real * price, CashAmount(market, side, Maker, shares, price));
  }

  /** What a taker pays on top of a maker, or gets less: the fee in either direction. */
  function TakerCost(market: Market, side: Side, shares: Micro, price: real): Micro {
    var taker, maker := CashAmount(market, side, Taker, shares, price), CashAmount(market, side, Maker, shares, price);
    if side == Buy then taker - maker else maker - taker
  }

  /** It is rate times shares times price times one less price, cut to whole steps of ten millionths. */
  lemma TakerCash(market: Market, side: Side, shares: Micro, price: real, exact: real)
    requires exact == market.feeRate * shares as real * price * (1.0 - price)
    ensures var fee := TakerCost(market, side, shares, price);
            && fee % 10 == 0
            && (exact >= 0.0 ==> fee as real <= exact < fee as real + 10.0)
            && (exact < 0.0 ==> fee as real - 10.0 < exact <= fee as real)
  {
    hide Truncate, GrossAmount, Raw;
    RawIs(market.feeRate, shares, price, exact);
    TruncateCuts(exact);
    assert TakerCost(market, side, shares, price) == FeeAmount(market.feeRate, shares, price);
  }

  lemma RawIs(rate: real, shares: Micro, price: real, exact: real)
    requires exact == rate * shares as real * price * (1.0 - price)
    ensures Raw(rate, shares, price) == exact
  {
    assert shares as real * rate == rate * shares as real;
  }

  lemma TruncateCuts(x: real)
    ensures var fee := Truncate(x / 10.0) * 10;
            && (x >= 0.0 ==> fee as real <= x < fee as real + 10.0)
            && (x < 0.0 ==> fee as real - 10.0 < x <= fee as real)
  {
    var steps := Truncate(x / 10.0);
    assert (steps * 10) as real == steps as real * 10.0;
  }

  predicate ValidTerms(rate: real, price: real) {
    0.0 <= rate && 0.0 <= price <= 1.0
  }

  lemma RawNonNegative(rate: real, shares: Micro, price: real)
    requires ValidTerms(rate, price) && shares >= 0
    ensures Raw(rate, shares, price) >= 0.0
  {
    ScaleOrder(shares as real, 0.0, rate);
    ScaleOrder(shares as real * rate, 0.0, price);
    ScaleOrder(shares as real * rate * price, 0.0, 1.0 - price);
  }

  lemma RawBelowGross(rate: real, shares: Micro, price: real)
    requires ValidTerms(rate, price) && rate <= 1.0 && shares >= 0
    ensures Raw(rate, shares, price) <= shares as real * price
  {
    var k := shares as real;
    ScaleOrder(k, 0.0, rate);
    ScaleOrder(k, rate, 1.0);
    ScaleOrder(price, k * rate, k);
    ScaleOrder(k * rate * price, 1.0 - price, 1.0);
    assert k * rate * price >= 0.0 by { ScaleOrder(k * rate, 0.0, price); }
  }

  function FeeOf(rate: real, price: real): Micro -> Micro {
    (shares: Micro) => FeeAmount(rate, shares, price)
  }

  function Identity(): Micro -> Micro { (shares: Micro) => shares }

  lemma RawAdds(rate: real, a: Micro, b: Micro, price: real)
    ensures Raw(rate, a + b, price) == Raw(rate, a, price) + Raw(rate, b, price)
  {
    assert (a + b) as real == a as real + b as real;
    assert (a as real + b as real) * rate == a as real * rate + b as real * rate;
    assert (a as real * rate + b as real * rate) * price == a as real * rate * price + b as real * rate * price;
  }

  /** Splitting a fill saves less than one fee step per piece, and never costs more. */
  lemma {:induction false} SplitFillFees(rate: real, price: real, fills: seq<Micro>)
    requires ValidTerms(rate, price)
    requires fills != []
    requires forall s :: s in fills ==> s >= 0
    ensures Sum(fills, FeeOf(rate, price))
         <= FeeAmount(rate, Sum(fills, Identity()), price)
         <  Sum(fills, FeeOf(rate, price)) + |fills| * FEE_STEP
  {
    var n := |fills| - 1;
    var rest, last := fills[..n], fills[n];
    var whole := Sum(fills, Identity());
    assert last in fills && forall s :: s in rest ==> s in fills;
    RawNonNegative(rate, last, price);
    if rest == [] {
      assert Sum(rest, Identity()) == 0 && Sum(rest, FeeOf(rate, price)) == 0;
      return;
    }
    SplitFillFees(rate, price, rest);
    var part := Sum(rest, Identity());
    SumNonNegative(rest, Identity());
    assert part >= 0 && whole == part + last;
    RawNonNegative(rate, part, price);
    RawAdds(rate, part, last, price);
    var x, y := Raw(rate, part, price) / 10.0, Raw(rate, last, price) / 10.0;
    assert Raw(rate, whole, price) / 10.0 == x + y;
    assert x.Floor + y.Floor <= (x + y).Floor <= x.Floor + y.Floor + 1;
  }

  /** The fee does not depend on which of the two complementary tokens is quoted. */
  lemma FeeSymmetric(rate: real, shares: Micro, price: real)
    ensures FeeAmount(rate, shares, 1.0 - price) == FeeAmount(rate, shares, price)
  {
    var k := shares as real * rate;
    assert k * (1.0 - price) * (1.0 - (1.0 - price)) == k * price * (1.0 - price);
  }

  /** The fee never exceeds a quarter of rate times shares, its value at price one half. */
  lemma FeeAtMostQuarter(rate: real, shares: Micro, price: real)
    requires ValidTerms(rate, price) && shares >= 0
    ensures 0.0 <= FeeAmount(rate, shares, price) as real <= rate * shares as real / 4.0
  {
    var k := shares as real * rate;
    ScaleOrder(shares as real, 0.0, rate);
    var d := price - 0.5;
    assert d * d >= 0.0;
    assert price * (1.0 - price) == 0.25 - d * d;
    ScaleOrder(k, price * (1.0 - price), 0.25);
    assert Raw(rate, shares, price) == k * (price * (1.0 - price));
    RawNonNegative(rate, shares, price);
    var steps := (Raw(rate, shares, price) / 10.0).Floor;
    assert (steps * FEE_STEP) as real == steps as real * 10.0;
  }

  /** With a rate of at most one, selling never costs cash, fee included. */
  lemma BuyCashNonNegative(market: Market, role: Role, shares: Micro, price: real)
    requires ValidTerms(market.feeRate, price) && shares >= 0
    ensures 0 <= CashAmount(market, Buy, role, shares, price)
  {
    ScaleOrder(shares as real, 0.0, price);
    RawNonNegative(market.feeRate, shares, price);
  }

  lemma SellCashNonNegative(market: Market, role: Role, shares: Micro, price: real)
    requires ValidTerms(market.feeRate, price) && market.feeRate <= 1.0 && shares >= 0
    ensures 0 <= CashAmount(market, Sell, role, shares, price)
    ensures 0 <= CashAmount(market, Buy, role, shares, price)
  {
    var rate := market.feeRate;
    var gross := shares as real * price;
    ScaleOrder(shares as real, 0.0, price);
    RawNonNegative(rate, shares, price);
    var fee := FeeAmount(rate, shares, price);
    var steps := (Raw(rate, shares, price) / 10.0).Floor;
    assert fee == steps * 10 && fee as real == steps as real * 10.0;
    RawBelowGross(rate, shares, price);
    assert steps as real * 10.0 <= Raw(rate, shares, price);
    assert fee as real <= gross;
    RoundMonotone(fee as real, gross);
    RoundWhole(fee);
    RoundMonotone(0.0, gross);
    RoundWhole(0);
  }

  /** Buying and selling back at one price loses the taker both fees, around the cash of a maker, who loses nothing. */
  lemma RoundTripCost(market: Market, role: Role, shares: Micro, price: real)
    requires ValidTerms(market.feeRate, price) && shares >= 0
    ensures var bought, sold := CashAmount(market, Buy, role, shares, price), CashAmount(market, Sell, role, shares, price);
            && bought - sold == (if role == Taker then 2 * TakerCost(market, Buy, shares, price) else 0)
            && bought - sold >= 0
            && bought + sold == 2 * CashAmount(market, Buy, Maker, shares, price)
  {
    RawNonNegative(market.feeRate, shares, price);
  }
}
