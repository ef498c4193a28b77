/**
 The price of a taker trade from the maker orders it was matched with.

 A maker order on the complementary token of the pair counts at one less its price.
 Amounts are exact decimals, hence `real`.
 */
module Vwap {
  import opened Seqs

  /** An entry of the detail list: possibly not a record at all, or one without the needed fields. */
  datatype Detail = NotARecord | Incomplete | Detail(assetId: string, shares: real, price: real)

  /** `Raised` is the error that makes the caller drop the message. */
  datatype TradePrice = Price(value: real) | Raised

  const TOLERANCE := 0.000001

  /** The price of a detail as seen from `token`. */
  function Adjusted(d: Detail, token: string): real
    requires d.Detail?
  {
    if d.assetId != token then 1.0 - d.price else d.price
  }

  function TotalShares(ds: seq<Detail>): real
    requires forall d :: d in ds ==> d.Detail?
  {
    if ds == [] then 0.0 else TotalShares(ds[..|ds| - 1]) + ds[|ds| - 1].shares
  }

  function TotalAmount(ds: seq<Detail>, token: string): real
    requires forall d :: d in ds ==> d.Detail?
  {
    if ds == [] then 0.0 else
    TotalAmount(ds[..|ds| - 1], token) + ds[|ds| - 1].shares * Adjusted(ds[|ds| - 1], token)
  }

  /** Details that are no usable record; the first of them decides how the loop ends. */
  function FirstBad(ds: seq<Detail>): (i: nat)
    ensures i <= |ds|
    ensures i < |ds| ==> !ds[i].Detail?
    ensures forall j :: 0 <= j < i ==> ds[j].Detail?
  {
    if ds == [] || !ds[0].Detail? then 0 else 1 + FirstBad(ds[1..])
  }

  predicate WithinTolerance(total: real, shares: real) {
    -TOLERANCE <= total - shares <= TOLERANCE
  }

  /** The price of the trade; `makerOrders` is `None` when the message carries no list. */
  function OverallPrice(fallback: real, makerOrders: Option<seq<Detail>>, token: string, shares: real): TradePrice {
    if makerOrders == None || makerOrders.value == [] || shares <= 0.0 then Price(fallback) else
    var ds := makerOrders.value;
    var bad := FirstBad(ds);
    if bad < |ds| then (if ds[bad] == NotARecord then Price(fallback) else Raised)
    else if !WithinTolerance(TotalShares(ds), shares) then Price(fallback)
    else Price(TotalAmount(ds, token) / shares)
  }

  method OverallTradePrice(fallback: real, makerOrders: Option<seq<Detail>>, token: string, shares: real)
    returns (r: TradePrice)
    ensures r == OverallPrice(fallback, makerOrders, token, shares)
  {
    if makerOrders == None || makerOrders.value == [] || shares <= 0.0 {
      return Price(fallback);
    }
    var details := makerOrders.value;
    var totalShares, totalAmount := 0.0, 0.0;
    for i := 0 to |details|
      invariant forall j :: 0 <= j < i ==> details[j].Detail?
      invariant totalShares == TotalShares(details[..i])
      invariant totalAmount == TotalAmount(details[..i], token)
    {
      var detail := details[i];
      if detail == NotARecord {
        FirstBadIs(details, i);
        return Price(fallback);
      }
      if detail == Incomplete {
        FirstBadIs(details, i);
        return Raised;
      }
      var price := detail.price;
      if detail.assetId != token {
        price := 1.0 - price;
      }
      totalShares := totalShares + detail.shares;
      totalAmount := totalAmount + detail.shares * price;
      assert details[..i + 1][..i] == details[..i];
    }
    assert details[..|details|] == details;
    FirstBadIs(details, |details|);
    if totalShares - shares > TOLERANCE || shares - totalShares > TOLERANCE {
      return Price(fallback);
    }
    return Price(totalAmount / shares);
  }

  lemma FirstBadIs(ds: seq<Detail>, i: nat)
    requires i <= |ds| && forall j :: 0 <= j < i ==> ds[j].Detail?
    requires i < |ds| ==> !ds[i].Detail?
    ensures FirstBad(ds) == i
  {
  }

  // ------------------------------------------------------------------- bounds

  /** All details are records of non-negative size whose price, seen from `token`, is between `low` and `high`. */
  predicate Priced(ds: seq<Detail>, token: string, low: real, high: real) {
    forall d :: d in ds ==>
      && d.Detail? && d.shares >= 0.0
      && (if d.assetId == token then low <= d.price <= high else low <= 1.0 - d.price <= high)
  }

  /** The loop computed the price, rather than falling back. */
  predicate Computed(ds: seq<Detail>, shares: real) {
    ds != [] && shares > 0.0 && (forall d :: d in ds ==> d.Detail?) && WithinTolerance(TotalShares(ds), shares)
  }

  lemma ComputedPrice(fallback: real, ds: seq<Detail>, token: string, shares: real)
    requires Computed(ds, shares)
    ensures OverallPrice(fallback, Some(ds), token, shares) == Price(TotalAmount(ds, token) / shares)
  {
    FirstBadIs(ds, |ds|);
  }

  lemma PrefixPriced(ds: seq<Detail>, n: nat, token: string, low: real, high: real)
    requires Priced(ds, token, low, high) && n < |ds|
    ensures Priced(ds[..n], token, low, high)
    ensures ds[n].Detail? && ds[n].shares >= 0.0 && low <= Adjusted(ds[n], token) <= high
  {
    assert ds[n] in ds && forall e :: e in ds[..n] ==> e in ds;
  }

  lemma {:induction false} AmountBounds(ds: seq<Detail>, token: string, low: real, high: real)
    requires Priced(ds, token, low, high)
    ensures TotalShares(ds) >= 0.0
    ensures low * TotalShares(ds) <= TotalAmount(ds, token) <= high * TotalShares(ds)
  {
    hide Adjusted, Priced;
    if ds != [] {
      var n := |ds| - 1;
      var d := ds[n];
      PrefixPriced(ds, n, token, low, high);
      AmountBounds(ds[..n], token, low, high);
      OneMore(low, high, TotalShares(ds[..n]), TotalAmount(ds[..n], token), d.shares, Adjusted(d, token));
    }
  }

  lemma OneMore(low: real, high: real, total: real, amount: real, shares: real, price: real)
    requires low * total <= amount <= high * total && shares >= 0.0 && low <= price <= high
    ensures low * (total + shares) <= amount + shares * price <= high * (total + shares)
  {
    ProductBounds(shares, low, price, high);
    Distributes(low, total, shares);
    Distributes(high, total, shares);
  }

  lemma ProductBounds(k: real, x: real, y: real, z: real)
    requires k >= 0.0 && x <= y <= z
    ensures x * k <= k * y <= z * k
  {
  }

  lemma Distributes(k: real, x: real, y: real)
    ensures k * (x + y) == k * x + k * y
  {
  }

  /** The price lies between the lowest and the highest maker price, scaled by total over overall shares. */
  lemma PriceBetween(fallback: real, ds: seq<Detail>, token: string, shares: real, low: real, high: real)
    requires Computed(ds, shares) && Priced(ds, token, low, high)
    ensures var p := OverallPrice(fallback, Some(ds), token, shares);
            p.Price? && Between(p.value, low, high, TotalShares(ds) / shares)
  {
    hide OverallPrice, Between, TotalShares, TotalAmount;
    ComputedPrice(fallback, ds, token, shares);
    AmountBounds(ds, token, low, high);
    ScaledBounds(low, high, TotalShares(ds), TotalAmount(ds, token), shares);
  }

  predicate Between(x: real, low: real, high: real, scale: real) { low * scale <= x <= high * scale }

  lemma ScaledBounds(low: real, high: real, total: real, amount: real, shares: real)
    requires low * total <= amount <= high * total && shares > 0.0
    ensures Between(amount / shares, low, high, total / shares)
  {
    DivideOrder(low * total, amount, shares);
    DivideOrder(amount, high * total, shares);
    MoveDivision(low, total, shares);
    MoveDivision(high, total, shares);
  }

  lemma DivideOrder(x: real, y: real, k: real)
    requires k > 0.0 && x <= y
    ensures x / k <= y / k
  {
  }

  lemma MoveDivision(x: real, y: real, k: real)
    requires k != 0.0
    ensures x * y / k == x * (y / k)
  {
  }

  /** It is off the true weighted average by at most the highest price times the tolerance, per share. */
  lemma PriceNearAverage(fallback: real, ds: seq<Detail>, token: string, shares: real, high: real)
    requires Computed(ds, shares) && Priced(ds, token, 0.0, high) && TotalShares(ds) > 0.0
    ensures var p, average := OverallPrice(fallback, Some(ds), token, shares), TotalAmount(ds, token) / TotalShares(ds);
            && p.Price?
            && -(high * TOLERANCE / shares) <= p.value - average <= high * TOLERANCE / shares
  {
    hide OverallPrice, TotalShares, TotalAmount;
    ComputedPrice(fallback, ds, token, shares);
    AmountBounds(ds, token, 0.0, high);
    var total, amount := TotalShares(ds), TotalAmount(ds, token);
    AverageGap(amount, total, shares, high);
  }

  lemma AverageGap(amount: real, total: real, shares: real, high: real)
    requires total > 0.0 && shares > 0.0 && WithinTolerance(total, shares)
    requires 0.0 <= amount <= high * total
    ensures -(high * TOLERANCE / shares) <= amount / shares - amount / total <= high * TOLERANCE / shares
  {
    AverageWithin(amount, total, high);
    GapOfAverage(amount, total, shares);
    GapBounds(amount / total, total - shares, high);
    GapDivided((amount / total) * (total - shares), high * TOLERANCE, shares);
  }

  lemma AverageWithin(amount: real, total: real, high: real)
    requires total > 0.0 && 0.0 <= amount <= high * total
    ensures 0.0 <= amount / total <= high
  {
    DivideOrder(amount, high * total, total);
    DivideOrder(0.0, amount, total);
    CancelTotal(high, total);
  }

  lemma GapDivided(gap: real, bound: real, k: real)
    requires k > 0.0 && -bound <= gap <= bound
    ensures -(bound / k) <= gap / k <= bound / k
  {
    DivideOrder(gap, bound, k);
    DivideOrder(-bound, gap, k);
    NegateDivision(bound, k);
  }

  lemma CancelTotal(x: real, k: real)
    requires k != 0.0
    ensures x * k / k == x && 0.0 / k == 0.0
  {
  }

  lemma NegateDivision(x: real, k: real)
    requires k != 0.0
    ensures (-x) / k == -(x / k)
  {
  }

  lemma GapBounds(average: real, gap: real, high: real)
    requires 0.0 <= average <= high && -TOLERANCE <= gap <= TOLERANCE
    ensures -(high * TOLERANCE) <= average * gap <= high * TOLERANCE
  {
    ProductBounds(average, -TOLERANCE, gap, TOLERANCE);
    ProductBounds(TOLERANCE, 0.0, average, high);
  }

  lemma GapOfAverage(amount: real, total: real, shares: real)
    requires total > 0.0 && shares > 0.0
    ensures amount / shares - amount / total == (amount / total) * (total - shares) / shares
  {
    var average := amount / total;
    assert average * total == amount;
    SubtractOver(average * total, average, shares);
    Distributes(average, total, -shares);
  }

  lemma SubtractOver(x: real, y: real, k: real)
    requires k != 0.0
    ensures x / k - y == (x + y * (-k)) / k
  {
  }

  // ------------------------------------------------------------ what it averages

  /** All details are records on the token, or all on others, at one price. */
  predicate OnePrice(ds: seq<Detail>, token: string, own: bool, price: real) {
    forall d :: d in ds ==> d.Detail? && d.price == price && (d.assetId == token <==> own)
  }

  lemma {:induction false} OnePriceAmount(ds: seq<Detail>, token: string, own: bool, price: real)
    requires OnePrice(ds, token, own, price)
    ensures TotalAmount(ds, token) == (if own then price else 1.0 - price) * TotalShares(ds)
  {
    hide OnePrice, Adjusted;
    if ds != [] {
      var n := |ds| - 1;
      PrefixOnePrice(ds, n, token, own, price);
      OnePriceAmount(ds[..n], token, own, price);
      Distributes(if own then price else 1.0 - price, TotalShares(ds[..n]), ds[n].shares);
    }
  }

  lemma PrefixOnePrice(ds: seq<Detail>, n: nat, token: string, own: bool, price: real)
    requires OnePrice(ds, token, own, price) && n < |ds|
    ensures OnePrice(ds[..n], token, own, price)
    ensures ds[n].Detail? && Adjusted(ds[n], token) == if own then price else 1.0 - price
  {
    assert ds[n] in ds && forall d :: d in ds[..n] ==> d in ds;
  }

  /** Details at one price give that price, or one less it when they are on the other token. */
  lemma OnePriceIsThePrice(fallback: real, ds: seq<Detail>, token: string, shares: real, own: bool, price: real)
    requires Computed(ds, shares) && TotalShares(ds) == shares && OnePrice(ds, token, own, price)
    ensures OverallPrice(fallback, Some(ds), token, shares) == Price(if own then price else 1.0 - price)
  {
    hide OverallPrice, TotalAmount, TotalShares, OnePrice;
    ComputedPrice(fallback, ds, token, shares);
    OnePriceAmount(ds, token, own, price);
    CancelTotal(if own then price else 1.0 - price, shares);
  }

  lemma TotalsOneMore(ds: seq<Detail>, d: Detail, token: string)
    requires d.Detail? && forall e :: e in ds ==> e.Detail?
    ensures forall e :: e in ds + [d] ==> e.Detail?
    ensures TotalShares(ds + [d]) == TotalShares(ds) + d.shares
    ensures TotalAmount(ds + [d], token) == TotalAmount(ds, token) + d.shares * Adjusted(d, token)
  {
    hide Adjusted;
    assert (ds + [d])[..|ds|] == ds;
  }

  lemma NoTotals(ds: seq<Detail>, token: string)
    requires ds == []
    ensures TotalShares(ds) == 0.0 && TotalAmount(ds, token) == 0.0
  {
  }

  lemma {:induction false} TotalsAdd(xs: seq<Detail>, ys: seq<Detail>, zs: seq<Detail>, token: string)
    requires zs == xs + ys && forall d :: d in zs ==> d.Detail?
    ensures (forall d :: d in xs ==> d.Detail?) && (forall d :: d in ys ==> d.Detail?)
    ensures TotalShares(zs) == TotalShares(xs) + TotalShares(ys)
    ensures TotalAmount(zs, token) == TotalAmount(xs, token) + TotalAmount(ys, token)
  {
    hide TotalShares, TotalAmount, Adjusted;
    forall d | d in xs || d in ys
      ensures d in zs
    {
    }
    if ys == [] {
      assert zs == xs;
      NoTotals(ys, token);
    } else {
      var n := |ys| - 1;
      assert ys == ys[..n] + [ys[n]] && zs == (xs + ys[..n]) + [ys[n]];
      TotalsAdd(xs, ys[..n], xs + ys[..n], token);
      TotalsOneMore(ys[..n], ys[n], token);
      TotalsOneMore(xs + ys[..n], ys[n], token);
    }
  }

  /** What the trade cost in all: its price times its shares. */
  function Cost(p: TradePrice, shares: real): real
    requires p.Price?
  {
    p.value * shares
  }

  /** The details of two trades in one list cost what the two trades cost: every detail weighs by its shares. */
  lemma CostsAdd(fallback: real, xs: seq<Detail>, ys: seq<Detail>, token: string, a: real, b: real, both: real)
    requires Computed(xs, a) && Computed(ys, b) && Computed(xs + ys, both)
    ensures var p, q := OverallPrice(fallback, Some(xs), token, a), OverallPrice(fallback, Some(ys), token, b);
            var r := OverallPrice(fallback, Some(xs + ys), token, both);
            p.Price? && q.Price? && r.Price? && Cost(r, both) == Cost(p, a) + Cost(q, b)
  {
    hide OverallPrice, TotalAmount, TotalShares;
    ComputedPrice(fallback, xs, token, a);
    ComputedPrice(fallback, ys, token, b);
    ComputedPrice(fallback, xs + ys, token, both);
    TotalsAdd(xs, ys, xs + ys, token);
    TimesBack(TotalAmount(xs, token), a);
    TimesBack(TotalAmount(ys, token), b);
    TimesBack(TotalAmount(xs + ys, token), both);
  }

  lemma TimesBack(x: real, k: real)
    requires k != 0.0
    ensures x / k * k == x
  {
  }

  /** The first entry that is no usable record: none, or one of either kind at this position. */
  predicate FirstUnusable(ds: seq<Detail>, i: nat) {
    i < |ds| && !ds[i].Detail? && forall j :: 0 <= j < i ==> ds[j].Detail?
  }

  /** When the message price stands: no list or nothing traded, an entry that is no record, or shares that do not add up. */
  lemma FallsBackOrRaises(fallback: real, makerOrders: Option<seq<Detail>>, token: string, shares: real, i: nat)
    ensures var r := OverallPrice(fallback, makerOrders, token, shares);
            && (makerOrders == None || makerOrders == Some([]) || shares <= 0.0 ==> r == Price(fallback))
            && (makerOrders.Some? && shares > 0.0 && FirstUnusable(makerOrders.value, i) ==>
                  r == if makerOrders.value[i] == Incomplete then Raised else Price(fallback))
            && (makerOrders.Some? && makerOrders.value != [] && shares > 0.0
                && (forall d :: d in makerOrders.value ==> d.Detail?) ==>
                  var ds := makerOrders.value;
                  var off := TotalShares(ds) - shares;
                  r == Price(if -0.000001 <= off <= 0.000001 then TotalAmount(ds, token) / shares else fallback))
  {
    hide TotalAmount, TotalShares;
    if makerOrders.Some? {
      var ds := makerOrders.value;
      if FirstUnusable(ds, i) { FirstBadIs(ds, i); }
      if forall d :: d in ds ==> d.Detail? { FirstBadIs(ds, |ds|); }
    }
  }

  // --------------------------------------------------------------- complement

  /** Every detail is on one of the two tokens of the pair. */
  predicate OnPair(ds: seq<Detail>, a: string, b: string) {
    a != b && forall d :: d in ds ==> d.Detail? && (d.assetId == a || d.assetId == b)
  }

  lemma {:induction false} AmountsComplete(ds: seq<Detail>, a: string, b: string)
    requires OnPair(ds, a, b)
    ensures TotalAmount(ds, a) + TotalAmount(ds, b) == TotalShares(ds)
  {
    hide OnPair, Adjusted;
    if ds != [] {
      var n := |ds| - 1;
      PrefixOnPair(ds, n, a, b);
      AmountsComplete(ds[..n], a, b);
      OneMoreComplete(ds[n], a, b);
    }
  }

  lemma PrefixOnPair(ds: seq<Detail>, n: nat, a: string, b: string)
    requires OnPair(ds, a, b) && n < |ds|
    ensures OnPair(ds[..n], a, b) && OnPair([ds[n]], a, b)
  {
    assert ds[n] in ds && forall e :: e in ds[..n] ==> e in ds;
  }

  lemma OneMoreComplete(d: Detail, a: string, b: string)
    requires OnPair([d], a, b)
    ensures d.shares * Adjusted(d, a) + d.shares * Adjusted(d, b) == d.shares
  {
    assert d in [d];
    Distributes(d.shares, d.price, 1.0 - d.price);
  }

  /** Seen from the other token the same trade costs one less the price, if and only if the totals agree exactly. */
  lemma SwitchIsComplement(fallback: real, ds: seq<Detail>, a: string, b: string, shares: real)
    requires Computed(ds, shares) && OnPair(ds, a, b)
    ensures var p, q := OverallPrice(fallback, Some(ds), a, shares), OverallPrice(fallback, Some(ds), b, shares);
            p.Price? && q.Price? && (q.value == 1.0 - p.value <==> TotalShares(ds) == shares)
  {
    hide OverallPrice, TotalAmount, TotalShares;
    ComputedPrice(fallback, ds, a, shares);
    ComputedPrice(fallback, ds, b, shares);
    AmountsComplete(ds, a, b);
    var x, y := TotalAmount(ds, a), TotalAmount(ds, b);
    AddOver(x, y, shares);
    RatioIsOne(x + y, shares);
  }

  lemma AddOver(x: real, y: real, k: real)
    requires k != 0.0
    ensures x / k + y / k == (x + y) / k
  {
  }

  lemma RatioIsOne(x: real, k: real)
    requires k != 0.0
    ensures x / k == 1.0 <==> x == k
  {
    assert x / k * k == x;
  }
}
