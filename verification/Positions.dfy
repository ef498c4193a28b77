/**
 One token's position: confirmed trades, the dust clamp and market settlement.

 A `Posting` is one change the manager makes to a position. `Replay` folds the
 postings of a token into the position and, beside it, into `Books`: totals
 that are kept independently of the position and that the ledgers compare with it.
 */
module Positions {
  import opened Domain
  import opened Rounding
  import opened Seqs

  /** Positions of at most 0.01 share are written off. */
  const DUST: Micro := 10_000

  datatype Position = Position(cost: Micro, shares: Micro, pnl: Micro) {
    function AvgPrice(): real {
      if shares <= DUST then 0.0 else cost as real / shares as real
    }

    predicate Shaped() {
      (shares == 0 && cost == 0) || (shares > DUST && cost >= 0)
    }
  }

  const FLAT := Position(0, 0, 0)

  function Clamp(p: Position): Position {
    if p.shares <= DUST then p.(cost := 0, shares := 0) else p
  }

  /** Cost share of a sale, the only quantity that is rounded twice. */
  function SoldCost(p: Position, shares: Micro): real {
    shares as real * p.AvgPrice()
  }

  /** A confirmed trade before the dust clamp. */
  function Traded(p: Position, side: Side, amount: Micro, shares: Micro): Position {
    match side
    case Buy => p.(cost := p.cost + amount, shares := p.shares + shares)
    case Sell =>
      var cost := SoldCost(p, shares);
      Position(Round(p.cost as real - cost), p.shares - shares, Round((p.pnl + amount) as real - cost))
  }

  function ApplyTrade(p: Position, side: Side, amount: Micro, shares: Micro): Position {
    Clamp(Traded(p, side, amount, shares))
  }

  /** Shares that settlement pays out: the holding less what settling sells will take. */
  function PayableShares(p: Position, closeSettling: Micro): Micro {
    Min(p.shares, Max(p.shares - closeSettling, 0))
  }

  predicate Pays(p: Position, closeSettling: Micro) {
    p.shares > DUST && PayableShares(p, closeSettling) > DUST
  }

  /** A payout before the dust clamp. */
  function PaidOut(p: Position, closeSettling: Micro, wins: bool): Position {
    var payable := PayableShares(p, closeSettling);
    var cost := Round(SoldCost(p, payable));
    Position(p.cost - cost, p.shares - payable, p.pnl + (if wins then payable else 0) - cost)
  }

  function Settle(p: Position, closeSettling: Micro, wins: bool): Position {
    if Pays(p, closeSettling) then Clamp(PaidOut(p, closeSettling, wins)) else p
  }

  /** `q` is `p` with its last dust written off. */
  predicate WithoutDust(p: Position, q: Position) {
    && q.pnl == p.pnl
    && (if p.shares <= 10_000 then q.cost == 0 && q.shares == 0 else q.cost == p.cost && q.shares == p.shares)
  }

  /** `cost` is the share of the position's cost that falls to `shares` of it; dust costs nothing. */
  predicate CostOf(p: Position, shares: Micro, cost: real) {
    if p.shares <= 10_000 then cost == 0.0 else cost * p.shares as real == shares as real * p.cost as real
  }

  lemma CostInProportion(p: Position, shares: Micro, cost: real)
    requires CostOf(p, shares, cost)
    ensures SoldCost(p, shares) == cost
  {
    if p.shares > 10_000 {
      var average, n := p.AvgPrice(), p.shares as real;
      assert average * n == p.cost as real;
      assert SoldCost(p, shares) * n == shares as real * (average * n);
    }
  }

  lemma WholeCost(p: Position, cost: real)
    requires p.shares > 10_000 && CostOf(p, p.shares, cost)
    ensures cost == p.cost as real
  {
    assert (cost - p.cost as real) * p.shares as real == 0.0;
  }

  /**
   What settlement does to a position: nothing, when it holds at most dust or at most dust that
   is not settling away; otherwise it takes the payable shares out with their share of the cost,
   rounded to a millionth, and the profit gains the shares, when they win, less that cost.
   */
  lemma PaysPayable(p: Position, closeSettling: Micro, wins: bool, exact: real)
    requires CostOf(p, p.shares - Min(Max(closeSettling, 0), p.shares), exact)
    ensures var q, payable := Settle(p, closeSettling, wins), p.shares - Min(Max(closeSettling, 0), p.shares);
            if p.shares <= 10_000 || payable <= 10_000 then q == p else
            var cost := p.pnl + (if wins then payable else 0) - q.pnl;
            && NearestEven(exact, cost)
            && WithoutDust(Position(p.cost - cost, p.shares - payable, q.pnl), q)
            && (payable == p.shares ==> cost == p.cost)
  {
    hide Round, NearestEven, SoldCost, CostOf;
    var payable := PayableShares(p, closeSettling);
    if Pays(p, closeSettling) {
      CostInProportion(p, payable, exact);
      RoundIsNearest(exact, Round(exact));
      if payable == p.shares {
        WholeCost(p, exact);
        RoundWhole(p.cost);
      }
    }
  }

  /**
   What a confirmed trade does to a position: a buy adds its amount and shares; a sell takes the
   shares out with their share of the cost, and the profit gains the amount less that cost.
   */
  lemma TradeApplied(p: Position, side: Side, amount: Micro, shares: Micro, exact: real)
    requires CostOf(p, shares, exact)
    ensures var q := ApplyTrade(p, side, amount, shares);
            if side == Buy then WithoutDust(Position(p.cost + amount, p.shares + shares, p.pnl), q)
            else var left := p.shares - shares;
                 && q.shares == (if left <= 10_000 then 0 else left)
                 && (if left <= 10_000 then q.cost == 0 else NearestEven(p.cost as real - exact, q.cost))
                 && NearestEven((p.pnl + amount) as real - exact, q.pnl)
  {
    hide Round, NearestEven, SoldCost;
    CostInProportion(p, shares, exact);
    RoundIsNearest(p.cost as real - exact, Round(p.cost as real - exact));
    RoundIsNearest((p.pnl + amount) as real - exact, Round((p.pnl + amount) as real - exact));
  }

  datatype Posting =
    | Fill(tradeId: TradeId, token: TokenId, side: Side, amount: Micro, shares: Micro)
    | Payout(token: TokenId, wins: bool, closeSettling: Micro)

  datatype Books = Books(
    bought: Micro, sold: Micro, paid: Micro, dropped: Micro,
    buyCash: Micro, sellCash: Micro, payouts: Micro, droppedCost: Micro,
    sells: nat, ties: nat)

  const EMPTY_BOOKS := Books(0, 0, 0, 0, 0, 0, 0, 0, 0, 0)

  datatype Account = Account(pos: Position, books: Books)

  const NEW_ACCOUNT := Account(FLAT, EMPTY_BOOKS)

  function Post(a: Account, p: Posting): Account {
    match p
    case Fill(_, _, Buy, amount, shares) =>
      var raw := Traded(a.pos, Buy, amount, shares);
      Account(Clamp(raw), WriteOff(a.books, raw).(
        bought := a.books.bought + shares, buyCash := a.books.buyCash + amount))
    case Fill(_, _, Sell, amount, shares) =>
      var raw := Traded(a.pos, Sell, amount, shares);
      var tie := if IsTie(SoldCost(a.pos, shares)) then 1 else 0;
      Account(Clamp(raw), WriteOff(a.books, raw).(
        sold := a.books.sold + shares, sellCash := a.books.sellCash + amount,
        sells := a.books.sells + 1, ties := a.books.ties + tie))
    case Payout(_, wins, closeSettling) =>
      if !Pays(a.pos, closeSettling) then a else
      var raw := PaidOut(a.pos, closeSettling, wins);
      var payable := PayableShares(a.pos, closeSettling);
      Account(Clamp(raw), WriteOff(a.books, raw).(
        paid := a.books.paid + payable,
        payouts := a.books.payouts + (if wins then payable else 0)))
  }

  /** Books what the dust clamp is about to remove from `raw`. */
  function WriteOff(b: Books, raw: Position): Books {
    b.(dropped := b.dropped + raw.shares - Clamp(raw).shares,
       droppedCost := b.droppedCost + raw.cost - Clamp(raw).cost)
  }

  function Replay(ps: seq<Posting>, token: TokenId): Account {
    if ps == [] then NEW_ACCOUNT else
    var before := Replay(ps[..|ps| - 1], token);
    var last := ps[|ps| - 1];
    if last.token == token then Post(before, last) else before
  }

  lemma ReplayAppend(ps: seq<Posting>, p: Posting, token: TokenId)
    ensures Replay(ps + [p], token) ==
            if p.token == token then Post(Replay(ps, token), p) else Replay(ps, token)
  {
    assert (ps + [p])[..|ps|] == ps;
  }

  // ---------------------------------------------------------------- ledgers

  /** No share appears or vanishes: holding, write-offs and payouts are buys less sells. */
  lemma {:induction false} ShareLedger(ps: seq<Posting>, token: TokenId)
    ensures var a := Replay(ps, token);
            a.pos.shares + a.books.dropped + a.books.paid == a.books.bought - a.books.sold
  {
    if ps != [] {
      ShareLedger(ps[..|ps| - 1], token);
    }
  }

  function MoneyDrift(a: Account): int {
    a.pos.pnl - (a.books.sellCash - a.books.buyCash + a.books.payouts + a.pos.cost + a.books.droppedCost)
  }

  lemma SaleDrift(p: Position, amount: Micro, shares: Micro)
    ensures var q := Traded(p, Sell, amount, shares);
            var drift := (q.pnl - q.cost) - (p.pnl + amount - p.cost);
            && -1 <= drift <= 1
            && (drift != 0 <==> IsTie(SoldCost(p, shares)) && (p.pnl + amount - p.cost) % 2 != 0)
  {
    RoundedDifference(p.pnl + amount, p.cost, SoldCost(p, shares));
  }

  /** The one source of drift: a sale whose cost share is a rounding tie against an odd difference. */
  lemma PostDrift(a: Account, p: Posting)
    ensures var drift := MoneyDrift(Post(a, p)) - MoneyDrift(a);
            && -1 <= drift <= 1
            && (drift != 0 <==> p.Fill? && p.side == Sell && IsTie(SoldCost(a.pos, p.shares))
                                && (a.pos.pnl + p.amount - a.pos.cost) % 2 != 0)
  {
    match p
    case Fill(_, _, Buy, amount, shares) =>
    case Fill(_, _, Sell, amount, shares) =>
      SaleDrift(a.pos, amount, shares);
      var raw := Traded(a.pos, Sell, amount, shares);
      var b := Post(a, p);
      assert b.pos.pnl == raw.pnl;
      assert b.pos.cost + b.books.droppedCost == raw.cost + a.books.droppedCost;
      assert b.books.sellCash == a.books.sellCash + amount;
      assert b.books.buyCash == a.books.buyCash && b.books.payouts == a.books.payouts;
    case Payout(_, wins, closeSettling) =>
  }

  /**
   Realized profit is cash in less cash out, up to one millionth for each sale
   that hits a rounding tie; without ties it is exact, and settlement adds nothing.
   */
  lemma {:induction false} MoneyLedger(ps: seq<Posting>, token: TokenId)
    ensures var a := Replay(ps, token);
            MoneyDrift(a) <= a.books.ties && -MoneyDrift(a) <= a.books.ties && a.books.ties <= a.books.sells
  {
    if ps != [] {
      var before, last := Replay(ps[..|ps| - 1], token), ps[|ps| - 1];
      MoneyLedger(ps[..|ps| - 1], token);
      PostDrift(before, last);
      TiesCounted(before, last);
    }
  }

  lemma TiesCounted(a: Account, p: Posting)
    ensures var b := Post(a, p);
            && b.books.ties - a.books.ties ==
               (if p.Fill? && p.side == Sell && IsTie(SoldCost(a.pos, p.shares)) then 1 else 0)
            && b.books.sells - a.books.sells == (if p.Fill? && p.side == Sell then 1 else 0)
  {
  }

  // ------------------------------------------------------------------ shape

  /** Selling at most the holding takes out at most its cost. */
  lemma CostShare(p: Position, shares: Micro)
    requires p.shares > DUST && p.cost >= 0 && 0 <= shares <= p.shares
    ensures 0.0 <= SoldCost(p, shares) <= p.cost as real
  {
    var avg := p.AvgPrice();
    assert avg * p.shares as real == p.cost as real;
    assert avg >= 0.0;
    ScaleOrder(avg, 0.0, shares as real);
    ScaleOrder(avg, shares as real, p.shares as real);
  }

  /** No shares are negative, nor what a buy costs; what a sell brings in may be. */
  predicate NonNegative(p: Posting) {
    p.Fill? ==> p.shares >= 0 && (p.side == Buy ==> p.amount >= 0)
  }

  lemma TradeKeepsShape(p: Position, side: Side, amount: Micro, shares: Micro)
    requires p.Shaped() && shares >= 0 && (side == Buy ==> amount >= 0)
    ensures ApplyTrade(p, side, amount, shares).Shaped()
  {
    if side == Sell && p.shares - shares > DUST {
      CostShare(p, shares);
      RoundMonotone(0.0, p.cost as real - SoldCost(p, shares));
      RoundWhole(0);
    }
  }

  lemma SettleKeepsShape(p: Position, closeSettling: Micro, wins: bool)
    requires p.Shaped()
    ensures Settle(p, closeSettling, wins).Shaped()
  {
    if Pays(p, closeSettling) {
      var payable := PayableShares(p, closeSettling);
      CostShare(p, payable);
      RoundMonotone(SoldCost(p, payable), p.cost as real);
      RoundWhole(p.cost);
    }
  }

  /** Posting is trading or settling, with books kept beside it. */
  lemma PostMoves(a: Account, p: Posting)
    ensures Post(a, p).pos == match p
      case Fill(_, _, side, amount, shares) => ApplyTrade(a.pos, side, amount, shares)
      case Payout(_, wins, closeSettling) => Settle(a.pos, closeSettling, wins)
  {
  }

  lemma PostKeepsShape(a: Account, p: Posting)
    requires a.pos.Shaped() && NonNegative(p)
    ensures Post(a, p).pos.Shaped()
  {
    PostMoves(a, p);
    match p
    case Fill(_, _, side, amount, shares) => TradeKeepsShape(a.pos, side, amount, shares);
    case Payout(_, wins, closeSettling) => SettleKeepsShape(a.pos, closeSettling, wins);
  }

  /** Every position the program can reach is flat, or above dust with a non-negative cost. */
  lemma {:induction false} ReplayShape(ps: seq<Posting>, token: TokenId)
    requires forall p :: p in ps ==> NonNegative(p)
    ensures Replay(ps, token).pos.Shaped()
  {
    if ps != [] {
      ReplayShape(ps[..|ps| - 1], token);
      PostKeepsShape(Replay(ps[..|ps| - 1], token), ps[|ps| - 1]);
    }
  }

  /** A partial sale moves the average price by at most half a millionth over the remaining shares. */
  lemma AvgPriceStable(p: Position, amount: Micro, shares: Micro)
    requires p.Shaped() && shares >= 0 && p.shares - shares > DUST
    ensures var q := ApplyTrade(p, Sell, amount, shares);
            -(0.5 / q.shares as real) <= q.AvgPrice() - p.AvgPrice() <= 0.5 / q.shares as real
  {
    var q := ApplyTrade(p, Sell, amount, shares);
    var avg, n := p.AvgPrice(), q.shares as real;
    assert avg * p.shares as real == p.cost as real;
    assert avg * n == p.cost as real - shares as real * avg by {
      assert p.shares as real == n + shares as real;
    }
    DivideBound(q.cost as real, avg, n);
  }

  lemma DivideBound(c: real, avg: real, n: real)
    requires n > 0.0 && -0.5 <= c - avg * n <= 0.5
    ensures -(0.5 / n) <= c / n - avg <= 0.5 / n
  {
    var d, h := c / n - avg, 0.5 / n;
    assert d * n == c - avg * n;
    assert h * n == 0.5 && (-d) * n == -(d * n);
    if d > h { ScaleStrictly(n, h, d); }
    if -d > h { ScaleStrictly(n, h, -d); }
  }

  lemma ScaleStrictly(k: real, x: real, y: real)
    requires k > 0.0 && x < y
    ensures x * k < y * k
  {
  }

  // ------------------------------------------------------------- settlement

  /** Settling again, for either outcome, changes nothing. */
  lemma SettleIdempotent(p: Position, closeSettling: Micro, wins: bool, again: bool)
    ensures Settle(Settle(p, closeSettling, wins), closeSettling, again) == Settle(p, closeSettling, wins)
  {
  }

  predicate SalesOf(ps: seq<Posting>, token: TokenId) {
    forall p :: p in ps ==> p.Fill? && p.side == Sell && p.token == token && p.shares >= 0
  }

  function SharesOf(p: Posting): Micro {
    if p.Fill? then p.shares else 0
  }

  /** What one sale does to holding and books. */
  lemma SalePosts(a: Account, p: Posting)
    requires p.Fill? && p.side == Sell && p.shares >= 0
    requires a.pos.shares >= 0
    ensures var b := Post(a, p);
            && 0 <= b.pos.shares <= Max(a.pos.shares - p.shares, 0)
            && b.books.sold == a.books.sold + p.shares
            && b.books.paid == a.books.paid && b.books.bought == a.books.bought
  {
  }

  function PostAll(a: Account, ps: seq<Posting>): Account
    decreases ps
  {
    if ps == [] then a else PostAll(Post(a, ps[0]), ps[1..])
  }

  lemma {:induction false} ReplayOnward(before: seq<Posting>, ps: seq<Posting>, token: TokenId)
    requires forall p :: p in ps ==> p.token == token
    ensures Replay(before + ps, token) == PostAll(Replay(before, token), ps)
    decreases ps
  {
    if ps == [] {
      assert before + ps == before;
    } else {
      assert before + ps == (before + [ps[0]]) + ps[1..];
      assert forall p :: p in ps[1..] ==> p in ps;
      ReplayAppend(before, ps[0], token);
      ReplayOnward(before + [ps[0]], ps[1..], token);
    }
  }

  function SharesSold(sales: seq<Posting>): Micro {
    if sales == [] then 0 else SharesOf(sales[0]) + SharesSold(sales[1..])
  }

  /** Sales that cover the holding end at a flat position, wherever the dust clamp strikes. */
  lemma {:induction false} SalesDrain(a: Account, sales: seq<Posting>, token: TokenId)
    requires SalesOf(sales, token) && a.pos.shares >= 0
    ensures var b := PostAll(a, sales);
            && 0 <= b.pos.shares <= Max(a.pos.shares - SharesSold(sales), 0)
            && b.books.sold == a.books.sold + SharesSold(sales) && SharesSold(sales) >= 0
            && b.books.paid == a.books.paid && b.books.bought == a.books.bought
    decreases sales
  {
    if sales != [] {
      assert sales[0] in sales && forall p :: p in sales[1..] ==> p in sales;
      SalePosts(a, sales[0]);
      SalesDrain(Post(a, sales[0]), sales[1..], token);
    }
  }

  /**
   Settlement, whatever it was told is settling, followed by any sales: every share of the
   holding is either paid out or sold, never both, if and only if the sales are exactly what
   settlement spared. Then the position ends flat and nothing is written off.
   */
  lemma SettleThenConfirm(ps: seq<Posting>, token: TokenId, wins: bool, closeSettling: Micro, sales: seq<Posting>)
    requires Replay(ps, token).pos.Shaped() && SalesOf(sales, token)
    ensures var a := Replay(ps, token);
            var b := Replay(ps + [Payout(token, wins, closeSettling)] + sales, token);
            var once := SharesSold(sales) == Spared(a.pos, closeSettling);
            && ((b.books.paid - a.books.paid) + (b.books.sold - a.books.sold) == a.pos.shares <==> once)
            && (once ==> b.pos.shares == 0 && b.books.dropped == a.books.dropped)
  {
    hide Post, Replay;
    var settled := ps + [Payout(token, wins, closeSettling)];
    ReplayAppend(ps, Payout(token, wins, closeSettling), token);
    PayoutPosts(Replay(ps, token), Payout(token, wins, closeSettling));
    ReplayOnward(settled, sales, token);
    SalesDrain(Replay(settled, token), sales, token);
    ShareLedger(ps, token);
    ShareLedger(settled + sales, token);
  }

  /** What settlement does not pay out. */
  function Spared(p: Position, closeSettling: Micro): Micro {
    if Pays(p, closeSettling) then Max(closeSettling, 0) else p.shares
  }

  /** What one payout does to holding and books. */
  lemma PayoutPosts(a: Account, p: Posting)
    requires p.Payout?
    ensures var b := Post(a, p);
            && b.books.sold == a.books.sold && b.books.bought == a.books.bought
            && b.pos.shares == (if !Pays(a.pos, p.closeSettling) then a.pos.shares
                                else if p.closeSettling > DUST then p.closeSettling else 0)
            && b.books.paid - a.books.paid == a.pos.shares - Spared(a.pos, p.closeSettling)
  {
  }

  /**
   Where it fails: one share is held, all but dust of it is in settling sells, and the
   rest, too little to pay out, is written off when the sells are confirmed.
   */
  lemma DustNeitherPaidNorSold()
    ensures var ps := [Fill("b", "up", Buy, 500_000, 1_000_000)];
            var sales := [Fill("s", "up", Sell, 500_000, 995_000)];
            var a, b := Replay(ps, "up"), Replay(ps + [Payout("up", true, SharesSold(sales))] + sales, "up");
            && a.pos.Shaped() && SalesOf(sales, "up") && SharesSold(sales) == 995_000 && a.pos.shares == 1_000_000
            && (b.books.paid - a.books.paid) + (b.books.sold - a.books.sold) == 995_000
            && b.pos.shares == 0 && b.books.dropped - a.books.dropped == 5_000
  {
    var buy, sale, pay := Fill("b", "up", Buy, 500_000, 1_000_000), Fill("s", "up", Sell, 500_000, 995_000),
                          Payout("up", true, 995_000);
    assert [buy] == [] + [buy] && SharesSold([sale]) == 995_000;
    ReplayAppend([], buy, "up");
    ReplayAppend([buy], pay, "up");
    ReplayAppend([buy] + [pay], sale, "up");
  }
}
