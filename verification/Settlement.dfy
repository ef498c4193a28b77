/**
 Settlement and the sells in flight. What settlement spares is a sum over the manager's sells
 in which a sell whose confirmation overtook its order event counts negative; so it may be
 less than what the settling sells are still going to take.
 */
module Settlement {
  import opened Desk
  import opened Domain
  import opened Ledger
  import opened Manager
  import opened Orders
  import opened PositionRuns
  import opened Positions
  import opened Rounding
  import opened Seqs

  function SellSettling(token: TokenId, trades: map<TradeId, Trade>): Order -> Micro {
    (o: Order) => if InBucket(o, token, Sell) then Max(Settling(o, trades), 0) else 0
  }

  function SellAhead(token: TokenId, trades: map<TradeId, Trade>): Order -> Micro {
    (o: Order) => if InBucket(o, token, Sell) then Max(-Settling(o, trades), 0) else 0
  }

  /** Matched shares of sells that are not yet on chain. */
  function ToSell(s: State, token: TokenId): Micro {
    Sum(s.orders, SellSettling(token, s.trades))
  }

  /** Shares of sells that are on chain ahead of their order events. */
  function SoldAhead(s: State, token: TokenId): Micro {
    Sum(s.orders, SellAhead(token, s.trades))
  }

  /** The manager's sum is the difference of the two. */
  lemma SettlingSplits(s: State, token: TokenId)
    ensures SettlingShares(s, token, Sell) == ToSell(s, token) - SoldAhead(s, token)
    ensures ToSell(s, token) >= 0 && SoldAhead(s, token) >= 0
  {
    SumPlus(s.orders, SettlingOf(token, Sell, s.trades), SellAhead(token, s.trades), SellSettling(token, s.trades));
    SumNonNegative(s.orders, SellSettling(token, s.trades));
    SumNonNegative(s.orders, SellAhead(token, s.trades));
  }

  predicate OfMarket(m: Market, token: TokenId) { token == m.yesToken.id || token == m.noToken.id }

  /** A settlement is accepted if and only if the outcome is that of one of the tokens, in small or capital letters. */
  lemma SettledIff(s: State, m: Market, outcome: string)
    ensures SettleMarket(s, m, outcome).Settled?
       <==> SameLetters(outcome, m.yesToken.outcome) || SameLetters(outcome, m.noToken.outcome)
  {
    hide Lower, SameLetters, SettleToken;
    LowerIgnoresCase(outcome, m.yesToken.outcome);
    LowerIgnoresCase(outcome, m.noToken.outcome);
  }

  /** The token wins: the first one if the outcome is its own, and otherwise the second. */
  predicate Wins(m: Market, outcome: string, token: TokenId) {
    SameLetters(outcome, m.yesToken.outcome) == (token == m.yesToken.id)
  }

  /** What settlement does to the position of either token. */
  lemma MarketSettlesToken(s: State, m: Market, outcome: string, token: TokenId)
    requires m.WellFormed() && OfMarket(m, token) && SettleMarket(s, m, outcome).Settled?
    ensures PositionOf(SettleMarket(s, m, outcome).state, token)
         == Settle(PositionOf(s, token), SettlingShares(s, token, Sell), Wins(m, outcome, token))
  {
    hide SettlingShares, Lower, SameLetters;
    LowerIgnoresCase(outcome, m.yesToken.outcome);
    var yesWins := Lower(outcome) == m.yesToken.Key();
    var first, second := if yesWins then m.yesToken.id else m.noToken.id, if yesWins then m.noToken.id else m.yesToken.id;
    var mid := SettleToken(s, first, true);
    SettleTokenKeeps(s, first, true);
    SettleTokenKeeps(mid, second, false);
    SettlingByOrders(s, mid, token);
    var after, p, closeSettling := SettleToken(mid, second, false), PositionOf(s, token), SettlingShares(s, token, Sell);
    assert PositionOf(after, token) == Settle(p, closeSettling, token == first);
  }

  /** What a settlement pays out of a token: all that is held but what is settling away. */
  function Payable(s: State, token: TokenId): Micro {
    var p := PositionOf(s, token);
    p.shares - Min(Max(SettlingShares(s, token, Sell), 0), p.shares)
  }

  /**
   An accepted settlement on the position of either token: nothing when it holds or would pay at
   most dust. Otherwise the payable shares go with their share of the cost, rounded to a
   millionth, and the profit gains the shares, if the token wins, less that cost.
   */
  lemma WinnerIsPaid(s: State, m: Market, outcome: string, token: TokenId, exact: real)
    requires m.WellFormed() && OfMarket(m, token)
    requires SameLetters(outcome, m.yesToken.outcome) || SameLetters(outcome, m.noToken.outcome)
    requires CostOf(PositionOf(s, token), Payable(s, token), exact)
    ensures SettleMarket(s, m, outcome).Settled?
    ensures var p, q := PositionOf(s, token), PositionOf(SettleMarket(s, m, outcome).state, token);
            var payable := Payable(s, token);
            if p.shares <= 10_000 || payable <= 10_000 then q == p else
            var cost := p.pnl + (if Wins(m, outcome, token) then payable else 0) - q.pnl;
            NearestEven(exact, cost) && WithoutDust(Position(p.cost - cost, p.shares - payable, q.pnl), q)
  {
    hide SettlingShares, SettleMarket, NearestEven, Settle, SameLetters, CostOf;
    SettledIff(s, m, outcome);
    MarketSettlesToken(s, m, outcome, token);
    PaysPayable(PositionOf(s, token), SettlingShares(s, token, Sell), Wins(m, outcome, token), exact);
  }

  /** More than dust of the token is payable, at this exact cost. */
  predicate PaysAt(s: State, token: TokenId, exact: real) {
    Payable(s, token) > 10_000 && CostOf(PositionOf(s, token), Payable(s, token), exact)
  }

  function Gain(s: State, t: State, token: TokenId): Micro {
    PositionOf(t, token).pnl - PositionOf(s, token).pnl
  }

  /**
   The outcome is reported in capitals while the tokens are named "Up" and "Down": the profit of
   the token reported gains its payable shares less their cost, that of the other loses the cost.
   */
  lemma UpOrDown(s: State, m: Market, up: bool, yesCost: real, noCost: real)
    requires m.yesToken.outcome == "Up" && m.noToken.outcome == "Down" && m.WellFormed()
    requires PaysAt(s, m.yesToken.id, yesCost) && PaysAt(s, m.noToken.id, noCost)
    ensures var r := SettleMarket(s, m, if up then "UP" else "DOWN");
            && r.Settled?
            && NearestEven(yesCost, (if up then Payable(s, m.yesToken.id) else 0) - Gain(s, r.state, m.yesToken.id))
            && NearestEven(noCost, (if up then 0 else Payable(s, m.noToken.id)) - Gain(s, r.state, m.noToken.id))
  {
    hide SettlingShares, SettleMarket, NearestEven, PositionOf, CostOf;
    var outcome := if up then "UP" else "DOWN";
    WinnerIsPaid(s, m, outcome, m.yesToken.id, yesCost);
    WinnerIsPaid(s, m, outcome, m.noToken.id, noCost);
  }

  lemma SettlingByOrders(s: State, t: State, token: TokenId)
    requires s.orders == t.orders && s.trades == t.trades
    ensures SettlingShares(s, token, Sell) == SettlingShares(t, token, Sell)
  {
  }

  /**
   Settlement leaves exactly the shares of the settling sells, or none when those are dust,
   if and only if no sell is ahead of its order event while more than dust is to be sold; or,
   when nothing is paid, if that is what is held.
   */
  lemma SettlementLeaves(s: State, m: Market, outcome: string, token: TokenId)
    requires m.WellFormed() && OfMarket(m, token) && SettleMarket(s, m, outcome).Settled?
    ensures var p, toSell, ahead := PositionOf(s, token), ToSell(s, token), SoldAhead(s, token);
            var due := if toSell > DUST then toSell else 0;
            (PositionOf(SettleMarket(s, m, outcome).state, token).shares == due
             <==> if Pays(p, toSell - ahead) then ahead == 0 || due == 0 else p.shares == due)
  {
    hide SettleMarket, SettlingShares;
    MarketSettlesToken(s, m, outcome, token);
    SettlingSplits(s, token);
  }

  /** Every share will be paid out or sold once: no sell is ahead, or none is to be sold, or the sells are all that is held. */
  predicate OnceEach(s: State, token: TokenId) {
    var p, toSell, ahead := PositionOf(s, token), ToSell(s, token), SoldAhead(s, token);
    if Pays(p, toSell - ahead) then ahead == 0 || toSell == 0 else toSell == p.shares
  }

  lemma OnceEachIsSpared(s: State, token: TokenId)
    ensures OnceEach(s, token) <==> ToSell(s, token) == Spared(PositionOf(s, token), SettlingShares(s, token, Sell))
  {
    SettlingSplits(s, token);
  }

  /**
   Settlement followed by the confirmation of exactly the settling sells: every share held is
   either paid out or sold, never both, if and only if `OnceEach`.
   */
  lemma SettleThenConfirmSells(s: State, ps: seq<Posting>, token: TokenId, wins: bool, sales: seq<Posting>)
    requires Replayed(s, ps) && PositionOf(s, token).Shaped()
    requires SalesOf(sales, token) && SharesSold(sales) == ToSell(s, token)
    ensures var a := Replay(ps, token);
            var b := Replay(ps + [Payout(token, wins, SettlingShares(s, token, Sell))] + sales, token);
            && ((b.books.paid - a.books.paid) + (b.books.sold - a.books.sold) == PositionOf(s, token).shares
                <==> OnceEach(s, token))
            && (OnceEach(s, token) ==> b.pos.shares == 0 && b.books.dropped == a.books.dropped)
  {
    hide Replay, OnceEach, SettlingShares;
    assert PositionOf(s, token) == Replay(ps, token).pos;
    SettleThenConfirm(ps, token, wins, SettlingShares(s, token, Sell), sales);
    OnceEachIsSpared(s, token);
  }

  // ------------------------------------------------------------------------ runs

  predicate SettlesNow(d: Desk, a: Action) {
    a.Settles? && SettleMarket(d.mgr, d.market, a.outcome).Settled?
  }

  /** What the books of the token have paid out and sold from one state to another. */
  function PaidMeanwhile(from: Desk, to: Desk, token: TokenId): Micro {
    Replay(to.postings, token).books.paid - Replay(from.postings, token).books.paid
  }

  function SoldMeanwhile(from: Desk, to: Desk, token: TokenId): Micro {
    Replay(to.postings, token).books.sold - Replay(from.postings, token).books.sold
  }

  lemma SettlementPays(d: Desk, a: Action, token: TokenId)
    requires Enabled(d, a) && SettlesNow(d, a) && InRecords(d) && OfMarket(d.market, token)
    ensures PaidMeanwhile(d, Act(d, a), token)
         == PositionOf(d.mgr, token).shares - Spared(PositionOf(d.mgr, token), SettlingShares(d.mgr, token, Sell))
    ensures SoldMeanwhile(d, Act(d, a), token) == 0
  {
    hide SettlingShares, Replay, Spared, Post;
    var posted := SettlementPostings(d.mgr, d.market, a.outcome);
    var ps := d.postings;
    assert ps + posted == (ps + [posted[0]]) + [posted[1]];
    ReplayAppend(ps, posted[0], token);
    ReplayAppend(ps + [posted[0]], posted[1], token);
    var mine := if posted[0].token == token then posted[0] else posted[1];
    PayoutPosts(Replay(ps, token), mine);
    assert PositionOf(d.mgr, token) == Replay(ps, token).pos;
  }

  lemma OthersPayNothing(d: Desk, a: Action, token: TokenId)
    requires Enabled(d, a) && !SettlesNow(d, a)
    ensures PaidMeanwhile(d, Act(d, a), token) == 0
  {
    hide HandleTradeEvent;
    if a.TradeArrives? && Confirms(d.mgr, a.trade) {
      ReplayAppend(d.postings, PostingFor(d.mgr, a.trade), token);
      PostCounts(Replay(d.postings, token), PostingFor(d.mgr, a.trade));
    }
  }

  /** Settled at `j`, and not again before `k`. */
  ghost predicate SettledOnce(ds: seq<Desk>, acts: seq<Action>, j: nat, k: nat) {
    && Trace(ds, acts) && j < k < |ds| && SettlesNow(ds[j], acts[j])
    && forall n :: j < n < k ==> !SettlesNow(ds[n], acts[n])
  }

  lemma {:induction false} PaidOnlyThen(ds: seq<Desk>, acts: seq<Action>, j: nat, k: nat, token: TokenId)
    requires SettledOnce(ds, acts, j, k)
    ensures PaidMeanwhile(ds[j], ds[k], token) == PaidMeanwhile(ds[j], ds[j + 1], token)
    decreases k
  {
    hide PaidMeanwhile, SettlesNow, Initial, Act, Enabled;
    if k > j + 1 {
      PaidOnlyThen(ds, acts, j, k - 1, token);
      OthersPayNothing(ds[k - 1], acts[k - 1], token);
      PaidAdds(ds[j], ds[k - 1], ds[k], token);
    }
  }

  lemma PaidAdds(a: Desk, b: Desk, c: Desk, token: TokenId)
    ensures PaidMeanwhile(a, c, token) == PaidMeanwhile(a, b, token) + PaidMeanwhile(b, c, token)
  {
  }

  /**
   In every run, with nothing assumed: from a settlement at `j` to any later `k`, what is
   paid out and sold of the token is what was held at `j` if and only if what is sold is
   exactly what settlement spared.
   */
  lemma PaidOrSoldIff(ds: seq<Desk>, acts: seq<Action>, j: nat, k: nat, token: TokenId)
    requires SettledOnce(ds, acts, j, k) && OfMarket(ds[j].market, token)
    ensures var p := PositionOf(ds[j].mgr, token);
            (PaidMeanwhile(ds[j], ds[k], token) + SoldMeanwhile(ds[j], ds[k], token) == p.shares
             <==> SoldMeanwhile(ds[j], ds[k], token) == Spared(p, SettlingShares(ds[j].mgr, token, Sell)))
  {
    hide PaidMeanwhile, SoldMeanwhile, InRecords, Spared, SettlingShares, SettlesNow;
    PaidOnlyThen(ds, acts, j, k, token);
    RecordedReached(ds, acts, j);
    SettlementPays(ds[j], acts[j], token);
  }

  /** From `s` to `t` every sell of the token has confirmed what it had settling, and nothing else. */
  ghost predicate SellsConfirmed(s: State, t: State, token: TokenId) {
    && |s.orders| <= |t.orders|
    && forall i :: 0 <= i < |t.orders| && t.orders[i].token.id == token && t.orders[i].side == Sell ==>
         OnChainSettled(t.orders[i], t.trades) ==
         if i < |s.orders| then OnChainSettled(s.orders[i], s.trades) + Max(Settling(s.orders[i], s.trades), 0) else 0
  }

  lemma {:induction false} SumOfPrefix<T>(xs: seq<T>, n: nat, f: T -> int)
    requires n <= |xs| && forall i :: n <= i < |xs| ==> f(xs[i]) == 0
    ensures Sum(xs, f) == Sum(xs[..n], f)
  {
    if n < |xs| {
      SumOfPrefix(xs[..|xs| - 1], n, f);
      assert xs[..|xs| - 1][..n] == xs[..n];
    } else {
      assert xs[..n] == xs;
    }
  }

  lemma BucketTerms(o: Order, trades: map<TradeId, Trade>, token: TokenId)
    ensures SettledOf(token, Sell, trades)(o) == if InBucket(o, token, Sell) then OnChainSettled(o, trades) else 0
    ensures SellSettling(token, trades)(o) == if InBucket(o, token, Sell) then Max(Settling(o, trades), 0) else 0
  {
  }

  lemma ConfirmedSum(s: State, t: State, token: TokenId)
    requires SellsConfirmed(s, t, token)
    requires forall i :: 0 <= i < |s.orders| ==> t.orders[i].token == s.orders[i].token && t.orders[i].side == s.orders[i].side
    ensures SettledShares(t, token, Sell) == SettledShares(s, token, Sell) + ToSell(s, token)
  {
    var n, f, g := |s.orders|, SettledOf(token, Sell, s.trades), SettledOf(token, Sell, t.trades);
    var h := SellSettling(token, s.trades);
    var both := (o: Order) => f(o) + h(o);
    forall i | 0 <= i < n
      ensures both(s.orders[i]) == g(t.orders[i])
    {
      BucketTerms(s.orders[i], s.trades, token);
      BucketTerms(t.orders[i], t.trades, token);
    }
    forall i | n <= i < |t.orders|
      ensures g(t.orders[i]) == 0
    {
      BucketTerms(t.orders[i], t.trades, token);
    }
    SumOfPrefix(t.orders, n, g);
    SumSame(s.orders, t.orders[..n], both, g);
    SumPlus(s.orders, f, h, both);
  }

  lemma ConfirmedIsSold(ds: seq<Desk>, acts: seq<Action>, j: nat, k: nat, token: TokenId)
    requires Trace(ds, acts) && j <= k < |ds| && SellsConfirmed(ds[j].mgr, ds[k].mgr, token)
    requires forall n :: 0 <= n < |acts| && acts[n].TradeArrives? ==> StableTrade(ds[n].mgr, acts[n].trade)
    ensures SoldMeanwhile(ds[j], ds[k], token) == ToSell(ds[j].mgr, token)
  {
    hide SellsConfirmed, SettledShares, ToSell, StableTrade, Replay;
    BooksReached(ds, acts, j);
    BooksReached(ds, acts, k);
    forall i | 0 <= i < |ds[j].mgr.orders|
      ensures i < |ds[k].mgr.orders| && ds[k].mgr.orders[i].token == ds[j].mgr.orders[i].token
      ensures ds[k].mgr.orders[i].side == ds[j].mgr.orders[i].side
    {
      OrdersOnlyAdvance(ds, acts, j, k, i);
    }
    ConfirmedSum(ds[j].mgr, ds[k].mgr, token);
  }

  /**
   Over runs with stable trades: once the sells that were settling at the settlement are
   confirmed, and nothing else is sold, every share held then has been paid out or sold,
   never both, if and only if `OnceEach` held.
   */
  lemma SettledSellsOnce(ds: seq<Desk>, acts: seq<Action>, j: nat, k: nat, token: TokenId)
    requires SettledOnce(ds, acts, j, k) && OfMarket(ds[j].market, token)
    requires forall n :: 0 <= n < |acts| && acts[n].TradeArrives? ==> StableTrade(ds[n].mgr, acts[n].trade)
    requires SellsConfirmed(ds[j].mgr, ds[k].mgr, token)
    ensures PaidMeanwhile(ds[j], ds[k], token) + SoldMeanwhile(ds[j], ds[k], token) == PositionOf(ds[j].mgr, token).shares
       <==> OnceEach(ds[j].mgr, token)
  {
    hide PaidMeanwhile, SoldMeanwhile, SellsConfirmed, OnceEach, StableTrade, Spared, SettlingShares, ToSell, SettlesNow;
    PaidOrSoldIff(ds, acts, j, k, token);
    ConfirmedIsSold(ds, acts, j, k, token);
    OnceEachIsSpared(ds[j].mgr, token);
  }
}
