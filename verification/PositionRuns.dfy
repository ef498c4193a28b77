/**
 Positions over whole runs: the money ledger and the shape of a position hold in
 every interleaving, whatever the feeds repeat, reorder or take back.
 */
module PositionRuns {
  import opened Desk
  import opened Domain
  import opened Fees
  import opened Ledger
  import opened Manager
  import opened Orders
  import opened Positions
  import opened Rounding

  /** Positions are the replay of the postings, and every order is of the desk's market. */
  ghost predicate InRecords(d: Desk) {
    && d.market.WellFormed() && Replayed(d.mgr, d.postings)
    && forall i :: 0 <= i < |d.mgr.orders| ==> d.mgr.orders[i].market == d.market
  }

  lemma StepKeepsRecorded(d: Desk, a: Action)
    requires Enabled(d, a) && InRecords(d)
    ensures InRecords(Act(d, a))
  {
    hide Replayed, HandleTradeEvent, SettleMarket;
    if a.TradeArrives? {
      TradeKeepsReplayed(d.mgr, d.postings, a.trade);
    } else if a.Settles? {
      if SettleMarket(d.mgr, d.market, a.outcome).Settled? { SettlementReplayed(d, a.outcome); }
    } else {
      PositionsKept(d, a);
      SamePositionsReplayed(d.mgr, NextManager(d, a), d.postings);
    }
    OrdersAfter(d, a);
    MarketsKept(d, a, NextManager(d, a).orders);
  }

  lemma MarketsKept(d: Desk, a: Action, after: seq<Order>)
    requires OrdersFollow(d, a, after)
    requires forall i :: 0 <= i < |d.mgr.orders| ==> d.mgr.orders[i].market == d.market
    ensures forall i :: 0 <= i < |after| ==> after[i].market == d.market
  {
    forall i | 0 <= i < |d.mgr.orders|
      ensures after[i].market == d.market
    {
      var step := StepOf(d, a);
      if !(step.Some? && Find(d.mgr.orders, step.value.0) == i) {
        assert SameButTrades(d.mgr.orders[i], after[i]);
      }
    }
  }

  lemma {:induction false} RecordedReached(ds: seq<Desk>, acts: seq<Action>, k: nat)
    requires Trace(ds, acts) && k < |ds|
    ensures InRecords(ds[k])
  {
    if k > 0 {
      RecordedReached(ds, acts, k - 1);
      StepKeepsRecorded(ds[k - 1], acts[k - 1]);
    }
  }

  /**
   The money ledger: in every reachable state the realized profit of a token is its sell
   cash less its buy cash, with payouts, remaining cost and written-off cost, up to one
   millionth for each sale that hit a rounding tie. It needs no assumption on the feeds.
   */
  lemma MoneyLedgerHolds(ds: seq<Desk>, acts: seq<Action>, k: nat, token: TokenId)
    requires Trace(ds, acts) && k < |ds|
    ensures var p, books := PositionOf(ds[k].mgr, token), Replay(ds[k].postings, token).books;
            var exact := books.sellCash - books.buyCash + books.payouts + p.cost + books.droppedCost;
            p.pnl - exact <= books.ties && exact - p.pnl <= books.ties && books.ties <= books.sells
  {
    RecordedReached(ds, acts, k);
    MoneyLedger(ds[k].postings, token);
  }

  /**
   Trades of the feed have non-negative sizes and prices between nothing and one. Should the
   fee rate exceed one, a trade first reported as a buy stays one: the cash of a report is
   that of its own side, and a sell's is negative once the fee exceeds the gross amount.
   */
  ghost predicate SaneTrade(d: Desk, a: Action) {
    a.TradeArrives? ==>
      && a.trade.shares >= 0 && 0.0 <= a.trade.price <= 1.0
      && (d.market.feeRate <= 1.0 || (PriorTrade(d.mgr, a.trade).side == Buy ==> a.trade.side == Buy))
  }

  ghost predicate PostingsSane(ps: seq<Posting>) {
    forall i :: 0 <= i < |ps| ==> NonNegative(ps[i])
  }

  lemma FillSane(d: Desk, e: TradeEvent)
    requires InRecords(d) && Accepts(d.mgr, e) && SaneTrade(d, TradeArrives(e)) && 0.0 <= d.market.feeRate
    ensures NonNegative(PostingFor(d.mgr, e))
  {
    if e.side == Buy {
      BuyCashNonNegative(d.market, e.role, e.shares, e.price);
    } else if d.market.feeRate <= 1.0 {
      SellCashNonNegative(d.market, e.role, e.shares, e.price);
    }
  }

  lemma StepKeepsSane(d: Desk, a: Action)
    requires Enabled(d, a) && InRecords(d) && SaneTrade(d, a) && PostingsSane(d.postings)
    requires 0.0 <= d.market.feeRate
    ensures PostingsSane(NextPostings(d, a))
  {
    hide InRecords, PostingFor, SaneTrade;
    if a.TradeArrives? && Confirms(d.mgr, a.trade) { FillSane(d, a.trade); }
  }

  lemma {:induction false} SaneReached(ds: seq<Desk>, acts: seq<Action>, k: nat)
    requires Trace(ds, acts) && k < |ds| && 0.0 <= ds[0].market.feeRate
    requires forall n :: 0 <= n < |acts| ==> SaneTrade(ds[n], acts[n])
    ensures PostingsSane(ds[k].postings) && ds[k].market == ds[0].market
  {
    hide SaneTrade, PostingsSane, InRecords, Enabled, NextPostings, NextManager;
    if k == 0 {
      NonePosted(ds[0]);
    } else {
      SaneReached(ds, acts, k - 1);
      RecordedReached(ds, acts, k - 1);
      StepKeepsSane(ds[k - 1], acts[k - 1]);
    }
  }

  lemma NonePosted(d: Desk)
    requires Initial(d)
    ensures PostingsSane(d.postings)
  {
  }

  /** In every run with sane trades every position is flat, or above dust with a non-negative cost. */
  lemma PositionShapeHolds(ds: seq<Desk>, acts: seq<Action>, k: nat, token: TokenId)
    requires Trace(ds, acts) && k < |ds| && 0.0 <= ds[0].market.feeRate
    requires forall n :: 0 <= n < |acts| ==> SaneTrade(ds[n], acts[n])
    ensures PositionOf(ds[k].mgr, token).Shaped()
  {
    RecordedReached(ds, acts, k);
    SaneReached(ds, acts, k);
    forall p | p in ds[k].postings
      ensures NonNegative(p)
    {
    }
    ReplayShape(ds[k].postings, token);
  }

  lemma FeeAboveCash(market: Market)
    requires market.feeRate == 8.0
    ensures CashAmount(market, Sell, Taker, 1_000_000, 0.5) == -1_500_000
  {
    RoundWhole(500_000);
    assert Raw(8.0, 1_000_000, 0.5) / 10.0 == 200_000.0;
  }

  /** The side matters: at a rate of 8 a trade seen as a buy and mined as a sell leaves a negative cost. */
  lemma SideChangeBreaksShape()
    ensures var up := Token("up", "Up", "m");
            var order := NewOrder("o", Market("m", up, Token("dn", "Down", "m"), 8.0), up, Buy, Taker, 0.5, 1_000_000);
            var seen := TradeEvent(0, "m", "up", "o", "t", TradeMatched, 1_000_000, Buy, Taker, 0.5);
            var mined := seen.(status := Mined, side := Sell);
            var p := PositionOf(HandleTradeEvent(HandleTradeEvent(Insert(EMPTY, order), seen), mined), "up");
            p == Position(-1_500_000, 1_000_000, 0) && !p.Shaped()
  {
    hide CashAmount;
    var up := Token("up", "Up", "m");
    var order := NewOrder("o", Market("m", up, Token("dn", "Down", "m"), 8.0), up, Buy, Taker, 0.5, 1_000_000);
    var seen := TradeEvent(0, "m", "up", "o", "t", TradeMatched, 1_000_000, Buy, Taker, 0.5);
    FeeAboveCash(order.market);
    SoleOrderRecords(order, map[], map[], seen);
    var first := HandleTradeEvent(Insert(EMPTY, order), seen);
    SoleOrderRecords(order.(tradeIds := ["t"]), first.trades, first.positions, seen.(status := Mined, side := Sell));
  }
}
