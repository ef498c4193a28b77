/**
 The share ledger over whole runs, with nothing assumed about the feeds: by how much each
 trade event shifts it, and so exactly when it holds.
 */
module LedgerRuns {
  import opened Desk
  import opened Domain
  import opened Ledger
  import opened Manager
  import opened Orders
  import opened PositionRuns
  import opened Positions
  import opened Rounding
  import opened Seqs

  function Signed(side: Side, x: int): int { if side == Buy then x else -x }

  /** A quantity of trades, totalled over an order of the token; sells count against it. */
  function NetOf(token: TokenId, f: TradeId -> Micro): Order -> Micro {
    (o: Order) => if o.token.id == token then Signed(o.side, Sum(o.tradeIds, f)) else 0
  }

  function NetSettled(s: State, token: TokenId): Micro {
    SettledShares(s, token, Buy) - SettledShares(s, token, Sell)
  }

  lemma NetIsSum(s: State, token: TokenId)
    ensures NetSettled(s, token) == Sum(s.orders, NetOf(token, SettledIn(s.trades)))
  {
    var settled := SettledIn(s.trades);
    SumPlus(s.orders, NetOf(token, settled), SettledOf(token, Sell, s.trades), SettledOf(token, Buy, s.trades));
  }

  function HolderOf(token: TokenId, t: TradeId): Order -> int {
    (o: Order) => if o.token.id == token && t in o.tradeIds then Signed(o.side, 1) else 0
  }

  /** How many buys of the token hold the trade, less how many sells. */
  function Holders(s: State, token: TokenId, t: TradeId): int {
    Sum(s.orders, HolderOf(token, t))
  }

  predicate Distinct(ids: seq<TradeId>) {
    forall i, j :: 0 <= i < j < |ids| ==> ids[i] != ids[j]
  }

  ghost predicate TradesDistinct(orders: seq<Order>) {
    forall i :: 0 <= i < |orders| ==> Distinct(orders[i].tradeIds)
  }

  function NowSettled(e: TradeEvent): Micro {
    if e.IsSuccess() then e.shares else 0
  }

  /**
   What an accepted event adds to settled buys less sells of the token, less what it adds to
   the books: every order that holds its trade counts the change, an order that takes the
   trade up counts it whole, and the books count it once, on the trade's own side and token.
   */
  function LedgerShift(s: State, e: TradeEvent, token: TokenId): int {
    if !Accepts(s, e) then 0 else
    var o, t := s.orders[Find(s.orders, e.orderId)], PriorTrade(s, e);
    Holders(s, token, e.tradeId) * (NowSettled(e) - t.settledShares)
    + (if e.tradeId !in o.tradeIds && o.token.id == token then Signed(o.side, NowSettled(e)) else 0)
    - (if Confirms(s, e) && t.tokenId == token then Signed(t.side, e.shares) else 0)
  }

  function BookedNet(ps: seq<Posting>, token: TokenId): Micro {
    Replay(ps, token).books.bought - Replay(ps, token).books.sold
  }

  // -------------------------------------------------------------- one trade event

  /** An order counts the change of a trade that it holds. */
  lemma HolderCounts(o: Order, token: TokenId, t: TradeId, f: TradeId -> Micro, g: TradeId -> Micro)
    requires Distinct(o.tradeIds) && forall u :: u != t ==> f(u) == g(u)
    ensures NetOf(token, g)(o) == NetOf(token, f)(o) + HolderOf(token, t)(o) * (g(t) - f(t))
  {
    if t in o.tradeIds {
      var k :| 0 <= k < |o.tradeIds| && o.tradeIds[k] == t;
      SumChange(o.tradeIds, o.tradeIds, k, f, g);
    } else {
      SumSame(o.tradeIds, o.tradeIds, f, g);
    }
  }

  lemma HandledIsRecord(s: State, e: TradeEvent)
    requires Accepts(s, e)
    ensures HandleTradeEvent(s, e).orders == Record(s, e).orders
    ensures HandleTradeEvent(s, e).trades == Record(s, e).trades
  {
  }

  /** Taking a trade up adds it whole, unless the order held it already. */
  lemma TakesUp(o: Order, token: TokenId, t: TradeId, g: TradeId -> Micro)
    ensures NetOf(token, g)(o.(tradeIds := AddTradeId(o.tradeIds, t))) == NetOf(token, g)(o)
          + (if t !in o.tradeIds && o.token.id == token then Signed(o.side, g(t)) else 0)
  {
    SumAppend(o.tradeIds, t, g);
  }

  /** What changing one trade does to an unchanged list of orders. */
  lemma NetCounts(orders: seq<Order>, token: TokenId, t: TradeId, f: TradeId -> Micro, g: TradeId -> Micro)
    requires TradesDistinct(orders) && forall u :: u != t ==> f(u) == g(u)
    ensures Sum(orders, NetOf(token, g)) == Sum(orders, NetOf(token, f)) + Sum(orders, HolderOf(token, t)) * (g(t) - f(t))
  {
    hide Distinct, NetOf, HolderOf;
    forall o | o in orders
      ensures NetOf(token, g)(o) == NetOf(token, f)(o) + HolderOf(token, t)(o) * (g(t) - f(t))
    {
      HolderCounts(o, token, t, f, g);
    }
    SumShift(orders, NetOf(token, f), NetOf(token, g), HolderOf(token, t), g(t) - f(t));
  }

  /** And what attaching it to its order adds. */
  lemma NetAttaches(s: State, e: TradeEvent, token: TokenId, g: TradeId -> Micro)
    requires Accepts(s, e)
    ensures var o := s.orders[Find(s.orders, e.orderId)];
            Sum(Record(s, e).orders, NetOf(token, g)) == Sum(s.orders, NetOf(token, g))
              + (if e.tradeId !in o.tradeIds && o.token.id == token then Signed(o.side, g(e.tradeId)) else 0)
  {
    hide RecordTrade, NetOf, AddTradeId;
    var i := Find(s.orders, e.orderId);
    SumChange(s.orders, Record(s, e).orders, i, NetOf(token, g), NetOf(token, g));
    TakesUp(s.orders[i], token, e.tradeId, g);
  }

  lemma NetMoves(s: State, e: TradeEvent, token: TokenId)
    requires Accepts(s, e) && TradesDistinct(s.orders)
    ensures var o := s.orders[Find(s.orders, e.orderId)];
            NetSettled(HandleTradeEvent(s, e), token) == NetSettled(s, token)
              + Holders(s, token, e.tradeId) * (NowSettled(e) - PriorTrade(s, e).settledShares)
              + (if e.tradeId !in o.tradeIds && o.token.id == token then Signed(o.side, NowSettled(e)) else 0)
  {
    hide Record, TradesDistinct, HandleTradeEvent, NetSettled, NetOf, HolderOf;
    var t, after := e.tradeId, HandleTradeEvent(s, e);
    var f, g := SettledIn(s.trades), SettledIn(after.trades);
    HandledIsRecord(s, e);
    OthersSettledAlike(s, e);
    OwnShares(s, e);
    NetCounts(s.orders, token, t, f, g);
    NetAttaches(s, e, token, g);
    NetIsSum(s, token);
    NetIsSum(after, token);
  }

  lemma BookedMoves(s: State, ps: seq<Posting>, e: TradeEvent, token: TokenId)
    ensures BookedNet(TradePostings(s, ps, e), token) == BookedNet(ps, token)
          + (if Confirms(s, e) && PriorTrade(s, e).tokenId == token then Signed(PriorTrade(s, e).side, e.shares) else 0)
  {
    if Confirms(s, e) {
      ReplayAppend(ps, PostingFor(s, e), token);
      PostCounts(Replay(ps, token), PostingFor(s, e));
    }
  }

  // ------------------------------------------------------------------- the steps

  /** The ledger of a token is off by this much. */
  function LedgerGap(d: Desk, token: TokenId): int {
    var books := Replay(d.postings, token).books;
    NetSettled(d.mgr, token) - (PositionOf(d.mgr, token).shares + books.dropped + books.paid)
  }

  lemma GapOfBooks(d: Desk, token: TokenId)
    requires InRecords(d)
    ensures LedgerGap(d, token) == NetSettled(d.mgr, token) - BookedNet(d.postings, token)
  {
    ShareLedger(d.postings, token);
  }

  function ShiftOf(d: Desk, a: Action, token: TokenId): int {
    if a.TradeArrives? then LedgerShift(d.mgr, a.trade, token) else 0
  }

  lemma StepKeepsTerms(o: Order, st: OrderStep)
    ensures Step(o, st).token == o.token && Step(o, st).side == o.side
  {
  }

  lemma OtherStepsKeepNet(d: Desk, a: Action, token: TokenId)
    requires Enabled(d, a) && !a.TradeArrives?
    ensures NetSettled(NextManager(d, a), token) == NetSettled(d.mgr, token)
  {
    hide NextManager, Step, SettledShares;
    var before, after := d.mgr, NextManager(d, a);
    OrdersAfter(d, a);
    TradeIdsKept(d, a);
    OtherActionsKeepTrades(d, a);
    NetIsSum(before, token);
    NetIsSum(after, token);
    var n, f := |before.orders|, NetOf(token, SettledIn(before.trades));
    forall i | 0 <= i < n
      ensures f(after.orders[i]) == f(before.orders[i])
    {
      var step := StepOf(d, a);
      if step.Some? && Find(before.orders, step.value.0) == i { StepKeepsTerms(before.orders[i], step.value.1); }
    }
    SumSame(after.orders[..n], before.orders, f, f);
    if a.CreateReturns? {
      SumAppend(after.orders[..n], after.orders[n], f);
      assert after.orders == after.orders[..n] + [after.orders[n]];
    } else {
      assert after.orders == after.orders[..n];
    }
  }

  lemma OtherStepsKeepBooked(d: Desk, a: Action, token: TokenId)
    requires Enabled(d, a) && !a.TradeArrives? && InRecords(d)
    ensures BookedNet(NextPostings(d, a), token) == BookedNet(d.postings, token)
  {
    if a.Settles? && SettleMarket(d.mgr, d.market, a.outcome).Settled? { SettlementReplayed(d, a.outcome); }
  }

  /** Trade events shift the ledger by what they are said to, and nothing else does. */
  lemma StepShifts(d: Desk, a: Action, token: TokenId)
    requires Enabled(d, a) && InRecords(d) && TradesDistinct(d.mgr.orders)
    ensures LedgerGap(Act(d, a), token) == LedgerGap(d, token) + ShiftOf(d, a, token)
  {
    hide InRecords, TradesDistinct, NetSettled, BookedNet, Holders, HandleTradeEvent;
    StepKeepsRecorded(d, a);
    GapOfBooks(d, token);
    GapOfBooks(Act(d, a), token);
    if !a.TradeArrives? {
      OtherStepsKeepNet(d, a, token);
      OtherStepsKeepBooked(d, a, token);
    } else {
      BookedMoves(d.mgr, d.postings, a.trade, token);
      if Accepts(d.mgr, a.trade) { NetMoves(d.mgr, a.trade, token); } else { Unaccepted(d.mgr, a.trade); }
    }
  }

  lemma Unaccepted(s: State, e: TradeEvent)
    requires !Accepts(s, e)
    ensures HandleTradeEvent(s, e) == s
  {
  }

  lemma StepKeepsDistinct(d: Desk, a: Action)
    requires Enabled(d, a) && TradesDistinct(d.mgr.orders)
    ensures TradesDistinct(NextManager(d, a).orders)
  {
    OrdersAfter(d, a);
    if a.TradeArrives? {
      TradeKeepsDistinct(d.mgr, a.trade);
    } else {
      TradeIdsKept(d, a);
    }
  }

  lemma TradeKeepsDistinct(s: State, e: TradeEvent)
    requires TradesDistinct(s.orders)
    ensures TradesDistinct(HandleTradeEvent(s, e).orders)
  {
  }

  // -------------------------------------------------------------------- the runs

  lemma {:induction false} DistinctReached(ds: seq<Desk>, acts: seq<Action>, k: nat)
    requires Trace(ds, acts) && k < |ds|
    ensures TradesDistinct(ds[k].mgr.orders)
  {
    hide TradesDistinct;
    if k > 0 {
      DistinctReached(ds, acts, k - 1);
      StepKeepsDistinct(ds[k - 1], acts[k - 1]);
    } else {
      InitialLedger(ds[0]);
    }
  }

  lemma InitialLedger(d: Desk)
    requires Initial(d)
    ensures TradesDistinct(d.mgr.orders) && forall token :: LedgerGap(d, token) == 0
  {
  }

  function Shifts(ds: seq<Desk>, acts: seq<Action>, k: nat, token: TokenId): int
    requires k <= |acts| && k < |ds|
  {
    if k == 0 then 0 else Shifts(ds, acts, k - 1, token) + ShiftOf(ds[k - 1], acts[k - 1], token)
  }

  /** In every run the ledger of every token is off by exactly what the trade events have shifted it. */
  lemma {:induction false} GapIsShifts(ds: seq<Desk>, acts: seq<Action>, k: nat, token: TokenId)
    requires Trace(ds, acts) && k < |ds|
    ensures LedgerGap(ds[k], token) == Shifts(ds, acts, k, token)
  {
    hide InRecords, TradesDistinct, LedgerGap, ShiftOf;
    if k > 0 {
      GapIsShifts(ds, acts, k - 1, token);
      RecordedReached(ds, acts, k - 1);
      DistinctReached(ds, acts, k - 1);
      StepShifts(ds[k - 1], acts[k - 1], token);
    } else {
      InitialLedger(ds[0]);
    }
  }

  /** Holding, write-offs and payouts are settled buys less settled sells, for every token. */
  ghost predicate LedgerHolds(d: Desk) {
    forall token :: LedgerGap(d, token) == 0
  }

  ghost predicate ShiftsNothing(d: Desk, a: Action) {
    forall token :: ShiftOf(d, a, token) == 0
  }

  lemma {:induction false} NoShiftNoGap(ds: seq<Desk>, acts: seq<Action>, k: nat, token: TokenId)
    requires Trace(ds, acts) && k < |ds|
    requires forall n :: 0 <= n < |acts| ==> ShiftsNothing(ds[n], acts[n])
    ensures Shifts(ds, acts, k, token) == 0
  {
    hide ShiftOf, Trace;
    TraceLength(ds, acts);
    if k > 0 {
      NoShiftNoGap(ds, acts, k - 1, token);
      assert ShiftsNothing(ds[k - 1], acts[k - 1]);
    }
  }

  lemma GapsShow(ds: seq<Desk>, acts: seq<Action>, n: nat)
    requires Trace(ds, acts) && n < |acts| && LedgerHolds(ds[n]) && LedgerHolds(ds[n + 1])
    ensures ShiftsNothing(ds[n], acts[n])
  {
    hide LedgerGap, ShiftOf, Trace;
    TraceLength(ds, acts);
    forall token
      ensures ShiftOf(ds[n], acts[n], token) == 0
    {
      GapIsShifts(ds, acts, n, token);
      GapIsShifts(ds, acts, n + 1, token);
      assert LedgerGap(ds[n], token) == 0 && LedgerGap(ds[n + 1], token) == 0;
    }
  }

  /** So over runs the share ledger holds in every state if and only if no trade event shifts it. */
  lemma ShareLedgerIff(ds: seq<Desk>, acts: seq<Action>)
    requires Trace(ds, acts)
    ensures (forall k :: 0 <= k < |ds| ==> LedgerHolds(ds[k]))
       <==> (forall n :: 0 <= n < |acts| ==> ShiftsNothing(ds[n], acts[n]))
  {
    hide LedgerGap, ShiftOf, Trace;
    TraceLength(ds, acts);
    if forall k :: 0 <= k < |ds| ==> LedgerHolds(ds[k]) {
      forall n | 0 <= n < |acts|
        ensures ShiftsNothing(ds[n], acts[n])
      {
        GapsShow(ds, acts, n);
      }
    }
    if forall n :: 0 <= n < |acts| ==> ShiftsNothing(ds[n], acts[n]) {
      forall k, token | 0 <= k < |ds|
        ensures LedgerGap(ds[k], token) == 0
      {
        GapIsShifts(ds, acts, k, token);
        NoShiftNoGap(ds, acts, k, token);
      }
    }
  }

  /** A feed with stable trades meets both exact conditions: it shifts nothing and takes no success back. */
  lemma StableFeedHarmless(ds: seq<Desk>, acts: seq<Action>, n: nat)
    requires Trace(ds, acts) && n < |acts|
    requires forall i :: 0 <= i < |acts| && acts[i].TradeArrives? ==> StableTrade(ds[i].mgr, acts[i].trade)
    ensures ShiftsNothing(ds[n], acts[n]) && TakesNoneBack(ds[n], acts[n])
  {
    hide StableTrade, LedgerGap, ShiftOf, InBooks, TakesNoneBack;
    BooksReached(ds, acts, n);
    BooksReached(ds, acts, n + 1);
    RecordedReached(ds, acts, n);
    RecordedReached(ds, acts, n + 1);
    BooksHaveNoGap(ds[n]);
    BooksHaveNoGap(ds[n + 1]);
    GapsShow(ds, acts, n);
    StableTakesNoneBack(ds[n], acts[n]);
  }

  lemma BooksHaveNoGap(d: Desk)
    requires InBooks(d) && InRecords(d)
    ensures LedgerHolds(d)
  {
    hide InRecords, SettledShares, Replay;
    forall token
      ensures LedgerGap(d, token) == 0
    {
      GapOfBooks(d, token);
    }
  }

  lemma StableTakesNoneBack(d: Desk, a: Action)
    requires a.TradeArrives? ==> StableTrade(d.mgr, a.trade)
    ensures TakesNoneBack(d, a)
  {
  }
}
