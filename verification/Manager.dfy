/**
 The order manager: every tracked order, every trade and the position per token.

 `State` is the value of the manager's three dictionaries. Orders keep their
 insertion order, which the lookup of the active order depends on. An order names
 its trades by id and the trades live in one map, because the program stores the
 same trade object in the order's dictionary and in its own.
 */
module Manager {
  import opened Domain
  import opened Fees
  import opened Orders
  import opened Positions
  import opened Rounding
  import opened Seqs

  datatype TradeStatus = TradePending | TradeSuccess | TradeFailure

  datatype Trade = Trade(
    id: TradeId, tokenId: TokenId, orderId: OrderId, status: TradeStatus,
    shares: Micro, side: Side, role: Role, price: real,
    pendingShares: Micro, settledShares: Micro, failedShares: Micro)

  datatype State = State(orders: seq<Order>, trades: map<TradeId, Trade>, positions: map<TokenId, Position>)

  const EMPTY := State([], map[], map[])

  // ---------------------------------------------------------------- lookups

  /** Position of the order with this id, or the number of orders when there is none. */
  function Find(orders: seq<Order>, id: OrderId): (i: nat)
    ensures i <= |orders|
    ensures i < |orders| ==> orders[i].id == id
    ensures i == |orders| ==> forall o :: o in orders ==> o.id != id
  {
    if orders == [] then 0 else
    var n := |orders| - 1;
    if orders[n].id == id then n else
    var i := Find(orders[..n], id);
    assert orders == orders[..n] + [orders[n]];
    if i == n then n + 1 else i
  }

  predicate Tracks(s: State, id: OrderId) { Find(s.orders, id) < |s.orders| }

  predicate UniqueIds(orders: seq<Order>) {
    forall i, j :: 0 <= i < j < |orders| ==> orders[i].id != orders[j].id
  }

  lemma FindUnique(orders: seq<Order>, i: nat)
    requires UniqueIds(orders) && i < |orders|
    ensures Find(orders, orders[i].id) == i
  {
  }

  /** The first active order of the token in insertion order, or the number of orders. */
  function FirstActive(orders: seq<Order>, token: TokenId): (i: nat)
    ensures i <= |orders|
    ensures i < |orders| ==> orders[i].IsActive() && orders[i].token.id == token
    ensures forall j :: 0 <= j < i ==> !(orders[j].IsActive() && orders[j].token.id == token)
  {
    if orders == [] then 0 else
    var n := |orders| - 1;
    var i := FirstActive(orders[..n], token);
    assert forall j :: 0 <= j < n ==> orders[j] == orders[..n][j];
    if i < n then i
    else if orders[n].IsActive() && orders[n].token.id == token then n
    else n + 1
  }

  function ActiveOrder(s: State, token: TokenId): Option<Order> {
    var i := FirstActive(s.orders, token);
    if i < |s.orders| then Some(s.orders[i]) else None
  }

  function PositionOf(s: State, token: TokenId): Position {
    if token in s.positions then s.positions[token] else FLAT
  }

  // ------------------------------------------------------ position snapshot

  function SettledIn(trades: map<TradeId, Trade>): TradeId -> Micro {
    (t: TradeId) => if t in trades then trades[t].settledShares else 0
  }

  function FailedIn(trades: map<TradeId, Trade>): TradeId -> Micro {
    (t: TradeId) => if t in trades then trades[t].failedShares else 0
  }

  function OnChainSettled(o: Order, trades: map<TradeId, Trade>): Micro {
    Sum(o.tradeIds, SettledIn(trades))
  }

  function OnChainFailed(o: Order, trades: map<TradeId, Trade>): Micro {
    Sum(o.tradeIds, FailedIn(trades))
  }

  function Settling(o: Order, trades: map<TradeId, Trade>): Micro {
    o.matched - OnChainSettled(o, trades) - OnChainFailed(o, trades)
  }

  function PendingOf(token: TokenId, side: Side): Order -> Micro {
    (o: Order) => if o.token.id == token && o.side == side then o.pending else 0
  }

  function SettlingOf(token: TokenId, side: Side, trades: map<TradeId, Trade>): Order -> Micro {
    (o: Order) => if o.token.id == token && o.side == side then Settling(o, trades) else 0
  }

  function PendingShares(s: State, token: TokenId, side: Side): Micro {
    Sum(s.orders, PendingOf(token, side))
  }

  function SettlingShares(s: State, token: TokenId, side: Side): Micro {
    Sum(s.orders, SettlingOf(token, side, s.trades))
  }

  function BuildPosition(s: State, token: TokenId): CurrentPosition {
    var p := PositionOf(s, token);
    CurrentPosition(
      PendingShares(s, token, Buy), SettlingShares(s, token, Buy),
      PendingShares(s, token, Sell), SettlingShares(s, token, Sell),
      p.cost, p.shares, p.AvgPrice(), p.pnl)
  }

  /** The holding in the snapshot is the position's; its average price times its shares is its cost, unless it is dust. */
  lemma SnapshotHolds(s: State, token: TokenId)
    ensures var c, p := BuildPosition(s, token), if token in s.positions then s.positions[token] else Position(0, 0, 0);
            && c.holdingCost == p.cost && c.holdingShares == p.shares && c.realizedPnl == p.pnl
            && (p.shares > 10_000 ==> c.holdingAvgPrice * p.shares as real == p.cost as real)
            && (p.shares <= 10_000 ==> c.holdingAvgPrice == 0.0)
  {
  }

  /** What the trades with these ids have reported settled or failed. */
  function OnChain(ids: seq<TradeId>, trades: map<TradeId, Trade>): Micro {
    if ids == [] then 0 else
    var n := |ids| - 1;
    OnChain(ids[..n], trades) +
    (if ids[n] in trades then trades[ids[n]].settledShares + trades[ids[n]].failedShares else 0)
  }

  lemma {:induction false} OnChainSplits(ids: seq<TradeId>, trades: map<TradeId, Trade>)
    ensures OnChain(ids, trades) == Sum(ids, SettledIn(trades)) + Sum(ids, FailedIn(trades))
  {
    if ids != [] { OnChainSplits(ids[..|ids| - 1], trades); }
  }

  /** The four sums of the snapshot: zero without orders, and one more order adds its shares to the two of its side. */
  lemma SnapshotGrows(s: State, o: Order, token: TokenId)
    ensures s.orders == [] ==>
              var c := BuildPosition(s, token);
              c.opening == 0 && c.openSettling == 0 && c.closing == 0 && c.closeSettling == 0
    ensures var c, after := BuildPosition(s, token), BuildPosition(s.(orders := s.orders + [o]), token);
            var buys, sells := o.token.id == token && o.side == Buy, o.token.id == token && o.side == Sell;
            var settling := o.matched - OnChain(o.tradeIds, s.trades);
            after == c.(opening := c.opening + (if buys then o.pending else 0),
                        openSettling := c.openSettling + (if buys then settling else 0),
                        closing := c.closing + (if sells then o.pending else 0),
                        closeSettling := c.closeSettling + (if sells then settling else 0))
  {
    OnChainSplits(o.tradeIds, s.trades);
    forall side: Side
      ensures Sum(s.orders + [o], PendingOf(token, side)) == Sum(s.orders, PendingOf(token, side)) + PendingOf(token, side)(o)
      ensures Sum(s.orders + [o], SettlingOf(token, side, s.trades))
           == Sum(s.orders, SettlingOf(token, side, s.trades)) + SettlingOf(token, side, s.trades)(o)
    {
      SumAppend(s.orders, o, PendingOf(token, side));
      SumAppend(s.orders, o, SettlingOf(token, side, s.trades));
    }
  }

  // ------------------------------------------------------------------ steps

  /** Storing an order under its id: a known id keeps its place in the dictionary. */
  function Insert(s: State, o: Order): State {
    var i := Find(s.orders, o.id);
    if i < |s.orders| then s.(orders := s.orders[i := o]) else s.(orders := s.orders + [o])
  }

  /** The stored order is there under its id, every other order is where it was, and only an unknown id adds one. */
  lemma StoredInPlace(s: State, o: Order)
    ensures var after := Insert(s, o);
            && after.trades == s.trades && after.positions == s.positions
            && o in after.orders
            && |after.orders| == |s.orders| + (if exists p :: p in s.orders && p.id == o.id then 0 else 1)
            && forall i :: 0 <= i < |s.orders| ==>
                 after.orders[i] == s.orders[i] || (after.orders[i] == o && s.orders[i].id == o.id)
  {
    var i := Find(s.orders, o.id);
    assert Insert(s, o).orders[i] == o;
  }

  function UpdateOrder(s: State, id: OrderId, st: OrderStep): State {
    var i := Find(s.orders, id);
    if i < |s.orders| then s.(orders := s.orders[i := Step(s.orders[i], st)]) else s
  }

  function HandleOrderEvent(s: State, e: OrderEvent): State {
    UpdateOrder(s, e.orderId, Feed(e))
  }

  predicate Accepts(s: State, e: TradeEvent) {
    var i := Find(s.orders, e.orderId);
    && i < |s.orders|
    && e.marketId == s.orders[i].market.id
    && e.tokenId == s.orders[i].token.id
  }

  /** The trade the event belongs to, as known before it. */
  function PriorTrade(s: State, e: TradeEvent): Trade {
    if e.tradeId in s.trades then s.trades[e.tradeId]
    else Trade(e.tradeId, e.tokenId, e.orderId, TradePending, e.shares, e.side, e.role, e.price, 0, 0, 0)
  }

  function RecordTrade(t: Trade, e: TradeEvent): Trade {
    if e.IsSuccess() then
      t.(status := TradeSuccess, pendingShares := 0, settledShares := e.shares, failedShares := 0)
    else if e.status == Failed then
      t.(status := TradeFailure, pendingShares := 0, settledShares := 0, failedShares := e.shares)
    else
      t.(status := TradePending, pendingShares := e.shares, settledShares := 0, failedShares := 0)
  }

  /** Only the change to success moves the position. */
  predicate Confirms(s: State, e: TradeEvent) {
    Accepts(s, e) && PriorTrade(s, e).status != TradeSuccess && e.IsSuccess()
  }

  function PostingFor(s: State, e: TradeEvent): Posting
    requires Accepts(s, e)
  {
    var o := s.orders[Find(s.orders, e.orderId)];
    var t := PriorTrade(s, e);
    Fill(e.tradeId, t.tokenId, t.side, CashAmount(o.market, e.side, e.role, e.shares, e.price), e.shares)
  }

  function ApplyPosting(s: State, p: Posting): State
    requires p.Fill?
  {
    s.(positions := s.positions[p.token := ApplyTrade(PositionOf(s, p.token), p.side, p.amount, p.shares)])
  }

  function AddTradeId(ids: seq<TradeId>, t: TradeId): seq<TradeId> {
    if t in ids then ids else ids + [t]
  }

  function Record(s: State, e: TradeEvent): State
    requires Accepts(s, e)
  {
    var i := Find(s.orders, e.orderId);
    var o := s.orders[i];
    s.(orders := s.orders[i := o.(tradeIds := AddTradeId(o.tradeIds, e.tradeId))],
       trades := s.trades[e.tradeId := RecordTrade(PriorTrade(s, e), e)])
  }

  function HandleTradeEvent(s: State, e: TradeEvent): State {
    if !Accepts(s, e) then s
    else if Confirms(s, e) then ApplyPosting(Record(s, e), PostingFor(s, e))
    else Record(s, e)
  }

  datatype TradeOutcome = Ignored | Recorded | Applied | RaisedKeyError | RaisedZeroDivision

  /**
   How the handler ends. Building the notification looks the position up under
   the event's token and divides by the event's shares, after the state has changed.
   */
  function TradeOutcomeOf(s: State, e: TradeEvent): TradeOutcome {
    if !Accepts(s, e) then Ignored
    else if !Confirms(s, e) then Recorded
    else if e.tokenId !in HandleTradeEvent(s, e).positions then RaisedKeyError
    else if e.shares == 0 then RaisedZeroDivision
    else Applied
  }

  /** The event names a tracked order of its market and token. */
  predicate Known(s: State, e: TradeEvent) {
    exists o :: o in s.orders && o.id == e.orderId && o.market.id == e.marketId && o.token.id == e.tokenId
  }

  lemma KnownIsAccepted(s: State, e: TradeEvent)
    requires UniqueIds(s.orders)
    ensures Known(s, e) <==> Accepts(s, e)
  {
    if o :| o in s.orders && o.id == e.orderId && o.market.id == e.marketId && o.token.id == e.tokenId {
      var i :| 0 <= i < |s.orders| && s.orders[i] == o;
      FindUnique(s.orders, i);
    }
  }

  /**
   What a trade event records: nothing for an order that is unknown or of another token.
   Otherwise the shares of the event are all settled, all failed or all pending, as its status
   says; the order has the trade, and the trade keeps what its first event said of it.
   */
  lemma ReportOutcome(s: State, e: TradeEvent)
    requires UniqueIds(s.orders)
    ensures !Known(s, e) ==> HandleTradeEvent(s, e) == s
    ensures Known(s, e) ==>
              var after := HandleTradeEvent(s, e);
              var success, failed := e.status == Mined || e.status == Confirmed, e.status == Failed;
              var first :=
                if e.tradeId in s.trades then s.trades[e.tradeId]
                else Trade(e.tradeId, e.tokenId, e.orderId, TradePending, e.shares, e.side, e.role, e.price, 0, 0, 0);
              && |after.orders| == |s.orders|
              && (forall i :: 0 <= i < |s.orders| ==>
                    var o, p := s.orders[i], after.orders[i];
                    if o.id != e.orderId then p == o
                    else p == o.(tradeIds := p.tradeIds)
                         && p.tradeIds == (if e.tradeId in o.tradeIds then o.tradeIds else o.tradeIds + [e.tradeId]))
              && after.trades == s.trades[e.tradeId := first.(
                   status := if success then TradeSuccess else if failed then TradeFailure else TradePending,
                   settledShares := if success then e.shares else 0,
                   failedShares := if failed then e.shares else 0,
                   pendingShares := if success || failed then 0 else e.shares)]
              && (!success || first.status == TradeSuccess ==> after.positions == s.positions)
  {
    hide CashAmount, ApplyTrade;
    KnownIsAccepted(s, e);
    forall i | 0 <= i < |s.orders|
      ensures Find(s.orders, s.orders[i].id) == i
    {
      FindUnique(s.orders, i);
    }
  }

  /** How the handler ends: the two errors come from a position under another token and from a fill of nothing. */
  lemma OutcomeIff(s: State, e: TradeEvent)
    requires UniqueIds(s.orders)
    ensures var outcome, first := TradeOutcomeOf(s, e), e.tradeId !in s.trades;
            var applies := Known(s, e) && (e.status == Mined || e.status == Confirmed)
                           && (first || s.trades[e.tradeId].status != TradeSuccess);
            var held := e.tokenId in s.positions || first || s.trades[e.tradeId].tokenId == e.tokenId;
            && (outcome == Ignored <==> !Known(s, e))
            && (outcome == RaisedKeyError <==> applies && !held)
            && (outcome == RaisedZeroDivision <==> applies && held && e.shares == 0)
            && (outcome == Applied <==> applies && held && e.shares != 0)
  {
    hide CashAmount, ApplyTrade;
    KnownIsAccepted(s, e);
  }

  function SettleToken(s: State, token: TokenId, wins: bool): State {
    if token !in s.positions then s else
    s.(positions := s.positions[token :=
         Settle(s.positions[token], SettlingShares(s, token, Sell), wins)])
  }

  datatype SettleResult = Settled(state: State) | InvalidOutcome

  function SettleMarket(s: State, market: Market, outcome: string): SettleResult {
    var key := Lower(outcome);
    if key == market.yesToken.Key() then
      Settled(SettleToken(SettleToken(s, market.yesToken.id, true), market.noToken.id, false))
    else if key == market.noToken.Key() then
      Settled(SettleToken(SettleToken(s, market.noToken.id, true), market.yesToken.id, false))
    else InvalidOutcome
  }

  /** Settlement reads orders and trades and changes neither. */
  lemma SettleTokenKeeps(s: State, token: TokenId, wins: bool)
    ensures var t := SettleToken(s, token, wins);
            t.orders == s.orders && t.trades == s.trades && t.positions.Keys == s.positions.Keys
    ensures forall other :: other != token ==> PositionOf(SettleToken(s, token, wins), other) == PositionOf(s, other)
  {
  }

  lemma SettledTokenSettles(s: State, t: State, token: TokenId, wins: bool, again: bool)
    requires t.orders == s.orders && t.trades == s.trades
    requires token in t.positions <==> token in s.positions
    requires PositionOf(t, token) == PositionOf(SettleToken(s, token, wins), token)
    ensures SettleToken(t, token, again) == t
  {
    if token in s.positions {
      SettleIdempotent(s.positions[token], SettlingShares(s, token, Sell), wins, again);
      assert t.positions[token := t.positions[token]] == t.positions;
    }
  }

  /** A settled market settles to itself, whichever valid outcome is reported next. */
  lemma SettleMarketIdempotent(s: State, market: Market, outcome: string, again: string)
    requires SettleMarket(s, market, outcome).Settled? && SettleMarket(s, market, again).Settled?
    ensures var after := SettleMarket(s, market, outcome).state;
            SettleMarket(after, market, again) == Settled(after)
  {
    hide SettleToken, PositionOf;
    var yesWins := Lower(outcome) == market.yesToken.Key();
    var first, second := if yesWins then market.yesToken.id else market.noToken.id,
                         if yesWins then market.noToken.id else market.yesToken.id;
    var mid := SettleToken(s, first, true);
    var after := SettleToken(mid, second, false);
    SettleTokenKeeps(s, first, true);
    SettleTokenKeeps(mid, second, false);
    forall wins: bool
      ensures SettleToken(after, first, wins) == after && SettleToken(after, second, wins) == after
    {
      SettledTokenSettles(mid, after, second, false, wins);
      if first != second { SettledTokenSettles(s, after, first, true, wins); }
    }
  }
}
