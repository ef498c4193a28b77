/**
 The share ledger over whole runs: what the positions hold against what the
 trades of the orders have settled, for any mix of orders and feeds.
 */
module Ledger {
  import opened Desk
  import opened Domain
  import opened Fees
  import opened Manager
  import opened Orders
  import opened Positions
  import opened Rounding
  import opened Seqs

  /** Positions are exactly the replay of the postings. */
  ghost predicate Replayed(s: State, ps: seq<Posting>) {
    forall token :: PositionOf(s, token) == Replay(ps, token).pos
  }

  /** Each trade belongs to one order, agrees with its side and token, and counts as settled only on success. */
  ghost predicate TradesConsistent(s: State) {
    && UniqueIds(s.orders)
    && (forall o :: o in s.orders ==> OwnsTrades(o, s.trades))
    && (forall t :: t in s.trades ==> TradeAttached(s, s.trades[t], t))
  }

  ghost predicate OwnsTrades(o: Order, trades: map<TradeId, Trade>) {
    && (forall i, j :: 0 <= i < j < |o.tradeIds| ==> o.tradeIds[i] != o.tradeIds[j])
    && (forall t :: t in o.tradeIds ==> t in trades && trades[t].orderId == o.id)
  }

  ghost predicate TradeAttached(s: State, t: Trade, id: TradeId) {
    var i := Find(s.orders, t.orderId);
    && i < |s.orders| && id in s.orders[i].tradeIds
    && t.side == s.orders[i].side && t.tokenId == s.orders[i].token.id
    && (t.status != TradeSuccess ==> t.settledShares == 0)
  }

  /** A quantity of trades, totalled over the trades of an order of this token and side. */
  function TotalOf(token: TokenId, side: Side, f: TradeId -> Micro): Order -> Micro {
    (o: Order) => if o.token.id == token && o.side == side then Sum(o.tradeIds, f) else 0
  }

  function SettledOf(token: TokenId, side: Side, trades: map<TradeId, Trade>): Order -> Micro {
    TotalOf(token, side, SettledIn(trades))
  }

  function SettledShares(s: State, token: TokenId, side: Side): Micro {
    Sum(s.orders, SettledOf(token, side, s.trades))
  }

  /** What the books of a token have bought and sold is what its trades have settled. */
  ghost predicate Balanced(s: State, ps: seq<Posting>) {
    forall token ::
      && Replay(ps, token).books.bought == SettledShares(s, token, Buy)
      && Replay(ps, token).books.sold == SettledShares(s, token, Sell)
  }

  /**
   The assumption on the trade feed: the first report of a trade agrees with the side of
   its order, and later ones keep the order and, after a success, only repeat that success.
   */
  ghost predicate StableTrade(s: State, e: TradeEvent) {
    Accepts(s, e) ==>
      if e.tradeId in s.trades
      then s.trades[e.tradeId].orderId == e.orderId && RepeatsSuccess(s.trades[e.tradeId], e)
      else e.side == s.orders[Find(s.orders, e.orderId)].side
  }

  predicate RepeatsSuccess(t: Trade, e: TradeEvent) {
    t.status == TradeSuccess ==> e.IsSuccess() && e.shares == t.settledShares
  }

  // -------------------------------------------------- the trade event's effect

  predicate InBucket(o: Order, token: TokenId, side: Side) {
    o.token.id == token && o.side == side
  }

  /** Where the trade of the event was recorded before, if it was. */
  function HomeOf(s: State, e: TradeEvent): (i: nat)
    requires TradesConsistent(s) && e.tradeId in s.trades
    ensures i < |s.orders| && s.orders[i].id == s.trades[e.tradeId].orderId
    ensures e.tradeId in s.orders[i].tradeIds
    ensures s.orders[i].side == s.trades[e.tradeId].side && s.orders[i].token.id == s.trades[e.tradeId].tokenId
  {
    assert TradeAttached(s, s.trades[e.tradeId], e.tradeId);
    Find(s.orders, s.trades[e.tradeId].orderId)
  }

  /** What an event does to a quantity of trades, totalled over one order. */
  lemma OrderTotalMoves(s: State, e: TradeEvent, j: nat, f: TradeId -> Micro, g: TradeId -> Micro)
    requires TradesConsistent(s) && Accepts(s, e) && j < |s.orders|
    requires forall t :: t != e.tradeId ==> f(t) == g(t)
    ensures Sum(Record(s, e).orders[j].tradeIds, g) - Sum(s.orders[j].tradeIds, f) ==
            if e.tradeId in s.orders[j].tradeIds then g(e.tradeId) - f(e.tradeId)
            else if j == Find(s.orders, e.orderId) then g(e.tradeId) else 0
    ensures e.tradeId in s.orders[j].tradeIds ==> e.tradeId in s.trades && j == HomeOf(s, e)
  {
    hide RecordTrade, TradeAttached, TradesConsistent;
    var o := s.orders[j];
    Owned(s, j);
    if e.tradeId in o.tradeIds {
      FindUnique(s.orders, j);
      FindUnique(s.orders, HomeOf(s, e));
      var k :| 0 <= k < |o.tradeIds| && o.tradeIds[k] == e.tradeId;
      SumChange(o.tradeIds, o.tradeIds, k, f, g);
    } else {
      SumSame(o.tradeIds, o.tradeIds, f, g);
      SumAppend(o.tradeIds, e.tradeId, g);
    }
  }

  lemma Owned(s: State, j: nat)
    requires TradesConsistent(s) && j < |s.orders|
    ensures OwnsTrades(s.orders[j], s.trades) && UniqueIds(s.orders)
  {
  }

  /**
   The total over all orders of one token and side: the trade's old order sees the change,
   and an order that had not seen the trade gains the new value.
   */
  lemma TotalMoves(s: State, e: TradeEvent, token: TokenId, side: Side, f: TradeId -> Micro, g: TradeId -> Micro)
    requires TradesConsistent(s) && Accepts(s, e)
    requires forall t :: t != e.tradeId ==> f(t) == g(t)
    ensures var o := s.orders[Find(s.orders, e.orderId)];
            Sum(Record(s, e).orders, TotalOf(token, side, g)) - Sum(s.orders, TotalOf(token, side, f)) ==
            (if e.tradeId in s.trades && InBucket(s.orders[HomeOf(s, e)], token, side)
             then g(e.tradeId) - f(e.tradeId) else 0)
            + (if e.tradeId !in o.tradeIds && InBucket(o, token, side) then g(e.tradeId) else 0)
  {
    hide RecordTrade, TradesConsistent, HomeOf;
    var i := Find(s.orders, e.orderId);
    var after, F, G := Record(s, e).orders, TotalOf(token, side, f), TotalOf(token, side, g);
    forall j | 0 <= j < |s.orders|
      ensures G(after[j]) - F(s.orders[j]) ==
              if !InBucket(s.orders[j], token, side) then 0
              else if e.tradeId in s.orders[j].tradeIds then g(e.tradeId) - f(e.tradeId)
              else if j == i then g(e.tradeId) else 0
      ensures e.tradeId in s.orders[j].tradeIds ==> e.tradeId in s.trades && j == HomeOf(s, e)
    {
      OrderTotalMoves(s, e, j, f, g);
    }
    if e.tradeId in s.trades && HomeOf(s, e) != i {
      SumChangeTwo(s.orders, after, i, HomeOf(s, e), F, G);
    } else {
      SumChange(s.orders, after, i, F, G);
    }
  }

  /** The event's own trade is the only one it changes. */
  lemma OthersSettledAlike(s: State, e: TradeEvent)
    requires Accepts(s, e)
    ensures forall t :: t != e.tradeId ==> SettledIn(s.trades)(t) == SettledIn(Record(s, e).trades)(t)
    ensures forall t :: t != e.tradeId ==> FailedIn(s.trades)(t) == FailedIn(Record(s, e).trades)(t)
  {
  }

  /** What the event's trade has settled and failed, before and after. */
  lemma OwnShares(s: State, e: TradeEvent)
    requires Accepts(s, e)
    ensures SettledIn(s.trades)(e.tradeId) == PriorTrade(s, e).settledShares
    ensures FailedIn(s.trades)(e.tradeId) == PriorTrade(s, e).failedShares
    ensures SettledIn(Record(s, e).trades)(e.tradeId) == (if e.IsSuccess() then e.shares else 0)
    ensures FailedIn(Record(s, e).trades)(e.tradeId) == (if e.status == Failed then e.shares else 0)
  {
  }

  /** A stable trade event moves the settled shares of its own order only, by its trade's change. */
  lemma SettledMoves(s: State, e: TradeEvent, token: TokenId, side: Side)
    requires TradesConsistent(s) && Accepts(s, e)
    requires e.tradeId in s.trades ==> s.trades[e.tradeId].orderId == e.orderId
    ensures SettledShares(Record(s, e), token, side) - SettledShares(s, token, side) ==
            if InBucket(s.orders[Find(s.orders, e.orderId)], token, side)
            then (if e.IsSuccess() then e.shares else 0) - PriorTrade(s, e).settledShares
            else 0
  {
    hide Record, RecordTrade;
    AtHome(s, e);
    OthersSettledAlike(s, e);
    OwnShares(s, e);
    TotalMoves(s, e, token, side, SettledIn(s.trades), SettledIn(Record(s, e).trades));
  }

  lemma AtHome(s: State, e: TradeEvent)
    requires TradesConsistent(s) && Accepts(s, e)
    requires e.tradeId in s.trades ==> s.trades[e.tradeId].orderId == e.orderId
    ensures var i := Find(s.orders, e.orderId);
            if e.tradeId in s.trades then HomeOf(s, e) == i && e.tradeId in s.orders[i].tradeIds
            else e.tradeId !in s.orders[i].tradeIds && PriorTrade(s, e).settledShares == 0
                 && PriorTrade(s, e).failedShares == 0
  {
    Owned(s, Find(s.orders, e.orderId));
  }

  lemma RecordKeepsOwners(s: State, e: TradeEvent, j: nat)
    requires TradesConsistent(s) && Accepts(s, e) && StableTrade(s, e) && j < |s.orders|
    ensures OwnsTrades(Record(s, e).orders[j], Record(s, e).trades)
  {
    assert OwnsTrades(s.orders[j], s.trades);
    assert e.tradeId in s.orders[j].tradeIds ==> s.trades[e.tradeId].orderId == s.orders[j].id;
    assert PriorTrade(s, e).orderId == e.orderId;
  }

  lemma RecordKeepsAttached(s: State, e: TradeEvent, t: TradeId)
    requires TradesConsistent(s) && Accepts(s, e) && StableTrade(s, e) && t in Record(s, e).trades
    ensures TradeAttached(Record(s, e), Record(s, e).trades[t], t)
  {
    var after := Record(s, e);
    assert forall j :: 0 <= j < |after.orders| ==> after.orders[j].id == s.orders[j].id;
    SameIdsSameFind(s.orders, after.orders);
    if t in s.trades {
      assert TradeAttached(s, s.trades[t], t);
    }
  }

  lemma RecordKeepsConsistent(s: State, e: TradeEvent)
    requires TradesConsistent(s) && Accepts(s, e) && StableTrade(s, e)
    ensures TradesConsistent(Record(s, e))
  {
    var after := Record(s, e);
    assert forall j :: 0 <= j < |after.orders| ==> after.orders[j].id == s.orders[j].id;
    forall j | 0 <= j < |after.orders|
      ensures OwnsTrades(after.orders[j], after.trades)
    {
      RecordKeepsOwners(s, e, j);
    }
    forall t | t in after.trades
      ensures TradeAttached(after, after.trades[t], t)
    {
      RecordKeepsAttached(s, e, t);
    }
  }

  lemma {:induction false} SameIdsSameFind(xs: seq<Order>, ys: seq<Order>)
    requires |xs| == |ys| && forall j :: 0 <= j < |xs| ==> xs[j].id == ys[j].id
    ensures forall id :: Find(xs, id) == Find(ys, id)
  {
    if xs != [] {
      SameIdsSameFind(xs[..|xs| - 1], ys[..|ys| - 1]);
    }
  }

  lemma PostReplayed(s: State, ps: seq<Posting>, p: Posting)
    requires Replayed(s, ps) && p.Fill?
    ensures Replayed(ApplyPosting(s, p), ps + [p])
  {
    forall token
      ensures PositionOf(ApplyPosting(s, p), token) == Replay(ps + [p], token).pos
    {
      ReplayAppend(ps, p, token);
      PostMoves(Replay(ps, token), p);
    }
  }

  /** Postings after a trade event. */
  function TradePostings(s: State, ps: seq<Posting>, e: TradeEvent): seq<Posting> {
    if Confirms(s, e) then ps + [PostingFor(s, e)] else ps
  }

  lemma TradeKeepsReplayed(s: State, ps: seq<Posting>, e: TradeEvent)
    requires Replayed(s, ps)
    ensures Replayed(HandleTradeEvent(s, e), TradePostings(s, ps, e))
  {
    if Accepts(s, e) {
      var r := Record(s, e);
      assert forall token :: PositionOf(r, token) == PositionOf(s, token);
      if Confirms(s, e) { PostReplayed(r, ps, PostingFor(s, e)); }
    }
  }

  lemma AttachedTo(s: State, id: TradeId)
    requires TradesConsistent(s)
    ensures id in s.trades ==> TradeAttached(s, s.trades[id], id)
  {
  }

  /** Under the assumption every trade event keeps positions and trades in balance. */
  lemma TradeKeepsBalance(s: State, ps: seq<Posting>, e: TradeEvent)
    requires TradesConsistent(s) && Balanced(s, ps) && StableTrade(s, e)
    ensures TradesConsistent(HandleTradeEvent(s, e))
    ensures Balanced(HandleTradeEvent(s, e), TradePostings(s, ps, e))
  {
    hide TradesConsistent, Post, Replay;
    if !Accepts(s, e) { return; }
    RecordKeepsConsistent(s, e);
    var after, i := HandleTradeEvent(s, e), Find(s.orders, e.orderId);
    assert after.orders == Record(s, e).orders && after.trades == Record(s, e).trades;
    SameBooksConsistent(Record(s, e), after);
    AttachedTo(s, e.tradeId);
    forall token
      ensures Replay(TradePostings(s, ps, e), token).books.bought == SettledShares(after, token, Buy)
      ensures Replay(TradePostings(s, ps, e), token).books.sold == SettledShares(after, token, Sell)
    {
      SettledMoves(s, e, token, Buy);
      SettledMoves(s, e, token, Sell);
      if Confirms(s, e) {
        ReplayAppend(ps, PostingFor(s, e), token);
        PostCounts(Replay(ps, token), PostingFor(s, e));
      }
    }
  }

  lemma SameBooksConsistent(s: State, t: State)
    requires TradesConsistent(s) && s.orders == t.orders && s.trades == t.trades
    ensures TradesConsistent(t)
  {
    forall id | id in t.trades
      ensures TradeAttached(t, t.trades[id], id)
    {
      assert TradeAttached(s, s.trades[id], id);
    }
  }

  lemma PostCounts(a: Account, p: Posting)
    ensures Post(a, p).books.bought == a.books.bought + (if p.Fill? && p.side == Buy then p.shares else 0)
    ensures Post(a, p).books.sold == a.books.sold + (if p.Fill? && p.side == Sell then p.shares else 0)
    ensures p.Fill? ==> Post(a, p).books.paid == a.books.paid
  {
  }

  /**
   Which trade events keep the balance: a first report on the side of its order, a report
   of the same order that repeats a success or finds and makes none, and, for a report that
   names another order than before, one where nothing is counted twice.
   */
  predicate KeepsBalance(s: State, e: TradeEvent)
    requires Accepts(s, e)
  {
    var o := s.orders[Find(s.orders, e.orderId)];
    if e.tradeId !in s.trades then
      !e.IsSuccess() || e.side == o.side || e.shares == 0
    else
      var t := s.trades[e.tradeId];
      if t.orderId == e.orderId then RepeatsSuccess(t, e) || (!e.IsSuccess() && t.settledShares == 0)
      else if !e.IsSuccess() then t.settledShares == 0
      else if t.status != TradeSuccess then e.shares == 0
      else if InBucket(o, t.tokenId, t.side) then 2 * e.shares == t.settledShares
      else e.shares == 0 && t.settledShares == 0
  }

  /** What the settled shares of a token and side gain by the event over what the books gain. */
  function BalanceGap(s: State, e: TradeEvent, token: TokenId, side: Side): int
    requires TradesConsistent(s) && Accepts(s, e)
  {
    var o, t := s.orders[Find(s.orders, e.orderId)], PriorTrade(s, e);
    var settled := if e.IsSuccess() then e.shares else 0;
    (if e.tradeId in s.trades && t.tokenId == token && t.side == side then settled - t.settledShares else 0)
    + (if e.tradeId !in o.tradeIds && InBucket(o, token, side) then settled else 0)
    - (if Confirms(s, e) && t.tokenId == token && t.side == side then e.shares else 0)
  }

  function BookedShares(ps: seq<Posting>, token: TokenId, side: Side): Micro {
    if side == Buy then Replay(ps, token).books.bought else Replay(ps, token).books.sold
  }

  lemma BalanceMoves(s: State, ps: seq<Posting>, e: TradeEvent, token: TokenId, side: Side)
    requires TradesConsistent(s) && Balanced(s, ps) && Accepts(s, e)
    ensures SettledShares(HandleTradeEvent(s, e), token, side) - BookedShares(TradePostings(s, ps, e), token, side)
         == BalanceGap(s, e, token, side)
  {
    hide TradesConsistent, Record, RecordTrade, Post, Replay;
    OthersSettledAlike(s, e);
    OwnShares(s, e);
    TotalMoves(s, e, token, side, SettledIn(s.trades), SettledIn(Record(s, e).trades));
    if Confirms(s, e) {
      ReplayAppend(ps, PostingFor(s, e), token);
      PostCounts(Replay(ps, token), PostingFor(s, e));
    }
  }

  /** The gaps vanish for all tokens and both sides exactly for the events that keep the balance. */
  lemma GapsVanish(s: State, e: TradeEvent)
    requires TradesConsistent(s) && Accepts(s, e)
    ensures (forall token, side :: BalanceGap(s, e, token, side) == 0) <==> KeepsBalance(s, e)
  {
    var o, t := s.orders[Find(s.orders, e.orderId)], PriorTrade(s, e);
    Owned(s, Find(s.orders, e.orderId));
    if e.tradeId in s.trades {
      var home := s.orders[HomeOf(s, e)];
      assert TradeAttached(s, t, e.tradeId);
      AtHomeOrAway(s, e);
    }
    hide TradesConsistent;
    var atTrade, atOrder := BalanceGap(s, e, t.tokenId, t.side), BalanceGap(s, e, o.token.id, o.side);
    if KeepsBalance(s, e) {
      forall token, side
        ensures BalanceGap(s, e, token, side) == 0
      {
      }
    } else {
      assert atTrade != 0 || atOrder != 0;
    }
  }

  lemma AtHomeOrAway(s: State, e: TradeEvent)
    requires TradesConsistent(s) && Accepts(s, e) && e.tradeId in s.trades
    ensures s.trades[e.tradeId].orderId == e.orderId <==> e.tradeId in s.orders[Find(s.orders, e.orderId)].tradeIds
    ensures s.trades[e.tradeId].orderId == e.orderId ==> HomeOf(s, e) == Find(s.orders, e.orderId)
  {
    Owned(s, Find(s.orders, e.orderId));
  }

  /** Without any assumption: a trade event keeps the balance if and only if it is one of those. */
  lemma BalanceKeptIff(s: State, ps: seq<Posting>, e: TradeEvent)
    requires TradesConsistent(s) && Balanced(s, ps) && Accepts(s, e)
    ensures Balanced(HandleTradeEvent(s, e), TradePostings(s, ps, e)) <==> KeepsBalance(s, e)
  {
    hide TradesConsistent, HandleTradeEvent, TradePostings, BalanceGap, KeepsBalance, Replay, SettledShares;
    var after, ps' := HandleTradeEvent(s, e), TradePostings(s, ps, e);
    forall token, side
      ensures SettledShares(after, token, side) - BookedShares(ps', token, side) == BalanceGap(s, e, token, side)
    {
      BalanceMoves(s, ps, e, token, side);
    }
    GapsVanish(s, e);
    if Balanced(after, ps') {
      forall token, side
        ensures BalanceGap(s, e, token, side) == 0
      {
        assert BookedShares(ps', token, side) == SettledShares(after, token, side);
      }
    }
    if forall token, side :: BalanceGap(s, e, token, side) == 0 {
      forall token
        ensures Replay(ps', token).books.bought == SettledShares(after, token, Buy)
        ensures Replay(ps', token).books.sold == SettledShares(after, token, Sell)
      {
        assert BalanceGap(s, e, token, Buy) == 0 && BalanceGap(s, e, token, Sell) == 0;
      }
    }
  }

  /** The assumption admits only such events, though not all of them. */
  lemma StableKeepsBalance(s: State, e: TradeEvent)
    requires TradesConsistent(s) && Accepts(s, e) && StableTrade(s, e)
    ensures KeepsBalance(s, e)
  {
  }

  // ----------------------------------------------------------------- the runs

  lemma UpdateKeepsBalance(s: State, ps: seq<Posting>, id: OrderId, st: OrderStep)
    requires TradesConsistent(s) && Balanced(s, ps)
    ensures TradesConsistent(UpdateOrder(s, id, st)) && Balanced(UpdateOrder(s, id, st), ps)
  {
    var i, t := Find(s.orders, id), UpdateOrder(s, id, st);
    if i == |s.orders| { return; }
    assert forall j :: 0 <= j < |t.orders| ==> SameForTrades(s.orders[j], t.orders[j]);
    SameTradesConsistent(s, t);
    forall token, side
      ensures SettledShares(t, token, side) == SettledShares(s, token, side)
    {
      SumSame(s.orders, t.orders, SettledOf(token, side, s.trades), SettledOf(token, side, t.trades));
    }
  }

  ghost predicate SameForTrades(o: Order, p: Order) {
    o.id == p.id && o.token == p.token && o.side == p.side && o.tradeIds == p.tradeIds
  }

  lemma SameTradesConsistent(s: State, t: State)
    requires TradesConsistent(s) && s.trades == t.trades && |s.orders| == |t.orders|
    requires forall j :: 0 <= j < |t.orders| ==> SameForTrades(s.orders[j], t.orders[j])
    ensures TradesConsistent(t)
  {
    SameIdsSameFind(s.orders, t.orders);
    forall j | 0 <= j < |t.orders|
      ensures OwnsTrades(t.orders[j], t.trades)
    {
      assert OwnsTrades(s.orders[j], s.trades);
    }
    forall id | id in t.trades
      ensures TradeAttached(t, t.trades[id], id)
    {
      assert TradeAttached(s, s.trades[id], id);
    }
  }

  lemma InsertKeepsBalance(s: State, ps: seq<Posting>, o: Order)
    requires TradesConsistent(s) && Balanced(s, ps) && !Tracks(s, o.id) && o.tradeIds == []
    ensures TradesConsistent(Insert(s, o)) && Balanced(Insert(s, o), ps)
  {
    var t := Insert(s, o);
    forall token, side
      ensures SettledShares(t, token, side) == SettledShares(s, token, side)
    {
      SumAppend(s.orders, o, SettledOf(token, side, s.trades));
    }
    forall id | id in t.trades
      ensures TradeAttached(t, t.trades[id], id)
    {
      assert TradeAttached(s, s.trades[id], id);
      assert s.trades[id].orderId != o.id;
      assert t.orders[..|s.orders|] == s.orders;
    }
  }

  /** A settlement posts one payout per token, and the positions follow. */
  lemma SettlementReplayed(d: Desk, outcome: string)
    requires Replayed(d.mgr, d.postings) && d.market.WellFormed()
    requires SettleMarket(d.mgr, d.market, outcome).Settled?
    ensures Replayed(SettleMarket(d.mgr, d.market, outcome).state, NextPostings(d, Settles(outcome)))
    ensures forall token :: var a, b := Replay(d.postings, token), Replay(NextPostings(d, Settles(outcome)), token);
            b.books.bought == a.books.bought && b.books.sold == a.books.sold
  {
    var m := d.market;
    var posted := SettlementPostings(d.mgr, m, outcome);
    var ps := d.postings;
    assert ps + posted == (ps + [posted[0]]) + [posted[1]];
    var mid := SettleToken(d.mgr, posted[0].token, posted[0].wins);
    TokenSettles(d.mgr, ps, posted[0].token, posted[0].wins);
    assert SettlingShares(mid, posted[1].token, Sell) == SettlingShares(d.mgr, posted[1].token, Sell);
    TokenSettles(mid, ps + [posted[0]], posted[1].token, posted[1].wins);
  }

  lemma TokenSettles(s: State, ps: seq<Posting>, token: TokenId, wins: bool)
    requires Replayed(s, ps)
    ensures var p := Payout(token, wins, SettlingShares(s, token, Sell));
            && Replayed(SettleToken(s, token, wins), ps + [p])
            && forall t :: Replay(ps + [p], t).books.bought == Replay(ps, t).books.bought
                        && Replay(ps + [p], t).books.sold == Replay(ps, t).books.sold
  {
    var p := Payout(token, wins, SettlingShares(s, token, Sell));
    forall t
      ensures PositionOf(SettleToken(s, token, wins), t) == Replay(ps + [p], t).pos
      ensures Replay(ps + [p], t).books.bought == Replay(ps, t).books.bought
      ensures Replay(ps + [p], t).books.sold == Replay(ps, t).books.sold
    {
      ReplayAppend(ps, p, t);
      PostMoves(Replay(ps, t), p);
      PostCounts(Replay(ps, t), p);
    }
  }

  ghost predicate InBooks(d: Desk) {
    && d.market.WellFormed()
    && Replayed(d.mgr, d.postings) && TradesConsistent(d.mgr) && Balanced(d.mgr, d.postings)
  }

  lemma SamePositionsReplayed(s: State, t: State, ps: seq<Posting>)
    requires Replayed(s, ps) && t.positions == s.positions
    ensures Replayed(t, ps)
  {
    assert forall token :: PositionOf(t, token) == PositionOf(s, token);
  }

  lemma StepKeepsBooks(d: Desk, a: Action)
    requires Enabled(d, a) && InBooks(d)
    requires a.TradeArrives? ==> StableTrade(d.mgr, a.trade)
    ensures InBooks(Act(d, a))
  {
    hide Replayed, TradesConsistent, Balanced, StableTrade, SettleMarket, HandleTradeEvent, Insert, UpdateOrder, Find;
    if a.TradeArrives? {
      TradeKeepsReplayed(d.mgr, d.postings, a.trade);
      TradeKeepsBalance(d.mgr, d.postings, a.trade);
    } else if a.Settles? {
      if SettleMarket(d.mgr, d.market, a.outcome).Settled? {
        SettlementReplayed(d, a.outcome);
        SettlementBalanced(d, a.outcome);
      }
    } else if a.CreateReturns? {
      var c := d.engine;
      InsertKeepsBalance(d.mgr, d.postings, NewOrder(a.id, d.market, c.token, c.side, c.role, c.price, c.shares));
      PositionsKept(d, a);
      SamePositionsReplayed(d.mgr, NextManager(d, a), d.postings);
    } else if StepOf(d, a).Some? {
      UpdateKeepsBalance(d.mgr, d.postings, StepOf(d, a).value.0, StepOf(d, a).value.1);
      PositionsKept(d, a);
      SamePositionsReplayed(d.mgr, NextManager(d, a), d.postings);
    }
  }

  lemma PositionsKept(d: Desk, a: Action)
    requires Enabled(d, a) && !a.TradeArrives? && !a.Settles?
    ensures NextManager(d, a).positions == d.mgr.positions
  {
  }

  lemma SettlementBalanced(d: Desk, outcome: string)
    requires InBooks(d) && SettleMarket(d.mgr, d.market, outcome).Settled?
    ensures TradesConsistent(SettleMarket(d.mgr, d.market, outcome).state)
    ensures Balanced(SettleMarket(d.mgr, d.market, outcome).state, NextPostings(d, Settles(outcome)))
  {
    var after := SettleMarket(d.mgr, d.market, outcome).state;
    SettlementKeepsOrders(d.mgr, d.market, outcome);
    SettlementReplayed(d, outcome);
    SameBooksConsistent(d.mgr, after);
    assert forall token, side :: SettledShares(after, token, side) == SettledShares(d.mgr, token, side);
  }

  lemma {:induction false} BooksReached(ds: seq<Desk>, acts: seq<Action>, k: nat)
    requires Trace(ds, acts) && k < |ds|
    requires forall n :: 0 <= n < |acts| && acts[n].TradeArrives? ==> StableTrade(ds[n].mgr, acts[n].trade)
    ensures InBooks(ds[k])
  {
    if k > 0 {
      BooksReached(ds, acts, k - 1);
      StepKeepsBooks(ds[k - 1], acts[k - 1]);
    }
  }

  // ----------------------------------------------------------- exactly once

  ghost predicate Succeeded(trades: map<TradeId, Trade>, t: TradeId) {
    t in trades && trades[t].status == TradeSuccess
  }

  /** How often the trade `t` has been posted. */
  function Fills(ps: seq<Posting>, t: TradeId): nat {
    if ps == [] then 0 else
    Fills(ps[..|ps| - 1], t) + (if ps[|ps| - 1].Fill? && ps[|ps| - 1].tradeId == t then 1 else 0)
  }

  lemma FillsAppend(ps: seq<Posting>, p: Posting, t: TradeId)
    ensures Fills(ps + [p], t) == Fills(ps, t) + (if p.Fill? && p.tradeId == t then 1 else 0)
  {
    assert (ps + [p])[..|ps|] == ps;
  }

  /** Only trade events touch the manager's trades or post a fill. */
  lemma OtherActionsKeepTrades(d: Desk, a: Action)
    requires Enabled(d, a) && !a.TradeArrives?
    ensures NextManager(d, a).trades == d.mgr.trades
    ensures |NextPostings(d, a)| >= |d.postings| && NextPostings(d, a)[..|d.postings|] == d.postings
    ensures forall i :: |d.postings| <= i < |NextPostings(d, a)| ==> NextPostings(d, a)[i].Payout?
  {
    if a.Settles? { SettlementKeepsOrders(d.mgr, d.market, a.outcome); }
  }

  lemma {:induction false} PayoutsFillNothing(ps: seq<Posting>, more: seq<Posting>, t: TradeId)
    requires forall p :: p in more ==> p.Payout?
    ensures Fills(ps + more, t) == Fills(ps, t)
  {
    if more == [] {
      assert ps + more == ps;
    } else {
      var n := |more| - 1;
      assert ps + more == (ps + more[..n]) + [more[n]];
      assert more[n] in more;
      FillsAppend(ps + more[..n], more[n], t);
      PayoutsFillNothing(ps, more[..n], t);
    }
  }

  /** The trade has been posted once if it is a success, and not at all otherwise. */
  ghost predicate PostedRight(ps: seq<Posting>, trades: map<TradeId, Trade>, t: TradeId) {
    Fills(ps, t) == if Succeeded(trades, t) then 1 else 0
  }

  ghost predicate PostedOnce(d: Desk) {
    forall t :: PostedRight(d.postings, d.mgr.trades, t)
  }

  /** The event takes a success back: its trade is no longer a success, but stays posted. */
  predicate TakesBack(s: State, e: TradeEvent) {
    Accepts(s, e) && e.tradeId in s.trades && s.trades[e.tradeId].status == TradeSuccess && !e.IsSuccess()
  }

  /** Any trade event keeps its trade posted exactly when it is a success, unless it takes one back. */
  lemma TradePostedRightIff(s: State, ps: seq<Posting>, e: TradeEvent, t: TradeId)
    requires PostedRight(ps, s.trades, t)
    ensures PostedRight(TradePostings(s, ps, e), HandleTradeEvent(s, e).trades, t)
       <==> !(t == e.tradeId && TakesBack(s, e))
  {
    hide ApplyTrade, CashAmount;
    if Confirms(s, e) { FillsAppend(ps, PostingFor(s, e), t); }
  }

  lemma TradeKeepsPostedOnceIff(d: Desk, e: TradeEvent)
    requires PostedOnce(d)
    ensures PostedOnce(Act(d, TradeArrives(e))) <==> !TakesBack(d.mgr, e)
  {
    hide HandleTradeEvent, Confirms, TakesBack, Succeeded;
    forall t
      ensures PostedRight(NextPostings(d, TradeArrives(e)), NextManager(d, TradeArrives(e)).trades, t)
         <==> !(t == e.tradeId && TakesBack(d.mgr, e))
    {
      TradePostedRightIff(d.mgr, d.postings, e, t);
    }
    assert PostedRight(NextPostings(d, TradeArrives(e)), NextManager(d, TradeArrives(e)).trades, e.tradeId)
      <==> !TakesBack(d.mgr, e);
  }

  lemma OtherActionsKeepPostedOnce(d: Desk, a: Action)
    requires Enabled(d, a) && !a.TradeArrives? && PostedOnce(d)
    ensures PostedOnce(Act(d, a))
  {
    hide Succeeded, SettleMarket;
    OtherActionsKeepTrades(d, a);
    var more := NextPostings(d, a)[|d.postings|..];
    assert NextPostings(d, a) == d.postings + more;
    forall t
      ensures PostedRight(NextPostings(d, a), NextManager(d, a).trades, t)
    {
      PayoutsFillNothing(d.postings, more, t);
      assert PostedRight(d.postings, d.mgr.trades, t);
    }
  }

  /** The event of this action, if it is one, takes no success back. */
  ghost predicate TakesNoneBack(d: Desk, a: Action) {
    a.TradeArrives? ==> !TakesBack(d.mgr, a.trade)
  }

  lemma StepKeepsPostedOnceIff(d: Desk, a: Action)
    requires Enabled(d, a) && PostedOnce(d)
    ensures PostedOnce(Act(d, a)) <==> TakesNoneBack(d, a)
  {
    hide PostedOnce, TakesBack, NextManager, NextPostings;
    if a.TradeArrives? {
      TradeKeepsPostedOnceIff(d, a.trade);
    } else {
      OtherActionsKeepPostedOnce(d, a);
    }
  }

  lemma {:induction false} PostedOnceReached(ds: seq<Desk>, acts: seq<Action>, k: nat)
    requires Trace(ds, acts) && k < |ds|
    requires forall n :: 0 <= n < k ==> TakesNoneBack(ds[n], acts[n])
    ensures PostedOnce(ds[k])
  {
    hide TakesNoneBack;
    if k > 0 {
      PostedOnceReached(ds, acts, k - 1);
      StepKeepsPostedOnceIff(ds[k - 1], acts[k - 1]);
    }
  }

  /**
   Exactly once, over runs and with nothing assumed: in every state each success has been
   posted once, and no other trade at all, if and only if no event takes a success back.
   */
  lemma AppliedOnceIff(ds: seq<Desk>, acts: seq<Action>)
    requires Trace(ds, acts)
    ensures (forall k :: 0 <= k < |ds| ==> PostedOnce(ds[k]))
       <==> (forall n :: 0 <= n < |acts| ==> TakesNoneBack(ds[n], acts[n]))
  {
    hide PostedOnce, TakesNoneBack;
    if forall k :: 0 <= k < |ds| ==> PostedOnce(ds[k]) {
      forall n | 0 <= n < |acts|
        ensures TakesNoneBack(ds[n], acts[n])
      {
        StepKeepsPostedOnceIff(ds[n], acts[n]);
        assert PostedOnce(ds[n]) && PostedOnce(ds[n + 1]);
      }
    }
    if forall n :: 0 <= n < |acts| ==> TakesNoneBack(ds[n], acts[n]) {
      forall k | 0 <= k < |ds|
        ensures PostedOnce(ds[k])
      {
        PostedOnceReached(ds, acts, k);
      }
    }
  }

  // ------------------------------------------------------- effective position

  /** An order's stake: what is pending or matched and has not failed on chain. */
  function StakeOf(token: TokenId, side: Side, trades: map<TradeId, Trade>): Order -> Micro {
    (o: Order) => if o.token.id == token && o.side == side
                  then o.pending + o.matched - OnChainFailed(o, trades) else 0
  }

  function Stake(s: State, token: TokenId, side: Side): Micro {
    Sum(s.orders, StakeOf(token, side, s.trades))
  }

  lemma StakeSplits(s: State, token: TokenId, side: Side)
    ensures PendingShares(s, token, side) + SettlingShares(s, token, side) + SettledShares(s, token, side)
         == Stake(s, token, side)
  {
    var pending, settling := PendingOf(token, side), SettlingOf(token, side, s.trades);
    var settled := SettledOf(token, side, s.trades);
    var committed := (o: Order) => pending(o) + settling(o);
    SumPlus(s.orders, pending, settling, committed);
    SumPlus(s.orders, committed, settled, StakeOf(token, side, s.trades));
  }

  /**
   The effective position does not depend on what has settled: it is the stake of
   the buys less that of the sells, less the shares written off or paid out. So
   confirmations and fills only move shares between its parts.
   */
  lemma EffectiveClosedForm(s: State, ps: seq<Posting>, token: TokenId)
    requires Replayed(s, ps) && Balanced(s, ps)
    ensures var books := Replay(ps, token).books;
            BuildPosition(s, token).EffectiveShares() ==
            Stake(s, token, Buy) - Stake(s, token, Sell) - books.dropped - books.paid
  {
    StakeSplits(s, token, Buy);
    StakeSplits(s, token, Sell);
    ShareLedger(ps, token);
  }

  function FailedOf(token: TokenId, side: Side, trades: map<TradeId, Trade>): Order -> Micro {
    TotalOf(token, side, FailedIn(trades))
  }

  function CommittedOf(token: TokenId, side: Side): Order -> Micro {
    (o: Order) => if o.token.id == token && o.side == side then o.pending + o.matched else 0
  }

  /** A stake is what is committed off chain less what has failed on chain. */
  lemma StakeIsCommitted(orders: seq<Order>, trades: map<TradeId, Trade>, token: TokenId, side: Side)
    ensures Sum(orders, StakeOf(token, side, trades)) + Sum(orders, FailedOf(token, side, trades))
         == Sum(orders, CommittedOf(token, side))
  {
    SumPlus(orders, StakeOf(token, side, trades), FailedOf(token, side, trades), CommittedOf(token, side));
  }

  /** Shares the event's trade newly reports as failed, or takes back when negative. */
  function NewlyFailed(s: State, e: TradeEvent): Micro {
    (if e.status == Failed then e.shares else 0) - PriorTrade(s, e).failedShares
  }

  /** A trade event that keeps its order moves the stake of that order's bucket by what newly failed. */
  lemma StakeMoves(s: State, e: TradeEvent, token: TokenId, side: Side)
    requires TradesConsistent(s) && Accepts(s, e)
    requires e.tradeId in s.trades ==> s.trades[e.tradeId].orderId == e.orderId
    ensures Stake(HandleTradeEvent(s, e), token, side) == Stake(s, token, side)
          - (if InBucket(s.orders[Find(s.orders, e.orderId)], token, side) then NewlyFailed(s, e) else 0)
  {
    hide RecordTrade, TradesConsistent;
    AtHome(s, e);
    OthersSettledAlike(s, e);
    OwnShares(s, e);
    TotalMoves(s, e, token, side, FailedIn(s.trades), FailedIn(Record(s, e).trades));
    StakeIsCommitted(s.orders, s.trades, token, side);
    StakeIsCommitted(Record(s, e).orders, Record(s, e).trades, token, side);
    SumSame(s.orders, Record(s, e).orders, CommittedOf(token, side), CommittedOf(token, side));
  }

  /**
   For any stable trade event, effective shares move by what is written off and by what
   newly failed: down for a buy, up for a sell.
   */
  lemma TradeMovesEffective(s: State, ps: seq<Posting>, e: TradeEvent, token: TokenId)
    requires Replayed(s, ps) && TradesConsistent(s) && Balanced(s, ps) && StableTrade(s, e) && Accepts(s, e)
    ensures var o := s.orders[Find(s.orders, e.orderId)];
            var failed := if o.token.id == token then NewlyFailed(s, e) else 0;
            BuildPosition(HandleTradeEvent(s, e), token).EffectiveShares() == BuildPosition(s, token).EffectiveShares()
              - (Dropped(TradePostings(s, ps, e), token) - Dropped(ps, token))
              - (if o.side == Buy then failed else -failed)
  {
    hide Replayed, TradesConsistent, Balanced, BuildPosition, Stake, HandleTradeEvent, NewlyFailed, Replay;
    TradeKeepsReplayed(s, ps, e);
    TradeKeepsBalance(s, ps, e);
    StakeMoves(s, e, token, Buy);
    StakeMoves(s, e, token, Sell);
    EffectiveClosedForm(s, ps, token);
    EffectiveClosedForm(HandleTradeEvent(s, e), TradePostings(s, ps, e), token);
    NothingPaid(s, ps, e, token);
  }

  /** So an event leaves every effective position alone, up to write-offs, if and only if nothing newly failed or recovered. */
  lemma ConfirmationKeepsEffective(s: State, ps: seq<Posting>, e: TradeEvent)
    requires Replayed(s, ps) && TradesConsistent(s) && Balanced(s, ps) && StableTrade(s, e) && Accepts(s, e)
    ensures (forall token :: BuildPosition(HandleTradeEvent(s, e), token).EffectiveShares()
                          == BuildPosition(s, token).EffectiveShares()
                             - (Dropped(TradePostings(s, ps, e), token) - Dropped(ps, token)))
       <==> NewlyFailed(s, e) == 0
  {
    hide Replayed, TradesConsistent, Balanced, BuildPosition, HandleTradeEvent, NewlyFailed, Dropped;
    forall token
      ensures var o := s.orders[Find(s.orders, e.orderId)];
              var failed := if o.token.id == token then NewlyFailed(s, e) else 0;
              BuildPosition(HandleTradeEvent(s, e), token).EffectiveShares()
              == BuildPosition(s, token).EffectiveShares()
                 - (Dropped(TradePostings(s, ps, e), token) - Dropped(ps, token))
                 - (if o.side == Buy then failed else -failed)
    {
      TradeMovesEffective(s, ps, e, token);
    }
    var at := s.orders[Find(s.orders, e.orderId)].token.id;
    assert NewlyFailed(s, e) != 0 ==>
      BuildPosition(HandleTradeEvent(s, e), at).EffectiveShares() != BuildPosition(s, at).EffectiveShares()
        - (Dropped(TradePostings(s, ps, e), at) - Dropped(ps, at));
  }

  lemma NothingPaid(s: State, ps: seq<Posting>, e: TradeEvent, token: TokenId)
    ensures Replay(TradePostings(s, ps, e), token).books.paid == Replay(ps, token).books.paid
  {
    hide Post, Replay, HandleTradeEvent;
    if Confirms(s, e) {
      ReplayAppend(ps, PostingFor(s, e), token);
      PostCounts(Replay(ps, token), PostingFor(s, e));
    }
  }

  // ------------------------------------------------------------ order events

  /** What an order commits off chain before and after an event of its size. */
  lemma EventCommits(o: Order, e: OrderEvent)
    requires PendingLaw(o) && e.shares == o.shares
    ensures var p := OnOrderEvent(o, e);
            (p.pending + p.matched == o.pending + o.matched <==> KeepsCommitted(o, e)) && SameForTrades(o, p)
  {
  }

  /**
   Which order events move shares only between buckets: reports that are not news; fills of
   what was pending, no larger than the order; and, for an order that ends, the full report.
   */
  predicate KeepsCommitted(o: Order, e: OrderEvent) {
    if e.IsActive() && !o.IsCanceled() then
      e.matchedShares <= o.matched || (o.pending == Unfilled(o.shares, o.matched) && e.matchedShares <= o.shares)
    else if o.pending == 0 then e.matchedShares <= o.matched
    else e.matchedShares == o.shares
  }

  /** An order event leaves every effective position alone if and only if it is one of those, or not addressed to its order. */
  lemma FillKeepsEffective(s: State, ps: seq<Posting>, e: OrderEvent)
    requires Replayed(s, ps) && TradesConsistent(s) && Balanced(s, ps) && Tracks(s, e.orderId)
    requires var o := s.orders[Find(s.orders, e.orderId)]; PendingLaw(o) && e.shares == o.shares
    ensures var o := s.orders[Find(s.orders, e.orderId)];
            (forall token :: BuildPosition(HandleOrderEvent(s, e), token).EffectiveShares()
                          == BuildPosition(s, token).EffectiveShares())
            <==> (Addresses(o, e) ==> KeepsCommitted(o, e))
  {
    hide Replayed, TradesConsistent, Balanced, BuildPosition, OnOrderEvent, KeepsCommitted, Replay;
    var i, after := Find(s.orders, e.orderId), HandleOrderEvent(s, e);
    var o, p := s.orders[i], after.orders[i];
    var news := (p.pending + p.matched) - (o.pending + o.matched);
    if Addresses(o, e) { EventCommits(o, e); }
    UpdateKeepsBalance(s, ps, e.orderId, Feed(e));
    SamePositionsReplayed(s, after, ps);
    forall token
      ensures BuildPosition(after, token).EffectiveShares() - BuildPosition(s, token).EffectiveShares()
           == if o.token.id != token then 0 else if o.side == Buy then news else -news
    {
      CommitMovesStake(s, after, i, token, Buy);
      CommitMovesStake(s, after, i, token, Sell);
      EffectiveClosedForm(s, ps, token);
      EffectiveClosedForm(after, ps, token);
    }
    assert news != 0 ==> BuildPosition(after, o.token.id).EffectiveShares() != BuildPosition(s, o.token.id).EffectiveShares();
  }

  /** Changing what one order commits moves its stake by as much. */
  lemma CommitMovesStake(s: State, t: State, i: nat, token: TokenId, side: Side)
    requires t.trades == s.trades && |t.orders| == |s.orders| && i < |s.orders|
    requires forall j :: 0 <= j < |s.orders| && j != i ==> t.orders[j] == s.orders[j]
    requires SameForTrades(s.orders[i], t.orders[i])
    ensures Stake(t, token, side) - Stake(s, token, side) ==
            if InBucket(s.orders[i], token, side)
            then (t.orders[i].pending + t.orders[i].matched) - (s.orders[i].pending + s.orders[i].matched)
            else 0
  {
    SumChange(s.orders, t.orders, i, StakeOf(token, side, s.trades), StakeOf(token, side, t.trades));
  }

  // ------------------------------------------------- without the assumption

  /** Success is not absorbing: after a retry the same success is applied once more. */
  lemma RetryAppliesAgain(s: State, e: TradeEvent)
    requires Accepts(s, e) && e.IsSuccess()
    requires e.tradeId in s.trades && s.trades[e.tradeId].status == TradeSuccess
    ensures !Confirms(s, e)
    ensures Confirms(HandleTradeEvent(s, e.(status := Retrying)), e)
  {
    var s' := HandleTradeEvent(s, e.(status := Retrying));
    assert forall j :: 0 <= j < |s.orders| ==> s'.orders[j].id == s.orders[j].id;
    SameIdsSameFind(s.orders, s'.orders);
  }

  /** Recording an event of the only order there is. */
  lemma SoleOrderRecords(order: Order, trades: map<TradeId, Trade>, positions: map<TokenId, Position>, e: TradeEvent)
    requires e.orderId == order.id && e.marketId == order.market.id && e.tokenId == order.token.id
    ensures var s := State([order], trades, positions);
            && Accepts(s, e) && s.orders[Find(s.orders, e.orderId)] == order
            && Record(s, e) == State([order.(tradeIds := AddTradeId(order.tradeIds, e.tradeId))],
                                     trades[e.tradeId := RecordTrade(PriorTrade(s, e), e)], positions)
  {
    FindUnique([order], 0);
    var kept := order.(tradeIds := AddTradeId(order.tradeIds, e.tradeId));
    assert [order][0 := kept] == [kept];
  }

  lemma BuyHolds(p: Position, amount: Micro, shares: Micro)
    requires p.shares >= 0 && shares > DUST
    ensures ApplyTrade(p, Buy, amount, shares).shares == p.shares + shares
  {
  }

  /** A fresh buy whose one fill is reported mined, retrying and mined again holds the fill twice. */
  lemma FillHeldTwice(order: Order, mined: TradeEvent)
    requires order.side == Buy && order.tradeIds == [] && mined.side == Buy && mined.status == Mined
    requires mined.orderId == order.id && mined.marketId == order.market.id && mined.tokenId == order.token.id
    requires mined.shares > DUST
    ensures var first := HandleTradeEvent(Insert(EMPTY, order), mined);
            var again := HandleTradeEvent(HandleTradeEvent(first, mined.(status := Retrying)), mined);
            && PositionOf(first, order.token.id).shares == mined.shares
            && PositionOf(again, order.token.id).shares == 2 * mined.shares
            && SettledShares(again, order.token.id, Buy) == mined.shares
  {
    hide Record, ApplyTrade, CashAmount;
    var start, t, token := Insert(EMPTY, order), mined.tradeId, order.token.id;
    var kept := order.(tradeIds := [t]);
    assert start.orders == [order] && AddTradeId([], t) == [t] && AddTradeId([t], t) == [t];
    SoleOrderRecords(order, map[], map[], mined);
    var first := HandleTradeEvent(start, mined);
    BuyHolds(FLAT, CashAmount(order.market, Buy, mined.role, mined.shares, mined.price), mined.shares);
    SoleOrderRecords(kept, first.trades, first.positions, mined.(status := Retrying));
    var retry := HandleTradeEvent(first, mined.(status := Retrying));
    SoleOrderRecords(kept, retry.trades, retry.positions, mined);
    BuyHolds(PositionOf(retry, token), CashAmount(order.market, Buy, mined.role, mined.shares, mined.price), mined.shares);
    var again := HandleTradeEvent(retry, mined);
    SumOne(t, SettledIn(again.trades));
    SumOne(kept, SettledOf(token, Buy, again.trades));
  }

  /** Concretely: one share bought once, two shares held. */
  lemma OneShareHeldTwice()
    ensures var up := Token("up", "Up", "m");
            var order := NewOrder("o", Market("m", up, Token("dn", "Down", "m"), 0.0), up, Buy, Maker, 0.5, 1_000_000);
            var mined := TradeEvent(0, "m", "up", "o", "t", Mined, 1_000_000, Buy, Maker, 0.5);
            var first := HandleTradeEvent(Insert(EMPTY, order), mined);
            var again := HandleTradeEvent(HandleTradeEvent(first, mined.(status := Retrying)), mined);
            PositionOf(again, "up").shares == 2_000_000 && SettledShares(again, "up", Buy) == 1_000_000
  {
    var up := Token("up", "Up", "m");
    FillHeldTwice(
      NewOrder("o", Market("m", up, Token("dn", "Down", "m"), 0.0), up, Buy, Maker, 0.5, 1_000_000),
      TradeEvent(0, "m", "up", "o", "t", Mined, 1_000_000, Buy, Maker, 0.5));
  }

  /** The effective position of a single buy with a single trade. */
  lemma SoleEffective(order: Order, trades: map<TradeId, Trade>, positions: map<TokenId, Position>, t: TradeId)
    requires order.side == Buy && (order.tradeIds == [t] || (order.tradeIds == [] && t !in trades))
    ensures var s := State([order], trades, positions);
            BuildPosition(s, order.token.id).EffectiveShares() ==
            order.pending + order.matched - SettledIn(trades)(t) - FailedIn(trades)(t)
              + PositionOf(s, order.token.id).shares
  {
    var token := order.token.id;
    SumOne(t, SettledIn(trades));
    SumOne(t, FailedIn(trades));
    SumOne(order, PendingOf(token, Buy));
    SumOne(order, SettlingOf(token, Buy, trades));
    SumOne(order, PendingOf(token, Sell));
    SumOne(order, SettlingOf(token, Sell, trades));
  }

  /** A failure taken back: a filled buy of one share, reported failed and then mined, counts 1, 0 and 1. */
  lemma FailureTakenBack()
    ensures var up := Token("up", "Up", "m");
            var order := NewOrder("o", Market("m", up, Token("dn", "Down", "m"), 0.0), up, Buy, Maker, 0.5, 1_000_000)
                         .(pending := 0, matched := 1_000_000, status := FullMatched);
            var failed := TradeEvent(0, "m", "up", "o", "t", Failed, 1_000_000, Buy, Maker, 0.5);
            var mined := failed.(status := Mined);
            var start := Insert(EMPTY, order);
            var lost := HandleTradeEvent(start, failed);
            var found := HandleTradeEvent(lost, mined);
            && StableTrade(start, failed) && StableTrade(lost, mined)
            && BuildPosition(start, "up").EffectiveShares() == 1_000_000
            && BuildPosition(lost, "up").EffectiveShares() == 0
            && BuildPosition(found, "up").EffectiveShares() == 1_000_000
  {
    hide Record, CashAmount, BuildPosition;
    var up := Token("up", "Up", "m");
    var order := NewOrder("o", Market("m", up, Token("dn", "Down", "m"), 0.0), up, Buy, Maker, 0.5, 1_000_000)
                 .(pending := 0, matched := 1_000_000, status := FullMatched);
    var failed := TradeEvent(0, "m", "up", "o", "t", Failed, 1_000_000, Buy, Maker, 0.5);
    var start, kept := Insert(EMPTY, order), order.(tradeIds := ["t"]);
    assert start.orders == [order] && AddTradeId([], "t") == ["t"] && AddTradeId(["t"], "t") == ["t"];
    SoleOrderRecords(order, map[], map[], failed);
    var lost := HandleTradeEvent(start, failed);
    SoleOrderRecords(kept, lost.trades, map[], failed.(status := Mined));
    var found := HandleTradeEvent(lost, failed.(status := Mined));
    BuyHolds(FLAT, CashAmount(order.market, Buy, Maker, 1_000_000, 0.5), 1_000_000);
    SoleEffective(order, map[], map[], "t");
    SoleEffective(kept, lost.trades, map[], "t");
    SoleEffective(kept, found.trades, found.positions, "t");
  }

  lemma SoleOrderEvent(order: Order, e: OrderEvent)
    requires e.orderId == order.id && Addresses(order, e)
    ensures Insert(EMPTY, order) == State([order], map[], map[])
    ensures HandleOrderEvent(State([order], map[], map[]), e) == State([OnOrderEvent(order, e)], map[], map[])
  {
    FindUnique([order], 0);
    assert [order][0 := OnOrderEvent(order, e)] == [OnOrderEvent(order, e)] && [] + [order] == [order];
  }

  /** A late fill: a buy of one share, canceled with nothing matched, is then reported filled. */
  lemma LateFillMoves()
    ensures var up := Token("up", "Up", "m");
            var order := NewOrder("o", Market("m", up, Token("dn", "Down", "m"), 0.0), up, Buy, Maker, 0.5, 1_000_000)
                         .(pending := 0, invalid := 1_000_000, status := ZeroMatchedCanceled);
            var fill := OrderEvent("m", "up", "o", Matched, 1_000_000, Buy, 0.5, 1_000_000);
            var start := Insert(EMPTY, order);
            && PendingLaw(order) && Addresses(order, fill)
            && BuildPosition(start, "up").EffectiveShares() == 0
            && BuildPosition(HandleOrderEvent(start, fill), "up").EffectiveShares() == 1_000_000
  {
    hide BuildPosition, Insert, HandleOrderEvent;
    var up := Token("up", "Up", "m");
    var order := NewOrder("o", Market("m", up, Token("dn", "Down", "m"), 0.0), up, Buy, Maker, 0.5, 1_000_000)
                 .(pending := 0, invalid := 1_000_000, status := ZeroMatchedCanceled);
    var fill := OrderEvent("m", "up", "o", Matched, 1_000_000, Buy, 0.5, 1_000_000);
    var late := OnOrderEvent(order, fill);
    SoleOrderEvent(order, fill);
    SoleEffective(order, map[], map[], "t");
    SoleEffective(late, map[], map[], "t");
  }
}
