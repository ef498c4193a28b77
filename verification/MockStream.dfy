/**
 The mock exchange's event stream: quotes fill resting maker orders, polls fill
 due taker orders, promote due trades and drain the pending events.

 Both list orders first and match them afterwards. Trade ids and clock readings are
 drawn per listed order, and are parameters.
 */
module MockStream {
  import opened Domain
  import opened MockStore

  const TAKER_FILL_DELAY := 1_000
  const SETTLE_DELAY := 250

  datatype Quote = Quote(tokenId: TokenId, bestBid: real, bestAsk: real)

  predicate Crosses(o: MockOrder, q: Quote) {
    if o.side == Buy then q.bestAsk <= o.price else q.bestBid >= o.price
  }

  predicate Open(o: MockOrder) { o.status == Live && o.Unmatched() > 0 }

  predicate Resting(o: MockOrder) { o.role == Maker && Open(o) }

  predicate Due(o: MockOrder, now: int) { o.role == Taker && Open(o) && now - o.createdTs >= TAKER_FILL_DELAY }

  predicate FilledBy(o: MockOrder, q: Quote) { Resting(o) && o.tokenId == q.tokenId && Crosses(o, q) }

  function InBook(): MockOrder -> bool {
    (o: MockOrder) => Resting(o)
  }

  function DueAt(now: int): MockOrder -> bool {
    (o: MockOrder) => Due(o, now)
  }

  /** Stored orders that satisfy `p`, in the order they were stored. */
  function Listed(st: Store, ids: seq<OrderId>, p: MockOrder -> bool): (r: seq<OrderId>)
    ensures forall id :: id in r ==> id in st.orders
  {
    if ids == [] then [] else
    var n := |ids| - 1;
    Listed(st, ids[..n], p) + (if ids[n] in st.orders && p(st.orders[ids[n]]) then [ids[n]] else [])
  }

  /** Matches the listed orders one after the other, each at its own price. */
  function MatchListed(st: Store, ids: seq<OrderId>, draw: nat -> TradeId, clock: nat -> int): (after: Store)
    requires forall id :: id in ids ==> id in st.orders
    ensures after.orders.Keys == st.orders.Keys && after.orderIds == st.orderIds
  {
    if ids == [] then st else
    var n := |ids| - 1;
    MarkMatched(MatchListed(st, ids[..n], draw, clock), ids[n], draw(n), st.orders[ids[n]].price, clock(n), SETTLE_DELAY)
  }

  lemma {:induction false} ListedMembers(st: Store, ids: seq<OrderId>, p: MockOrder -> bool)
    ensures forall id :: id in Listed(st, ids, p) <==> id in ids && id in st.orders && p(st.orders[id])
  {
    if ids != [] {
      var n := |ids| - 1;
      ListedMembers(st, ids[..n], p);
      assert forall id :: id in ids <==> id in ids[..n] || id == ids[n];
    }
  }

  function RestingIds(st: Store): seq<OrderId> {
    Listed(st, st.orderIds, InBook())
  }

  function Hit(q: Quote): MockOrder -> bool {
    (o: MockOrder) => o.tokenId == q.tokenId && Crosses(o, q)
  }

  function QuoteIds(st: Store, q: Quote): (ids: seq<OrderId>)
    ensures forall id :: id in ids <==> id in st.orderIds && id in st.orders && FilledBy(st.orders[id], q)
  {
    ListedMembers(st, st.orderIds, InBook());
    ListedMembers(st, RestingIds(st), Hit(q));
    Listed(st, RestingIds(st), Hit(q))
  }

  function OnQuote(st: Store, q: Quote, draw: nat -> TradeId, clock: nat -> int): Store {
    MatchListed(st, QuoteIds(st, q), draw, clock)
  }

  function DueIds(st: Store, now: int): (ids: seq<OrderId>)
    ensures forall id :: id in ids <==> id in st.orderIds && id in st.orders && Due(st.orders[id], now)
  {
    ListedMembers(st, st.orderIds, DueAt(now));
    Listed(st, st.orderIds, DueAt(now))
  }

  function FillDue(st: Store, now: int, draw: nat -> TradeId, clock: nat -> int): Store {
    MatchListed(st, DueIds(st, now), draw, clock)
  }

  /** The store after a poll, before the events are drained. */
  function Polled(st: Store, now: int, draw: nat -> TradeId, clock: nat -> int): Store {
    PromoteMined(FillDue(st, now, draw, clock), now)
  }

  /** Drawn trade ids are new. */
  ghost predicate FreshDraws(st: Store, draw: nat -> TradeId, n: nat) {
    && (forall i :: 0 <= i < n ==> draw(i) !in st.trades)
    && (forall i, j :: 0 <= i < j < n ==> draw(i) != draw(j))
  }

  ghost predicate Distinct<T>(xs: seq<T>) {
    forall i, j :: 0 <= i < j < |xs| ==> xs[i] != xs[j]
  }

  lemma {:induction false} ListedDistinct(st: Store, ids: seq<OrderId>, p: MockOrder -> bool)
    requires Distinct(ids)
    ensures Distinct(Listed(st, ids, p))
  {
    if ids != [] {
      var n := |ids| - 1;
      ListedDistinct(st, ids[..n], p);
      ListedMembers(st, ids[..n], p);
      assert ids[n] !in ids[..n];
    }
  }

  ghost predicate Drawn(draw: nat -> TradeId, n: nat, t: TradeId) {
    exists i :: 0 <= i < n && draw(i) == t
  }

  /** The trade of an order matched by the stream: at its own price. */
  function FillOf(o: MockOrder, tradeId: TradeId, now: int): MockTrade {
    TradeOf(o, tradeId, o.price, now, SETTLE_DELAY)
  }

  /** The insertion order lists every order once. */
  ghost predicate OrdersListed(st: Store) {
    Distinct(st.orderIds) && forall id :: id in st.orders <==> id in st.orderIds
  }

  lemma {:induction false} RunsListOrders(ops: seq<StoreOp>)
    ensures OrdersListed(RunOps(ops).store)
  {
    if ops != [] {
      var before, op := RunOps(ops[..|ops| - 1]).store, ops[|ops| - 1];
      RunsListOrders(ops[..|ops| - 1]);
      if op.MineOp? { PromotionKeepsOrders(before, before.tradeIds, op.now); }
    }
  }

  lemma {:induction false} PromotionKeepsOrders(st: Store, ids: seq<TradeId>, now: int)
    ensures PromoteAll(st, ids, now).orders == st.orders && PromoteAll(st, ids, now).orderIds == st.orderIds
  {
    if ids != [] { PromotionKeepsOrders(st, ids[..|ids| - 1], now); }
  }

  /** What matching a list of open orders does to the orders: the listed ones are filled, in one trade each. */
  ghost predicate OrdersFilled(st: Store, ids: seq<OrderId>, draw: nat -> TradeId, after: Store)
    requires forall id :: id in ids ==> id in st.orders
  {
    && after.orders.Keys == st.orders.Keys
    && (forall i :: 0 <= i < |ids| ==> after.orders[ids[i]] == FilledOrder(st.orders[ids[i]], draw(i)))
    && (forall id :: id in st.orders && id !in ids ==> after.orders[id] == st.orders[id])
  }

  /** And to the trades: each listed order adds its own. */
  ghost predicate TradesAdded(st: Store, ids: seq<OrderId>, draw: nat -> TradeId, clock: nat -> int, after: Store)
    requires forall id :: id in ids ==> id in st.orders
  {
    && (forall t :: t in after.trades <==> t in st.trades || Drawn(draw, |ids|, t))
    && (forall t :: t in st.trades ==> after.trades[t] == st.trades[t])
    && (forall i :: 0 <= i < |ids| ==> draw(i) in after.trades)
    && (forall i :: 0 <= i < |ids| ==> after.trades[draw(i)] == FillOf(st.orders[ids[i]], draw(i), clock(i)))
  }

  /** What matching a list of open orders does, order by order and trade by trade. */
  ghost predicate MatchedExactly(st: Store, ids: seq<OrderId>, draw: nat -> TradeId, clock: nat -> int, after: Store)
    requires forall id :: id in ids ==> id in st.orders
  {
    OrdersFilled(st, ids, draw, after) && TradesAdded(st, ids, draw, clock, after)
  }

  lemma MatchesOneMore(st: Store, ids: seq<OrderId>, draw: nat -> TradeId, clock: nat -> int, before: Store)
    requires ids != [] && Distinct(ids) && FreshDraws(st, draw, |ids|)
    requires forall id :: id in ids ==> id in st.orders && Open(st.orders[id])
    requires MatchedExactly(st, ids[..|ids| - 1], draw, clock, before)
    ensures var n := |ids| - 1;
            && Matchable(before, ids[n]) && draw(n) !in before.trades
            && MatchedExactly(st, ids, draw, clock,
                 MarkMatched(before, ids[n], draw(n), st.orders[ids[n]].price, clock(n), SETTLE_DELAY))
  {
    hide FilledOrder, TradeOf, TradesAdded;
    var n := |ids| - 1;
    var last, prefix := ids[n], ids[..n];
    assert last in ids && last !in prefix && before.orders[last] == st.orders[last];
    NextDrawIsNew(st, ids, draw, clock, before);
    var after := MarkMatched(before, last, draw(n), st.orders[last].price, clock(n), SETTLE_DELAY);
    assert after.orders == before.orders[last := FilledOrder(st.orders[last], draw(n))];
    forall i | 0 <= i < n
      ensures prefix[i] == ids[i] && ids[i] != last
    {
    }
    OneMoreTrade(st, ids, draw, clock, before, after);
  }

  lemma NextDrawIsNew(st: Store, ids: seq<OrderId>, draw: nat -> TradeId, clock: nat -> int, before: Store)
    requires ids != [] && FreshDraws(st, draw, |ids|) && forall id :: id in ids ==> id in st.orders
    requires TradesAdded(st, ids[..|ids| - 1], draw, clock, before)
    ensures draw(|ids| - 1) !in before.trades
  {
    FreshNotDrawn(st, draw, |ids| - 1);
  }

  lemma OneMoreTrade(st: Store, ids: seq<OrderId>, draw: nat -> TradeId, clock: nat -> int, before: Store, after: Store)
    requires ids != [] && FreshDraws(st, draw, |ids|) && forall id :: id in ids ==> id in st.orders
    requires TradesAdded(st, ids[..|ids| - 1], draw, clock, before)
    requires var n := |ids| - 1; after.trades == before.trades[draw(n) := FillOf(st.orders[ids[n]], draw(n), clock(n))]
    ensures TradesAdded(st, ids, draw, clock, after)
  {
    hide FillOf, Drawn;
    var n := |ids| - 1;
    FreshNotDrawn(st, draw, n);
    DrawnOneMore(draw, n);
    forall i | 0 <= i < n
      ensures ids[..n][i] == ids[i] && draw(i) != draw(n)
    {
    }
  }

  lemma DrawnOneMore(draw: nat -> TradeId, n: nat)
    ensures forall t :: Drawn(draw, n + 1, t) <==> Drawn(draw, n, t) || t == draw(n)
  {
    forall t
      ensures Drawn(draw, n + 1, t) <==> Drawn(draw, n, t) || t == draw(n)
    {
      if Drawn(draw, n, t) {
        var i :| 0 <= i < n && draw(i) == t;
        assert 0 <= i < n + 1;
      }
    }
  }

  lemma FreshNotDrawn(st: Store, draw: nat -> TradeId, n: nat)
    requires FreshDraws(st, draw, n + 1)
    ensures draw(n) !in st.trades && !Drawn(draw, n, draw(n))
  {
  }

  lemma {:induction false} MatchListedExact(st: Store, ids: seq<OrderId>, draw: nat -> TradeId, clock: nat -> int)
    requires StoreOk(st) && FreshDraws(st, draw, |ids|) && Distinct(ids)
    requires forall id :: id in ids ==> id in st.orders && Open(st.orders[id])
    ensures MatchedExactly(st, ids, draw, clock, MatchListed(st, ids, draw, clock))
    ensures StoreOk(MatchListed(st, ids, draw, clock))
  {
    if ids != [] {
      var n := |ids| - 1;
      MatchListedExact(st, ids[..n], draw, clock);
      var before := MatchListed(st, ids[..n], draw, clock);
      MatchesOneMore(st, ids, draw, clock, before);
      MatchedStore(before, ids[n], draw(n), st.orders[ids[n]].price, clock(n), SETTLE_DELAY);
    }
  }

  /**
   A quote fills exactly the live maker orders of its token that it crosses, each whole,
   at the order's own price and in one trade; every other order and trade is untouched.
   */
  lemma QuoteFillsWhatItCrosses(st: Store, q: Quote, draw: nat -> TradeId, clock: nat -> int)
    requires StoreOk(st) && FreshDraws(st, draw, |QuoteIds(st, q)|) && OrdersListed(st)
    ensures var after := OnQuote(st, q, draw, clock);
            && StoreOk(after) && MatchedExactly(st, QuoteIds(st, q), draw, clock, after)
            && forall id :: id in st.orders ==>
                 (after.orders[id].status == Matched <==> st.orders[id].status == Matched || FilledBy(st.orders[id], q))
  {
    hide MatchedExactly, StoreOk, FreshDraws;
    var ids := QuoteIds(st, q);
    ListedDistinct(st, st.orderIds, InBook());
    ListedDistinct(st, RestingIds(st), Hit(q));
    MatchListedExact(st, ids, draw, clock);
    forall id | id in st.orders
      ensures OnQuote(st, q, draw, clock).orders[id].status == Matched
         <==> st.orders[id].status == Matched || FilledBy(st.orders[id], q)
    {
      StatusAfter(st, ids, draw, clock, OnQuote(st, q, draw, clock), id);
    }
  }

  lemma StatusAfter(st: Store, ids: seq<OrderId>, draw: nat -> TradeId, clock: nat -> int, after: Store, id: OrderId)
    requires (forall k :: k in ids ==> k in st.orders) && MatchedExactly(st, ids, draw, clock, after) && id in st.orders
    ensures id in after.orders && after.orders[id].status == if id in ids then Matched else st.orders[id].status
    ensures id !in ids ==> after.orders[id] == st.orders[id]
  {
    if id in ids {
      var i :| 0 <= i < |ids| && ids[i] == id;
    }
  }

  /**
   A poll fills exactly the due taker orders and mines exactly the trades that were due
   before it: a trade it creates itself is left for a later poll.
   */
  lemma PollFillsAndMines(st: Store, now: int, draw: nat -> TradeId, clock: nat -> int)
    requires StoreOk(st) && FreshDraws(st, draw, |DueIds(st, now)|) && OrdersListed(st)
    requires forall i :: clock(i) >= now
    ensures var filled, after := FillDue(st, now, draw, clock), Polled(st, now, draw, clock);
            && StoreOk(after) && after.orders == filled.orders
            && MatchedExactly(st, DueIds(st, now), draw, clock, filled)
            && after.trades.Keys == filled.trades.Keys
            && (forall t :: t in st.trades ==> (after.trades[t].status == Mined <==>
                  st.trades[t].status == Mined || st.trades[t].minedDue <= now))
            && (forall t :: t in after.trades && t !in st.trades ==> after.trades[t].status == TradeMatched)
  {
    hide StoreOk, PromoteAll;
    var ids, filled := DueIds(st, now), FillDue(st, now, draw, clock);
    ListedDistinct(st, st.orderIds, DueAt(now));
    MatchListedExact(st, ids, draw, clock);
    NewTradesWait(st, ids, draw, clock, filled, now);
    PromotesDue(filled, filled.tradeIds, now);
    EveryTradeListed(filled);
  }

  lemma EveryTradeListed(st: Store)
    requires StoreOk(st)
    ensures forall t :: t in st.trades ==>
              t in st.tradeIds && (st.trades[t].status == TradeMatched || st.trades[t].status == Mined)
  {
    forall t | t in st.trades
      ensures TradeOk(st, t, st.trades[t])
    {
    }
  }

  lemma NewTradesWait(st: Store, ids: seq<OrderId>, draw: nat -> TradeId, clock: nat -> int, after: Store, now: int)
    requires forall id :: id in ids ==> id in st.orders
    requires MatchedExactly(st, ids, draw, clock, after) && forall i :: clock(i) >= now
    ensures forall t :: t in after.trades && t !in st.trades ==>
              after.trades[t].status == TradeMatched && after.trades[t].minedDue > now
  {
    forall t | t in after.trades && t !in st.trades
      ensures after.trades[t].status == TradeMatched && after.trades[t].minedDue > now
    {
      assert Drawn(draw, |ids|, t);
      var i :| 0 <= i < |ids| && draw(i) == t;
      assert after.trades[t] == FillOf(st.orders[ids[i]], draw(i), clock(i)) && clock(i) >= now;
    }
  }

  /** Promotion mines exactly the listed trades that are due. */
  lemma {:induction false} PromotesDue(st: Store, ids: seq<TradeId>, now: int)
    requires StoreOk(st)
    ensures var after := PromoteAll(st, ids, now);
            && StoreOk(after) && after.orders == st.orders && after.trades.Keys == st.trades.Keys
            && (forall t :: t in st.trades ==> after.trades[t].minedDue == st.trades[t].minedDue)
            && (forall t :: t in st.trades ==> (after.trades[t].status == Mined || after.trades[t] == st.trades[t]))
            && (forall t :: t in st.trades ==> (after.trades[t].status == Mined <==>
                  st.trades[t].status == Mined || (t in ids && st.trades[t].minedDue <= now)))
  {
    if ids != [] {
      hide StoreOk, PromoteOne;
      var n := |ids| - 1;
      PromotesDue(st, ids[..n], now);
      var before := PromoteAll(st, ids[..n], now);
      assert forall t :: t in ids <==> t in ids[..n] || t == ids[n];
      PromotedStore(before, ids[n], now);
      PromotesOne(before, ids[n], now);
    }
  }

  lemma PromotesOne(st: Store, id: TradeId, now: int)
    requires StoreOk(st)
    ensures var after := PromoteOne(st, id, now);
            && after.trades.Keys == st.trades.Keys
            && (forall t :: t in st.trades ==> after.trades[t].minedDue == st.trades[t].minedDue)
            && (forall t :: t in st.trades ==> (after.trades[t].status == Mined || after.trades[t] == st.trades[t]))
            && (forall t :: t in st.trades ==> (after.trades[t].status == Mined <==>
                  st.trades[t].status == Mined || (t == id && st.trades[t].minedDue <= now)))
  {
    EveryTradeListed(st);
  }

  // -------------------------------------------------------------- field by field

  /** The order is filled whole in one new trade at its own price, which is due a quarter of a second after it. */
  ghost predicate FilledAtOwnPrice(o: MockOrder, after: Store) {
    exists t :: t in after.trades && o.id in after.orders
      && after.orders[o.id] == o.(matched := o.shares, status := Matched, tradeIds := o.tradeIds + [t])
      && after.trades[t] == MockTrade(t, o.id, o.marketId, o.tokenId, o.side, o.role, o.price, o.shares - o.matched,
                                      TradeMatched, after.trades[t].updatedTs, after.trades[t].updatedTs + 250)
  }

  lemma FillKeepsPrice(o: MockOrder, tradeId: TradeId, now: int, after: Store)
    requires o.id in after.orders && after.orders[o.id] == FilledOrder(o, tradeId) && o.shares >= o.matched
    requires tradeId in after.trades && after.trades[tradeId] == FillOf(o, tradeId, now)
    ensures FilledAtOwnPrice(o, after)
  {
  }

  lemma ListedFilled(st: Store, ids: seq<OrderId>, draw: nat -> TradeId, clock: nat -> int, after: Store, id: OrderId)
    requires StoreOk(st) && id in ids && forall k :: k in ids ==> k in st.orders && Open(st.orders[k])
    requires MatchedExactly(st, ids, draw, clock, after)
    ensures FilledAtOwnPrice(st.orders[id], after)
  {
    hide FilledAtOwnPrice, FilledOrder, FillOf, TradeOk, Drawn;
    var i :| 0 <= i < |ids| && ids[i] == id;
    assert OrderOk(st, id, st.orders[id]);
    FillKeepsPrice(st.orders[id], draw(i), clock(i), after);
  }

  /** The orders that a quote fills, by their fields: live maker orders of its token that it reaches. */
  lemma QuoteFillsIff(st: Store, q: Quote, draw: nat -> TradeId, clock: nat -> int, id: OrderId)
    requires StoreOk(st) && FreshDraws(st, draw, |QuoteIds(st, q)|) && OrdersListed(st) && id in st.orders
    ensures var o, after := st.orders[id], OnQuote(st, q, draw, clock);
            && id in after.orders
            && if o.role == Maker && o.status == Live && o.shares > o.matched && o.tokenId == q.tokenId
                  && (if o.side == Buy then q.bestAsk <= o.price else o.price <= q.bestBid)
               then FilledAtOwnPrice(o, after) else after.orders[id] == o
  {
    hide MatchedExactly, FilledAtOwnPrice, StoreOk, FreshDraws, OrdersListed;
    var ids := QuoteIds(st, q);
    QuoteFillsWhatItCrosses(st, q, draw, clock);
    if id in ids { ListedFilled(st, ids, draw, clock, OnQuote(st, q, draw, clock), id); }
    StatusAfter(st, ids, draw, clock, OnQuote(st, q, draw, clock), id);
  }

  /** The orders that a poll fills, by their fields: live taker orders that are at least a second old. */
  lemma PollFillsIff(st: Store, now: int, draw: nat -> TradeId, clock: nat -> int, id: OrderId)
    requires StoreOk(st) && FreshDraws(st, draw, |DueIds(st, now)|) && OrdersListed(st) && id in st.orders
    requires forall i :: clock(i) >= now
    ensures var o, filled := st.orders[id], FillDue(st, now, draw, clock);
            && filled.orders == Polled(st, now, draw, clock).orders && id in filled.orders
            && if o.role == Taker && o.status == Live && o.shares > o.matched && now - o.createdTs >= 1_000
               then FilledAtOwnPrice(o, filled) else filled.orders[id] == o
  {
    hide MatchedExactly, FilledAtOwnPrice, StoreOk, FreshDraws;
    var ids := DueIds(st, now);
    PollFillsAndMines(st, now, draw, clock);
    if id in ids { ListedFilled(st, ids, draw, clock, FillDue(st, now, draw, clock), id); }
    StatusAfter(st, ids, draw, clock, FillDue(st, now, draw, clock), id);
  }
}
