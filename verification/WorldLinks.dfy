/**
 How the core's orders mirror the exchange's, in every reachable state.

 An order is unsent, or its twin in the store has the same size; it is filled only
 if the twin is matched and emptied without a fill only if the twin is canceled.
 These facts, and those about the events and answers in flight, turn the
 assumptions on the order feed into theorems.
 */
module WorldLinks {
  import opened Bus
  import opened Desk
  import opened Domain
  import opened Engine
  import opened Manager
  import opened MockStore
  import opened Orders
  import opened Rounding
  import opened World

  ghost predicate Unsent(o: Order) {
    o.status == Submitting && o.matched == 0 && o.pending == o.shares && o.tradeIds == []
  }

  ghost predicate Mirrors(o: Order, twin: MockOrder) {
    && twin.shares == o.shares && twin.side == o.side && twin.tokenId == o.token.id && twin.marketId == o.market.id
    && ((o.matched == 0 && o.pending == o.shares)
        || (o.matched == o.shares && o.pending == 0 && twin.status == Matched)
        || (o.matched == 0 && o.pending == 0 && twin.status == Canceled))
    && (o.tradeIds == [] || (twin.status == Matched && o.tradeIds == twin.tradeIds))
  }

  ghost predicate Linked(m: Market, store: Store, o: Order) {
    && o.market == m && m.Lists(o.token) && o.shares >= SHARES_GAP
    && (!o.IsActive() ==> o.pending == 0)
    && if o.id in store.orders then Mirrors(o, store.orders[o.id]) else Unsent(o)
  }

  /** An order event in flight, possibly stale, tells the truth about the twin's end. */
  ghost predicate EventOk(store: Store, e: OrderEvent) {
    && e.orderId in store.orders
    && var twin := store.orders[e.orderId];
       && e.shares == twin.shares && e.tokenId == twin.tokenId && e.marketId == twin.marketId
       && (e.status == Live || e.status == Matched || e.status == Canceled)
       && (if e.status == Matched then e.matchedShares == twin.shares && twin.status == Matched else e.matchedShares == 0)
       && (e.status == Canceled ==> twin.status == Canceled)
  }

  ghost predicate OrdersLinked(m: Market, store: Store, orders: seq<Order>) {
    forall i {:trigger Linked(m, store, orders[i])} :: 0 <= i < |orders| ==> Linked(m, store, orders[i])
  }

  ghost predicate EventsOk(store: Store, es: seq<OrderEvent>) {
    forall i {:trigger EventOk(store, es[i])} :: 0 <= i < |es| ==> EventOk(store, es[i])
  }

  ghost predicate FeedOk(store: Store, es: seq<Event>) {
    forall i {:trigger es[i].OrderFeed?} :: 0 <= i < |es| && es[i].OrderFeed? ==> EventOk(store, es[i].order)
  }

  ghost predicate StoreTracked(orders: seq<Order>, store: Store) {
    forall id :: id in store.orders ==> Find(orders, id) < |orders|
  }

  /** An accepted order is in the store, an accepted cancel has canceled, and a sent order awaits its answer. */
  ghost predicate AnswersOk(submits: map<OrderId, SubmitStage>, store: Store,
                            submitted: map<OrderId, bool>, canceled: map<OrderId, CancelReply>) {
    && (forall id :: id in submitted ==> submitted[id] && id in store.orders)
    && (forall id :: id in canceled && canceled[id] == Accepted ==>
          id in store.orders && store.orders[id].status == Canceled)
    && (forall id :: id in store.orders && id in submits && submits[id] == InFlight ==> id in submitted)
  }

  ghost predicate Links(w: World) {
    && StoreOk(w.store)
    && OrdersLinked(w.desk.market, w.store, w.desk.mgr.orders)
    && EventsOk(w.store, w.orderQueue.items) && EventsOk(w.store, w.snapshots)
    && FeedOk(w.store, w.batch) && FeedOk(w.store, w.store.pending)
    && StoreTracked(w.desk.mgr.orders, w.store)
    && AnswersOk(w.desk.submits, w.store, w.submitted, w.canceled)
    && w.orderQueue.overflow == Block && w.tradeQueue.overflow == Block
  }

  // ------------------------------------------------------------ steps of the core

  /** Shares an order still commits off chain: pending or matched. */
  function Committed(o: Order): Micro { o.pending + o.matched }

  /** The step is one the exchange can cause. */
  ghost predicate Truthful(store: Store, o: Order, st: OrderStep) {
    match st
    case Feed(e) => e.orderId == o.id && EventOk(store, e)
    case SubmitSuccess => o.id in store.orders
    case SubmitFailed => false
    case CancelSuccess => o.id in store.orders && store.orders[o.id].status == Canceled
    case _ => true
  }

  /** The step keeps the link; it commits no more shares, and less only for a canceled pending order. */
  ghost predicate KeepsLink(m: Market, store: Store, o: Order, p: Order) {
    && Linked(m, store, p)
    && (Committed(p) == Committed(o) || (Committed(p) == 0 && o.pending == o.shares
          && o.id in store.orders && store.orders[o.id].status == Canceled))
    && (p.pending == 0 || p.pending == o.pending)
  }

  lemma FeedKeepsLinked(m: Market, store: Store, o: Order, e: OrderEvent)
    requires Linked(m, store, o) && e.orderId == o.id && EventOk(store, e)
    ensures KeepsLink(m, store, o, Step(o, Feed(e))) && Sized(o, Feed(e))
  {
  }

  /** Truthful steps keep the link, and events carry the size of the order. */
  lemma StepKeepsLinked(m: Market, store: Store, o: Order, st: OrderStep)
    requires Linked(m, store, o) && Truthful(store, o, st)
    ensures KeepsLink(m, store, o, Step(o, st)) && Sized(o, st)
  {
    hide OnOrderEvent;
    if st.Feed? { FeedKeepsLinked(m, store, o, st.event); }
  }

  /** So a truthful step never raises what an order commits, and keeps it once nothing is pending. */
  lemma StepKeepsCommitted(m: Market, store: Store, o: Order, st: OrderStep)
    requires Linked(m, store, o) && Truthful(store, o, st)
    ensures Committed(Step(o, st)) <= Committed(o)
    ensures o.pending == 0 ==> Committed(Step(o, st)) == Committed(o) && Step(o, st).pending == 0
    ensures Step(o, st).token == o.token && Step(o, st).side == o.side && Step(o, st).tradeIds == o.tradeIds
    ensures Step(o, st).id == o.id && (Step(o, st).pending == 0 || Step(o, st).pending == o.pending)
  {
    StepKeepsLinked(m, store, o, st);
  }

  /** Attaching the twin's trade keeps the link. */
  lemma TradeIdKeepsLinked(m: Market, store: Store, o: Order, after: Order, t: TradeId)
    requires StoreOk(store) && Linked(m, store, o)
    requires t in store.trades && store.trades[t].orderId == o.id
    requires after == o.(tradeIds := AddTradeId(o.tradeIds, t))
    ensures Linked(m, store, after)
  {
    assert TradeOk(store, t, store.trades[t]);
    assert OrderOk(store, o.id, store.orders[o.id]);
    assert AddTradeId([], t) == [t];
  }

  lemma NewOrderLinked(m: Market, store: Store, c: EngineStage, id: OrderId)
    requires c.Creating? && c.shares >= SHARES_GAP && m.Lists(c.token) && id !in store.orders
    ensures Linked(m, store, NewOrder(id, m, c.token, c.side, c.role, c.price, c.shares))
  {
  }

  // ------------------------------------------------------------ moves of the store

  lemma StoreMoveKeepsLinked(m: Market, store: Store, after: Store, o: Order)
    requires StoreOk(store) && StoreMoves(store, after) && Linked(m, store, o)
    requires o.id in after.orders <==> o.id in store.orders
    ensures Linked(m, after, o)
  {
    if o.id in store.orders { assert OrderOk(store, o.id, store.orders[o.id]); }
  }

  lemma SubmitLinks(m: Market, store: Store, o: Order, now: int)
    requires Linked(m, store, o) && m.WellFormed() && o.id !in store.orders
    ensures AcceptsOrder(ClientOrder(o, now)) && Linked(m, Submit(store, ClientOrder(o, now)), o)
  {
  }

  lemma StoreMoveKeepsEvent(store: Store, after: Store, e: OrderEvent)
    requires StoreMoves(store, after) && EventOk(store, e)
    ensures EventOk(after, e)
  {
  }

  lemma StoreMoveKeepsEvents(store: Store, after: Store, es: seq<OrderEvent>)
    requires StoreMoves(store, after) && EventsOk(store, es)
    ensures EventsOk(after, es)
  {
    forall i | 0 <= i < |es|
      ensures EventOk(after, es[i])
    {
      StoreMoveKeepsEvent(store, after, es[i]);
    }
  }

  lemma StoreMoveKeepsFeed(store: Store, after: Store, es: seq<Event>)
    requires StoreMoves(store, after) && FeedOk(store, es)
    ensures FeedOk(after, es)
  {
    forall i | 0 <= i < |es| && es[i].OrderFeed?
      ensures EventOk(after, es[i].order)
    {
      StoreMoveKeepsEvent(store, after, es[i].order);
    }
  }

  /** What an order reports of itself is true. */
  lemma SelfReportOk(store: Store, id: OrderId)
    requires StoreOk(store) && id in store.orders
    ensures EventOk(store, OrderEventOf(store.orders[id]))
  {
    assert OrderOk(store, id, store.orders[id]);
  }

  lemma FeedExtends(store: Store, es: seq<Event>, more: seq<Event>)
    requires FeedOk(store, es) && FeedOk(store, more)
    ensures FeedOk(store, es + more)
  {
    forall i | 0 <= i < |es + more| && (es + more)[i].OrderFeed?
      ensures EventOk(store, (es + more)[i].order)
    {
      if i < |es| { assert es[i].OrderFeed?; } else { assert more[i - |es|].OrderFeed?; }
    }
  }

  lemma CancelPending(store: Store, id: OrderId)
    requires StoreOk(store) && FeedOk(store, store.pending)
    ensures FeedOk(Cancel(store, id), Cancel(store, id).pending)
  {
    var after := Cancel(store, id);
    CancelOk(store, id);
    StoreMoveKeepsFeed(store, after, store.pending);
    if after != store {
      SelfReportOk(after, id);
      FeedExtends(after, store.pending, [OrderFeed(OrderEventOf(after.orders[id]))]);
    }
  }

  lemma MatchPending(store: Store, id: OrderId, tradeId: TradeId, price: real, now: int, delay: int)
    requires StoreOk(store) && FeedOk(store, store.pending) && tradeId !in store.trades
    ensures var after := MarkMatched(store, id, tradeId, price, now, delay);
            StoreOk(after) && StoreMoves(store, after) && FeedOk(after, after.pending)
  {
    var after := MarkMatched(store, id, tradeId, price, now, delay);
    if !Matchable(store, id) { return; }
    MatchedStore(store, id, tradeId, price, now, delay);
    StoreMoveKeepsFeed(store, after, store.pending);
    SelfReportOk(after, id);
    FeedExtends(after, store.pending,
                [OrderFeed(OrderEventOf(after.orders[id])), TradeFeed(TradeEventOf(after.trades[tradeId]))]);
  }

  lemma {:induction false} MinePending(store: Store, ids: seq<TradeId>, now: int)
    requires StoreOk(store) && FeedOk(store, store.pending)
    ensures var after := PromoteAll(store, ids, now);
            StoreOk(after) && StoreMoves(store, after) && FeedOk(after, after.pending) && after.orders == store.orders
  {
    if ids != [] {
      var mid := PromoteAll(store, ids[..|ids| - 1], now);
      MinePending(store, ids[..|ids| - 1], now);
      var id := ids[|ids| - 1];
      var after := PromoteOne(mid, id, now);
      PromotedStore(mid, id, now);
      MovesCompose(store, mid, after);
      StoreMoveKeepsFeed(mid, after, mid.pending);
      if after != mid {
        FeedExtends(after, mid.pending, [TradeFeed(TradeEventOf(after.trades[id]))]);
      }
    }
  }
}
