/**
 Every move of the closed system keeps the links between core and exchange.
 */
module WorldKeepsLinks {
  import opened Bus
  import opened Desk
  import opened Domain
  import opened Engine
  import opened Manager
  import opened MockStore
  import opened Orders
  import opened World
  import opened WorldLinks

  /** What the engine is about to store. */
  ghost predicate EngineOk(d: Desk) {
    d.market.WellFormed() && (d.engine.Creating? ==> d.engine.shares >= SHARES_GAP && d.market.Lists(d.engine.token))
  }

  lemma EngineStaysOk(d: Desk, a: Action)
    requires Enabled(d, a) && EngineOk(d)
    ensures EngineOk(Act(d, a))
  {
    if a.Observe? && DecideOn(d.mgr, a.desired, a.aged).Place? {
      PlacesTowardsTarget(d.mgr, a.desired, a.aged);
    }
  }

  /** The next trade event names a trade of the store. */
  ghost predicate NextTradeKnown(w: World, m: Move) {
    m == TradeTaken && w.tradeQueue.items != [] ==> Reported(w.store.trades, w.tradeQueue.items[0])
  }

  // ------------------------------------------------------------------- orders

  /** Every step a move takes on an order is one the exchange has caused. */
  lemma ActionTruthful(w: World, m: Move, o: Order)
    requires Possible(w, m) && Links(w) && DeskAction(w, m).Some?
    requires StepOf(w.desk, DeskAction(w, m).value).Some?
    requires StepOf(w.desk, DeskAction(w, m).value).value.0 == o.id
    ensures Truthful(w.store, o, StepOf(w.desk, DeskAction(w, m).value).value.1)
  {
    match m
    case SyncArrives(k) => assert EventOk(w.store, w.snapshots[k]);
    case OrderTaken => assert EventOk(w.store, w.orderQueue.items[0]);
    case _ =>
  }

  lemma SteppedOrdersLinked(w: World, m: Move, after: seq<Order>)
    requires Possible(w, m) && Links(w) && EngineOk(w.desk) && DeskAction(w, m).Some? && m != TradeTaken
    requires OrdersFollow(w.desk, DeskAction(w, m).value, after)
    requires forall i :: 0 <= i < |w.desk.mgr.orders| ==> after[i].tradeIds == w.desk.mgr.orders[i].tradeIds
    ensures OrdersLinked(w.desk.market, w.store, after)
  {
    var a, before := DeskAction(w, m).value, w.desk.mgr.orders;
    var step := StepOf(w.desk, a);
    forall i | 0 <= i < |after|
      ensures Linked(w.desk.market, w.store, after[i])
    {
      if i < |before| {
        assert Linked(w.desk.market, w.store, before[i]);
        if step.Some? && Find(before, step.value.0) == i {
          ActionTruthful(w, m, before[i]);
          StepKeepsLinked(w.desk.market, w.store, before[i], step.value.1);
        } else {
          assert SameButTrades(before[i], after[i]) && after[i] == before[i];
        }
      } else {
        assert a.id !in w.store.orders;
        NewOrderLinked(w.desk.market, w.store, w.desk.engine, a.id);
      }
    }
  }

  /** The order a trade event names, when the trade is the store's. */
  lemma TradeFindsOrder(w: World, e: TradeEvent)
    requires Links(w) && Reported(w.store.trades, e)
    ensures Accepts(w.desk.mgr, e)
    ensures var i := Find(w.desk.mgr.orders, e.orderId);
            && Linked(w.desk.market, w.store, w.desk.mgr.orders[i])
            && TradeOk(w.store, e.tradeId, w.store.trades[e.tradeId])
            && w.store.orders[e.orderId].status == Matched && w.store.orders[e.orderId].tradeIds == [e.tradeId]
            && e.side == w.desk.mgr.orders[i].side && e.shares == w.desk.mgr.orders[i].shares
            && Committed(w.desk.mgr.orders[i]) == e.shares
  {
    var i := Find(w.desk.mgr.orders, e.orderId);
    assert TradeOk(w.store, e.tradeId, w.store.trades[e.tradeId]);
    assert OrderOk(w.store, e.orderId, w.store.orders[e.orderId]);
    assert Linked(w.desk.market, w.store, w.desk.mgr.orders[i]);
  }

  lemma TradedOrdersLinked(w: World, e: TradeEvent)
    requires Links(w) && Reported(w.store.trades, e)
    ensures OrdersLinked(w.desk.market, w.store, HandleTradeEvent(w.desk.mgr, e).orders)
  {
    TradeFindsOrder(w, e);
    var i, before := Find(w.desk.mgr.orders, e.orderId), w.desk.mgr.orders;
    var after := before[i := before[i].(tradeIds := AddTradeId(before[i].tradeIds, e.tradeId))];
    assert HandleTradeEvent(w.desk.mgr, e).orders == after;
    forall j | 0 <= j < |after|
      ensures Linked(w.desk.market, w.store, after[j])
    {
      assert Linked(w.desk.market, w.store, before[j]);
      if j == i { TradeIdKeepsLinked(w.desk.market, w.store, before[i], after[i], e.tradeId); }
    }
  }

  lemma DeskMoveKeepsOrders(w: World, m: Move)
    requires Possible(w, m) && Links(w) && EngineOk(w.desk) && DeskAction(w, m).Some? && NextTradeKnown(w, m)
    ensures OrdersLinked(w.desk.market, w.store, NextManager(w.desk, DeskAction(w, m).value).orders)
  {
    var a := DeskAction(w, m).value;
    if m == TradeTaken {
      TradedOrdersLinked(w, a.trade);
    } else {
      OrdersAfter(w.desk, a);
      TradeIdsKept(w.desk, a);
      SteppedOrdersLinked(w, m, NextManager(w.desk, a).orders);
    }
  }

  lemma DeskMoveKeepsTracking(w: World, a: Action)
    requires Enabled(w.desk, a) && StoreTracked(w.desk.mgr.orders, w.store)
    ensures StoreTracked(NextManager(w.desk, a).orders, w.store)
  {
    OrdersAfter(w.desk, a);
    IdsKept(w.desk, a, NextManager(w.desk, a).orders);
    TrackingGrows(w.desk.mgr.orders, NextManager(w.desk, a).orders, w.store);
  }

  lemma IdsKept(d: Desk, a: Action, after: seq<Order>)
    requires OrdersFollow(d, a, after)
    ensures |d.mgr.orders| <= |after| && forall i :: 0 <= i < |d.mgr.orders| ==> after[i].id == d.mgr.orders[i].id
  {
  }

  lemma TrackingGrows(before: seq<Order>, after: seq<Order>, store: Store)
    requires StoreTracked(before, store) && |before| <= |after|
    requires forall i :: 0 <= i < |before| ==> after[i].id == before[i].id
    ensures StoreTracked(after, store)
  {
    forall id | id in store.orders
      ensures Find(after, id) < |after|
    {
      assert after[Find(before, id)].id == id;
    }
  }

  // ------------------------------------------------------------------ answers

  /** A submission in flight after a step was so before, unless its order has just been stored. */
  lemma InFlightBefore(d: Desk, a: Action, id: OrderId)
    requires id in NextSubmits(d, a) && NextSubmits(d, a)[id] == InFlight
    ensures if a.CreateReturns? && a.id == id then true
            else At(d, id, InFlight) && !(a.SubmitReturns? && a.id == id)
  {
  }

  lemma DeskMoveKeepsAnswers(w: World, m: Move)
    requires Possible(w, m) && Links(w) && Protocol(w.desk) && DeskAction(w, m).Some?
    ensures AnswersOk(NextSubmits(w.desk, DeskAction(w, m).value), w.store, NextSubmitted(w, m), NextCanceled(w, m))
  {
    hide OrdersLinked, EventsOk, FeedOk, StoreOk, Protocol, NextSubmits;
    var a := DeskAction(w, m).value;
    var submits := NextSubmits(w.desk, a);
    forall id | id in w.store.orders && id in submits && submits[id] == InFlight
      ensures id in NextSubmitted(w, m)
    {
      InFlightBefore(w.desk, a, id);
      assert id in w.submitted;
    }
  }

  // --------------------------------------------------------- moves of the core

  lemma EventsRest(store: Store, es: seq<OrderEvent>, more: OrderEvent)
    requires EventsOk(store, es)
    ensures es != [] ==> EventsOk(store, es[1..])
    ensures EventOk(store, more) ==> EventsOk(store, es + [more])
    ensures forall k :: 0 <= k < |es| ==> EventsOk(store, es[..k] + es[k + 1..])
  {
    forall k | 0 <= k < |es|
      ensures EventsOk(store, es[..k] + es[k + 1..])
    {
      var rest := es[..k] + es[k + 1..];
      forall i | 0 <= i < |rest|
        ensures EventOk(store, rest[i])
      {
        assert EventOk(store, es[if i < k then i else i + 1]);
      }
    }
    if es != [] {
      forall i | 0 <= i < |es| - 1
        ensures EventOk(store, es[1..][i])
      {
        assert EventOk(store, es[i + 1]);
      }
    }
    if EventOk(store, more) {
      forall i | 0 <= i < |es| + 1
        ensures EventOk(store, (es + [more])[i])
      {
        if i < |es| { assert EventOk(store, es[i]); }
      }
    }
  }

  lemma DeskMoveKeepsLinks(w: World, m: Move)
    requires Possible(w, m) && Links(w) && Protocol(w.desk) && EngineOk(w.desk) && NextTradeKnown(w, m)
    requires DeskAction(w, m).Some?
    ensures Links(Advance(w, m))
  {
    hide OrdersLinked, FeedOk, StoreOk, StoreTracked, AnswersOk, Protocol, EngineOk;
    DeskMoveKeepsOrders(w, m);
    DeskMoveKeepsTracking(w, DeskAction(w, m).value);
    DeskMoveKeepsAnswers(w, m);
    if m == OrderTaken { EventsRest(w.store, w.orderQueue.items, w.orderQueue.items[0]); }
    if m.SyncArrives? { EventsRest(w.store, w.snapshots, w.snapshots[m.k]); }
    assert NextStore(w, m) == w.store && NextBatch(w, m) == w.batch;
    assert EventsOk(w.store, NextOrderQueue(w, m).items) && EventsOk(w.store, NextSnapshots(w, m));
    assert NextOrderQueue(w, m).overflow == Block && NextTradeQueue(w, m).overflow == Block;
  }

  // ------------------------------------------------------ moves of the exchange

  lemma TransportKeepsLinks(w: World, m: Move)
    requires Possible(w, m) && Links(w) && (m == Drains || m == Publishes || m.SyncReads?)
    ensures Links(Advance(w, m))
  {
    if m == Drains {
      DrainKeepsLinks(w);
    } else if m == Publishes {
      PublishKeepsLinks(w);
    } else {
      SelfReportOk(w.store, m.id);
      EventsRest(w.store, w.snapshots, OrderEventOf(w.store.orders[m.id]));
    }
  }

  lemma DrainKeepsLinks(w: World)
    requires Possible(w, Drains) && Links(w)
    ensures Links(Advance(w, Drains))
  {
    hide EventsOk, FeedOk, StoreOk, StoreMoves, OrdersLinked;
    SameOrdersLinked(w.desk.market, w.store, Drain(w.store), w.desk.mgr.orders);
    StoreMoveKeepsEvents(w.store, Drain(w.store), w.orderQueue.items);
    StoreMoveKeepsEvents(w.store, Drain(w.store), w.snapshots);
    StoreMoveKeepsFeed(w.store, Drain(w.store), w.store.pending);
    NoFeed(Drain(w.store));
  }

  lemma NoFeed(store: Store)
    ensures FeedOk(store, [])
  {
  }

  lemma PublishKeepsLinks(w: World)
    requires Possible(w, Publishes) && Links(w)
    ensures Links(Advance(w, Publishes))
  {
    hide EventsOk, StoreOk, OrdersLinked;
    BatchRest(w.store, w.batch);
    if w.batch[0].OrderFeed? {
      EventsRest(w.store, w.orderQueue.items, w.batch[0].order);
    }
  }

  lemma BatchRest(store: Store, es: seq<Event>)
    requires FeedOk(store, es) && es != []
    ensures FeedOk(store, es[1..])
  {
    forall i | 0 <= i < |es| - 1 && es[1..][i].OrderFeed?
      ensures EventOk(store, es[1..][i].order)
    {
      assert es[i + 1].OrderFeed?;
    }
  }

  lemma SameOrdersLinked(m: Market, store: Store, after: Store, orders: seq<Order>)
    requires StoreOk(store) && after == store.(pending := after.pending) && OrdersLinked(m, store, orders)
    ensures StoreOk(after) && StoreMoves(store, after) && OrdersLinked(m, after, orders)
  {
    forall id | id in after.orders
      ensures OrderOk(after, id, after.orders[id])
    {
      assert OrderOk(store, id, store.orders[id]);
    }
    forall id | id in after.trades
      ensures TradeOk(after, id, after.trades[id])
    {
      assert TradeOk(store, id, store.trades[id]);
    }
    forall i | 0 <= i < |orders|
      ensures Linked(m, after, orders[i])
    {
      assert Linked(m, store, orders[i]);
    }
  }

  /** The store's invariant, its moves and its event list after a move of the exchange. */
  ghost predicate StoreAdvances(store: Store, after: Store) {
    StoreOk(after) && StoreMoves(store, after) && FeedOk(after, after.pending)
  }

  lemma ExchangeMoveKeepsStore(w: World, m: Move)
    requires Possible(w, m) && Links(w) && (m.StoreCancels? || m.Matches? || m.Mines?)
    ensures StoreAdvances(w.store, NextStore(w, m))
    ensures NextStore(w, m).orders.Keys == w.store.orders.Keys
  {
    match m
    case StoreCancels(id) =>
      CancelOk(w.store, id);
      CancelPending(w.store, id);
    case Matches(id, tradeId, price, now, delay) => MatchPending(w.store, id, tradeId, price, now, delay);
    case Mines(now) => MinePending(w.store, w.store.tradeIds, now);
  }

  lemma ExchangeMoveKeepsLinks(w: World, m: Move)
    requires Possible(w, m) && Links(w) && (m.StoreCancels? || m.Matches? || m.Mines?)
    ensures Links(Advance(w, m))
  {
    var after := NextStore(w, m);
    ExchangeMoveKeepsStore(w, m);
    forall i | 0 <= i < |w.desk.mgr.orders|
      ensures Linked(w.desk.market, after, w.desk.mgr.orders[i])
    {
      assert Linked(w.desk.market, w.store, w.desk.mgr.orders[i]);
      StoreMoveKeepsLinked(w.desk.market, w.store, after, w.desk.mgr.orders[i]);
    }
    StoreMoveKeepsEvents(w.store, after, w.orderQueue.items);
    StoreMoveKeepsEvents(w.store, after, w.snapshots);
    StoreMoveKeepsFeed(w.store, after, w.batch);
    ExchangeMoveKeepsAnswers(w, m, after);
  }

  lemma CanceledStays(store: Store, after: Store, id: OrderId)
    requires StoreMoves(store, after) && id in store.orders && store.orders[id].status == Canceled
    ensures id in after.orders && after.orders[id].status == Canceled
  {
    assert OrderMoves(store.orders[id], after.orders[id]);
  }

  lemma ExchangeMoveKeepsAnswers(w: World, m: Move, after: Store)
    requires Possible(w, m) && Links(w) && (m.StoreCancels? || m.Matches? || m.Mines?)
    requires after == NextStore(w, m) && StoreMoves(w.store, after) && after.orders.Keys == w.store.orders.Keys
    ensures AnswersOk(w.desk.submits, after, w.submitted, NextCanceled(w, m))
  {
    hide OrdersLinked, EventsOk, FeedOk, StoreOk, StoreTracked, StoreMoves, MockStore.Cancel, MarkMatched, PromoteMined;
    if m.StoreCancels? { CancelOk(w.store, m.id); }
    forall id | id in NextCanceled(w, m) && NextCanceled(w, m)[id] == Accepted
      ensures id in after.orders && after.orders[id].status == Canceled
    {
      if !(m.StoreCancels? && m.id == id) { CanceledStays(w.store, after, id); }
    }
  }

  lemma SubmissionKeepsLinks(w: World, m: Move)
    requires Possible(w, m) && Links(w) && w.desk.market.WellFormed() && UniqueIds(w.desk.mgr.orders) && m.StoreSubmits?
    ensures Links(Advance(w, m))
  {
    hide EventsOk, FeedOk, StoreOk, StoreMoves, Linked;
    var orders, i := w.desk.mgr.orders, Find(w.desk.mgr.orders, m.id);
    assert m.id !in w.store.orders;
    assert Linked(w.desk.market, w.store, orders[i]);
    SubmitLinks(w.desk.market, w.store, orders[i], m.now);
    var twin := ClientOrder(orders[i], m.now);
    var after := Submit(w.store, twin);
    SubmitOk(w.store, twin);
    forall j | 0 <= j < |orders|
      ensures Linked(w.desk.market, after, orders[j])
    {
      if j != i {
        assert orders[j].id != m.id;
        assert Linked(w.desk.market, w.store, orders[j]);
        StoreMoveKeepsLinked(w.desk.market, w.store, after, orders[j]);
      }
    }
    StoreMoveKeepsEvents(w.store, after, w.orderQueue.items);
    StoreMoveKeepsEvents(w.store, after, w.snapshots);
    StoreMoveKeepsFeed(w.store, after, w.batch);
    StoreMoveKeepsFeed(w.store, after, w.store.pending);
    SubmissionKeepsAnswers(w, m, after);
  }

  lemma SubmissionKeepsAnswers(w: World, m: Move, after: Store)
    requires Possible(w, m) && Links(w) && m.StoreSubmits?
    requires var twin := ClientOrder(w.desk.mgr.orders[Find(w.desk.mgr.orders, m.id)], m.now);
             AcceptsOrder(twin) && after == Submit(w.store, twin) && StoreMoves(w.store, after)
    ensures AnswersOk(w.desk.submits, after, NextSubmitted(w, m), w.canceled)
    ensures StoreTracked(w.desk.mgr.orders, after)
  {
    hide OrdersLinked, EventsOk, FeedOk, StoreOk, StoreMoves;
    forall id | id in w.canceled && w.canceled[id] == Accepted
      ensures id in after.orders && after.orders[id].status == Canceled
    {
      CanceledStays(w.store, after, id);
    }
  }

  lemma MoveKeepsLinks(w: World, m: Move)
    requires Possible(w, m) && Links(w) && Protocol(w.desk) && EngineOk(w.desk) && NextTradeKnown(w, m)
    ensures Links(Advance(w, m))
  {
    if DeskAction(w, m).Some? {
      DeskMoveKeepsLinks(w, m);
    } else if m.StoreSubmits? {
      SubmissionKeepsLinks(w, m);
    } else if m.StoreCancels? || m.Matches? || m.Mines? {
      ExchangeMoveKeepsLinks(w, m);
    } else {
      TransportKeepsLinks(w, m);
    }
  }
}
