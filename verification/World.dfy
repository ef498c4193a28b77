/**
 The closed system: the execution core trading against the mock exchange.

 The desk's clients are now the store, its feeds are the store's event list behind
 two FIFO queues, and every lock-protected block of either side is one `Move`.
 Client calls run in threads, so an answer is obtained in one move and handled in a
 later one. Moves allow more than the program does: any order may be matched at any
 time, and a synchronizing worker may read any order.
 */
module World {
  import opened Bus
  import opened Desk
  import opened Domain
  import opened Manager
  import opened MockStore
  import opened Orders
  import opened Seqs

  /**
   `batch` holds drained events not yet published, `snapshots` orders read by
   synchronizing workers, `submitted` and `canceled` client answers not yet
   handled, and `delivered` the trade events handled so far.
   */
  datatype World = World(
    desk: Desk, store: Store,
    orderQueue: Queue<OrderEvent>, tradeQueue: Queue<TradeEvent>, batch: seq<Event>,
    snapshots: seq<OrderEvent>, submitted: map<OrderId, bool>, canceled: map<OrderId, CancelReply>,
    delivered: seq<TradeEvent>)

  datatype Move =
    | Internal(action: Action)
    | StoreSubmits(id: OrderId, now: int)
    | SubmitAnswered(id: OrderId)
    | StoreCancels(id: OrderId)
    | CancelAnswered(id: OrderId)
    | SyncReads(id: OrderId)
    | SyncArrives(k: nat)
    | Matches(id: OrderId, tradeId: TradeId, price: real, now: int, delay: int)
    | Mines(now: int)
    | Drains
    | Publishes
    | OrderTaken
    | TradeTaken

  ghost predicate Begins(w: World) {
    && Initial(w.desk) && w.store == EMPTY_STORE
    && w.orderQueue == Queue(w.orderQueue.maxsize, Block, [], 0)
    && w.tradeQueue == Queue(w.tradeQueue.maxsize, Block, [], 0)
    && w.batch == [] && w.snapshots == [] && w.submitted == map[] && w.canceled == map[] && w.delivered == []
  }

  /** Actions of the core that involve neither a client answer nor a feed. */
  predicate IsInternal(a: Action) {
    a.Observe? || a.CreateFails? || a.CreateReturns? || a.EngineCancels? || a.ClearsFlag? || a.Recancels? || a.Settles?
  }

  /** Ids drawn by the exchange are new, which makes them unique. */
  predicate Possible(w: World, m: Move) {
    match m
    case Internal(a) =>
      IsInternal(a) && Enabled(w.desk, a)
    case StoreSubmits(id, _) => At(w.desk, id, InFlight) && id !in w.submitted && Tracks(w.desk.mgr, id)
    case SubmitAnswered(id) => id in w.submitted && At(w.desk, id, InFlight)
    case StoreCancels(id) => id in w.desk.cancels && id !in w.canceled
    case CancelAnswered(id) => id in w.canceled && id in w.desk.cancels
    case SyncReads(id) => id in w.store.orders
    case SyncArrives(k) => k < |w.snapshots|
    case Matches(_, tradeId, _, _, _) => tradeId !in w.store.trades
    case Mines(_) => true
    case Drains => w.batch == []
    case Publishes =>
      w.batch != [] && (match w.batch[0]
                        case OrderFeed(e) => Deliver(w.orderQueue, e).Done?
                        case TradeFeed(e) => Deliver(w.tradeQueue, e).Done?)
    case OrderTaken => w.orderQueue.items != []
    case TradeTaken => w.tradeQueue.items != []
  }

  /** The step of the core in this move, if it has one. */
  function DeskAction(w: World, m: Move): Option<Action>
    requires Possible(w, m)
  {
    match m
    case Internal(a) => Some(a)
    case SubmitAnswered(id) => Some(SubmitReturns(id, w.submitted[id]))
    case CancelAnswered(id) => Some(CancelReturns(id, w.canceled[id] == Accepted))
    case SyncArrives(k) => Some(OrderArrives(w.snapshots[k]))
    case OrderTaken => Some(OrderArrives(w.orderQueue.items[0]))
    case TradeTaken => Some(TradeArrives(w.tradeQueue.items[0]))
    case _ => None
  }

  function NextDesk(w: World, m: Move): Desk
    requires Possible(w, m)
  {
    var a := DeskAction(w, m);
    if a.Some? then Act(w.desk, a.value) else w.desk
  }

  /** The order the client created from the manager's parameters. */
  function ClientOrder(o: Order, now: int): MockOrder {
    CreateOrder(o.id, o.token, o.side, o.role, o.shares, o.price, now)
  }

  function NextStore(w: World, m: Move): Store
    requires Possible(w, m)
  {
    match m
    case StoreSubmits(id, now) => Submit(w.store, ClientOrder(w.desk.mgr.orders[Find(w.desk.mgr.orders, id)], now))
    case StoreCancels(id) => Cancel(w.store, id)
    case Matches(id, tradeId, price, now, delay) => MarkMatched(w.store, id, tradeId, price, now, delay)
    case Mines(now) => PromoteMined(w.store, now)
    case Drains => Drain(w.store)
    case _ => w.store
  }

  function NextOrderQueue(w: World, m: Move): Queue<OrderEvent>
    requires Possible(w, m)
  {
    match m
    case Publishes => if w.batch[0].OrderFeed? then Deliver(w.orderQueue, w.batch[0].order).queue else w.orderQueue
    case OrderTaken => Rest(w.orderQueue)
    case _ => w.orderQueue
  }

  function NextTradeQueue(w: World, m: Move): Queue<TradeEvent>
    requires Possible(w, m)
  {
    match m
    case Publishes => if w.batch[0].TradeFeed? then Deliver(w.tradeQueue, w.batch[0].trade).queue else w.tradeQueue
    case TradeTaken => Rest(w.tradeQueue)
    case _ => w.tradeQueue
  }

  function NextBatch(w: World, m: Move): seq<Event>
    requires Possible(w, m)
  {
    match m
    case Drains => w.store.pending
    case Publishes => w.batch[1..]
    case _ => w.batch
  }

  function NextSnapshots(w: World, m: Move): seq<OrderEvent>
    requires Possible(w, m)
  {
    match m
    case SyncReads(id) => w.snapshots + [OrderEventOf(w.store.orders[id])]
    case SyncArrives(k) => w.snapshots[..k] + w.snapshots[k + 1..]
    case _ => w.snapshots
  }

  function NextSubmitted(w: World, m: Move): map<OrderId, bool>
    requires Possible(w, m)
  {
    match m
    case StoreSubmits(id, now) =>
      w.submitted[id := AcceptsOrder(ClientOrder(w.desk.mgr.orders[Find(w.desk.mgr.orders, id)], now))]
    case SubmitAnswered(id) => w.submitted - {id}
    case _ => w.submitted
  }

  function NextCanceled(w: World, m: Move): map<OrderId, CancelReply>
    requires Possible(w, m)
  {
    match m
    case StoreCancels(id) => w.canceled[id := CancelReplyOf(w.store, id)]
    case CancelAnswered(id) => w.canceled - {id}
    case _ => w.canceled
  }

  function NextDelivered(w: World, m: Move): seq<TradeEvent>
    requires Possible(w, m)
  {
    if m == TradeTaken then w.delivered + [w.tradeQueue.items[0]] else w.delivered
  }

  function Advance(w: World, m: Move): World
    requires Possible(w, m)
  {
    World(NextDesk(w, m), NextStore(w, m), NextOrderQueue(w, m), NextTradeQueue(w, m), NextBatch(w, m),
          NextSnapshots(w, m), NextSubmitted(w, m), NextCanceled(w, m), NextDelivered(w, m))
  }

  /** The exchange gets the order as the manager has it, and takes it if and only if it has shares. */
  lemma SubmitReachesExchange(w: World, id: OrderId, now: int)
    requires Possible(w, StoreSubmits(id, now))
    ensures var o, after := w.desk.mgr.orders[Find(w.desk.mgr.orders, id)], NextStore(w, StoreSubmits(id, now));
            && id in NextSubmitted(w, StoreSubmits(id, now))
            && (NextSubmitted(w, StoreSubmits(id, now))[id] <==> o.shares > 0)
            && if o.shares <= 0 then after == w.store else
               && id in after.orders
               && var p := after.orders[id];
                  && p.id == id && p.marketId == o.token.marketId && p.tokenId == o.token.id
                  && p.side == o.side && p.role == o.role && p.price == o.price && p.shares == o.shares
                  && p.status == Live && p.createdTs == now && p.matched == 0
  {
  }

  /** A cancel is answered by the exchange: accepted, and carried out, if and only if the order is known and not filled. */
  lemma CancelReachesExchange(w: World, id: OrderId)
    requires Possible(w, StoreCancels(id))
    ensures var after := NextStore(w, StoreCancels(id));
            && id in NextCanceled(w, StoreCancels(id))
            && (NextCanceled(w, StoreCancels(id))[id] == Accepted <==>
                  id in w.store.orders && w.store.orders[id].shares > w.store.orders[id].matched)
            && if NextCanceled(w, StoreCancels(id))[id] == Accepted
               then id in after.orders && after.orders[id] == w.store.orders[id].(status := Canceled)
               else after == w.store
  {
    hide Cancel;
    CancelReplied(w.store, id);
  }

  ghost predicate History(ws: seq<World>, ms: seq<Move>) {
    && |ws| == |ms| + 1
    && Begins(ws[0])
    && forall i :: 0 <= i < |ms| ==> Possible(ws[i], ms[i]) && ws[i + 1] == Advance(ws[i], ms[i])
  }

  // ------------------------------------------------------- the trade pipeline

  /** Every trade event emitted so far: handled, queued, drained, pending. */
  function TradeLog(w: World): seq<TradeEvent> {
    w.delivered + Undelivered(w.tradeQueue, w.batch, w.store)
  }

  function Undelivered(queue: Queue<TradeEvent>, batch: seq<Event>, store: Store): seq<TradeEvent> {
    queue.items + (TradesIn(batch) + TradesIn(store.pending))
  }

  lemma PublishKeepsUndelivered(w: World)
    requires Possible(w, Publishes) && w.tradeQueue.overflow == Block
    ensures Undelivered(NextTradeQueue(w, Publishes), w.batch[1..], w.store)
         == Undelivered(w.tradeQueue, w.batch, w.store)
  {
    hide TradesIn;
    var e, rest, pending := w.batch[0], w.batch[1..], TradesIn(w.store.pending);
    assert w.batch == [e] + rest;
    TradesInConcat([e], rest);
    TradesInOne(e);
    if e.TradeFeed? {
      assert (w.tradeQueue.items + [e.trade]) + (TradesIn(rest) + pending)
          == w.tradeQueue.items + (([e.trade] + TradesIn(rest)) + pending);
    }
  }

  /** Draining, publishing and taking only move events along: none is lost, repeated or overtaken. */
  lemma TransportKeepsLog(w: World, m: Move)
    requires Possible(w, m) && w.tradeQueue.overflow == Block
    requires !m.Matches? && !m.Mines? && !m.StoreCancels? && !m.StoreSubmits?
    ensures NextDelivered(w, m) + Undelivered(NextTradeQueue(w, m), NextBatch(w, m), NextStore(w, m)) == TradeLog(w)
  {
    if m == Drains {
      assert TradesIn(NextStore(w, m).pending) == [] == TradesIn(w.batch);
    } else if m == Publishes {
      PublishKeepsUndelivered(w);
    } else if m == TradeTaken {
      var items := w.tradeQueue.items;
      assert items == [items[0]] + items[1..];
    }
  }

  /** Store moves append their reports at the far end of the pipeline. */
  lemma EmissionExtendsLog(w: World, m: Move, more: seq<TradeEvent>)
    requires Possible(w, m) && Emits(w.store, NextStore(w, m), more)
    requires m.Matches? || m.Mines? || m.StoreCancels? || m.StoreSubmits?
    ensures NextDelivered(w, m) + Undelivered(NextTradeQueue(w, m), NextBatch(w, m), NextStore(w, m)) == TradeLog(w) + more
  {
  }

  // ------------------------------------------------------- the order pipeline

  function OrdersIn(es: seq<Event>): seq<OrderEvent> {
    if es == [] then [] else
    OrdersIn(es[..|es| - 1]) + (if es[|es| - 1].OrderFeed? then [es[|es| - 1].order] else [])
  }

  /** Every order event that is emitted and not yet handled: queued, drained, pending. */
  function OrderPipeline(queue: Queue<OrderEvent>, batch: seq<Event>, store: Store): seq<OrderEvent> {
    queue.items + (OrdersIn(batch) + OrdersIn(store.pending))
  }

  function NextPipeline(w: World, m: Move): seq<OrderEvent>
    requires Possible(w, m)
  {
    OrderPipeline(NextOrderQueue(w, m), NextBatch(w, m), NextStore(w, m))
  }

  lemma {:induction false} OrdersInConcat(xs: seq<Event>, ys: seq<Event>)
    ensures OrdersIn(xs + ys) == OrdersIn(xs) + OrdersIn(ys)
  {
    if ys == [] {
      assert xs + ys == xs;
    } else {
      var n := |ys| - 1;
      assert (xs + ys)[..|xs + ys| - 1] == xs + ys[..n];
      OrdersInConcat(xs, ys[..n]);
    }
  }

  /** Draining and publishing only move order events along, and what is handled is the oldest of them. */
  lemma TransportKeepsOrders(w: World, m: Move)
    requires Possible(w, m) && w.orderQueue.overflow == Block
    requires !m.Matches? && !m.Mines? && !m.StoreCancels? && !m.StoreSubmits?
    ensures var before := OrderPipeline(w.orderQueue, w.batch, w.store);
            if m == OrderTaken
            then before != [] && DeskAction(w, m) == Some(OrderArrives(before[0]))
                 && before == [before[0]] + NextPipeline(w, m)
            else NextPipeline(w, m) == before
  {
    hide OrdersIn;
    if m == Drains {
      NoOrdersIn();
    } else if m == Publishes {
      PublishKeepsOrders(w);
    } else if m == OrderTaken {
      assert w.orderQueue.items == [w.orderQueue.items[0]] + w.orderQueue.items[1..];
    }
  }

  lemma NoOrdersIn()
    ensures OrdersIn([]) == []
  {
  }

  lemma PublishKeepsOrders(w: World)
    requires Possible(w, Publishes) && w.orderQueue.overflow == Block
    ensures OrderPipeline(NextOrderQueue(w, Publishes), w.batch[1..], w.store)
         == OrderPipeline(w.orderQueue, w.batch, w.store)
  {
    hide OrdersIn;
    var e, rest, pending := w.batch[0], w.batch[1..], OrdersIn(w.store.pending);
    assert w.batch == [e] + rest;
    OrdersInConcat([e], rest);
    OrdersInOne(e);
    if e.OrderFeed? {
      assert (w.orderQueue.items + [e.order]) + (OrdersIn(rest) + pending)
          == w.orderQueue.items + (([e.order] + OrdersIn(rest)) + pending);
    }
  }

  lemma OrdersInOne(e: Event)
    ensures OrdersIn([e]) == if e.OrderFeed? then [e.order] else []
  {
    assert [e][..0] == [];
  }

  /** What the store emits joins at the far end. */
  lemma EmissionExtendsOrders(w: World, m: Move, more: seq<Event>)
    requires Possible(w, m) && NextStore(w, m).pending == w.store.pending + more
    requires m.Matches? || m.Mines? || m.StoreCancels? || m.StoreSubmits?
    ensures NextPipeline(w, m) == OrderPipeline(w.orderQueue, w.batch, w.store) + OrdersIn(more)
  {
    hide OrdersIn;
    OrdersInConcat(w.store.pending, more);
  }

  /** A synchronizing worker hands over the order as it was when it was read, once. */
  lemma SyncReflects(w: World, m: Move)
    requires Possible(w, m)
    ensures m.SyncReads? ==> NextSnapshots(w, m) == w.snapshots + [GetOrder(w.store, m.id).value]
    ensures m.SyncArrives? ==> DeskAction(w, m) == Some(OrderArrives(w.snapshots[m.k]))
                               && multiset(NextSnapshots(w, m)) + multiset{w.snapshots[m.k]} == multiset(w.snapshots)
    ensures !m.SyncReads? && !m.SyncArrives? ==> NextSnapshots(w, m) == w.snapshots
  {
    if m.SyncArrives? {
      assert w.snapshots == w.snapshots[..m.k] + ([w.snapshots[m.k]] + w.snapshots[m.k + 1..]);
    }
  }
}
