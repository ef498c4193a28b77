/**
 The mock exchange as objects updated in place.

 `OrderStore` holds the order and trade objects and the list of pending events; the
 stream's loops drive it. Each method takes `model`, the value of the whole store,
 where the functions of `MockStore` and `MockStream` say.
 */
module MockObjects {
  import opened Domain
  import opened MockStore
  import opened MockStream
  import opened Rounding
  import opened Seqs

  class OrderObject {
    const id: OrderId
    const marketId: MarketId
    const tokenId: TokenId
    const side: Side
    const role: Role
    const price: real
    const shares: Micro
    const createdTs: int
    var status: MarketOrderStatus
    var matched: Micro
    var tradeIds: seq<TradeId>

    constructor (id: OrderId, token: Token, side: Side, role: Role, shares: Micro, price: real, now: int)
      ensures Value() == CreateOrder(id, token, side, role, shares, price, now)
    {
      this.id, marketId, tokenId := id, token.marketId, token.id;
      this.side, this.role, this.price, this.shares, createdTs := side, role, price, shares, now;
      status, matched, tradeIds := Live, 0, [];
    }

    function Value(): MockOrder
      reads this
    {
      MockOrder(id, marketId, tokenId, side, role, price, shares, status, createdTs, matched, tradeIds)
    }

    method Fill(tradeId: TradeId)
      modifies this
      ensures Value() == FilledOrder(old(Value()), tradeId)
    {
      matched := matched + Value().Unmatched();
      status := Matched;
      tradeIds := tradeIds + [tradeId];
    }

    method Withdraw()
      modifies this
      ensures Value() == old(Value()).(status := Canceled)
    {
      status := Canceled;
    }
  }

  class TradeObject {
    const id: TradeId
    const orderId: OrderId
    const marketId: MarketId
    const tokenId: TokenId
    const side: Side
    const role: Role
    const price: real
    const shares: Micro
    const minedDue: int
    var status: MarketTradeStatus
    var updatedTs: int

    constructor (t: MockTrade)
      ensures Value() == t
    {
      id, orderId, marketId, tokenId := t.id, t.orderId, t.marketId, t.tokenId;
      side, role, price, shares, minedDue := t.side, t.role, t.price, t.shares, t.minedDue;
      status, updatedTs := t.status, t.updatedTs;
    }

    function Value(): MockTrade
      reads this
    {
      MockTrade(id, orderId, marketId, tokenId, side, role, price, shares, status, updatedTs, minedDue)
    }

    method Mine(now: int)
      modifies this
      ensures Value() == old(Value()).(status := Mined, updatedTs := now)
    {
      status, updatedTs := Mined, now;
    }
  }

  // --------------------------------------------------- objects and their values

  ghost predicate Keyed(orderIds: seq<OrderId>, orders: map<OrderId, OrderObject>,
                        tradeIds: seq<TradeId>, trades: map<TradeId, TradeObject>) {
    && (forall k :: k in orders <==> k in orderIds)
    && (forall k :: k in orders ==> orders[k].id == k)
    && (forall t :: t in trades <==> t in tradeIds)
    && (forall t :: t in trades ==> trades[t].id == t)
  }

  /** `values` are the values of the orders, except perhaps of the order `gap`. */
  ghost predicate OrdersMatch(orders: map<OrderId, OrderObject>, values: map<OrderId, MockOrder>, gap: Option<OrderId>)
    reads set k | k in orders && gap != Some(k) :: orders[k]
  {
    orders.Keys == values.Keys && forall k :: k in orders && gap != Some(k) ==> values[k] == orders[k].Value()
  }

  ghost predicate TradesMatch(trades: map<TradeId, TradeObject>, values: map<TradeId, MockTrade>, gap: Option<TradeId>)
    reads set t | t in trades && gap != Some(t) :: trades[t]
  {
    trades.Keys == values.Keys && forall t :: t in trades && gap != Some(t) ==> values[t] == trades[t].Value()
  }

  lemma OpenOrder(orders: map<OrderId, OrderObject>, values: map<OrderId, MockOrder>, id: OrderId)
    requires OrdersMatch(orders, values, None)
    ensures OrdersMatch(orders, values, Some(id))
    ensures id in orders <==> id in values
    ensures id in orders ==> values[id] == orders[id].Value()
  {
  }

  lemma CloseOrder(orders: map<OrderId, OrderObject>, values: map<OrderId, MockOrder>, order: OrderObject)
    requires OrdersMatch(orders, values, Some(order.id))
    ensures OrdersMatch(orders[order.id := order], values[order.id := order.Value()], None)
  {
  }

  lemma OpenTrade(trades: map<TradeId, TradeObject>, values: map<TradeId, MockTrade>, id: TradeId)
    requires TradesMatch(trades, values, None)
    ensures TradesMatch(trades, values, Some(id))
    ensures id in trades <==> id in values
    ensures id in trades ==> values[id] == trades[id].Value()
  {
  }

  lemma CloseTrade(trades: map<TradeId, TradeObject>, values: map<TradeId, MockTrade>, trade: TradeObject)
    requires TradesMatch(trades, values, Some(trade.id))
    ensures TradesMatch(trades[trade.id := trade], values[trade.id := trade.Value()], None)
  {
  }

  /** The objects of the orders with these ids; nothing here can be changed by a match. */
  ghost predicate Lists(listed: seq<OrderObject>, values: map<OrderId, MockOrder>, ids: seq<OrderId>) {
    && |listed| == |ids|
    && forall i :: 0 <= i < |ids| ==>
         && ids[i] in values && listed[i].id == ids[i] && listed[i].tokenId == values[ids[i]].tokenId
         && listed[i].side == values[ids[i]].side && listed[i].price == values[ids[i]].price
  }

  lemma ListsOneMore(listed: seq<OrderObject>, orders: map<OrderId, OrderObject>, values: map<OrderId, MockOrder>,
                     ids: seq<OrderId>, order: OrderObject)
    requires OrdersMatch(orders, values, None) && order.id in orders && orders[order.id] == order
    requires Lists(listed, values, ids)
    ensures Lists(listed + [order], values, ids + [order.id]) && values[order.id] == order.Value()
  {
  }

  /** The dictionaries and the event list, and in `model` the value that they represent. */
  class OrderStore {
    var orderIds: seq<OrderId>
    var orders: map<OrderId, OrderObject>
    var tradeIds: seq<TradeId>
    var trades: map<TradeId, TradeObject>
    var pending: seq<Event>
    var latestQuotes: map<TokenId, Quote>
    ghost var model: Store

    constructor ()
      ensures Valid() && model == EMPTY_STORE && trades == map[] && orders == map[] && latestQuotes == map[]
    {
      orderIds, orders, tradeIds, trades, pending, latestQuotes := [], map[], [], map[], [], map[];
      model := EMPTY_STORE;
    }

    ghost predicate Valid()
      reads this, orders.Values, trades.Values
    {
      && Keyed(orderIds, orders, tradeIds, trades)
      && OrdersMatch(orders, model.orders, None)
      && TradesMatch(trades, model.trades, None)
      && model.orderIds == orderIds && model.tradeIds == tradeIds && model.pending == pending
    }

    /** Stores the client's order; one without shares is refused. */
    method Submit(order: OrderObject) returns (ok: bool)
      requires Valid()
      modifies `orderIds, `orders, `model
      ensures Valid() && trades == old(trades)
      ensures model == MockStore.Submit(old(model), order.Value()) && ok == AcceptsOrder(order.Value())
    {
      hide OrdersMatch, TradesMatch;
      if order.shares <= 0 { return false; }
      StoreOrder(order);
      return true;
    }

    method StoreOrder(order: OrderObject)
      requires Valid()
      modifies `orderIds, `orders, `model
      ensures Valid() && trades == old(trades)
      ensures model == old(model).(orders := old(model).orders[order.id := order.Value()],
                                   orderIds := AddKey(old(model).orderIds, order.id))
    {
      hide OrdersMatch, TradesMatch;
      OpenOrder(orders, model.orders, order.id);
      CloseOrder(orders, model.orders, order);
      if order.id !in orders {
        orderIds := orderIds + [order.id];
      }
      orders := orders[order.id := order];
      model := model.(orders := model.orders[order.id := order.Value()], orderIds := orderIds);
    }

    method Cancel(id: OrderId) returns (reply: CancelReply)
      requires Valid()
      modifies `pending, `model, orders.Values
      ensures Valid()
      ensures model == MockStore.Cancel(old(model), id) && reply == CancelReplyOf(old(model), id)
    {
      hide OrdersMatch, TradesMatch;
      OpenOrder(orders, model.orders, id);
      if id !in orders { return Rejected("order not found"); }
      var order := orders[id];
      if order.Value().Unmatched() <= 0 { return Rejected("matched"); }
      if order.status == Canceled { return Accepted; }
      order.Withdraw();
      CloseOrder(orders, model.orders, order);
      assert orders[id := order] == orders;
      pending := pending + [OrderFeed(OrderEventOf(order.Value()))];
      model := MockStore.Cancel(model, id);
      return Accepted;
    }

    method GetOrder(id: OrderId) returns (e: Option<OrderEvent>)
      requires Valid()
      ensures e == MockStore.GetOrder(model, id)
    {
      e := if id in orders then Some(OrderEventOf(orders[id].Value())) else None;
    }

    method RecordQuote(q: Quote)
      requires Valid()
      modifies `latestQuotes
      ensures Valid() && latestQuotes == old(latestQuotes)[q.tokenId := q]
    {
      latestQuotes := latestQuotes[q.tokenId := q];
    }

    /** Fills an order whole, unless it is unknown, filled or canceled by now. */
    method MarkMatched(id: OrderId, tradeId: TradeId, price: real, now: int, delay: int)
      requires Valid()
      modifies `tradeIds, `trades, `pending, `model, orders.Values
      ensures Valid() && orders == old(orders) && orderIds == old(orderIds)
      ensures fresh(trades.Values - old(trades.Values))
      ensures model == MockStore.MarkMatched(old(model), id, tradeId, price, now, delay)
    {
      hide OrdersMatch, TradesMatch;
      OpenOrder(orders, model.orders, id);
      if id !in orders { return; }
      var order := orders[id];
      if order.Value().Unmatched() <= 0 || order.status == Canceled { return; }
      MatchOrder(order, tradeId, price, now, delay);
    }

    /** Fills a matchable order and reports the order and its trade. */
    method MatchOrder(order: OrderObject, tradeId: TradeId, price: real, now: int, delay: int)
      requires Valid() && order.id in orders && orders[order.id] == order
      requires order.id in model.orders && model.orders[order.id] == order.Value() && Matchable(model, order.id)
      modifies `tradeIds, `trades, `pending, `model, order
      ensures Valid() && orders == old(orders) && orderIds == old(orderIds)
      ensures fresh(trades.Values - old(trades.Values))
      ensures model == MockStore.MarkMatched(old(model), order.id, tradeId, price, now, delay)
    {
      hide Valid;
      var trade := new TradeObject(TradeOf(order.Value(), tradeId, price, now, delay));
      FillOrder(order, tradeId);
      StoreTrade(trade);
      Emit(OrderFeed(OrderEventOf(order.Value())));
      Emit(TradeFeed(TradeEventOf(trade.Value())));
    }

    method FillOrder(order: OrderObject, tradeId: TradeId)
      requires Valid() && order.id in orders && orders[order.id] == order
      modifies `model, order
      ensures Valid() && order.id in old(model).orders && order.Value() == FilledOrder(old(model).orders[order.id], tradeId)
      ensures model == old(model).(orders := old(model).orders[order.id := order.Value()])
    {
      hide OrdersMatch, TradesMatch;
      OpenOrder(orders, model.orders, order.id);
      order.Fill(tradeId);
      CloseOrder(orders, model.orders, order);
      assert orders[order.id := order] == orders;
      model := model.(orders := model.orders[order.id := order.Value()]);
    }

    method StoreTrade(trade: TradeObject)
      requires Valid()
      modifies `tradeIds, `trades, `model
      ensures Valid() && trades == old(trades)[trade.id := trade]
      ensures model == old(model).(trades := old(model).trades[trade.id := trade.Value()],
                                   tradeIds := AddKey(old(model).tradeIds, trade.id))
    {
      hide OrdersMatch, TradesMatch;
      OpenTrade(trades, model.trades, trade.id);
      CloseTrade(trades, model.trades, trade);
      if trade.id !in trades {
        tradeIds := tradeIds + [trade.id];
      }
      trades := trades[trade.id := trade];
      model := model.(trades := model.trades[trade.id := trade.Value()], tradeIds := tradeIds);
    }

    method Emit(e: Event)
      requires Valid()
      modifies `pending, `model
      ensures Valid() && model == old(model).(pending := old(model).pending + [e])
    {
      hide Keyed, OrdersMatch, TradesMatch;
      pending := pending + [e];
      model := model.(pending := pending);
    }

    /** Mines every due trade, in the order the trades were made. */
    method PromoteMined(now: int)
      requires Valid()
      modifies `pending, `model, trades.Values
      ensures Valid() && trades == old(trades) && orders == old(orders)
      ensures model == MockStore.PromoteMined(old(model), now)
    {
      for i := 0 to |tradeIds|
        invariant Valid() && trades == old(trades) && orders == old(orders)
        invariant tradeIds == old(tradeIds) && orderIds == old(orderIds)
        invariant model == PromoteAll(old(model), tradeIds[..i], now)
      {
        assert tradeIds[..i + 1][..i] == tradeIds[..i];
        Promote(trades[tradeIds[i]], now);
      }
      assert tradeIds[..|tradeIds|] == tradeIds;
    }

    method Promote(trade: TradeObject, now: int)
      requires Valid() && trade.id in trades && trades[trade.id] == trade
      modifies `pending, `model, trade
      ensures Valid() && model == PromoteOne(old(model), trade.id, now)
    {
      hide OrdersMatch, TradesMatch;
      OpenTrade(trades, model.trades, trade.id);
      if trade.status == TradeMatched && trade.minedDue <= now {
        trade.Mine(now);
        CloseTrade(trades, model.trades, trade);
        assert trades[trade.id := trade] == trades;
        pending := pending + [TradeFeed(TradeEventOf(trade.Value()))];
        model := PromoteOne(model, trade.id, now);
      }
    }

    /** Hands over the pending events and starts a new list. */
    method DrainEvents() returns (events: seq<Event>)
      requires Valid()
      modifies `pending, `model
      ensures Valid() && events == old(model).pending && model == Drain(old(model))
    {
      events := pending;
      pending := [];
      model := Drain(model);
    }

    method RestingMakerOrders() returns (listed: seq<OrderObject>)
      requires Valid()
      ensures Lists(listed, model.orders, RestingIds(model))
    {
      hide OrdersMatch, TradesMatch;
      listed := [];
      ghost var p := InBook();
      for i := 0 to |orderIds|
        invariant Lists(listed, model.orders, Listed(model, orderIds[..i], p))
      {
        OpenOrder(orders, model.orders, orderIds[i]);
        ListedStep(model, orderIds, i, p);
        var order := orders[orderIds[i]];
        ListsOneMore(listed, orders, model.orders, Listed(model, orderIds[..i], p), order);
        if order.role == Maker && order.status == Live && order.Value().Unmatched() > 0 {
          listed := listed + [order];
        }
      }
      assert orderIds[..|orderIds|] == orderIds;
    }

    method DueTakerOrders(now: int) returns (listed: seq<OrderObject>)
      requires Valid()
      ensures Lists(listed, model.orders, DueIds(model, now))
    {
      hide OrdersMatch, TradesMatch;
      listed := [];
      ghost var p := DueAt(now);
      for i := 0 to |orderIds|
        invariant Lists(listed, model.orders, Listed(model, orderIds[..i], p))
      {
        OpenOrder(orders, model.orders, orderIds[i]);
        ListedStep(model, orderIds, i, p);
        var order := orders[orderIds[i]];
        ListsOneMore(listed, orders, model.orders, Listed(model, orderIds[..i], p), order);
        if order.role == Taker && order.status == Live && order.Value().Unmatched() > 0
           && now - order.createdTs >= TAKER_FILL_DELAY {
          listed := listed + [order];
        }
      }
      assert orderIds[..|orderIds|] == orderIds;
    }
  }

  /** The stream of one store. */
  class TradeStream {
    const store: OrderStore

    constructor (store: OrderStore)
      ensures this.store == store
    {
      this.store := store;
    }

    /** Records the quote and matches the resting maker orders that it crosses. */
    method TakeQuote(q: Quote, draw: nat -> TradeId, clock: nat -> int)
      requires store.Valid()
      modifies store, store.orders.Values
      ensures store.Valid() && store.model == OnQuote(old(store.model), q, draw, clock)
      ensures store.latestQuotes == old(store.latestQuotes)[q.tokenId := q]
    {
      store.RecordQuote(q);
      MatchCrossed(q, draw, clock);
    }

    method MatchCrossed(q: Quote, draw: nat -> TradeId, clock: nat -> int)
      requires store.Valid()
      modifies store`tradeIds, store`trades, store`pending, store`model, store.orders.Values
      ensures store.Valid() && store.model == OnQuote(old(store.model), q, draw, clock)
    {
      hide OrderStore.Valid, RestingIds, MockStore.MarkMatched;
      var listed := store.RestingMakerOrders();
      ghost var was, ids := store.model, RestingIds(store.model);
      var drawn := 0;
      for i := 0 to |listed|
        invariant store.Valid() && store.orders == old(store.orders)
        invariant drawn == |Listed(was, ids[..i], Hit(q))|
        invariant store.model == MatchListed(was, Listed(was, ids[..i], Hit(q)), draw, clock)
      {
        var order := listed[i];
        StepListed(was, ids, i, Hit(q), draw, clock);
        if order.tokenId == q.tokenId && Crosses(order.Value(), q) {
          store.MarkMatched(order.id, draw(drawn), order.price, clock(drawn), SETTLE_DELAY);
          drawn := drawn + 1;
        }
      }
      assert ids[..|ids|] == ids;
    }

    /** Matches the due taker orders, mines what was due, and returns what is to be published. */
    method Poll(now: int, draw: nat -> TradeId, clock: nat -> int) returns (events: seq<Event>)
      requires store.Valid()
      modifies store, store.orders.Values, store.trades.Values
      ensures store.Valid()
      ensures events == Polled(old(store.model), now, draw, clock).pending
      ensures store.model == Drain(Polled(old(store.model), now, draw, clock))
    {
      MatchDue(now, draw, clock);
      store.PromoteMined(now);
      events := store.DrainEvents();
    }

    method MatchDue(now: int, draw: nat -> TradeId, clock: nat -> int)
      requires store.Valid()
      modifies store, store.orders.Values
      ensures store.Valid() && store.model == FillDue(old(store.model), now, draw, clock)
      ensures fresh(store.trades.Values - old(store.trades.Values))
    {
      hide OrderStore.Valid, MockStore.MarkMatched, DueIds;
      var listed := store.DueTakerOrders(now);
      ghost var was, ids := store.model, DueIds(store.model, now);
      for i := 0 to |listed|
        invariant store.Valid() && store.orders == old(store.orders)
        invariant fresh(store.trades.Values - old(store.trades.Values))
        invariant store.model == MatchListed(was, ids[..i], draw, clock)
      {
        var order := listed[i];
        assert ids[..i + 1][..i] == ids[..i];
        store.MarkMatched(order.id, draw(i), order.price, clock(i), SETTLE_DELAY);
      }
      assert ids[..|ids|] == ids;
    }
  }

  lemma ListedStep(st: Store, ids: seq<OrderId>, i: nat, p: MockOrder -> bool)
    requires i < |ids| && ids[i] in st.orders
    ensures Listed(st, ids[..i + 1], p)
         == Listed(st, ids[..i], p) + (if p(st.orders[ids[i]]) then [ids[i]] else [])
  {
    assert ids[..i + 1][..i] == ids[..i];
  }

  /** One more listed order extends the matches by at most one. */
  lemma StepListed(st: Store, ids: seq<OrderId>, i: nat, p: MockOrder -> bool, draw: nat -> TradeId, clock: nat -> int)
    requires i < |ids| && ids[i] in st.orders
    ensures var before, after := Listed(st, ids[..i], p), Listed(st, ids[..i + 1], p);
            if p(st.orders[ids[i]])
            then after == before + [ids[i]]
                 && MatchListed(st, after, draw, clock)
                    == MockStore.MarkMatched(MatchListed(st, before, draw, clock), ids[i], draw(|before|),
                                             st.orders[ids[i]].price, clock(|before|), SETTLE_DELAY)
            else after == before
  {
    ListedStep(st, ids, i, p);
    var before := Listed(st, ids[..i], p);
    assert (before + [ids[i]])[..|before|] == before;
  }
}
