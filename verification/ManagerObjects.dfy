/**
 The order manager as objects updated in place.

 `OrderManager` holds the dictionaries of the program: orders by id in insertion
 order, trades by id, positions by token. A trade object is shared between the
 manager's dictionary and the dictionaries of the orders it was reported for. Each
 method is one lock-protected block, proved to take `Model()`, the value of the
 whole structure, where the functions of `Manager` say.
 */
module ManagerObjects {
  import opened Domain
  import opened Fees
  import opened Manager
  import opened Orders
  import opened Positions
  import opened Rounding
  import opened Seqs

  class ManagedTrade {
    const id: TradeId
    const tokenId: TokenId
    const orderId: OrderId
    const shares: Micro
    const side: Side
    const role: Role
    const price: real
    var status: TradeStatus
    var pendingShares: Micro
    var settledShares: Micro
    var failedShares: Micro

    constructor (e: TradeEvent)
      ensures Value() == Trade(e.tradeId, e.tokenId, e.orderId, TradePending, e.shares, e.side, e.role, e.price, 0, 0, 0)
    {
      id, tokenId, orderId := e.tradeId, e.tokenId, e.orderId;
      shares, side, role, price := e.shares, e.side, e.role, e.price;
      status := TradePending;
      pendingShares, settledShares, failedShares := 0, 0, 0;
    }

    function Value(): Trade
      reads this
    {
      Trade(id, tokenId, orderId, status, shares, side, role, price, pendingShares, settledShares, failedShares)
    }

    method Record(e: TradeEvent)
      modifies this
      ensures Value() == RecordTrade(old(Value()), e)
    {
      if e.IsSuccess() {
        status := TradeSuccess;
        pendingShares, settledShares, failedShares := 0, e.shares, 0;
      } else if e.status == Failed {
        status := TradeFailure;
        pendingShares, settledShares, failedShares := 0, 0, e.shares;
      } else {
        status := TradePending;
        pendingShares, settledShares, failedShares := e.shares, 0, 0;
      }
    }
  }

  class ManagedOrder {
    const id: OrderId
    const market: Market
    const token: Token
    const side: Side
    const role: Role
    const price: real
    const shares: Micro
    var status: OrderStatus
    var pending: Micro
    var matched: Micro
    var invalid: Micro
    var tradeIds: seq<TradeId>
    var trades: map<TradeId, ManagedTrade>
    var shouldCancel: bool
    var isCancelling: bool

    constructor (id: OrderId, market: Market, token: Token, side: Side, role: Role, price: real, shares: Micro)
      ensures Value() == NewOrder(id, market, token, side, role, price, shares) && trades == map[]
    {
      this.id, this.market, this.token := id, market, token;
      this.side, this.role, this.price, this.shares := side, role, price, shares;
      status := Submitting;
      pending, matched, invalid := shares, 0, 0;
      tradeIds, trades := [], map[];
      shouldCancel, isCancelling := false, false;
    }

    function Value(): Order
      reads this
    {
      Order(id, market, token, side, role, price, shares, status, pending, matched, invalid,
            tradeIds, shouldCancel, isCancelling)
    }

    /** The order's trades are the manager's, one per key. */
    ghost predicate Shares(all: map<TradeId, ManagedTrade>)
      reads this
    {
      && (forall t :: t in trades <==> t in tradeIds)
      && (forall t :: t in trades ==> t in all && trades[t] == all[t])
      && (forall i, j :: 0 <= i < j < |tradeIds| ==> tradeIds[i] != tradeIds[j])
    }

    method OnFeed(e: OrderEvent)
      modifies this
      ensures Value() == OnOrderEvent(old(Value()), e) && trades == old(trades) && tradeIds == old(tradeIds)
    {
      if !e.IsActive() || Value().IsCanceled() {
        matched := Max(matched, e.matchedShares);
        invalid := if shares > matched then shares - matched else 0;
        pending := 0;
        status := if matched == 0 then ZeroMatchedCanceled else PartMatchedCanceled;
      } else {
        matched := Max(matched, e.matchedShares);
        pending := Min(pending, e.UnmatchedShares());
        invalid := 0;
        if matched == 0 {
          status := ZeroMatched;
        } else if 100 * matched < 98 * shares && pending > DUST {
          status := PartMatched;
        } else {
          status := FullMatched;
        }
      }
    }

    method OnSubmitted()
      modifies this
      ensures Value() == OnSubmitSuccess(old(Value())) && trades == old(trades) && tradeIds == old(tradeIds)
    {
      status := ZeroMatched;
    }

    method OnRejected()
      modifies this
      ensures Value() == OnSubmitFailed(old(Value())) && trades == old(trades) && tradeIds == old(tradeIds)
    {
      invalid := pending;
      pending := 0;
      if !shouldCancel {
        status := SubFailed;
      } else {
        status := ZeroMatchedCanceled;
        shouldCancel := false;
      }
    }

    method OnCancelRequested() returns (answer: CancelAnswer)
      modifies this
      ensures answer == CancelAnswerOf(old(Value()))
      ensures Value() == OnCancelRequest(old(Value())) && trades == old(trades) && tradeIds == old(tradeIds)
    {
      if !Value().IsActive() {
        answer := NothingActive;
      } else if status == Submitting {
        shouldCancel := true;
        answer := Deferred;
      } else if isCancelling || shouldCancel {
        answer := InProgress;
      } else {
        isCancelling := true;
        answer := Started;
      }
    }

    method OnCanceled()
      modifies this
      ensures Value() == OnCancelSuccess(old(Value())) && trades == old(trades) && tradeIds == old(tradeIds)
    {
      isCancelling := false;
      invalid := pending;
      pending := 0;
      status := if matched == 0 then ZeroMatchedCanceled else PartMatchedCanceled;
    }

    method OnCancelRefused()
      modifies this
      ensures Value() == OnCancelFailed(old(Value())) && trades == old(trades) && tradeIds == old(tradeIds)
    {
      isCancelling := false;
    }

    method ForgetDeferredCancel()
      modifies this
      ensures Value() == old(Value()).(shouldCancel := false) && trades == old(trades) && tradeIds == old(tradeIds)
    {
      shouldCancel := false;
    }

    /** The block of the manager that `st` names, applied to this order. */
    method Take(st: OrderStep)
      modifies this
      ensures Value() == Step(old(Value()), st) && trades == old(trades) && tradeIds == old(tradeIds)
    {
      match st {
        case Feed(e) =>
          if e.marketId == market.id && e.tokenId == token.id { OnFeed(e); }
        case SubmitSuccess => OnSubmitted();
        case SubmitFailed => OnRejected();
        case CancelRequest => var _ := OnCancelRequested();
        case ClearShouldCancel => ForgetDeferredCancel();
        case CancelSuccess => OnCanceled();
        case CancelFailed => OnCancelRefused();
      }
    }

    method AddTrade(trade: ManagedTrade, ghost all: map<TradeId, ManagedTrade>)
      requires Shares(all) && trade.id in all && all[trade.id] == trade
      modifies `tradeIds, `trades
      ensures Shares(all)
      ensures trades == old(trades)[trade.id := trade] && tradeIds == AddTradeId(old(tradeIds), trade.id)
    {
      if trade.id !in trades {
        tradeIds := tradeIds + [trade.id];
      }
      trades := trades[trade.id := trade];
    }

    /** On-chain settled and failed shares, summed over the order's trades. */
    method OnChainShares(ghost all: map<TradeId, ManagedTrade>, ghost values: map<TradeId, Trade>)
      returns (settled: Micro, failed: Micro)
      requires Shares(all) && TradesMatch(all, values, None)
      ensures settled == OnChainSettled(Value(), values) && failed == OnChainFailed(Value(), values)
    {
      hide TradesMatch, SettledIn, FailedIn;
      settled, failed := 0, 0;
      for i := 0 to |tradeIds|
        invariant settled == Sum(tradeIds[..i], SettledIn(values))
        invariant failed == Sum(tradeIds[..i], FailedIn(values))
      {
        var trade := trades[tradeIds[i]];
        TradeShares(all, values, tradeIds[i]);
        settled, failed := settled + trade.settledShares, failed + trade.failedShares;
        SumNext(tradeIds, i, SettledIn(values));
        SumNext(tradeIds, i, FailedIn(values));
      }
      assert tradeIds[..|tradeIds|] == tradeIds;
    }
  }

  class HeldPosition {
    const token: TokenId
    var cost: Micro
    var shares: Micro
    var pnl: Micro

    constructor (token: TokenId)
      ensures this.token == token && Value() == FLAT
    {
      this.token := token;
      cost, shares, pnl := 0, 0, 0;
    }

    function Value(): Position
      reads this
    {
      Position(cost, shares, pnl)
    }

    method Trade(side: Side, amount: Micro, size: Micro)
      modifies this
      ensures Value() == ApplyTrade(old(Value()), side, amount, size)
    {
      if side == Buy {
        cost := cost + amount;
        shares := shares + size;
      } else {
        var sold := SoldCost(Value(), size);
        cost, shares, pnl := Round(cost as real - sold), shares - size, Round((pnl + amount) as real - sold);
      }
      assert Value() == Traded(old(Value()), side, amount, size);
      WriteOffDust();
    }

    method WriteOffDust()
      modifies this
      ensures Value() == Clamp(old(Value()))
    {
      if shares <= DUST {
        cost, shares := 0, 0;
      }
    }

    method SettleAt(closeSettling: Micro, wins: bool)
      modifies this
      ensures Value() == Settle(old(Value()), closeSettling, wins)
    {
      if shares <= DUST { return; }
      var settling := PayableShares(Value(), closeSettling);
      if settling <= DUST { return; }
      var settledCost := Round(SoldCost(Value(), settling));
      var payout := if wins then settling else 0;
      pnl := pnl + payout - settledCost;
      cost := cost - settledCost;
      shares := shares - settling;
      assert Value() == PaidOut(old(Value()), closeSettling, wins);
      WriteOffDust();
    }
  }

  // --------------------------------------------------- objects and their values

  /** Every object is stored under its own key, and the order ids are the keys in order of insertion. */
  ghost predicate Keyed(ids: seq<OrderId>, orders: map<OrderId, ManagedOrder>,
                        trades: map<TradeId, ManagedTrade>, positions: map<TokenId, HeldPosition>) {
    && (forall k :: k in orders <==> k in ids)
    && (forall i, j :: 0 <= i < j < |ids| ==> ids[i] != ids[j])
    && (forall k :: k in orders ==> orders[k].id == k)
    && (forall t :: t in trades ==> trades[t].id == t)
    && (forall t :: t in positions ==> positions[t].token == t)
  }

  /** `values` are the values of the orders, except perhaps of the order `gap`. */
  ghost predicate OrdersMatch(ids: seq<OrderId>, orders: map<OrderId, ManagedOrder>, values: seq<Order>,
                              gap: Option<OrderId>)
    reads set k | k in orders && gap != Some(k) :: orders[k]
  {
    && |values| == |ids|
    && (forall j :: 0 <= j < |ids| ==> values[j].id == ids[j])
    && (forall j :: 0 <= j < |ids| && ids[j] in orders && gap != Some(ids[j]) ==>
          values[j] == orders[ids[j]].Value())
  }

  /** The trades of every order are the manager's, except perhaps those of the order `gap`. */
  ghost predicate TradesShared(orders: map<OrderId, ManagedOrder>, trades: map<TradeId, ManagedTrade>,
                               gap: Option<OrderId>)
    reads set k | k in orders && gap != Some(k) :: orders[k]
  {
    forall k {:trigger orders[k].Shares(trades)} :: k in orders && gap != Some(k) ==> orders[k].Shares(trades)
  }

  ghost predicate TradesMatch(trades: map<TradeId, ManagedTrade>, values: map<TradeId, Trade>, gap: Option<TradeId>)
    reads set t | t in trades && gap != Some(t) :: trades[t]
  {
    && trades.Keys == values.Keys
    && (forall t :: t in trades && gap != Some(t) ==> values[t] == trades[t].Value())
  }

  ghost predicate PositionsMatch(positions: map<TokenId, HeldPosition>, values: map<TokenId, Position>,
                                 gap: Option<TokenId>)
    reads set t | t in positions && gap != Some(t) :: positions[t]
  {
    && positions.Keys == values.Keys
    && (forall t :: t in positions && gap != Some(t) ==> values[t] == positions[t].Value())
  }

  /** Looking an order up by key and by position agree. */
  lemma KeysFind(ids: seq<OrderId>, orders: seq<Order>, id: OrderId)
    requires |ids| == |orders| && forall i :: 0 <= i < |ids| ==> orders[i].id == ids[i]
    requires forall i, j :: 0 <= i < j < |ids| ==> ids[i] != ids[j]
    ensures UniqueIds(orders)
    ensures if id in ids then Find(orders, id) < |ids| && ids[Find(orders, id)] == id
            else Find(orders, id) == |orders|
  {
    if id in ids {
      var j :| 0 <= j < |ids| && ids[j] == id;
      assert orders[j] in orders;
    }
  }

  lemma FindKey(ids: seq<OrderId>, orders: map<OrderId, ManagedOrder>, values: seq<Order>,
                trades: map<TradeId, ManagedTrade>, positions: map<TokenId, HeldPosition>, id: OrderId)
    requires Keyed(ids, orders, trades, positions) && OrdersMatch(ids, orders, values, None)
    ensures id in orders <==> Find(values, id) < |values|
    ensures id in orders ==> values[Find(values, id)] == orders[id].Value()
  {
    KeysFind(ids, values, id);
  }

  /** An order about to change: the other orders are as the model says without it. */
  lemma OpenOrder(ids: seq<OrderId>, orders: map<OrderId, ManagedOrder>, values: seq<Order>,
                  trades: map<TradeId, ManagedTrade>, positions: map<TokenId, HeldPosition>, id: OrderId)
    requires Keyed(ids, orders, trades, positions) && id in orders
    requires OrdersMatch(ids, orders, values, None) && TradesShared(orders, trades, None)
    ensures forall k :: k in orders && k != id ==> orders[k] != orders[id]
    ensures orders[id].id == id
    ensures OrdersMatch(ids, orders, values, Some(id)) && TradesShared(orders, trades, Some(id))
    ensures orders[id].Shares(trades)
    ensures Find(values, id) < |ids| && values[Find(values, id)] == orders[id].Value()
  {
    KeysFind(ids, values, id);
  }

  /** An order that has changed: writing its value into the model closes the gap. */
  lemma CloseOrder(ids: seq<OrderId>, orders: map<OrderId, ManagedOrder>, values: seq<Order>,
                   trades: map<TradeId, ManagedTrade>, positions: map<TokenId, HeldPosition>, id: OrderId)
    requires Keyed(ids, orders, trades, positions) && id in orders
    requires OrdersMatch(ids, orders, values, Some(id)) && TradesShared(orders, trades, Some(id))
    requires orders[id].Shares(trades)
    ensures TradesShared(orders, trades, None)
    ensures var i := Find(values, id);
            i < |values| && OrdersMatch(ids, orders, values[i := orders[id].Value()], None)
  {
    KeysFind(ids, values, id);
  }

  function InsertInto(values: seq<Order>, o: Order): seq<Order> {
    var i := Find(values, o.id);
    if i < |values| then values[i := o] else values + [o]
  }

  lemma InsertsOrder(s: State, o: Order)
    ensures Insert(s, o) == s.(orders := InsertInto(s.orders, o))
  {
  }

  /** A new object under `order.id` leaves all other values in place. */
  lemma StoreValue(ids: seq<OrderId>, orders: map<OrderId, ManagedOrder>, values: seq<Order>, order: ManagedOrder)
    requires OrdersMatch(ids, orders, values, None) && forall k :: k in orders <==> k in ids
    requires forall i, j :: 0 <= i < j < |ids| ==> ids[i] != ids[j]
    ensures var ids' := if order.id in orders then ids else ids + [order.id];
            OrdersMatch(ids', orders[order.id := order], InsertInto(values, order.Value()), None)
  {
    KeysFind(ids, values, order.id);
    var i := Find(values, order.id);
    assert forall j :: 0 <= j < |ids| && j != i ==> ids[j] != order.id;
  }

  /** An order without trades shares nothing. */
  lemma OrderStored(orders: map<OrderId, ManagedOrder>, trades: map<TradeId, ManagedTrade>, order: ManagedOrder)
    requires TradesShared(orders, trades, None) && order.trades == map[] && order.tradeIds == []
    ensures TradesShared(orders[order.id := order], trades, None)
  {
    forall k | k in orders && k != order.id
      ensures orders[k].Shares(trades)
    {
    }
  }

  lemma OpenTrade(trades: map<TradeId, ManagedTrade>, values: map<TradeId, Trade>, id: TradeId)
    requires TradesMatch(trades, values, None)
    ensures TradesMatch(trades, values, Some(id))
    ensures id in trades <==> id in values
    ensures id in trades ==> values[id] == trades[id].Value()
  {
  }

  lemma TradeShares(trades: map<TradeId, ManagedTrade>, values: map<TradeId, Trade>, id: TradeId)
    requires TradesMatch(trades, values, None) && id in trades
    ensures SettledIn(values)(id) == trades[id].settledShares && FailedIn(values)(id) == trades[id].failedShares
  {
  }

  lemma CloseTrade(trades: map<TradeId, ManagedTrade>, values: map<TradeId, Trade>, trade: ManagedTrade)
    requires TradesMatch(trades, values, Some(trade.id))
    ensures TradesMatch(trades[trade.id := trade], values[trade.id := trade.Value()], None)
  {
  }

  lemma OpenPosition(positions: map<TokenId, HeldPosition>, values: map<TokenId, Position>, token: TokenId)
    requires PositionsMatch(positions, values, None)
    ensures PositionsMatch(positions, values, Some(token))
    ensures token in positions <==> token in values
    ensures token in positions ==> values[token] == positions[token].Value()
  {
  }

  lemma ClosePosition(positions: map<TokenId, HeldPosition>, values: map<TokenId, Position>, position: HeldPosition)
    requires PositionsMatch(positions, values, Some(position.token))
    ensures PositionsMatch(positions[position.token := position], values[position.token := position.Value()], None)
  {
  }

  /** Storing a trade under its own key, known or new, keeps what the orders share. */
  lemma TradeStored(orders: map<OrderId, ManagedOrder>, trades: map<TradeId, ManagedTrade>, trade: ManagedTrade)
    requires TradesShared(orders, trades, None)
    requires trade.id in trades ==> trades[trade.id] == trade
    ensures TradesShared(orders, trades[trade.id := trade], None)
  {
    forall k | k in orders
      ensures orders[k].Shares(trades[trade.id := trade])
    {
      assert orders[k].Shares(trades);
    }
  }

  /** The dictionaries, and in `model` the value that they represent. */
  class OrderManager {
    var orderIds: seq<OrderId>
    var orders: map<OrderId, ManagedOrder>
    var trades: map<TradeId, ManagedTrade>
    var positions: map<TokenId, HeldPosition>
    ghost var model: State

    constructor ()
      ensures Valid() && model == EMPTY
      ensures orders == map[] && trades == map[] && positions == map[]
    {
      orderIds, orders, trades, positions := [], map[], map[], map[];
      model := EMPTY;
    }

    /** The objects are what the model says, except perhaps for the trade `gap`. */
    ghost predicate ValidExcept(gap: Option<TradeId>)
      reads this, orders.Values, trades.Values, positions.Values
    {
      && Keyed(orderIds, orders, trades, positions)
      && OrdersMatch(orderIds, orders, model.orders, None)
      && TradesShared(orders, trades, None)
      && TradesMatch(trades, model.trades, gap)
      && PositionsMatch(positions, model.positions, None)
    }

    ghost predicate Valid()
      reads this, orders.Values, trades.Values, positions.Values
    {
      ValidExcept(None)
    }

    /** Creates an order and stores it under its id; a known id keeps its place. */
    method InsertOrder(id: OrderId, market: Market, token: Token, side: Side, role: Role, price: real, shares: Micro)
      requires Valid()
      modifies `orderIds, `orders, `model
      ensures Valid() && fresh(orders.Values - old(orders.Values))
      ensures model == Insert(old(model), NewOrder(id, market, token, side, role, price, shares))
    {
      var order := new ManagedOrder(id, market, token, side, role, price, shares);
      StoreOrder(order);
    }

    method StoreOrder(order: ManagedOrder)
      requires Valid() && order.trades == map[] && order.tradeIds == []
      modifies `orderIds, `orders, `model
      ensures Valid() && orders == old(orders)[order.id := order]
      ensures model == Insert(old(model), order.Value())
    {
      hide OrdersMatch, TradesMatch, PositionsMatch, TradesShared, Insert, InsertInto;
      StoreValue(orderIds, orders, model.orders, order);
      OrderStored(orders, trades, order);
      if order.id !in orders {
        orderIds := orderIds + [order.id];
      }
      orders := orders[order.id := order];
      InsertsOrder(model, order.Value());
      model := model.(orders := InsertInto(model.orders, order.Value()));
    }

    /** One lock-protected block on one order: look it up, leave when unknown, change it. */
    method StepOrder(id: OrderId, st: OrderStep)
      requires Valid()
      modifies `model, orders.Values
      ensures Valid() && model == UpdateOrder(old(model), id, st)
    {
      if id !in orders {
        KeysFind(orderIds, model.orders, id);
        return;
      }
      TakeStep(orders[id], st);
    }

    method TakeStep(order: ManagedOrder, st: OrderStep)
      requires Valid() && order.id in orders && orders[order.id] == order
      modifies `model, order
      ensures Valid() && model == UpdateOrder(old(model), order.id, st)
    {
      hide Keyed, OrdersMatch, TradesMatch, PositionsMatch, TradesShared;
      OpenOrder(orderIds, orders, model.orders, trades, positions, order.id);
      order.Take(st);
      CloseOrder(orderIds, orders, model.orders, trades, positions, order.id);
      model := UpdateOrder(model, order.id, st);
    }

    /** Handles a submit success; the caller goes on to clear a deferred cancel if there is one. */
    method SubmitSucceeded(id: OrderId) returns (shouldCancel: bool)
      requires Valid()
      modifies `model, orders.Values
      ensures Valid() && model == UpdateOrder(old(model), id, SubmitSuccess)
      ensures shouldCancel == (id in orders && orders[id].shouldCancel)
    {
      StepOrder(id, SubmitSuccess);
      shouldCancel := id in orders && orders[id].shouldCancel;
    }

    /** Answers a cancel request; the caller spawns a cancel worker when the answer is `Started`. */
    method Cancel(id: OrderId) returns (answer: CancelAnswer)
      requires Valid()
      modifies `model, orders.Values
      ensures Valid() && model == UpdateOrder(old(model), id, CancelRequest)
      ensures answer == if id in orders then CancelAnswerOf(old(orders[id].Value())) else NotTracked
    {
      answer := if id in orders then CancelAnswerOf(orders[id].Value()) else NotTracked;
      StepOrder(id, CancelRequest);
    }

    /** The four sums of the position snapshot, accumulated over the orders. */
    method BuildCurrentPosition(token: TokenId) returns (p: CurrentPosition)
      requires Valid()
      ensures p == BuildPosition(model, token)
    {
      var opening, openSettling, closing, closeSettling := 0, 0, 0, 0;
      for i := 0 to |orderIds|
        invariant opening == Sum(model.orders[..i], PendingOf(token, Buy))
        invariant openSettling == Sum(model.orders[..i], SettlingOf(token, Buy, model.trades))
        invariant closing == Sum(model.orders[..i], PendingOf(token, Sell))
        invariant closeSettling == Sum(model.orders[..i], SettlingOf(token, Sell, model.trades))
      {
        var order := orders[orderIds[i]];
        if order.token.id == token {
          assert order.Shares(trades);
          var settled, failed := order.OnChainShares(trades, model.trades);
          var settling := order.matched - settled - failed;
          if order.side == Buy {
            opening, openSettling := opening + order.pending, openSettling + settling;
          } else {
            closing, closeSettling := closing + order.pending, closeSettling + settling;
          }
        }
        PrefixSums(model, i, token, Buy);
        PrefixSums(model, i, token, Sell);
      }
      assert model.orders[..|orderIds|] == model.orders;
      var held := if token in positions then positions[token].Value() else FLAT;
      p := CurrentPosition(opening, openSettling, closing, closeSettling,
                           held.cost, held.shares, held.AvgPrice(), held.pnl);
    }

    /** The snapshot of a token with its first active order, if it has one. */
    method GetPositionByToken(token: TokenId) returns (p: CurrentPosition, active: ManagedOrder?)
      requires Valid()
      ensures p == BuildPosition(model, token)
      ensures if active == null then ActiveOrder(model, token) == None
              else active in orders.Values && ActiveOrder(model, token) == Some(active.Value())
    {
      active := null;
      ghost var found := |orderIds|;
      for i := 0 to |orderIds|
        invariant active == null && found == |orderIds|
        invariant forall j :: 0 <= j < i ==> !(model.orders[j].IsActive() && model.orders[j].token.id == token)
      {
        var order := orders[orderIds[i]];
        if order.Value().IsActive() && order.token.id == token {
          active, found := order, i;
          break;
        }
      }
      FirstActiveUnique(model.orders, token, found);
      p := BuildCurrentPosition(token);
    }

    /** Records a trade event, and applies it to the position when the trade becomes a success. */
    method OnTradeFeed(e: TradeEvent) returns (outcome: TradeOutcome)
      requires Valid()
      modifies `trades, `positions, `model, orders.Values, trades.Values, positions.Values
      ensures Valid()
      ensures model == HandleTradeEvent(old(model), e) && outcome == TradeOutcomeOf(old(model), e)
    {
      hide OrdersMatch, TradesMatch, PositionsMatch, TradesShared, RecordTrade, Record, ApplyTrade;
      FindKey(orderIds, orders, model.orders, trades, positions, e.orderId);
      if e.orderId !in orders { return Ignored; }
      var order := orders[e.orderId];
      if e.marketId != order.market.id || e.tokenId != order.token.id { return Ignored; }
      ghost var before := model;
      OpenTrade(trades, model.trades, e.tradeId);
      var previous := if e.tradeId in trades then trades[e.tradeId].status else TradePending;
      var cash := CashAmount(order.market, e.side, e.role, e.shares, e.price);
      var trade := RecordEvent(e);
      TradeHandled(before, e, trade.Value(), cash);
      if previous != TradeSuccess && trade.status == TradeSuccess {
        ApplyConfirmedTrade(trade.side, trade.tokenId, cash, e.shares);
        OpenPosition(positions, model.positions, e.tokenId);
        outcome := if e.tokenId !in positions then RaisedKeyError
                   else if e.shares == 0 then RaisedZeroDivision
                   else Applied;
      } else {
        outcome := Recorded;
      }
    }

    /** Looks the trade up or creates it, records the event, and stores it in both dictionaries. */
    method RecordEvent(e: TradeEvent) returns (trade: ManagedTrade)
      requires Valid() && Accepts(model, e)
      modifies `trades, `model, orders.Values, trades.Values
      ensures Valid()
      ensures model == Record(old(model), e)
      ensures trade.Value() == RecordTrade(PriorTrade(old(model), e), e)
    {
      hide OrdersMatch, TradesMatch, PositionsMatch, TradesShared, RecordTrade;
      FindKey(orderIds, orders, model.orders, trades, positions, e.orderId);
      trade := UpdateTrade(e);
      AttachTrade(e.orderId, trade);
    }

    /** Records the event in the trade's object, which is created on its first event. */
    method UpdateTrade(e: TradeEvent) returns (trade: ManagedTrade)
      requires Valid()
      modifies `trades, `model, trades.Values
      ensures Valid() && trade.id == e.tradeId && e.tradeId in trades && trades[e.tradeId] == trade
      ensures trade.Value() == RecordTrade(PriorTrade(old(model), e), e)
      ensures model == old(model).(trades := old(model).trades[e.tradeId := trade.Value()])
    {
      hide OrdersMatch, TradesMatch, PositionsMatch, TradesShared;
      OpenTrade(trades, model.trades, e.tradeId);
      if e.tradeId in trades {
        trade := trades[e.tradeId];
      } else {
        trade := new ManagedTrade(e);
      }
      trade.Record(e);
      StoreTrade(trade);
    }

    /** Stores a trade whose value may be news to the model. */
    method StoreTrade(trade: ManagedTrade)
      requires ValidExcept(Some(trade.id)) && (trade.id in trades ==> trades[trade.id] == trade)
      modifies `trades, `model
      ensures Valid() && trades == old(trades)[trade.id := trade]
      ensures model == old(model).(trades := old(model).trades[trade.id := trade.Value()])
    {
      hide OrdersMatch, TradesMatch, PositionsMatch, TradesShared;
      CloseTrade(trades, model.trades, trade);
      TradeStored(orders, trades, trade);
      trades := trades[trade.id := trade];
      model := model.(trades := model.trades[trade.id := trade.Value()]);
    }

    /** Adds a known trade to an order's dictionary. */
    method AttachTrade(id: OrderId, trade: ManagedTrade)
      requires Valid() && id in orders && trade.id in trades && trades[trade.id] == trade
      modifies `model, orders.Values
      ensures Valid()
      ensures var i := Find(old(model).orders, id);
              && i < |old(model).orders|
              && model == old(model).(orders := old(model).orders[i :=
                   old(model).orders[i].(tradeIds := AddTradeId(old(model).orders[i].tradeIds, trade.id))])
    {
      hide Keyed, OrdersMatch, TradesMatch, PositionsMatch, TradesShared, ManagedOrder.Shares;
      OpenOrder(orderIds, orders, model.orders, trades, positions, id);
      var order := orders[id];
      order.AddTrade(trade, trades);
      CloseOrder(orderIds, orders, model.orders, trades, positions, id);
      model := model.(orders := model.orders[Find(model.orders, id) := order.Value()]);
    }

    /** Applies a confirmed trade to the position of its token, which is created flat on first use. */
    method ApplyConfirmedTrade(side: Side, token: TokenId, amount: Micro, shares: Micro)
      requires Valid()
      modifies `positions, `model, positions.Values
      ensures Valid()
      ensures positions.Keys == old(positions.Keys) + {token}
      ensures model == old(model).(positions :=
                old(model).positions[token := ApplyTrade(PositionOf(old(model), token), side, amount, shares)])
    {
      hide OrdersMatch, TradesMatch, PositionsMatch, TradesShared, ApplyTrade;
      OpenPosition(positions, model.positions, token);
      if token !in positions {
        AddPosition(token);
      }
      TradePosition(positions[token], side, amount, shares);
    }

    method AddPosition(token: TokenId)
      requires Valid() && token !in positions
      modifies `positions, `model
      ensures Valid() && positions.Keys == old(positions.Keys) + {token} && fresh(positions[token])
      ensures forall t :: t in old(positions) ==> positions[t] == old(positions)[t]
      ensures model == old(model).(positions := old(model).positions[token := FLAT])
    {
      hide OrdersMatch, TradesMatch, PositionsMatch, TradesShared;
      OpenPosition(positions, model.positions, token);
      var position := new HeldPosition(token);
      ClosePosition(positions, model.positions, position);
      positions := positions[token := position];
      model := model.(positions := model.positions[token := FLAT]);
    }

    method TradePosition(position: HeldPosition, side: Side, amount: Micro, shares: Micro)
      requires Valid() && position.token in positions && positions[position.token] == position
      modifies `model, position
      ensures Valid() && position.token in old(model).positions
      ensures model == old(model).(positions := old(model).positions[position.token :=
                ApplyTrade(old(model).positions[position.token], side, amount, shares)])
    {
      hide OrdersMatch, TradesMatch, PositionsMatch, TradesShared, ApplyTrade;
      OpenPosition(positions, model.positions, position.token);
      position.Trade(side, amount, shares);
      ClosePosition(positions, model.positions, position);
      assert positions[position.token := position] == positions;
      model := model.(positions := model.positions[position.token := position.Value()]);
    }

    method SettlePosition(token: TokenId, wins: bool)
      requires Valid()
      modifies `model, positions.Values
      ensures Valid() && model == SettleToken(old(model), token, wins)
    {
      if token !in positions { return; }
      var snapshot := BuildCurrentPosition(token);
      PayOut(positions[token], snapshot.closeSettling, wins);
    }

    method PayOut(position: HeldPosition, closeSettling: Micro, wins: bool)
      requires Valid() && position.token in positions && positions[position.token] == position
      modifies `model, position
      ensures Valid() && position.token in old(model).positions
      ensures model == old(model).(positions := old(model).positions[position.token :=
                Settle(old(model).positions[position.token], closeSettling, wins)])
    {
      hide OrdersMatch, TradesMatch, PositionsMatch, TradesShared, Settle;
      OpenPosition(positions, model.positions, position.token);
      position.SettleAt(closeSettling, wins);
      ClosePosition(positions, model.positions, position);
      assert positions[position.token := position] == positions;
      model := model.(positions := model.positions[position.token := position.Value()]);
    }

    /** Pays out a market; an unknown outcome is refused before anything changes. */
    method SettleMarketAt(market: Market, outcome: string) returns (known: bool)
      requires Valid()
      modifies `model, positions.Values
      ensures Valid()
      ensures match SettleMarket(old(model), market, outcome)
              case Settled(after) => known && model == after
              case InvalidOutcome => !known && model == old(model)
    {
      var key := Lower(outcome);
      if key == market.yesToken.Key() {
        SettlePosition(market.yesToken.id, true);
        SettlePosition(market.noToken.id, false);
      } else if key == market.noToken.Key() {
        SettlePosition(market.noToken.id, true);
        SettlePosition(market.yesToken.id, false);
      } else {
        return false;
      }
      return true;
    }
  }

  lemma PrefixSums(s: State, i: nat, token: TokenId, side: Side)
    requires i < |s.orders|
    ensures Sum(s.orders[..i + 1], PendingOf(token, side))
         == Sum(s.orders[..i], PendingOf(token, side)) + PendingOf(token, side)(s.orders[i])
    ensures Sum(s.orders[..i + 1], SettlingOf(token, side, s.trades))
         == Sum(s.orders[..i], SettlingOf(token, side, s.trades)) + SettlingOf(token, side, s.trades)(s.orders[i])
  {
    SumNext(s.orders, i, PendingOf(token, side));
    SumNext(s.orders, i, SettlingOf(token, side, s.trades));
  }

  lemma FirstActiveUnique(orders: seq<Order>, token: TokenId, i: nat)
    requires i <= |orders|
    requires i < |orders| ==> orders[i].IsActive() && orders[i].token.id == token
    requires forall j :: 0 <= j < i ==> !(orders[j].IsActive() && orders[j].token.id == token)
    ensures FirstActive(orders, token) == i
  {
  }

  /** How handling a trade event ends, once its trade has been recorded. */
  lemma TradeHandled(s: State, e: TradeEvent, trade: Trade, cash: Micro)
    requires Accepts(s, e) && trade == RecordTrade(PriorTrade(s, e), e)
    requires cash == CashAmount(s.orders[Find(s.orders, e.orderId)].market, e.side, e.role, e.shares, e.price)
    ensures Confirms(s, e) <==> PriorTrade(s, e).status != TradeSuccess && trade.status == TradeSuccess
    ensures var r := Record(s, e);
            HandleTradeEvent(s, e) ==
            if Confirms(s, e)
            then r.(positions := r.positions[trade.tokenId :=
                   ApplyTrade(PositionOf(r, trade.tokenId), trade.side, cash, e.shares)])
            else r
  {
  }
}
