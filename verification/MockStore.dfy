/**
 The mock exchange: orders that fill wholly or not at all, one trade per fill,
 and a list of events waiting for the stream.

 Each function is one method under the store's lock. Times and the ids the
 exchange draws are parameters.
 */
module MockStore {
  import opened Domain
  import opened Rounding
  import opened Seqs

  datatype MockOrder = MockOrder(
    id: OrderId, marketId: MarketId, tokenId: TokenId, side: Side, role: Role, price: real, shares: Micro,
    status: MarketOrderStatus, createdTs: int, matched: Micro, tradeIds: seq<TradeId>)
  {
    function Unmatched(): Micro { Max(shares - matched, 0) }
  }

  datatype MockTrade = MockTrade(
    id: TradeId, orderId: OrderId, marketId: MarketId, tokenId: TokenId, side: Side, role: Role, price: real,
    shares: Micro, status: MarketTradeStatus, updatedTs: int, minedDue: int)

  /** Orders and trades by id, the trade ids in insertion order, and the undrained events. */
  datatype Store = Store(
    orders: map<OrderId, MockOrder>, orderIds: seq<OrderId>,
    trades: map<TradeId, MockTrade>, tradeIds: seq<TradeId>, pending: seq<Event>)

  const EMPTY_STORE := Store(map[], [], map[], [], [])

  function OrderEventOf(o: MockOrder): OrderEvent {
    OrderEvent(o.marketId, o.tokenId, o.id, o.status, o.shares, o.side, o.price, o.matched)
  }

  function TradeEventOf(t: MockTrade): TradeEvent {
    TradeEvent(t.updatedTs, t.marketId, t.tokenId, t.orderId, t.id, t.status, t.shares, t.side, t.role, t.price)
  }

  function AddKey<K(==)>(keys: seq<K>, k: K): seq<K> {
    if k in keys then keys else keys + [k]
  }

  function CreateOrder(id: OrderId, token: Token, side: Side, role: Role, shares: Micro, price: real, now: int): MockOrder {
    MockOrder(id, token.marketId, token.id, side, role, price, shares, Live, now, 0, [])
  }

  predicate AcceptsOrder(o: MockOrder) { o.shares > 0 }

  function Submit(st: Store, o: MockOrder): Store {
    if AcceptsOrder(o) then st.(orders := st.orders[o.id := o], orderIds := AddKey(st.orderIds, o.id)) else st
  }

  datatype CancelReply = Accepted | Rejected(message: string)

  function CancelReplyOf(st: Store, id: OrderId): CancelReply {
    if id !in st.orders then Rejected("order not found")
    else if st.orders[id].Unmatched() <= 0 then Rejected("matched")
    else Accepted
  }

  function Cancel(st: Store, id: OrderId): Store {
    if CancelReplyOf(st, id) != Accepted || st.orders[id].status == Canceled then st else
    var o := st.orders[id].(status := Canceled);
    st.(orders := st.orders[id := o], pending := st.pending + [OrderFeed(OrderEventOf(o))])
  }

  function GetOrder(st: Store, id: OrderId): Option<OrderEvent> {
    if id in st.orders then Some(OrderEventOf(st.orders[id])) else None
  }

  predicate Matchable(st: Store, id: OrderId) {
    id in st.orders && st.orders[id].Unmatched() > 0 && st.orders[id].status != Canceled
  }

  function FilledOrder(o: MockOrder, tradeId: TradeId): MockOrder {
    o.(matched := o.matched + o.Unmatched(), status := Matched, tradeIds := o.tradeIds + [tradeId])
  }

  function TradeOf(o: MockOrder, tradeId: TradeId, price: real, now: int, delay: int): MockTrade {
    MockTrade(tradeId, o.id, o.marketId, o.tokenId, o.side, o.role, price, o.Unmatched(), TradeMatched, now, now + delay)
  }

  function MarkMatched(st: Store, id: OrderId, tradeId: TradeId, price: real, now: int, delay: int): Store {
    if !Matchable(st, id) then st else
    var o := FilledOrder(st.orders[id], tradeId);
    var t := TradeOf(st.orders[id], tradeId, price, now, delay);
    Store(st.orders[id := o], st.orderIds, st.trades[tradeId := t], AddKey(st.tradeIds, tradeId),
          st.pending + [OrderFeed(OrderEventOf(o)), TradeFeed(TradeEventOf(t))])
  }

  function PromoteOne(st: Store, id: TradeId, now: int): Store {
    if id in st.trades && st.trades[id].status == TradeMatched && st.trades[id].minedDue <= now then
      var t := st.trades[id].(status := Mined, updatedTs := now);
      st.(trades := st.trades[id := t], pending := st.pending + [TradeFeed(TradeEventOf(t))])
    else st
  }

  function PromoteAll(st: Store, ids: seq<TradeId>, now: int): Store {
    if ids == [] then st else PromoteOne(PromoteAll(st, ids[..|ids| - 1], now), ids[|ids| - 1], now)
  }

  function PromoteMined(st: Store, now: int): Store {
    PromoteAll(st, st.tradeIds, now)
  }

  function Drain(st: Store): Store { st.(pending := []) }

  // -------------------------------------------------------------- field by field

  /** An order is stored if and only if it has shares, new and live as the client created it. */
  lemma SubmitStores(st: Store, id: OrderId, token: Token, side: Side, role: Role, shares: Micro, price: real, now: int)
    ensures var after := Submit(st, CreateOrder(id, token, side, role, shares, price, now));
            if shares <= 0 then after == st else
            && id in after.orders && id in after.orderIds && after.orders == st.orders[id := after.orders[id]]
            && after.trades == st.trades && after.pending == st.pending
            && var o := after.orders[id];
               && o.id == id && o.marketId == token.marketId && o.tokenId == token.id
               && o.side == side && o.role == role && o.price == price && o.shares == shares
               && o.status == Live && o.createdTs == now && o.matched == 0 && o.tradeIds == []
  {
  }

  /**
   A cancel is refused if and only if the order is unknown or has nothing unmatched. An accepted
   one leaves the order canceled, and reports it unless it was canceled before.
   */
  lemma CancelReplied(st: Store, id: OrderId)
    ensures var reply, after := CancelReplyOf(st, id), Cancel(st, id);
            && (reply == Accepted <==> id in st.orders && st.orders[id].shares > st.orders[id].matched)
            && (reply == Rejected("order not found") <==> id !in st.orders)
            && (reply == Rejected("matched") <==> id in st.orders && st.orders[id].shares <= st.orders[id].matched)
            && (reply != Accepted || st.orders[id].status == Canceled ==> after == st)
            && (reply == Accepted && st.orders[id].status != Canceled ==>
                  var o := st.orders[id];
                  && after.orders == st.orders[id := o.(status := Canceled)] && after.trades == st.trades
                  && after.pending == st.pending + [OrderFeed(
                       OrderEvent(o.marketId, o.tokenId, o.id, Canceled, o.shares, o.side, o.price, o.matched))])
  {
  }

  /** Reading an order gives its fields as they are, and nothing for an unknown one. */
  lemma ReadsOrder(st: Store, id: OrderId)
    ensures GetOrder(st, id).Some? <==> id in st.orders
    ensures id in st.orders ==>
              var o := st.orders[id];
              GetOrder(st, id).value == OrderEvent(o.marketId, o.tokenId, o.id, o.status, o.shares, o.side, o.price, o.matched)
  {
  }

  /**
   A match takes place if and only if the order is known, not canceled and has something
   unmatched: then all of that is filled in one trade at the given price, due after the delay,
   and the order and the trade are reported in this order.
   */
  lemma MatchFills(st: Store, id: OrderId, tradeId: TradeId, price: real, now: int, delay: int)
    ensures var after := MarkMatched(st, id, tradeId, price, now, delay);
            if id !in st.orders || st.orders[id].status == Canceled || st.orders[id].shares <= st.orders[id].matched
            then after == st else
            var o := st.orders[id];
            var size := o.shares - o.matched;
            && after.orders == st.orders[id :=
                 o.(matched := o.shares, status := Matched, tradeIds := o.tradeIds + [tradeId])]
            && after.trades == st.trades[tradeId := MockTrade(tradeId, o.id, o.marketId, o.tokenId, o.side, o.role,
                                                              price, size, TradeMatched, now, now + delay)]
            && after.pending == st.pending + [
                 OrderFeed(OrderEvent(o.marketId, o.tokenId, o.id, Matched, o.shares, o.side, o.price, o.shares)),
                 TradeFeed(TradeEvent(now, o.marketId, o.tokenId, o.id, tradeId, TradeMatched,
                                      size, o.side, o.role, price))]
  {
  }

  /** A trade is mined if and only if it is known, was only matched so far and is due; this is reported with its time. */
  lemma MinedWhenDue(st: Store, id: TradeId, now: int)
    ensures var after := PromoteOne(st, id, now);
            if id !in st.trades || st.trades[id].status != TradeMatched || now < st.trades[id].minedDue
            then after == st else
            var t := st.trades[id];
            && after.orders == st.orders && after.trades == st.trades[id := t.(status := Mined, updatedTs := now)]
            && after.pending == st.pending + [TradeFeed(
                 TradeEvent(now, t.marketId, t.tokenId, t.orderId, t.id, Mined, t.shares, t.side, t.role, t.price))]
  {
  }

  // ----------------------------------------------------------- the invariant

  ghost predicate OrderOk(st: Store, id: OrderId, o: MockOrder) {
    && o.id == id && o.shares > 0
    && (o.status == Live || o.status == Canceled || o.status == Matched)
    && (o.status != Matched ==> o.matched == 0 && o.tradeIds == [])
    && (o.status == Matched ==> o.matched == o.shares && |o.tradeIds| == 1 && o.tradeIds[0] in st.trades
                                && st.trades[o.tradeIds[0]].orderId == id)
  }

  ghost predicate TradeOk(st: Store, id: TradeId, t: MockTrade) {
    && t.id == id && t.orderId in st.orders
    && (t.status == TradeMatched || t.status == Mined)
    && var o := st.orders[t.orderId];
       && o.tradeIds == [id]
       && t.shares == o.shares && t.side == o.side && t.role == o.role
       && t.tokenId == o.tokenId && t.marketId == o.marketId
  }

  ghost predicate StoreOk(st: Store) {
    && (forall id {:trigger OrderOk(st, id, st.orders[id])} :: id in st.orders ==> OrderOk(st, id, st.orders[id]))
    && (forall id {:trigger TradeOk(st, id, st.trades[id])} :: id in st.trades ==> TradeOk(st, id, st.trades[id]))
    && (forall id :: id in st.trades <==> id in st.tradeIds)
  }

  /** Orders only move from live to exactly one of matched and canceled, and never change otherwise. */
  ghost predicate OrderMoves(o: MockOrder, p: MockOrder) {
    && p == o.(status := p.status, matched := p.matched, tradeIds := p.tradeIds)
    && (o.status == Live || p == o)
  }

  ghost predicate TradeMoves(t: MockTrade, u: MockTrade) {
    && u == t.(status := u.status, updatedTs := u.updatedTs)
    && (t.status == Mined ==> u == t)
  }

  ghost predicate StoreMoves(st: Store, after: Store) {
    && (forall id :: id in st.orders ==> id in after.orders && OrderMoves(st.orders[id], after.orders[id]))
    && (forall id :: id in st.trades ==> id in after.trades && TradeMoves(st.trades[id], after.trades[id]))
  }

  // --------------------------------------------------------- the emission log

  function TradesIn(es: seq<Event>): seq<TradeEvent> {
    if es == [] then [] else
    TradesIn(es[..|es| - 1]) + (if es[|es| - 1].TradeFeed? then [es[|es| - 1].trade] else [])
  }

  lemma {:induction false} TradesInConcat(xs: seq<Event>, ys: seq<Event>)
    ensures TradesIn(xs + ys) == TradesIn(xs) + TradesIn(ys)
  {
    if ys == [] {
      assert xs + ys == xs;
    } else {
      var n := |ys| - 1;
      assert (xs + ys)[..|xs + ys| - 1] == xs + ys[..n];
      TradesInConcat(xs, ys[..n]);
    }
  }

  /** The event reports its trade: everything but status and time is the trade's own. */
  ghost predicate Reports(e: TradeEvent, t: MockTrade) {
    && e.tradeId == t.id && e.orderId == t.orderId && e.tokenId == t.tokenId && e.marketId == t.marketId
    && e.shares == t.shares && e.side == t.side && e.role == t.role && e.price == t.price
    && (e.status == TradeMatched || (e.status == Mined && t.status == Mined && t.minedDue <= e.exchTs))
  }

  /** Each trade was reported matched once, then mined at most once and not before its due time. */
  ghost predicate LogOk(trades: map<TradeId, MockTrade>, log: seq<TradeEvent>) {
    && (forall i {:trigger Reported(trades, log[i])} :: 0 <= i < |log| ==> Reported(trades, log[i]))
    && (forall i, j {:trigger InSequence(log[i], log[j])} :: 0 <= i < j < |log| ==> InSequence(log[i], log[j]))
    && (forall t :: t in trades ==> Logged(log, t, TradeMatched))
    && (forall t :: t in trades && trades[t].status == Mined ==> Logged(log, t, Mined))
  }

  ghost predicate Reported(trades: map<TradeId, MockTrade>, e: TradeEvent) {
    e.tradeId in trades && Reports(e, trades[e.tradeId])
  }

  ghost predicate InSequence(e: TradeEvent, f: TradeEvent) {
    e.tradeId == f.tradeId ==> e.status == TradeMatched && f.status == Mined
  }

  ghost predicate Logged(log: seq<TradeEvent>, t: TradeId, status: MarketTradeStatus) {
    exists i :: 0 <= i < |log| && log[i].tradeId == t && log[i].status == status
  }

  lemma LoggedGrows(log: seq<TradeEvent>, more: seq<TradeEvent>)
    ensures forall t, status :: Logged(log, t, status) ==> Logged(log + more, t, status)
  {
    forall t, status | Logged(log, t, status)
      ensures Logged(log + more, t, status)
    {
      var i :| 0 <= i < |log| && log[i].tradeId == t && log[i].status == status;
      assert (log + more)[i] == log[i];
    }
  }

  /** Replacing or adding one order, without touching its trades, keeps the invariant. */
  lemma OrderReplaced(st: Store, after: Store, id: OrderId, o: MockOrder)
    requires StoreOk(st) && after == st.(orders := st.orders[id := o], orderIds := after.orderIds, pending := after.pending)
    requires OrderOk(after, id, o)
    requires id in st.orders ==> OrderMoves(st.orders[id], o) && o.tradeIds == st.orders[id].tradeIds
    ensures StoreOk(after) && StoreMoves(st, after)
  {
    forall k | k in after.orders
      ensures OrderOk(after, k, after.orders[k])
    {
      if k != id { assert OrderOk(st, k, st.orders[k]); }
    }
    forall k | k in after.trades
      ensures TradeOk(after, k, after.trades[k])
    {
      assert TradeOk(st, k, st.trades[k]);
    }
  }

  lemma SubmitOk(st: Store, o: MockOrder)
    requires StoreOk(st) && o.id !in st.orders
    requires o.status == Live && o.matched == 0 && o.tradeIds == []
    ensures StoreOk(Submit(st, o)) && StoreMoves(st, Submit(st, o))
  {
    hide StoreOk;
    if AcceptsOrder(o) { OrderReplaced(st, Submit(st, o), o.id, o); }
  }

  /** An accepted cancel finds or leaves the order canceled, and emits no trade. */
  lemma CancelOk(st: Store, id: OrderId)
    requires StoreOk(st)
    ensures StoreOk(Cancel(st, id)) && StoreMoves(st, Cancel(st, id)) && Cancel(st, id).trades == st.trades
    ensures CancelReplyOf(st, id) == Accepted ==> id in st.orders && Cancel(st, id).orders[id].status == Canceled
    ensures TradesIn(Cancel(st, id).pending) == TradesIn(st.pending)
  {
    var after := Cancel(st, id);
    if after == st { return; }
    assert OrderOk(st, id, st.orders[id]);
    hide StoreOk, TradesIn;
    OrderReplaced(st, after, id, after.orders[id]);
    TradesInConcat(st.pending, [OrderFeed(OrderEventOf(after.orders[id]))]);
    TradesInOne(OrderFeed(OrderEventOf(after.orders[id])));
  }

  lemma TradesInOne(e: Event)
    ensures TradesIn([e]) == if e.TradeFeed? then [e.trade] else []
  {
    assert [e][..0] == [];
  }

  /** The trade events `after` has appended to the pending list of `st`. */
  ghost predicate Emits(st: Store, after: Store, more: seq<TradeEvent>) {
    TradesIn(after.pending) == TradesIn(st.pending) + more
  }

  /** A new report extends the log of a trade that is new or was only reported matched. */
  lemma LogExtends(trades: map<TradeId, MockTrade>, after: map<TradeId, MockTrade>, log: seq<TradeEvent>, e: TradeEvent)
    requires LogOk(trades, log)
    requires e.tradeId in after && after == trades[e.tradeId := after[e.tradeId]] && Reports(e, after[e.tradeId])
    requires after[e.tradeId].status == e.status
    requires if e.tradeId in trades
             then trades[e.tradeId].status == TradeMatched && e.status == Mined
                  && TradeMoves(trades[e.tradeId], after[e.tradeId])
             else e.status == TradeMatched
    ensures LogOk(after, log + [e])
  {
    LoggedGrows(log, [e]);
    var longer := log + [e];
    assert longer[|log|] == e;
    assert Logged(longer, e.tradeId, e.status);
    forall i | 0 <= i < |longer|
      ensures Reported(after, longer[i])
    {
      if i < |log| { assert Reported(trades, log[i]); }
    }
    forall i, j | 0 <= i < j < |longer|
      ensures InSequence(longer[i], longer[j])
    {
      if j < |log| {
        assert InSequence(log[i], log[j]);
      } else {
        assert Reported(trades, log[i]);
      }
    }
  }

  /** What a match makes of the store, when it takes place. */
  lemma MatchedStore(st: Store, id: OrderId, tradeId: TradeId, price: real, now: int, delay: int)
    requires StoreOk(st) && tradeId !in st.trades && Matchable(st, id)
    ensures var after := MarkMatched(st, id, tradeId, price, now, delay);
            StoreOk(after) && StoreMoves(st, after)
  {
    hide OrderOk, TradeOk;
    var after := MarkMatched(st, id, tradeId, price, now, delay);
    forall k | k in after.orders
      ensures OrderOk(after, k, after.orders[k])
      ensures k in st.orders && OrderMoves(st.orders[k], after.orders[k])
    {
      MatchedOrder(st, id, tradeId, price, now, delay, k);
    }
    forall k | k in after.trades
      ensures TradeOk(after, k, after.trades[k])
    {
      MatchedTrade(st, id, tradeId, price, now, delay, k);
    }
  }

  lemma MatchedOrder(st: Store, id: OrderId, tradeId: TradeId, price: real, now: int, delay: int, k: OrderId)
    requires StoreOk(st) && tradeId !in st.trades && Matchable(st, id) && k in st.orders
    ensures var after := MarkMatched(st, id, tradeId, price, now, delay);
            OrderOk(after, k, after.orders[k]) && OrderMoves(st.orders[k], after.orders[k])
  {
    hide TradeOk;
    assert OrderOk(st, k, st.orders[k]);
  }

  lemma MatchedTrade(st: Store, id: OrderId, tradeId: TradeId, price: real, now: int, delay: int, k: TradeId)
    requires StoreOk(st) && tradeId !in st.trades && Matchable(st, id)
    requires k in st.trades || k == tradeId
    ensures var after := MarkMatched(st, id, tradeId, price, now, delay);
            TradeOk(after, k, after.trades[k])
  {
    assert OrderOk(st, id, st.orders[id]);
    if k != tradeId { assert TradeOk(st, k, st.trades[k]); }
  }

  /** A match fills an order whole and reports its one trade, whatever list the caller iterates. */
  lemma MatchOk(st: Store, id: OrderId, tradeId: TradeId, price: real, now: int, delay: int, log: seq<TradeEvent>)
    returns (more: seq<TradeEvent>)
    requires StoreOk(st) && LogOk(st.trades, log) && tradeId !in st.trades
    ensures var after := MarkMatched(st, id, tradeId, price, now, delay);
            StoreOk(after) && StoreMoves(st, after) && Emits(st, after, more) && LogOk(after.trades, log + more)
  {
    var after := MarkMatched(st, id, tradeId, price, now, delay);
    if !Matchable(st, id) {
      more := [];
      assert log + [] == log;
      return;
    }
    MatchedStore(st, id, tradeId, price, now, delay);
    var e := TradeEventOf(after.trades[tradeId]);
    var o := OrderFeed(OrderEventOf(after.orders[id]));
    assert after.pending == (st.pending + [o]) + [TradeFeed(e)];
    TradesInConcat(st.pending + [o], [TradeFeed(e)]);
    TradesInConcat(st.pending, [o]);
    TradesInOne(o);
    TradesInOne(TradeFeed(e));
    more := [e];
    LogExtends(st.trades, after.trades, log, e);
  }

  lemma PromotedStore(st: Store, id: TradeId, now: int)
    requires StoreOk(st)
    ensures var after := PromoteOne(st, id, now);
            StoreOk(after) && StoreMoves(st, after) && after.tradeIds == st.tradeIds && after.orders == st.orders
  {
    var after := PromoteOne(st, id, now);
    if after == st { return; }
    forall k | k in after.orders
      ensures OrderOk(after, k, after.orders[k])
    {
      assert OrderOk(st, k, st.orders[k]);
    }
    forall k | k in after.trades
      ensures TradeOk(after, k, after.trades[k])
    {
      assert TradeOk(st, k, st.trades[k]);
    }
  }

  lemma PromoteOneOk(st: Store, id: TradeId, now: int, log: seq<TradeEvent>)
    returns (more: seq<TradeEvent>)
    requires StoreOk(st) && LogOk(st.trades, log)
    ensures var after := PromoteOne(st, id, now);
            StoreOk(after) && StoreMoves(st, after) && Emits(st, after, more) && LogOk(after.trades, log + more)
    ensures PromoteOne(st, id, now).orders == st.orders
  {
    var after := PromoteOne(st, id, now);
    PromotedStore(st, id, now);
    if after == st {
      more := [];
      assert log + [] == log;
      return;
    }
    var e := TradeEventOf(after.trades[id]);
    assert TradeOk(st, id, st.trades[id]);
    TradesInConcat(st.pending, [TradeFeed(e)]);
    TradesInOne(TradeFeed(e));
    more := [e];
    LogExtends(st.trades, after.trades, log, e);
  }

  lemma MovesCompose(a: Store, b: Store, c: Store)
    requires StoreMoves(a, b) && StoreMoves(b, c)
    ensures StoreMoves(a, c)
  {
    forall id | id in a.trades
      ensures id in c.trades && TradeMoves(a.trades[id], c.trades[id])
    {
      assert TradeMoves(a.trades[id], b.trades[id]) && TradeMoves(b.trades[id], c.trades[id]);
    }
    forall id | id in a.orders
      ensures id in c.orders && OrderMoves(a.orders[id], c.orders[id])
    {
      assert OrderMoves(a.orders[id], b.orders[id]) && OrderMoves(b.orders[id], c.orders[id]);
    }
  }

  lemma {:induction false} PromoteAllOk(st: Store, ids: seq<TradeId>, now: int, log: seq<TradeEvent>)
    returns (more: seq<TradeEvent>)
    requires StoreOk(st) && LogOk(st.trades, log)
    ensures var after := PromoteAll(st, ids, now);
            StoreOk(after) && StoreMoves(st, after) && Emits(st, after, more) && LogOk(after.trades, log + more)
    ensures PromoteAll(st, ids, now).orders == st.orders
    decreases ids
  {
    hide StoreOk, LogOk, PromoteOne;
    if ids == [] {
      more := [];
      assert log + [] == log && TradesIn(st.pending) + [] == TradesIn(st.pending);
    } else {
      var n := |ids| - 1;
      var first := PromoteAllOk(st, ids[..n], now, log);
      var mid := PromoteAll(st, ids[..n], now);
      var second := PromoteOneOk(mid, ids[n], now, log + first);
      var after := PromoteOne(mid, ids[n], now);
      assert PromoteAll(st, ids, now) == after;
      MovesCompose(st, mid, after);
      more := first + second;
      EmitsCompose(st, mid, after, first, second);
      assert log + more == (log + first) + second;
    }
  }

  lemma EmitsCompose(a: Store, b: Store, c: Store, first: seq<TradeEvent>, second: seq<TradeEvent>)
    requires Emits(a, b, first) && Emits(b, c, second)
    ensures Emits(a, c, first + second)
  {
    assert (TradesIn(a.pending) + first) + second == TradesIn(a.pending) + (first + second);
  }

  // --------------------------------------------------------------------- runs

  datatype StoreOp =
    | SubmitOp(order: MockOrder)
    | CancelOp(id: OrderId)
    | MatchOp(id: OrderId, tradeId: TradeId, price: real, now: int, delay: int)
    | MineOp(now: int)
    | DrainOp

  /** A store with everything drained from it and everything it ever emitted. */
  datatype Ledgered = Ledgered(store: Store, drained: seq<Event>, emitted: seq<Event>)

  function Operate(st: Store, op: StoreOp): Store {
    match op
    case SubmitOp(order) => Submit(st, order)
    case CancelOp(id) => Cancel(st, id)
    case MatchOp(id, tradeId, price, now, delay) => MarkMatched(st, id, tradeId, price, now, delay)
    case MineOp(now) => PromoteMined(st, now)
    case DrainOp => Drain(st)
  }

  /** Events appended by one operation; a drain appends none and hands over the list. */
  function Appended(st: Store, op: StoreOp): seq<Event> {
    var after := Operate(st, op).pending;
    if op.DrainOp? || |after| < |st.pending| then [] else after[|st.pending|..]
  }

  function RunOp(l: Ledgered, op: StoreOp): Ledgered {
    Ledgered(Operate(l.store, op),
             if op.DrainOp? then l.drained + l.store.pending else l.drained,
             l.emitted + Appended(l.store, op))
  }

  function RunOps(ops: seq<StoreOp>): Ledgered {
    if ops == [] then Ledgered(EMPTY_STORE, [], []) else RunOp(RunOps(ops[..|ops| - 1]), ops[|ops| - 1])
  }

  /** Submitted orders are new and live, and trade ids are new: both are drawn at random. */
  ghost predicate FreshOp(st: Store, op: StoreOp) {
    match op
    case SubmitOp(o) => o.id !in st.orders && o.status == Live && o.matched == 0 && o.tradeIds == []
    case MatchOp(_, tradeId, _, _, _) => tradeId !in st.trades
    case _ => true
  }

  ghost predicate FreshOps(ops: seq<StoreOp>) {
    ops == [] || (FreshOps(ops[..|ops| - 1]) && FreshOp(RunOps(ops[..|ops| - 1]).store, ops[|ops| - 1]))
  }

  ghost predicate Grows(st: Store, after: Store) {
    |st.pending| <= |after.pending| && after.pending[..|st.pending|] == st.pending
  }

  lemma {:induction false} PromotionGrows(st: Store, ids: seq<TradeId>, now: int)
    ensures Grows(st, PromoteAll(st, ids, now))
  {
    if ids != [] { PromotionGrows(st, ids[..|ids| - 1], now); }
  }

  lemma OperationGrows(st: Store, op: StoreOp)
    ensures !op.DrainOp? ==> Operate(st, op).pending == st.pending + Appended(st, op)
  {
    if op.MineOp? { PromotionGrows(st, st.tradeIds, op.now); }
  }

  lemma OperationOk(st: Store, op: StoreOp, log: seq<TradeEvent>)
    requires StoreOk(st) && LogOk(st.trades, log) && FreshOp(st, op)
    ensures StoreOk(Operate(st, op)) && StoreMoves(st, Operate(st, op))
    ensures LogOk(Operate(st, op).trades, log + TradesIn(Appended(st, op)))
  {
    OperationGrows(st, op);
    var more: seq<TradeEvent> := [];
    assert log + more == log && TradesIn(st.pending) + more == TradesIn(st.pending);
    if op.SubmitOp? {
      SubmitOk(st, op.order);
    } else if op.CancelOp? {
      CancelOk(st, op.id);
    } else if op.MatchOp? {
      more := MatchOk(st, op.id, op.tradeId, op.price, op.now, op.delay, log);
    } else if op.MineOp? {
      more := PromoteAllOk(st, st.tradeIds, op.now, log);
    } else {
      DrainOk(st);
    }
    if !op.DrainOp? {
      TradesInConcat(st.pending, Appended(st, op));
      SamePrefix(TradesIn(st.pending), TradesIn(Appended(st, op)), more);
    }
  }

  lemma SamePrefix<T>(xs: seq<T>, ys: seq<T>, zs: seq<T>)
    requires xs + ys == xs + zs
    ensures ys == zs
  {
    assert ys == (xs + ys)[|xs|..] && zs == (xs + zs)[|xs|..];
  }

  lemma DrainOk(st: Store)
    requires StoreOk(st)
    ensures StoreOk(Drain(st)) && StoreMoves(st, Drain(st))
  {
    forall k | k in st.orders
      ensures OrderOk(Drain(st), k, st.orders[k])
    {
      assert OrderOk(st, k, st.orders[k]);
    }
    forall k | k in st.trades
      ensures TradeOk(Drain(st), k, st.trades[k])
    {
      assert TradeOk(st, k, st.trades[k]);
    }
  }

  ghost predicate LedgeredOk(l: Ledgered) {
    && StoreOk(l.store) && LogOk(l.store.trades, TradesIn(l.emitted))
    && l.emitted == l.drained + l.store.pending
  }

  lemma NothingEmitted()
    ensures LedgeredOk(Ledgered(EMPTY_STORE, [], []))
  {
    assert TradesIn([]) == [];
  }

  lemma RunOpOk(l: Ledgered, op: StoreOp)
    requires LedgeredOk(l) && FreshOp(l.store, op)
    ensures LedgeredOk(RunOp(l, op))
  {
    hide StoreOk, LogOk, TradesIn;
    OperationOk(l.store, op, TradesIn(l.emitted));
    OperationGrows(l.store, op);
    TradesInConcat(l.emitted, Appended(l.store, op));
  }

  /**
   For every sequence of operations, stale lists included: orders are filled wholly or not
   at all and never both matched and canceled, each trade was reported matched once and mined
   at most once when due, and what was drained with what is pending is what was emitted.
   */
  lemma {:induction false} ExchangeRuns(ops: seq<StoreOp>)
    requires FreshOps(ops)
    ensures LedgeredOk(RunOps(ops))
  {
    hide LedgeredOk, RunOp, FreshOp;
    if ops == [] {
      NothingEmitted();
    } else {
      ExchangeRuns(ops[..|ops| - 1]);
      RunOpOk(RunOps(ops[..|ops| - 1]), ops[|ops| - 1]);
    }
  }
}
