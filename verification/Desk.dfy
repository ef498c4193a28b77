/**
 The execution core as one state machine: the manager, the engine and the
 submit and cancel workers in flight, against clients and feeds that may do anything.

 One `Action` is one lock-protected block together with the synchronous code
 up to the next suspension point, so a `Trace` is any interleaving of them.
 */
module Desk {
  import opened Domain
  import opened Engine
  import opened Manager
  import opened Orders
  import opened Positions
  import opened Rounding
  import opened Seqs

  /** Where the submit worker of an order stands: awaiting the client, then honouring a deferred cancel. */
  datatype SubmitStage = InFlight | Clearing | Recancelling

  /**
   What the engine lock holder is suspended on. `goal` is the effective position the
   order aims at and `mark` the shares written off when the engine read the position.
   */
  datatype EngineStage =
    | Idle
    | Creating(token: Token, side: Side, role: Role, price: real, shares: Micro, goal: Micro, mark: Micro)
    | Cancelling(orderId: OrderId)

  /** `postings` records every change of a position and `closed` whether settlement has begun. */
  datatype Desk = Desk(
    market: Market, mgr: State, submits: map<OrderId, SubmitStage>, cancels: multiset<OrderId>,
    engine: EngineStage, postings: seq<Posting>, closed: bool)

  datatype Action =
    | Observe(desired: Desired, aged: bool)
    | CreateFails
    | CreateReturns(id: OrderId)
    | EngineCancels
    | SubmitReturns(id: OrderId, ok: bool)
    | ClearsFlag(id: OrderId)
    | Recancels(id: OrderId)
    | CancelReturns(id: OrderId, ok: bool)
    | OrderArrives(order: OrderEvent)
    | TradeArrives(trade: TradeEvent)
    | Settles(outcome: string)

  ghost predicate Initial(d: Desk) {
    d == Desk(d.market, EMPTY, map[], multiset{}, Idle, [], false) && d.market.WellFormed()
  }

  predicate At(d: Desk, id: OrderId, stage: SubmitStage) {
    id in d.submits && d.submits[id] == stage
  }

  predicate Enabled(d: Desk, a: Action) {
    match a
    case Observe(desired, _) =>
      d.engine == Idle && desired.market == d.market && d.market.Lists(desired.token)
    case CreateFails => d.engine.Creating?
    case CreateReturns(id) => d.engine.Creating? && !Tracks(d.mgr, id)
    case EngineCancels => d.engine.Cancelling?
    case SubmitReturns(id, _) => At(d, id, InFlight)
    case ClearsFlag(id) => At(d, id, Clearing)
    case Recancels(id) => At(d, id, Recancelling)
    case CancelReturns(id, _) => id in d.cancels
    case OrderArrives(_) => true
    case TradeArrives(_) => true
    case Settles(_) => d.engine == Idle
  }

  function Dropped(ps: seq<Posting>, token: TokenId): Micro {
    Replay(ps, token).books.dropped
  }

  /** The order-level step that action `a` performs, and on which order. */
  function StepOf(d: Desk, a: Action): Option<(OrderId, OrderStep)> {
    match a
    case EngineCancels => if d.engine.Cancelling? then Some((d.engine.orderId, CancelRequest)) else None
    case SubmitReturns(id, ok) => Some((id, if ok then SubmitSuccess else SubmitFailed))
    case ClearsFlag(id) => Some((id, ClearShouldCancel))
    case Recancels(id) => Some((id, CancelRequest))
    case CancelReturns(id, ok) => Some((id, if ok then CancelSuccess else CancelFailed))
    case OrderArrives(e) => Some((e.orderId, Feed(e)))
    case _ => None
  }

  function NextManager(d: Desk, a: Action): State
    requires Enabled(d, a)
  {
    match a
    case CreateReturns(id) =>
      Insert(d.mgr, NewOrder(id, d.market, d.engine.token, d.engine.side, d.engine.role, d.engine.price, d.engine.shares))
    case TradeArrives(e) => HandleTradeEvent(d.mgr, e)
    case Settles(outcome) =>
      var result := SettleMarket(d.mgr, d.market, outcome);
      if result.Settled? then result.state else d.mgr
    case _ =>
      var step := StepOf(d, a);
      if step.Some? then UpdateOrder(d.mgr, step.value.0, step.value.1) else d.mgr
  }

  function NextSubmits(d: Desk, a: Action): map<OrderId, SubmitStage> {
    match a
    case CreateReturns(id) => d.submits[id := InFlight]
    case SubmitReturns(id, ok) =>
      var i := Find(d.mgr.orders, id);
      if ok && i < |d.mgr.orders| && d.mgr.orders[i].shouldCancel
      then d.submits[id := Clearing]
      else d.submits - {id}
    case ClearsFlag(id) => d.submits[id := Recancelling]
    case Recancels(id) => d.submits - {id}
    case _ => d.submits
  }

  /** An accepted cancel request spawns a worker; the worker ends with its answer. */
  function NextCancels(d: Desk, a: Action): multiset<OrderId> {
    var step := StepOf(d, a);
    if a.CancelReturns? then d.cancels - multiset{a.id}
    else if step.Some? && step.value.1 == CancelRequest then
      var i := Find(d.mgr.orders, step.value.0);
      if i < |d.mgr.orders| && CancelAnswerOf(d.mgr.orders[i]) == Started
      then d.cancels + multiset{step.value.0}
      else d.cancels
    else d.cancels
  }

  function NextEngine(d: Desk, a: Action): EngineStage {
    match a
    case Observe(desired, aged) =>
      (match DecideOn(d.mgr, desired, aged)
       case Nothing => Idle
       case Withdraw(id) => Cancelling(id)
       case Place(side, role, price, shares) =>
         var now := BuildPosition(d.mgr, desired.token.id).EffectiveShares();
         Creating(desired.token, side, role, price, shares,
                  if side == Buy then now + shares else now - shares,
                  Dropped(d.postings, desired.token.id)))
    case CreateFails => Idle
    case CreateReturns(_) => Idle
    case EngineCancels => Idle
    case _ => d.engine
  }

  function SettlementPostings(s: State, m: Market, outcome: string): seq<Posting> {
    var yesWins := Lower(outcome) == m.yesToken.Key();
    var yes := Payout(m.yesToken.id, yesWins, SettlingShares(s, m.yesToken.id, Sell));
    var no := Payout(m.noToken.id, !yesWins, SettlingShares(s, m.noToken.id, Sell));
    if yesWins then [yes, no] else [no, yes]
  }

  function NextPostings(d: Desk, a: Action): seq<Posting> {
    match a
    case TradeArrives(e) => if Confirms(d.mgr, e) then d.postings + [PostingFor(d.mgr, e)] else d.postings
    case Settles(outcome) =>
      if SettleMarket(d.mgr, d.market, outcome).Settled?
      then d.postings + SettlementPostings(d.mgr, d.market, outcome)
      else d.postings
    case _ => d.postings
  }

  function Act(d: Desk, a: Action): Desk
    requires Enabled(d, a)
  {
    Desk(d.market, NextManager(d, a), NextSubmits(d, a), NextCancels(d, a), NextEngine(d, a), NextPostings(d, a),
         d.closed || (a.Settles? && SettleMarket(d.mgr, d.market, a.outcome).Settled?))
  }

  /**
   The engine's two blocks: whatever has happened between the decision in `d` and the
   moment of `later`, the action then performs that decision.
   */
  lemma StagePerforms(d: Desk, desired: Desired, aged: bool, later: Desk, id: OrderId)
    requires Enabled(d, Observe(desired, aged))
    requires later.market == d.market && later.engine == NextEngine(d, Observe(desired, aged))
    ensures var decision := DecideOn(d.mgr, desired, aged);
            && (decision.Place? && Enabled(later, CreateReturns(id)) ==>
                  NextManager(later, CreateReturns(id)) == Performed(later.mgr, desired, decision, id))
            && (decision.Withdraw? ==>
                  Enabled(later, EngineCancels)
                  && NextManager(later, EngineCancels) == Performed(later.mgr, desired, decision, id))
            && (decision.Nothing? ==> later.engine == Idle)
  {
    hide DecideOn, BuildPosition;
  }

  /**
   No block is ever refused: feeds are heard in every state, an idle engine takes any wish for
   either token of its market and any settlement, what it waits for may end either way, and
   every worker goes on.
   */
  lemma NothingRefused(d: Desk, id: OrderId, ok: bool, aged: bool, desired: Desired, outcome: string,
                       order: OrderEvent, trade: TradeEvent)
    ensures Enabled(d, OrderArrives(order)) && Enabled(d, TradeArrives(trade))
    ensures d.engine == Idle ==> Enabled(d, Settles(outcome))
    ensures d.engine == Idle && desired.market == d.market && desired.token in {d.market.yesToken, d.market.noToken} ==>
              Enabled(d, Observe(desired, aged))
    ensures d.engine.Creating? ==> Enabled(d, CreateFails) && (!Tracks(d.mgr, id) ==> Enabled(d, CreateReturns(id)))
    ensures d.engine.Cancelling? ==> Enabled(d, EngineCancels)
    ensures id in d.submits ==> match d.submits[id]
              case InFlight => Enabled(d, SubmitReturns(id, ok))
              case Clearing => Enabled(d, ClearsFlag(id))
              case Recancelling => Enabled(d, Recancels(id))
    ensures id in d.cancels ==> Enabled(d, CancelReturns(id, ok))
  {
  }

  /** A run of the machine: states and the actions between them. */
  ghost predicate Trace(ds: seq<Desk>, acts: seq<Action>) {
    && |ds| == |acts| + 1
    && Initial(ds[0])
    && forall i :: 0 <= i < |acts| ==> Enabled(ds[i], acts[i]) && ds[i + 1] == Act(ds[i], acts[i])
  }

  /** A run that has reached `d` goes on with any enabled action. */
  lemma TraceExtends(ds: seq<Desk>, acts: seq<Action>, a: Action, next: Desk)
    requires Trace(ds, acts) && Enabled(ds[|acts|], a) && Act(ds[|acts|], a) == next
    ensures Trace(ds + [next], acts + [a])
  {
  }

  // ------------------------------------------------------- effect on orders

  /** `after` is `before` with more trade ids attached, and nothing else changed. */
  ghost predicate SameButTrades(before: Order, after: Order) {
    after == before.(tradeIds := after.tradeIds)
  }

  /** What action `a` does to the orders: it appends one, steps one, or only attaches trade ids. */
  ghost predicate OrdersFollow(d: Desk, a: Action, after: seq<Order>) {
    var before, step, c := d.mgr.orders, StepOf(d, a), d.engine;
    && (if a.CreateReturns?
        then c.Creating?
             && after == before + [NewOrder(a.id, d.market, c.token, c.side, c.role, c.price, c.shares)]
        else |after| == |before|)
    && (forall i :: 0 <= i < |before| ==>
          if step.Some? && Find(before, step.value.0) == i
          then after[i] == Step(before[i], step.value.1)
          else SameButTrades(before[i], after[i]))
  }

  lemma TradeKeepsOrders(s: State, e: TradeEvent)
    ensures var before, after := s.orders, HandleTradeEvent(s, e).orders;
            |after| == |before| && forall i :: 0 <= i < |before| ==> SameButTrades(before[i], after[i])
  {
  }

  lemma SettlementKeepsOrders(s: State, m: Market, outcome: string)
    ensures var r := SettleMarket(s, m, outcome);
            r.Settled? ==> r.state.orders == s.orders && r.state.trades == s.trades
  {
  }

  lemma OrdersAfter(d: Desk, a: Action)
    requires Enabled(d, a)
    ensures OrdersFollow(d, a, NextManager(d, a).orders)
  {
    match a
    case TradeArrives(e) => TradeKeepsOrders(d.mgr, e);
    case Settles(outcome) => SettlementKeepsOrders(d.mgr, d.market, outcome);
    case _ =>
  }

  /** Only trade events attach trades to orders. */
  lemma TradeIdsKept(d: Desk, a: Action)
    requires Enabled(d, a) && !a.TradeArrives?
    ensures forall i :: 0 <= i < |d.mgr.orders| ==>
              i < |NextManager(d, a).orders| && NextManager(d, a).orders[i].tradeIds == d.mgr.orders[i].tradeIds
  {
    OrdersAfter(d, a);
    if a.Settles? { SettlementKeepsOrders(d.mgr, d.market, a.outcome); }
  }

  // --------------------------------------------------------- cancel protocol

  /** What ties one order to the workers in flight for it. */
  ghost predicate OrderProtocol(submits: map<OrderId, SubmitStage>, cancels: multiset<OrderId>, o: Order) {
    var stage := if o.id in submits then Some(submits[o.id]) else None;
    && cancels[o.id] == (if o.isCancelling then 1 else 0)
    && (o.status == Submitting ==> stage == Some(InFlight))
    && (o.shouldCancel ==> stage == Some(InFlight) || stage == Some(Clearing))
    && (stage == Some(Clearing) ==> o.shouldCancel)
    && (stage == Some(Clearing) || stage == Some(Recancelling) ==> o.status != Submitting)
  }

  ghost predicate Protocol(d: Desk) {
    && UniqueIds(d.mgr.orders)
    && (forall o :: o in d.mgr.orders ==> OrderProtocol(d.submits, d.cancels, o))
    && (forall id :: id in d.submits || id in d.cancels ==> Tracks(d.mgr, id))
  }

  /** What action `a` makes of one order. */
  ghost predicate OrderFollows(d: Desk, a: Action, o: Order, after: Order) {
    var step := StepOf(d, a);
    if step.Some? && step.value.0 == o.id then after == Step(o, step.value.1) else SameButTrades(o, after)
  }

  lemma StepKeepsOrderProtocol(d: Desk, a: Action, o: Order, after: Order)
    requires Enabled(d, a) && Protocol(d) && o in d.mgr.orders && OrderFollows(d, a, o, after)
    ensures after.id == o.id && OrderProtocol(NextSubmits(d, a), NextCancels(d, a), after)
  {
    var i :| 0 <= i < |d.mgr.orders| && d.mgr.orders[i] == o;
    FindUnique(d.mgr.orders, i);
    assert OrderProtocol(d.submits, d.cancels, o);
    match a
    case SubmitReturns(_, _) => SubmitAnswerKeepsProtocol(d, a, o, after);
    case ClearsFlag(_) => SubmitAnswerKeepsProtocol(d, a, o, after);
    case Recancels(_) => CancelRequestKeepsProtocol(d, a, o, after);
    case EngineCancels => CancelRequestKeepsProtocol(d, a, o, after);
    case CancelReturns(_, _) => CancelAnswerKeepsProtocol(d, a, o, after);
    case OrderArrives(_) => FeedKeepsProtocol(d, a, o, after);
    case _ => QuietStepKeepsProtocol(d, a, o, after);
  }

  lemma FeedKeepsProtocol(d: Desk, a: Action, o: Order, after: Order)
    requires OrderProtocol(d.submits, d.cancels, o) && a.OrderArrives? && OrderFollows(d, a, o, after)
    ensures after.id == o.id && OrderProtocol(NextSubmits(d, a), NextCancels(d, a), after)
  {
  }

  lemma QuietStepKeepsProtocol(d: Desk, a: Action, o: Order, after: Order)
    requires Enabled(d, a) && OrderProtocol(d.submits, d.cancels, o) && OrderFollows(d, a, o, after)
    requires StepOf(d, a) == None
    ensures after.id == o.id && OrderProtocol(NextSubmits(d, a), NextCancels(d, a), after)
  {
  }

  lemma SubmitAnswerKeepsProtocol(d: Desk, a: Action, o: Order, after: Order)
    requires Enabled(d, a) && OrderProtocol(d.submits, d.cancels, o) && OrderFollows(d, a, o, after)
    requires a.SubmitReturns? || a.ClearsFlag?
    requires Find(d.mgr.orders, o.id) < |d.mgr.orders| && d.mgr.orders[Find(d.mgr.orders, o.id)] == o
    ensures after.id == o.id && OrderProtocol(NextSubmits(d, a), NextCancels(d, a), after)
  {
  }

  lemma CancelRequestKeepsProtocol(d: Desk, a: Action, o: Order, after: Order)
    requires Enabled(d, a) && OrderProtocol(d.submits, d.cancels, o) && OrderFollows(d, a, o, after)
    requires a.Recancels? || a.EngineCancels?
    requires Find(d.mgr.orders, o.id) < |d.mgr.orders| && d.mgr.orders[Find(d.mgr.orders, o.id)] == o
    ensures after.id == o.id && OrderProtocol(NextSubmits(d, a), NextCancels(d, a), after)
  {
  }

  lemma CancelAnswerKeepsProtocol(d: Desk, a: Action, o: Order, after: Order)
    requires Enabled(d, a) && OrderProtocol(d.submits, d.cancels, o) && OrderFollows(d, a, o, after)
    requires a.CancelReturns?
    ensures after.id == o.id && OrderProtocol(NextSubmits(d, a), NextCancels(d, a), after)
  {
  }

  lemma StepKeepsProtocol(d: Desk, a: Action)
    requires Enabled(d, a) && Protocol(d)
    ensures Protocol(Act(d, a))
  {
    OrdersAfter(d, a);
    ProtocolFollows(d, a, NextManager(d, a), NextSubmits(d, a), NextCancels(d, a));
  }

  lemma ProtocolFollows(d: Desk, a: Action, mgr: State, submits: map<OrderId, SubmitStage>, cancels: multiset<OrderId>)
    requires Enabled(d, a) && Protocol(d) && OrdersFollow(d, a, mgr.orders)
    requires submits == NextSubmits(d, a) && cancels == NextCancels(d, a)
    ensures UniqueIds(mgr.orders)
    ensures forall o :: o in mgr.orders ==> OrderProtocol(submits, cancels, o)
    ensures forall id :: id in submits || id in cancels ==> Tracks(mgr, id)
  {
    var before, after := d.mgr.orders, mgr.orders;
    forall i | 0 <= i < |before|
      ensures after[i].id == before[i].id && OrderProtocol(submits, cancels, after[i])
    {
      OneOrderFollows(d, a, after, i);
      StepKeepsOrderProtocol(d, a, before[i], after[i]);
    }
    NewOrderProtocol(d, a, after);
    forall id | id in submits || id in cancels
      ensures Tracks(mgr, id)
    {
      WorkersTracked(d, a, id);
      if Tracks(d.mgr, id) {
        assert after[Find(before, id)].id == id;
      } else {
        assert after[|before|].id == id;
      }
    }
  }

  lemma OneOrderFollows(d: Desk, a: Action, after: seq<Order>, i: nat)
    requires Enabled(d, a) && Protocol(d) && OrdersFollow(d, a, after) && i < |d.mgr.orders|
    ensures OrderFollows(d, a, d.mgr.orders[i], after[i])
  {
    FindUnique(d.mgr.orders, i);
  }

  lemma NewOrderProtocol(d: Desk, a: Action, after: seq<Order>)
    requires Enabled(d, a) && Protocol(d) && OrdersFollow(d, a, after)
    ensures |d.mgr.orders| < |after| ==> a.CreateReturns? && |after| == |d.mgr.orders| + 1
    ensures a.CreateReturns? ==>
              OrderProtocol(NextSubmits(d, a), NextCancels(d, a), after[|d.mgr.orders|])
    ensures a.CreateReturns? ==> forall o :: o in d.mgr.orders ==> o.id != after[|d.mgr.orders|].id
  {
  }

  lemma WorkersTracked(d: Desk, a: Action, id: OrderId)
    requires Enabled(d, a) && Protocol(d)
    requires id in NextSubmits(d, a) || id in NextCancels(d, a)
    ensures Tracks(d.mgr, id) || (a.CreateReturns? && a.id == id)
  {
  }

  /**
   In every interleaving an order is cancelling exactly when one cancel worker
   is in flight for it, and a deferred cancel means its submit worker has not finished.
   */
  lemma {:induction false} CancelProtocol(ds: seq<Desk>, acts: seq<Action>, k: nat)
    requires Trace(ds, acts) && k < |ds|
    ensures Protocol(ds[k])
  {
    if k > 0 {
      CancelProtocol(ds, acts, k - 1);
      StepKeepsProtocol(ds[k - 1], acts[k - 1]);
    }
  }

  /** The worker of an order has one answer to wait for, and the order is tracked. */
  lemma WorkerHasOrder(d: Desk, id: OrderId)
    requires Protocol(d) && (id in d.cancels || id in d.submits)
    ensures var i := Find(d.mgr.orders, id);
            i < |d.mgr.orders| && (id in d.cancels ==> d.cancels[id] == 1)
  {
    assert Tracks(d.mgr, id);
    assert OrderProtocol(d.submits, d.cancels, d.mgr.orders[Find(d.mgr.orders, id)]);
  }

  /** A successful cancel ends the order and its worker, a refused one only the worker. */
  lemma CancelAnswerTakesEffect(d: Desk, id: OrderId, ok: bool)
    requires Protocol(d) && Enabled(d, CancelReturns(id, ok))
    ensures var i, after := Find(d.mgr.orders, id), NextManager(d, CancelReturns(id, ok)).orders;
            && d.cancels[id] == 1 && NextCancels(d, CancelReturns(id, ok)) == d.cancels - multiset{id}
            && i < |d.mgr.orders| == |after|
            && var o, p := d.mgr.orders[i], after[i];
               if ok then !p.IsActive() && p.pending == 0 && p.matched == o.matched && !p.isCancelling
               else p == o.(isCancelling := false)
  {
    hide Protocol, Step;
    WorkerHasOrder(d, id);
    WorkerAnswers(d.mgr.orders[Find(d.mgr.orders, id)]);
  }

  /**
   A rejected submission ends the order and its worker; an accepted one makes the order live, and
   keeps the worker if and only if a cancel was deferred.
   */
  lemma SubmitAnswerTakesEffect(d: Desk, id: OrderId, ok: bool)
    requires Protocol(d) && Enabled(d, SubmitReturns(id, ok))
    ensures var i, after := Find(d.mgr.orders, id), NextManager(d, SubmitReturns(id, ok)).orders;
            && i < |d.mgr.orders| == |after|
            && var o, p := d.mgr.orders[i], after[i];
               && (id in NextSubmits(d, SubmitReturns(id, ok)) <==> ok && o.shouldCancel)
               && if ok then p == o.(status := ZeroMatched) else !p.IsActive() && p.pending == 0 && p.matched == o.matched
  {
    hide Protocol, Step;
    WorkerHasOrder(d, id);
    WorkerAnswers(d.mgr.orders[Find(d.mgr.orders, id)]);
  }

  /** A cancel request is waiting with the submit worker of this order. */
  ghost predicate CancelDeferred(d: Desk, o: Order) {
    o.shouldCancel || At(d, o.id, Recancelling)
  }

  /** When the submit worker finishes, a deferred cancel has been honoured. */
  lemma DeferredCancelNotLost(d: Desk, a: Action, i: nat)
    requires Protocol(d) && Enabled(d, a) && i < |d.mgr.orders|
    requires CancelDeferred(d, d.mgr.orders[i])
    requires d.mgr.orders[i].id !in Act(d, a).submits
    ensures |Act(d, a).mgr.orders| >= |d.mgr.orders|
    ensures var o := Act(d, a).mgr.orders[i];
            o.id == d.mgr.orders[i].id && (!o.IsActive() || (o.isCancelling && Act(d, a).cancels[o.id] == 1))
  {
    OrdersAfter(d, a);
    StepKeepsProtocol(d, a);
    assert Act(d, a).mgr.orders[i] in Act(d, a).mgr.orders;
    LastStepHonours(d, a, i, NextManager(d, a).orders);
  }

  lemma HasProtocol(d: Desk, i: nat)
    requires Protocol(d) && i < |d.mgr.orders|
    ensures OrderProtocol(d.submits, d.cancels, d.mgr.orders[i]) && UniqueIds(d.mgr.orders)
  {
    assert d.mgr.orders[i] in d.mgr.orders;
  }

  lemma LastStepHonours(d: Desk, a: Action, i: nat, after: seq<Order>)
    requires Protocol(d) && Enabled(d, a) && i < |d.mgr.orders|
    requires CancelDeferred(d, d.mgr.orders[i])
    requires d.mgr.orders[i].id !in NextSubmits(d, a)
    requires OrdersFollow(d, a, after)
    ensures after[i].id == d.mgr.orders[i].id && (!after[i].IsActive() || after[i].isCancelling)
  {
    hide Protocol;
    var o := d.mgr.orders[i];
    HasProtocol(d, i);
    FindUnique(d.mgr.orders, i);
    assert o.id in d.submits;
  }

  /** A request that came while the order was being submitted is deferred. */
  lemma RequestDeferred(d: Desk, a: Action, i: nat)
    requires Protocol(d) && Enabled(d, a) && i < |d.mgr.orders|
    requires StepOf(d, a) == Some((d.mgr.orders[i].id, CancelRequest)) && CancelAnswerOf(d.mgr.orders[i]) == Deferred
    ensures Waiting(Act(d, a), d.mgr.orders[i].id, i)
  {
    hide NextCancels, NextEngine, NextPostings;
    HasProtocol(d, i);
    FindUnique(d.mgr.orders, i);
  }

  /** The cancel of the order at `i`, of this id, waits with its submit worker. */
  ghost predicate Waiting(d: Desk, id: OrderId, i: nat) {
    i < |d.mgr.orders| && d.mgr.orders[i].id == id && CancelDeferred(d, d.mgr.orders[i]) && id in d.submits
  }

  /** The order at `i` is inactive, or exactly one cancel worker is in flight for it. */
  ghost predicate Honoured(d: Desk, id: OrderId, i: nat) {
    && i < |d.mgr.orders| && d.mgr.orders[i].id == id
    && (!d.mgr.orders[i].IsActive() || (d.mgr.orders[i].isCancelling && d.cancels[id] == 1))
  }

  /** A deferred cancel stays deferred as long as the submit worker has not finished. */
  lemma DeferralPersists(d: Desk, a: Action, id: OrderId, i: nat, after: seq<Order>)
    requires Protocol(d) && Enabled(d, a) && Waiting(d, id, i) && OrdersFollow(d, a, after)
    requires id in NextSubmits(d, a)
    ensures after[i].id == id
    ensures after[i].shouldCancel || NextSubmits(d, a)[id] == Recancelling
  {
    hide Protocol, Step;
    HasProtocol(d, i);
    FindUnique(d.mgr.orders, i);
    var step := StepOf(d, a);
    if step.Some? && step.value.0 == id { FlagKept(d.mgr.orders[i], step.value.1); }
  }

  /** Only a rejection and the submit worker itself clear the flag. */
  lemma FlagKept(o: Order, st: OrderStep)
    ensures Step(o, st).id == o.id
    ensures o.shouldCancel && st != SubmitFailed && st != ClearShouldCancel ==> Step(o, st).shouldCancel
  {
  }

  lemma WaitingOrHonoured(d: Desk, a: Action, id: OrderId, i: nat)
    requires Protocol(d) && Enabled(d, a) && Waiting(d, id, i)
    ensures if id in NextSubmits(d, a) then Waiting(Act(d, a), id, i) else Honoured(Act(d, a), id, i)
  {
    if id in NextSubmits(d, a) {
      OrdersAfter(d, a);
      DeferralPersists(d, a, id, i, NextManager(d, a).orders);
    } else {
      DeferredCancelNotLost(d, a, i);
    }
  }

  /**
   Over runs: from the action that defers a cancel request on, the request waits with the
   submit worker, and in the first state in which the worker is gone it has been honoured.
   */
  lemma {:induction false} DeferredCancelHonoured(ds: seq<Desk>, acts: seq<Action>, j: nat, k: nat, i: nat)
    requires Trace(ds, acts) && j < k < |ds| && i < |ds[j].mgr.orders|
    requires var o := ds[j].mgr.orders[i];
             StepOf(ds[j], acts[j]) == Some((o.id, CancelRequest)) && CancelAnswerOf(o) == Deferred
    requires forall n :: j < n < k ==> ds[j].mgr.orders[i].id in ds[n].submits
    ensures var id := ds[j].mgr.orders[i].id;
            if id in ds[k].submits then Waiting(ds[k], id, i) else Honoured(ds[k], id, i)
    decreases k
  {
    hide Protocol, Waiting, Honoured;
    CancelProtocol(ds, acts, k - 1);
    if k == j + 1 {
      RequestDeferred(ds[j], acts[j], i);
      WaitingMeans(ds[k], ds[j].mgr.orders[i].id, i);
    } else {
      DeferredCancelHonoured(ds, acts, j, k - 1, i);
      WaitingOrHonoured(ds[k - 1], acts[k - 1], ds[j].mgr.orders[i].id, i);
    }
  }

  lemma WaitingMeans(d: Desk, id: OrderId, i: nat)
    requires Waiting(d, id, i)
    ensures id in d.submits
  {
  }

  // ------------------------------------------------------ pending / matched law

  /** No order has negative pending shares, nor the one being created. */
  ghost predicate NoneNegative(d: Desk) {
    (forall o :: o in d.mgr.orders ==> o.pending >= 0) && (d.engine.Creating? ==> d.engine.shares >= 0)
  }

  /** No step of an order gives it pending shares or takes matched ones, whatever the feeds say. */
  lemma OrderAdvances(o: Order, st: OrderStep)
    requires o.pending >= 0
    ensures Step(o, st).pending >= 0 && Advances(o, Step(o, st))
  {
  }

  lemma StepAdvances(d: Desk, a: Action)
    requires Enabled(d, a) && NoneNegative(d)
    ensures NoneNegative(Act(d, a))
    ensures |Act(d, a).mgr.orders| >= |d.mgr.orders|
    ensures forall i :: 0 <= i < |d.mgr.orders| ==> Advances(d.mgr.orders[i], Act(d, a).mgr.orders[i])
  {
    hide DecideOn, NextManager, Step;
    OrdersAfter(d, a);
    AdvancesFollow(d, a, NextManager(d, a).orders);
    if a.Observe? && DecideOn(d.mgr, a.desired, a.aged).Place? {
      PlacesTowardsTarget(d.mgr, a.desired, a.aged);
    }
  }

  lemma AdvancesFollow(d: Desk, a: Action, after: seq<Order>)
    requires Enabled(d, a) && NoneNegative(d) && OrdersFollow(d, a, after)
    ensures |after| >= |d.mgr.orders| && forall o :: o in after ==> o.pending >= 0
    ensures forall i :: 0 <= i < |d.mgr.orders| ==> Advances(d.mgr.orders[i], after[i])
  {
    var before := d.mgr.orders;
    forall i | 0 <= i < |before|
      ensures after[i].pending >= 0 && Advances(before[i], after[i])
    {
      assert before[i].pending >= 0;
      var step := StepOf(d, a);
      if step.Some? && Find(before, step.value.0) == i {
        OrderAdvances(before[i], step.value.1);
      }
    }
  }

  lemma {:induction false} NoneNegativeReached(ds: seq<Desk>, acts: seq<Action>, k: nat)
    requires Trace(ds, acts) && k < |ds|
    ensures NoneNegative(ds[k])
  {
    hide NoneNegative;
    if k > 0 {
      NoneNegativeReached(ds, acts, k - 1);
      StepAdvances(ds[k - 1], acts[k - 1]);
    } else {
      InitialNoneNegative(ds[0]);
    }
  }

  lemma InitialNoneNegative(d: Desk)
    requires Initial(d)
    ensures NoneNegative(d) && AllPendingLaw(d)
  {
  }

  /**
   In every interleaving of submit results, cancel results and feed events, and with
   nothing assumed about any of them: pending never grows and matched never shrinks.
   */
  lemma {:induction false} OrdersOnlyAdvance(ds: seq<Desk>, acts: seq<Action>, j: nat, k: nat, i: nat)
    requires Trace(ds, acts) && j <= k < |ds| && i < |ds[j].mgr.orders|
    ensures i < |ds[k].mgr.orders| && Advances(ds[j].mgr.orders[i], ds[k].mgr.orders[i])
    decreases k
  {
    hide Advances, Trace;
    if k == j {
      AdvancesSelf(ds[j].mgr.orders[i]);
    } else {
      TraceLength(ds, acts);
      OrdersOnlyAdvance(ds, acts, j, k - 1, i);
      NextAdvances(ds, acts, k - 1, i);
      AdvancesOn(ds[j].mgr.orders[i], ds[k - 1].mgr.orders[i], ds[k].mgr.orders[i]);
    }
  }

  lemma NextAdvances(ds: seq<Desk>, acts: seq<Action>, k: nat, i: nat)
    requires Trace(ds, acts) && k < |acts| && i < |ds[k].mgr.orders|
    ensures i < |ds[k + 1].mgr.orders| && Advances(ds[k].mgr.orders[i], ds[k + 1].mgr.orders[i])
  {
    NoneNegativeReached(ds, acts, k);
    StepAdvances(ds[k], acts[k]);
  }

  lemma TraceLength(ds: seq<Desk>, acts: seq<Action>)
    requires Trace(ds, acts)
    ensures |ds| == |acts| + 1
  {
  }

  lemma AdvancesSelf(o: Order)
    ensures Advances(o, o)
  {
  }

  lemma AdvancesOn(o: Order, p: Order, q: Order)
    requires Advances(o, p) && Advances(p, q)
    ensures Advances(o, q)
  {
  }

  ghost predicate AllPendingLaw(d: Desk) {
    forall o :: o in d.mgr.orders ==> PendingLaw(o)
  }

  /** An order event fits what is pending of the order it addresses. */
  ghost predicate FittingAction(d: Desk, a: Action) {
    a.OrderArrives? && Tracks(d.mgr, a.order.orderId) ==>
      var o := d.mgr.orders[Find(d.mgr.orders, a.order.orderId)];
      Addresses(o, a.order) ==> FitsPending(o, a.order)
  }

  lemma StepKeepsPendingLawIff(d: Desk, a: Action)
    requires Enabled(d, a) && AllPendingLaw(d) && NoneNegative(d)
    ensures AllPendingLaw(Act(d, a)) <==> FittingAction(d, a)
  {
    OrdersAfter(d, a);
    PendingLawFollows(d, a, NextManager(d, a).orders);
  }

  lemma PendingLawFollows(d: Desk, a: Action, after: seq<Order>)
    requires Enabled(d, a) && AllPendingLaw(d) && NoneNegative(d) && OrdersFollow(d, a, after)
    ensures (forall o :: o in after ==> PendingLaw(o)) <==> FittingAction(d, a)
  {
    hide PendingLaw, Step, FitsPending;
    var before, step := d.mgr.orders, StepOf(d, a);
    forall i | 0 <= i < |before|
      ensures PendingLaw(after[i]) <==> !(step.Some? && Find(before, step.value.0) == i) || FittingAction(d, a)
    {
      assert before[i] in before;
      if step.Some? && Find(before, step.value.0) == i {
        StepKeepsPendingLaw(before[i], step.value.1);
      } else {
        TradeIdsKeepPendingLaw(before[i], after[i]);
      }
    }
    if a.CreateReturns? { NewOrderPendingLaw(d, a); }
    if a.OrderArrives? && Tracks(d.mgr, a.order.orderId) {
      assert after[Find(before, a.order.orderId)] in after;
    }
  }

  lemma TradeIdsKeepPendingLaw(o: Order, p: Order)
    requires SameButTrades(o, p)
    ensures PendingLaw(p) <==> PendingLaw(o)
  {
  }

  lemma NewOrderPendingLaw(d: Desk, a: Action)
    requires a.CreateReturns? && d.engine.Creating? && d.engine.shares >= 0
    ensures var c := d.engine; PendingLaw(NewOrder(a.id, d.market, c.token, c.side, c.role, c.price, c.shares))
  {
  }

  lemma {:induction false} PendingLawReached(ds: seq<Desk>, acts: seq<Action>, k: nat)
    requires Trace(ds, acts) && k < |ds|
    requires forall n :: 0 <= n < k ==> FittingAction(ds[n], acts[n])
    ensures AllPendingLaw(ds[k])
  {
    hide AllPendingLaw, FittingAction, NoneNegative;
    if k > 0 {
      PendingLawReached(ds, acts, k - 1);
      NoneNegativeReached(ds, acts, k - 1);
      StepKeepsPendingLawIff(ds[k - 1], acts[k - 1]);
    } else {
      InitialNoneNegative(ds[0]);
    }
  }

  /**
   Over runs, with nothing assumed: in every state pending is 0 or exactly what is unmatched,
   for every order, if and only if every order event fits.
   */
  lemma PendingMatchedLaw(ds: seq<Desk>, acts: seq<Action>)
    requires Trace(ds, acts)
    ensures (forall k :: 0 <= k < |ds| ==> AllPendingLaw(ds[k]))
       <==> (forall n :: 0 <= n < |acts| ==> FittingAction(ds[n], acts[n]))
  {
    hide AllPendingLaw, FittingAction, NoneNegative;
    if forall k :: 0 <= k < |ds| ==> AllPendingLaw(ds[k]) {
      forall n | 0 <= n < |acts|
        ensures FittingAction(ds[n], acts[n])
      {
        NoneNegativeReached(ds, acts, n);
        StepKeepsPendingLawIff(ds[n], acts[n]);
        assert AllPendingLaw(ds[n]) && AllPendingLaw(ds[n + 1]);
      }
    }
    if forall n :: 0 <= n < |acts| ==> FittingAction(ds[n], acts[n]) {
      forall k | 0 <= k < |ds|
        ensures AllPendingLaw(ds[k])
      {
        PendingLawReached(ds, acts, k);
      }
    }
  }

  /** The feed reports the size each order was created with. */
  ghost predicate SizedAction(d: Desk, a: Action) {
    a.OrderArrives? ==> forall o :: o in d.mgr.orders && o.id == a.order.orderId ==> Sized(o, Feed(a.order))
  }

  /** Events of the right size fit. */
  lemma SizedFits(d: Desk, a: Action)
    requires AllPendingLaw(d) && SizedAction(d, a)
    ensures FittingAction(d, a)
  {
    if a.OrderArrives? && Tracks(d.mgr, a.order.orderId) {
      var o := d.mgr.orders[Find(d.mgr.orders, a.order.orderId)];
      assert o in d.mgr.orders;
      if Addresses(o, a.order) { SizedEventFits(o, a.order); }
    }
  }
}
