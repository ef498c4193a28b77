/**
 At most one active order per token.

 The engine places an order only when it saw no active one and stores it before
 releasing its lock. Whether that is enough depends on the order in which the
 submit result and the feed reach the manager: assumption `InOrder`.
 */
module OneActive {
  import opened Desk
  import opened Domain
  import opened Engine
  import opened Manager
  import opened Orders
  import opened Rounding
  import opened Seqs

  /**
   The submit result of an order is handled before the events of its feed, and
   a rejected order has no feed.
   */
  ghost predicate InOrder(d: Desk, a: Action) {
    && (a.SubmitReturns? ==> forall o :: o in d.mgr.orders && o.id == a.id ==> o.status == Submitting)
    && (a.OrderArrives? ==> forall o :: o in d.mgr.orders && o.id == a.order.orderId ==>
          o.status != Submitting && o.status != SubFailed)
  }

  /** No order of the token is active, and none is about to be stored. */
  ghost predicate FreeOf(d: Desk, orders: seq<Order>, except: int, token: TokenId) {
    && (forall j :: 0 <= j < |orders| && j != except && orders[j].IsActive() ==> orders[j].token.id != token)
    && !(d.engine.Creating? && d.engine.token.id == token)
  }

  ghost predicate OnePerToken(orders: seq<Order>, engine: EngineStage) {
    && (forall i, j :: 0 <= i < j < |orders| && orders[i].IsActive() && orders[j].IsActive() ==>
          orders[i].token.id != orders[j].token.id)
    && (engine.Creating? ==> forall o :: o in orders && o.IsActive() ==> o.token.id != engine.token.id)
  }

  /** What holds whatever the order of answers and events. */
  ghost predicate Lawful(d: Desk) {
    UniqueIds(d.mgr.orders) && forall o :: o in d.mgr.orders ==> StatusLaw(o)
  }

  ghost predicate Sound(d: Desk) {
    Lawful(d) && OnePerToken(d.mgr.orders, d.engine)
  }

  /** Under the assumption no step revives a finished order. */
  lemma StepRevivesNothing(o: Order, st: OrderStep)
    requires StatusLaw(o)
    requires st == SubmitSuccess ==> o.status == Submitting
    requires st.Feed? ==> o.status != SubFailed
    ensures StatusLaw(Step(o, st))
    ensures Step(o, st).IsActive() ==> o.IsActive()
    ensures Step(o, st).id == o.id && Step(o, st).token == o.token
  {
    if st.Feed? && Addresses(o, st.event) {
      EventKeepsStatusLaw(o, st.event);
      if !o.IsActive() { EventRevives(o, st.event); }
    }
  }

  lemma OneOrderStays(d: Desk, a: Action, after: seq<Order>, i: nat)
    requires Enabled(d, a) && Sound(d) && InOrder(d, a)
    requires OrdersFollow(d, a, after) && i < |d.mgr.orders|
    ensures StatusLaw(after[i])
    ensures after[i].IsActive() ==> d.mgr.orders[i].IsActive()
    ensures after[i].id == d.mgr.orders[i].id && after[i].token == d.mgr.orders[i].token
  {
    var o := d.mgr.orders[i];
    assert o in d.mgr.orders && StatusLaw(o);
    var step := StepOf(d, a);
    if step.Some? && Find(d.mgr.orders, step.value.0) == i {
      StepRevivesNothing(o, step.value.1);
    }
  }

  lemma StepKeepsSound(d: Desk, a: Action)
    requires Enabled(d, a) && Sound(d) && InOrder(d, a)
    ensures Sound(Act(d, a))
  {
    OrdersAfter(d, a);
    SoundFollows(d, a, NextManager(d, a).orders);
    EngineFollows(d, a);
  }

  lemma SoundFollows(d: Desk, a: Action, after: seq<Order>)
    requires Enabled(d, a) && Sound(d) && InOrder(d, a)
    requires OrdersFollow(d, a, after)
    ensures UniqueIds(after) && (forall o :: o in after ==> StatusLaw(o))
    ensures OnePerToken(after, if a.CreateReturns? then Idle else d.engine)
  {
    forall i | 0 <= i < |d.mgr.orders|
      ensures StatusLaw(after[i])
      ensures after[i].IsActive() ==> d.mgr.orders[i].IsActive()
      ensures after[i].id == d.mgr.orders[i].id && after[i].token == d.mgr.orders[i].token
    {
      OneOrderStays(d, a, after, i);
    }
    if d.engine.Creating? && !a.CreateReturns? {
      forall i | 0 <= i < |after| && after[i].IsActive()
        ensures after[i].token.id != d.engine.token.id
      {
        assert d.mgr.orders[i] in d.mgr.orders;
      }
    }
  }

  /** The engine starts to create an order only when the token has no active one. */
  lemma EngineFollows(d: Desk, a: Action)
    requires Enabled(d, a)
    ensures NextEngine(d, a).Creating? && NextEngine(d, a) != d.engine ==>
              a.Observe? && NextManager(d, a) == d.mgr
              && forall o :: o in d.mgr.orders && o.IsActive() ==> o.token.id != NextEngine(d, a).token.id
    ensures a.CreateReturns? ==> NextEngine(d, a) == Idle
  {
    if a.Observe? && DecideOn(d.mgr, a.desired, a.aged).Place? {
      PlacesTowardsTarget(d.mgr, a.desired, a.aged);
    }
  }

  /** In every run that respects the assumption, a token never has two active orders. */
  lemma {:induction false} AtMostOneActive(ds: seq<Desk>, acts: seq<Action>, k: nat)
    requires Trace(ds, acts) && k < |ds|
    requires forall n :: 0 <= n < |acts| ==> InOrder(ds[n], acts[n])
    ensures Sound(ds[k])
  {
    if k > 0 {
      AtMostOneActive(ds, acts, k - 1);
      StepKeepsSound(ds[k - 1], acts[k - 1]);
    }
  }

  /** Whatever is finished in `before` is finished in `after`. */
  ghost predicate StayFinished(before: seq<Order>, after: seq<Order>) {
    |after| >= |before| && forall i :: 0 <= i < |before| && after[i].IsActive() ==> before[i].IsActive()
  }

  predicate RevivesRejected(o: Order, e: OrderEvent) {
    Addresses(o, e) && o.status == SubFailed && e.IsActive() && o.matched == 0 && e.matchedShares <= 0
  }

  /** A late submit success, or an active event on a rejected order: what makes a finished order active. */
  ghost predicate Revives(d: Desk, a: Action) {
    || (a.SubmitReturns? && a.ok && Tracks(d.mgr, a.id) && !d.mgr.orders[Find(d.mgr.orders, a.id)].IsActive())
    || (a.OrderArrives? && Tracks(d.mgr, a.order.orderId)
        && RevivesRejected(d.mgr.orders[Find(d.mgr.orders, a.order.orderId)], a.order))
  }

  lemma OrderRevivesIff(o: Order, st: OrderStep)
    requires StatusLaw(o) && !o.IsActive()
    ensures Step(o, st).IsActive() <==> st == SubmitSuccess || (st.Feed? && RevivesRejected(o, st.event))
  {
    if st.Feed? { EventRevives(o, st.event); }
  }

  /** A step makes no finished order active if and only if it is neither of the two. */
  lemma StepRevivesIff(d: Desk, a: Action)
    requires Enabled(d, a) && Lawful(d)
    ensures StayFinished(d.mgr.orders, NextManager(d, a).orders) <==> !Revives(d, a)
  {
    OrdersAfter(d, a);
    RevivesFollows(d, a, NextManager(d, a).orders);
  }

  lemma RevivesFollows(d: Desk, a: Action, after: seq<Order>)
    requires Lawful(d) && OrdersFollow(d, a, after)
    ensures StayFinished(d.mgr.orders, after) <==> !Revives(d, a)
  {
    hide Step, StatusLaw;
    var before, step := d.mgr.orders, StepOf(d, a);
    forall i | 0 <= i < |before| && !before[i].IsActive()
      ensures after[i].IsActive() <==>
                step.Some? && Find(before, step.value.0) == i
                && (step.value.1 == SubmitSuccess || (step.value.1.Feed? && RevivesRejected(before[i], step.value.1.event)))
    {
      assert before[i] in before;
      if step.Some? && Find(before, step.value.0) == i { OrderRevivesIff(before[i], step.value.1); }
    }
  }

  lemma StayFinishedOn(xs: seq<Order>, ys: seq<Order>, zs: seq<Order>)
    requires StayFinished(xs, ys) && StayFinished(ys, zs)
    ensures StayFinished(xs, zs)
  {
  }

  lemma {:induction false} StaysFinished(ds: seq<Desk>, acts: seq<Action>, j: nat, k: nat)
    requires Trace(ds, acts) && j <= k < |ds|
    requires forall n :: 0 <= n < |acts| ==> !Revives(ds[n], acts[n])
    ensures StayFinished(ds[j].mgr.orders, ds[k].mgr.orders)
    decreases k
  {
    hide Revives;
    if j < k {
      StaysFinished(ds, acts, j, k - 1);
      LawfulReached(ds, acts, k - 1);
      StepRevivesIff(ds[k - 1], acts[k - 1]);
      StayFinishedOn(ds[j].mgr.orders, ds[k - 1].mgr.orders, ds[k].mgr.orders);
    }
  }

  /**
   Over runs, with nothing assumed: a full match, a cancel and a rejection are final, between
   any two states, if and only if no step revives a finished order.
   */
  lemma FinalIff(ds: seq<Desk>, acts: seq<Action>)
    requires Trace(ds, acts)
    ensures (forall j, k :: 0 <= j <= k < |ds| ==> StayFinished(ds[j].mgr.orders, ds[k].mgr.orders))
       <==> (forall n :: 0 <= n < |acts| ==> !Revives(ds[n], acts[n]))
  {
    hide Revives, StayFinished;
    if forall j, k :: 0 <= j <= k < |ds| ==> StayFinished(ds[j].mgr.orders, ds[k].mgr.orders) {
      forall n | 0 <= n < |acts|
        ensures !Revives(ds[n], acts[n])
      {
        LawfulReached(ds, acts, n);
        StepRevivesIff(ds[n], acts[n]);
        assert StayFinished(ds[n].mgr.orders, ds[n + 1].mgr.orders);
      }
    }
    if forall n :: 0 <= n < |acts| ==> !Revives(ds[n], acts[n]) {
      forall j, k | 0 <= j <= k < |ds|
        ensures StayFinished(ds[j].mgr.orders, ds[k].mgr.orders)
      {
        StaysFinished(ds, acts, j, k);
      }
    }
  }

  /** So they are final in every run that respects the assumption. */
  lemma FinishedStaysFinished(ds: seq<Desk>, acts: seq<Action>, j: nat, k: nat)
    requires Trace(ds, acts) && j <= k < |ds|
    requires forall n :: 0 <= n < |acts| ==> InOrder(ds[n], acts[n])
    ensures StayFinished(ds[j].mgr.orders, ds[k].mgr.orders)
  {
    forall n | 0 <= n < |acts|
      ensures !Revives(ds[n], acts[n])
    {
    }
    FinalIff(ds, acts);
  }

  /**
   Without the assumption: a late submit success keeps the property if and only if
   its order is still active, or nothing else of its token is active or being created.
   */
  lemma LateSubmitSuccess(d: Desk, i: nat)
    requires Sound(d) && i < |d.mgr.orders| && At(d, d.mgr.orders[i].id, InFlight)
    ensures var o := d.mgr.orders[i];
            OnePerToken(Act(d, SubmitReturns(o.id, true)).mgr.orders, d.engine) <==>
            o.IsActive() || FreeOf(d, d.mgr.orders, i, o.token.id)
  {
    var o := d.mgr.orders[i];
    FindUnique(d.mgr.orders, i);
    var before := d.mgr.orders;
    var after := before[i := OnSubmitSuccess(o)];
    assert Act(d, SubmitReturns(o.id, true)).mgr.orders == after;
    OneChanged(d, i, OnSubmitSuccess(o), after);
  }

  /**
   The other half: an order event keeps one order per token if and only if it does not revive
   a rejected order, or nothing else of that token is active or being created.
   */
  lemma EventAfterRejection(d: Desk, i: nat, e: OrderEvent)
    requires Sound(d) && i < |d.mgr.orders| && e.orderId == d.mgr.orders[i].id
    ensures var o := d.mgr.orders[i];
            OnePerToken(Act(d, OrderArrives(e)).mgr.orders, d.engine) <==>
            !RevivesRejected(o, e) || FreeOf(d, d.mgr.orders, i, o.token.id)
  {
    var o := d.mgr.orders[i];
    FindUnique(d.mgr.orders, i);
    assert o in d.mgr.orders;
    var after := Step(o, Feed(e));
    if Addresses(o, e) {
      EventKeepsStatusLaw(o, e);
      if !o.IsActive() { EventRevives(o, e); }
    }
    assert Act(d, OrderArrives(e)).mgr.orders == d.mgr.orders[i := after];
    OneChanged(d, i, after, d.mgr.orders[i := after]);
  }

  /** Changing one order keeps one per token if and only if it activates nothing, or its token is otherwise free. */
  lemma OneChanged(d: Desk, i: nat, p: Order, after: seq<Order>)
    requires Sound(d) && i < |d.mgr.orders| && after == d.mgr.orders[i := p] && p.token == d.mgr.orders[i].token
    ensures OnePerToken(after, d.engine) <==>
            !p.IsActive() || d.mgr.orders[i].IsActive() || FreeOf(d, d.mgr.orders, i, p.token.id)
  {
    var before := d.mgr.orders;
    assert forall j :: 0 <= j < |after| && j != i ==> after[j] == before[j];
    if OnePerToken(after, d.engine) && p.IsActive() {
      forall j | 0 <= j < |before| && j != i && before[j].IsActive()
        ensures before[j].token.id != p.token.id
      {
        assert after[j].IsActive() && after[i].IsActive();
      }
      assert after[i] in after;
    }
    if !p.IsActive() || before[i].IsActive() || FreeOf(d, before, i, p.token.id) {
      forall j | 0 <= j < |after| && d.engine.Creating? && after[j].IsActive()
        ensures after[j].token.id != d.engine.token.id
      {
        assert before[j] in before;
      }
    }
  }

  lemma StepKeepsStatusLaw(o: Order, st: OrderStep)
    requires StatusLaw(o)
    ensures StatusLaw(Step(o, st)) && Step(o, st).id == o.id
  {
    if st.Feed? && Addresses(o, st.event) { EventKeepsStatusLaw(o, st.event); }
  }

  lemma LawfulFollows(d: Desk, a: Action, after: seq<Order>)
    requires Enabled(d, a) && Lawful(d) && OrdersFollow(d, a, after)
    ensures UniqueIds(after) && forall o :: o in after ==> StatusLaw(o)
  {
    hide StatusLaw, Step;
    forall i | 0 <= i < |after|
      ensures StatusLaw(after[i]) && (i < |d.mgr.orders| ==> after[i].id == d.mgr.orders[i].id)
    {
      if i < |d.mgr.orders| {
        var step := StepOf(d, a);
        assert d.mgr.orders[i] in d.mgr.orders;
        if step.Some? && Find(d.mgr.orders, step.value.0) == i {
          StepKeepsStatusLaw(d.mgr.orders[i], step.value.1);
        } else {
          TradesKeepStatusLaw(d.mgr.orders[i], after[i]);
        }
      } else {
        NewOrderLawful(d, a);
      }
    }
  }

  lemma TradesKeepStatusLaw(o: Order, p: Order)
    requires StatusLaw(o) && SameButTrades(o, p)
    ensures StatusLaw(p)
  {
  }

  lemma NewOrderLawful(d: Desk, a: Action)
    requires a.CreateReturns? && d.engine.Creating?
    ensures var c := d.engine; StatusLaw(NewOrder(a.id, d.market, c.token, c.side, c.role, c.price, c.shares))
  {
  }

  /** The exact condition on a step: it revives no finished order while its token is taken. */
  ghost predicate Harmless(d: Desk, a: Action) {
    Revives(d, a) ==>
      var i := Find(d.mgr.orders, StepOf(d, a).value.0);
      FreeOf(d, d.mgr.orders, i, d.mgr.orders[i].token.id)
  }

  /** A step keeps one active order per token if and only if it is harmless. */
  lemma StepKeepsOneIff(d: Desk, a: Action)
    requires Enabled(d, a) && Sound(d)
    ensures OnePerToken(NextManager(d, a).orders, NextEngine(d, a)) <==> Harmless(d, a)
  {
    hide OnePerToken, FreeOf, StatusLaw;
    if a.SubmitReturns? {
      SubmitKeepsOneIff(d, a);
    } else if a.OrderArrives? {
      EventKeepsOneIff(d, a);
    } else {
      StepKeepsSound(d, a);
    }
  }

  lemma SubmitKeepsOneIff(d: Desk, a: Action)
    requires Enabled(d, a) && Sound(d) && a.SubmitReturns?
    ensures OnePerToken(NextManager(d, a).orders, NextEngine(d, a)) <==> Harmless(d, a)
  {
    hide OnePerToken, FreeOf;
    var i := Find(d.mgr.orders, a.id);
    if i < |d.mgr.orders| {
      if a.ok {
        LateSubmitSuccess(d, i);
      } else {
        OneChanged(d, i, OnSubmitFailed(d.mgr.orders[i]), NextManager(d, a).orders);
      }
    }
  }

  lemma EventKeepsOneIff(d: Desk, a: Action)
    requires Sound(d) && a.OrderArrives?
    ensures OnePerToken(NextManager(d, a).orders, NextEngine(d, a)) <==> Harmless(d, a)
  {
    hide OnePerToken, FreeOf;
    var i := Find(d.mgr.orders, a.order.orderId);
    if i < |d.mgr.orders| {
      var o := d.mgr.orders[i];
      assert o in d.mgr.orders;
      if Addresses(o, a.order) {
        EventAfterRejection(d, i, a.order);
      } else {
        assert d.mgr.orders[i := o] == d.mgr.orders;
      }
    }
  }

  lemma {:induction false} LawfulReached(ds: seq<Desk>, acts: seq<Action>, k: nat)
    requires Trace(ds, acts) && k < |ds|
    ensures Lawful(ds[k])
  {
    if k > 0 {
      LawfulReached(ds, acts, k - 1);
      OrdersAfter(ds[k - 1], acts[k - 1]);
      LawfulFollows(ds[k - 1], acts[k - 1], NextManager(ds[k - 1], acts[k - 1]).orders);
    }
  }

  ghost predicate OneInDesk(d: Desk) { OnePerToken(d.mgr.orders, d.engine) }

  lemma {:induction false} HarmlessKeepsOne(ds: seq<Desk>, acts: seq<Action>, k: nat)
    requires Trace(ds, acts) && k < |ds|
    requires forall n :: 0 <= n < |acts| ==> Harmless(ds[n], acts[n])
    ensures OneInDesk(ds[k])
  {
    hide Harmless, Lawful;
    if k > 0 {
      HarmlessKeepsOne(ds, acts, k - 1);
      LawfulReached(ds, acts, k - 1);
      StepKeepsOneIff(ds[k - 1], acts[k - 1]);
    }
  }

  /**
   Over runs, with nothing assumed: no token ever has two active orders, or one beside
   one being created, if and only if every step is harmless.
   */
  lemma OneActiveIff(ds: seq<Desk>, acts: seq<Action>)
    requires Trace(ds, acts)
    ensures (forall k :: 0 <= k < |ds| ==> OneInDesk(ds[k]))
       <==> (forall n :: 0 <= n < |acts| ==> Harmless(ds[n], acts[n]))
  {
    hide Harmless, Lawful;
    if forall k :: 0 <= k < |ds| ==> OneInDesk(ds[k]) {
      forall n | 0 <= n < |acts|
        ensures Harmless(ds[n], acts[n])
      {
        LawfulReached(ds, acts, n);
        StepKeepsOneIff(ds[n], acts[n]);
        assert OneInDesk(ds[n]) && OneInDesk(ds[n + 1]);
      }
    }
    if forall n :: 0 <= n < |acts| ==> Harmless(ds[n], acts[n]) {
      forall k | 0 <= k < |ds|
        ensures OneInDesk(ds[k])
      {
        HarmlessKeepsOne(ds, acts, k);
      }
    }
  }

  /** What a full fill report says of an order. */
  function FullFill(o: Order): OrderEvent {
    OrderEvent(o.market.id, o.token.id, o.id, Matched, o.shares, o.side, o.price, o.shares)
  }

  function ForcedBuy(id: OrderId, m: Market, shares: Micro): Order {
    NewOrder(id, m, m.yesToken, Buy, Taker, 0.5 + 0.01, shares)
  }

  function Filled(o: Order): Order {
    o.(matched := o.shares, pending := 0, status := FullMatched)
  }

  /** A desk without trades that has stored `orders` and is otherwise idle. */
  function Quietly(m: Market, orders: seq<Order>, submits: map<OrderId, SubmitStage>): Desk {
    Desk(m, State(orders, map[], map[]), submits, multiset{}, Idle, [], false)
  }

  lemma EffectiveOfOne(orders: seq<Order>, token: TokenId)
    requires |orders| <= 1 && forall o :: o in orders ==> o.token.id == token && o.side == Buy && o.tradeIds == []
    ensures BuildPosition(State(orders, map[], map[]), token).EffectiveShares() ==
            if orders == [] then 0 else orders[0].pending + orders[0].matched
  {
    if orders != [] {
      var o, trades := orders[0], map[];
      assert orders == [o] && o in orders;
      SumOne(o, PendingOf(token, Buy));
      SumOne(o, SettlingOf(token, Buy, trades));
      SumOne(o, PendingOf(token, Sell));
      SumOne(o, SettlingOf(token, Sell, trades));
    }
  }

  /** With nothing active, a wish above the effective position is turned into a buy. */
  lemma WishIsPlaced(m: Market, orders: seq<Order>, submits: map<OrderId, SubmitStage>, held: Micro, target: Micro)
    requires |orders| <= 1 && held == (if orders == [] then 0 else orders[0].pending + orders[0].matched)
    requires forall o :: o in orders ==> o.token == m.yesToken && o.side == Buy && o.tradeIds == [] && !o.IsActive()
    requires target - held >= SHARES_GAP
    ensures var d := Quietly(m, orders, submits);
            Enabled(d, Observe(Wish(m, target), false)) &&
            Act(d, Observe(Wish(m, target), false)) ==
            d.(engine := Creating(m.yesToken, Buy, Taker, 0.5 + 0.01, target - held, target, 0))
  {
    hide BuildPosition;
    var d := Quietly(m, orders, submits);
    RoundWhole(target);
    EffectiveOfOne(orders, m.yesToken.id);
    assert Wish(m, target).Target() == target;
    assert BuildPosition(d.mgr, m.yesToken.id).EffectiveShares() == held;
    assert ActiveOrder(d.mgr, m.yesToken.id) == None;
  }

  lemma PlacedIsStored(m: Market, orders: seq<Order>, submits: map<OrderId, SubmitStage>, id: OrderId,
                       shares: Micro, goal: Micro)
    requires forall o :: o in orders ==> o.id != id
    ensures var d := Quietly(m, orders, submits).(engine := Creating(m.yesToken, Buy, Taker, 0.5 + 0.01, shares, goal, 0));
            Enabled(d, CreateReturns(id)) &&
            Act(d, CreateReturns(id)) == Quietly(m, orders + [ForcedBuy(id, m, shares)], submits[id := InFlight])
  {
  }

  lemma FillIsHandled(m: Market, submits: map<OrderId, SubmitStage>, id: OrderId, shares: Micro)
    requires shares > 0
    ensures var o := ForcedBuy(id, m, shares);
            Act(Quietly(m, [o], submits), OrderArrives(FullFill(o))) == Quietly(m, [Filled(o)], submits)
  {
    var o := ForcedBuy(id, m, shares);
    FindUnique([o], 0);
    assert OnOrderEvent(o, FullFill(o)) == Filled(o);
    assert [o][0 := Filled(o)] == [Filled(o)];
  }

  lemma LateAnswer(m: Market, first: Order, second: Order, submits: map<OrderId, SubmitStage>)
    requires first.id != second.id && first.id in submits && submits[first.id] == InFlight && !first.shouldCancel
    ensures var d := Quietly(m, [first, second], submits);
            Enabled(d, SubmitReturns(first.id, true)) &&
            Act(d, SubmitReturns(first.id, true)).mgr.orders == [OnSubmitSuccess(first), second]
  {
    FindUnique([first, second], 0);
    assert [first, second][0 := OnSubmitSuccess(first)] == [OnSubmitSuccess(first), second];
  }

  /** An order whose submission failed. */
  function Rejected(o: Order): Order {
    o.(pending := 0, invalid := o.shares, status := SubFailed)
  }

  lemma RejectionIsHandled(m: Market, o: Order)
    requires o == ForcedBuy(o.id, m, o.shares)
    ensures var d := Quietly(m, [o], map[][o.id := InFlight]);
            Enabled(d, SubmitReturns(o.id, false)) &&
            Act(d, SubmitReturns(o.id, false)) == Quietly(m, [Rejected(o)], map[])
  {
    FindUnique([o], 0);
    assert [o][0 := Rejected(o)] == [Rejected(o)];
    assert map[][o.id := InFlight] - {o.id} == map[];
  }

  /** What an untouched order reports of itself. */
  function LiveReport(o: Order): OrderEvent {
    OrderEvent(o.market.id, o.token.id, o.id, Live, o.shares, o.side, o.price, 0)
  }

  lemma ReportRevives(m: Market, first: Order, second: Order, submits: map<OrderId, SubmitStage>)
    requires first.id != second.id && first.shares > 0
    ensures Act(Quietly(m, [Rejected(first), second], submits), OrderArrives(LiveReport(first))).mgr.orders
         == [OnOrderEvent(Rejected(first), LiveReport(first)), second]
    ensures first.matched == 0 ==> OnOrderEvent(Rejected(first), LiveReport(first)).IsActive()
  {
    FindUnique([Rejected(first), second], 0);
  }

  /** Its first half: the order is rejected and the engine decides on another. */
  lemma RejectedThenAiming(m: Market, a: OrderId, one: Micro) returns (ds: seq<Desk>, acts: seq<Action>)
    requires m.WellFormed() && one >= SHARES_GAP
    ensures Trace(ds, acts) && |acts| == 4
    ensures ds[4] == Quietly(m, [Rejected(ForcedBuy(a, m, one))], map[]).(
                       engine := Creating(m.yesToken, Buy, Taker, 0.5 + 0.01, one, one, 0))
  {
    var first := ForcedBuy(a, m, one);
    ds, acts := FirstStored(m, a, one);
    RejectionIsHandled(m, first);
    var rejected := Quietly(m, [Rejected(first)], map[]);
    TraceExtends(ds, acts, SubmitReturns(a, false), rejected);
    ds, acts := ds + [rejected], acts + [SubmitReturns(a, false)];
    WishIsPlaced(m, [Rejected(first)], map[], 0, one);
    var aiming := rejected.(engine := Creating(m.yesToken, Buy, Taker, 0.5 + 0.01, one, one, 0));
    TraceExtends(ds, acts, Observe(Wish(m, one), false), aiming);
    ds, acts := ds + [aiming], acts + [Observe(Wish(m, one), false)];
  }

  /**
   A run through a rejection: the client call of the first order fails though the exchange
   has it, the engine places another, and a live report revives the first.
   */
  lemma RejectionRevived(m: Market, a: OrderId, b: OrderId) returns (ds: seq<Desk>, acts: seq<Action>)
    requires m.WellFormed() && a != b
    ensures Trace(ds, acts) && |acts| == 6
    ensures var orders := ds[6].mgr.orders;
            |orders| == 2 && orders[0].IsActive() && orders[1].IsActive() && orders[0].token == orders[1].token
  {
    var one := 1_000_000;
    var first, second := ForcedBuy(a, m, one), ForcedBuy(b, m, one);
    ds, acts := RejectedThenAiming(m, a, one);
    PlacedIsStored(m, [Rejected(first)], map[], b, one, one);
    assert [Rejected(first)] + [second] == [Rejected(first), second];
    var both := Quietly(m, [Rejected(first), second], map[][b := InFlight]);
    TraceExtends(ds, acts, CreateReturns(b), both);
    ds, acts := ds + [both], acts + [CreateReturns(b)];
    ReportRevives(m, first, second, map[][b := InFlight]);
    TraceExtends(ds, acts, OrderArrives(LiveReport(first)), Act(both, OrderArrives(LiveReport(first))));
    ds, acts := ds + [Act(both, OrderArrives(LiveReport(first)))], acts + [OrderArrives(LiveReport(first))];
  }

  /**
   A run that breaks the property: the fill of the first order is handled before its
   submit answer, the engine places another, and the answer revives the first.
   */
  lemma EarlyFillBreaks(m: Market, a: OrderId, b: OrderId) returns (ds: seq<Desk>, acts: seq<Action>)
    requires m.WellFormed() && a != b
    ensures Trace(ds, acts) && |acts| == 6
    ensures var orders := ds[6].mgr.orders;
            |orders| == 2 && orders[0].IsActive() && orders[1].IsActive() && orders[0].token == orders[1].token
  {
    var one, two := 1_000_000, 2_000_000;
    ds, acts := FirstFilled(m, a, one);
    var first, second := ForcedBuy(a, m, one), ForcedBuy(b, m, one);
    var s1: map<OrderId, SubmitStage> := map[][a := InFlight];
    WishIsPlaced(m, [Filled(first)], s1, one, two);
    var aiming := Quietly(m, [Filled(first)], s1).(engine := Creating(m.yesToken, Buy, Taker, 0.5 + 0.01, one, two, 0));
    TraceExtends(ds, acts, Observe(Wish(m, two), false), aiming);
    ds, acts := ds + [aiming], acts + [Observe(Wish(m, two), false)];
    PlacedIsStored(m, [Filled(first)], s1, b, one, two);
    assert [Filled(first)] + [second] == [Filled(first), second];
    var both := Quietly(m, [Filled(first), second], s1[b := InFlight]);
    TraceExtends(ds, acts, CreateReturns(b), both);
    ds, acts := ds + [both], acts + [CreateReturns(b)];
    LateAnswer(m, Filled(first), second, s1[b := InFlight]);
    TraceExtends(ds, acts, SubmitReturns(a, true), Act(both, SubmitReturns(a, true)));
    ds, acts := ds + [Act(both, SubmitReturns(a, true))], acts + [SubmitReturns(a, true)];
  }

  /** How both runs begin: an order is placed and stored, its submission in flight. */
  lemma FirstStored(m: Market, a: OrderId, shares: Micro) returns (ds: seq<Desk>, acts: seq<Action>)
    requires m.WellFormed() && shares >= SHARES_GAP
    ensures Trace(ds, acts) && |acts| == 2
    ensures ds[2] == Quietly(m, [ForcedBuy(a, m, shares)], map[][a := InFlight])
  {
    var start := Quietly(m, [], map[]);
    var first := ForcedBuy(a, m, shares);
    ds, acts := [start], [];
    WishIsPlaced(m, [], map[], 0, shares);
    var aiming := start.(engine := Creating(m.yesToken, Buy, Taker, 0.5 + 0.01, shares, shares, 0));
    TraceExtends(ds, acts, Observe(Wish(m, shares), false), aiming);
    ds, acts := ds + [aiming], acts + [Observe(Wish(m, shares), false)];
    PlacedIsStored(m, [], map[], a, shares, shares);
    assert [] + [first] == [first];
    var stored := Quietly(m, [first], map[][a := InFlight]);
    TraceExtends(ds, acts, CreateReturns(a), stored);
    ds, acts := ds + [stored], acts + [CreateReturns(a)];
  }

  /** The first half of the other run: the order is then reported filled, still unanswered. */
  lemma FirstFilled(m: Market, a: OrderId, shares: Micro) returns (ds: seq<Desk>, acts: seq<Action>)
    requires m.WellFormed() && shares >= SHARES_GAP
    ensures Trace(ds, acts) && |acts| == 3
    ensures ds[3] == Quietly(m, [Filled(ForcedBuy(a, m, shares))], map[][a := InFlight])
  {
    var first := ForcedBuy(a, m, shares);
    ds, acts := FirstStored(m, a, shares);
    FillIsHandled(m, map[][a := InFlight], a, shares);
    TraceExtends(ds, acts, OrderArrives(FullFill(first)), Quietly(m, [Filled(first)], map[][a := InFlight]));
    ds, acts := ds + [Quietly(m, [Filled(first)], map[][a := InFlight])], acts + [OrderArrives(FullFill(first))];
  }
}
