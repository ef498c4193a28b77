/**
 Concrete runs of the core, block by block: an order is decided on, stored and answered, it is
 reported filled, and its trade is reported mined. All of them meet the named assumptions.
 */
module DeskScenes {
  import opened Desk
  import opened Domain
  import opened Engine
  import opened Fees
  import opened Ledger
  import opened Manager
  import opened OneActive
  import opened Orders
  import opened Positions
  import opened Rounding

  /** The core with nothing under way. */
  function AtRest(m: Market, s: State, ps: seq<Posting>, closed: bool): Desk {
    Desk(m, s, map[], multiset{}, Idle, ps, closed)
  }

  ghost predicate Assumed(d: Desk, a: Action) {
    InOrder(d, a) && SizedAction(d, a) && (a.TradeArrives? ==> StableTrade(d.mgr, a.trade))
  }

  /** A run in which answers and events are in order, sizes are right and trades stable. */
  ghost predicate Orderly(ds: seq<Desk>, acts: seq<Action>) {
    Trace(ds, acts) && forall n :: 0 <= n < |acts| ==> Assumed(ds[n], acts[n])
  }

  /** What every scene starts from and leads to. */
  datatype Run = Run(ds: seq<Desk>, acts: seq<Action>) {
    ghost predicate Reaches(d: Desk) { Orderly(ds, acts) && ds[|acts|] == d }

    /** `r` has gone on from this run. */
    ghost predicate LeadsTo(r: Run) {
      |ds| == |acts| + 1 && |r.ds| == |r.acts| + 1 && ds <= r.ds && acts <= r.acts
    }
  }

  lemma Goes(r: Run, d: Desk, a: Action, next: Desk) returns (r': Run)
    requires r.Reaches(d) && Enabled(d, a) && Act(d, a) == next && Assumed(d, a)
    ensures r'.Reaches(next) && r.LeadsTo(r') && r' == Run(r.ds + [next], r.acts + [a])
  {
    hide Enabled, Act, Assumed, Initial;
    r' := Run(r.ds + [next], r.acts + [a]);
    TraceExtends(r.ds, r.acts, a, next);
    forall n | 0 <= n < |r'.acts|
      ensures Assumed(r'.ds[n], r'.acts[n])
    {
      if n < |r.acts| { assert Assumed(r.ds[n], r.acts[n]); }
    }
  }

  lemma LeadsOn(r: Run, r1: Run, r2: Run)
    requires r.LeadsTo(r1) && r1.LeadsTo(r2)
    ensures r.LeadsTo(r2)
  {
  }

  function PlacedOf(m: Market, id: OrderId, side: Side, shares: Micro): Order {
    NewOrder(id, m, m.yesToken, side, Taker, Price(side), shares)
  }

  /** The order once its submission has succeeded. */
  function LiveOf(m: Market, id: OrderId, side: Side, shares: Micro): Order {
    PlacedOf(m, id, side, shares).(status := ZeroMatched)
  }

  function With(s: State, o: Order): State { s.(orders := s.orders + [o]) }

  /** An order is decided on, stored and answered. */
  lemma Offers(r: Run, m: Market, s: State, ps: seq<Posting>, want: Micro, side: Side, shares: Micro, id: OrderId)
    returns (r': Run)
    requires r.Reaches(AtRest(m, s, ps, false)) && !Tracks(s, id)
    requires DecideOn(s, Wish(m, want), false) == Place(side, Taker, Price(side), shares)
    ensures r'.Reaches(AtRest(m, With(s, LiveOf(m, id, side, shares)), ps, false)) && r.LeadsTo(r')
  {
    hide Act, Assumed, Orderly, DecideOn;
    var look, d := Observe(Wish(m, want), false), AtRest(m, s, ps, false);
    var aiming, stored, live := DecidedDesk(d, want), StoredDesk(m, s, ps, id, side, shares),
                                AtRest(m, With(s, LiveOf(m, id, side, shares)), ps, false);
    Decided(m, s, ps, want, side, shares);
    StoredNext(m, s, ps, want, side, shares, id);
    AnsweredNext(m, s, ps, side, shares, id);
    var r1 := Goes(r, d, look, aiming);
    var r2 := Goes(r1, aiming, CreateReturns(id), stored);
    r' := Goes(r2, stored, SubmitReturns(id, true), live);
    LeadsOn(r, r1, r2);
    LeadsOn(r, r2, r');
  }

  function DecidedDesk(d: Desk, want: Micro): Desk {
    d.(engine := NextEngine(d, Observe(Wish(d.market, want), false)))
  }

  function StoredDesk(m: Market, s: State, ps: seq<Posting>, id: OrderId, side: Side, shares: Micro): Desk {
    AtRest(m, With(s, PlacedOf(m, id, side, shares)), ps, false).(submits := map[id := InFlight])
  }

  lemma Decided(m: Market, s: State, ps: seq<Posting>, want: Micro, side: Side, shares: Micro)
    requires DecideOn(s, Wish(m, want), false) == Place(side, Taker, Price(side), shares)
    ensures var d, look := AtRest(m, s, ps, false), Observe(Wish(m, want), false);
            Enabled(d, look) && Act(d, look) == DecidedDesk(d, want) && Assumed(d, look)
  {
    hide DecideOn, BuildPosition;
  }

  lemma StoredNext(m: Market, s: State, ps: seq<Posting>, want: Micro, side: Side, shares: Micro, id: OrderId)
    requires DecideOn(s, Wish(m, want), false) == Place(side, Taker, Price(side), shares) && !Tracks(s, id)
    ensures var d := DecidedDesk(AtRest(m, s, ps, false), want);
            Enabled(d, CreateReturns(id)) && Assumed(d, CreateReturns(id))
            && Act(d, CreateReturns(id)) == StoredDesk(m, s, ps, id, side, shares)
  {
    hide DecideOn, BuildPosition;
    assert map[][id := InFlight] == map[id := InFlight];
  }

  lemma AnsweredNext(m: Market, s: State, ps: seq<Posting>, side: Side, shares: Micro, id: OrderId)
    requires !Tracks(s, id)
    ensures var d, a := StoredDesk(m, s, ps, id, side, shares), SubmitReturns(id, true);
            Enabled(d, a) && Assumed(d, a) && Act(d, a) == AtRest(m, With(s, LiveOf(m, id, side, shares)), ps, false)
  {
    hide DecideOn, HandleTradeEvent, SettleMarket;
    var o, n := PlacedOf(m, id, side, shares), |s.orders|;
    assert Find(s.orders + [o], id) == n;
    assert (s.orders + [o])[n := OnSubmitSuccess(o)] == s.orders + [LiveOf(m, id, side, shares)];
    assert map[id := InFlight] - {id} == map[];
    forall p | p in s.orders + [o] && p.id == id
      ensures p.status == Submitting
    {
    }
  }

  /** The live order at `i` is reported filled. */
  lemma ReportsFill(r: Run, m: Market, s: State, ps: seq<Posting>, closed: bool, i: nat) returns (r': Run)
    requires r.Reaches(AtRest(m, s, ps, closed)) && UniqueIds(s.orders) && i < |s.orders|
    requires var o := s.orders[i];
             o.status == ZeroMatched && o.matched == 0 && o.invalid == 0 && o.shares > 0 && o.pending == o.shares
    ensures r'.Reaches(AtRest(m, s.(orders := s.orders[i := Filled(s.orders[i])]), ps, closed)) && r.LeadsTo(r')
    ensures r'.acts == r.acts + [OrderArrives(FullFill(s.orders[i]))]
  {
    hide Orderly, HandleTradeEvent, SettleMarket, DecideOn;
    var d, o := AtRest(m, s, ps, closed), s.orders[i];
    FindUnique(s.orders, i);
    FilledBy(o);
    r' := Goes(r, d, OrderArrives(FullFill(o)), AtRest(m, s.(orders := s.orders[i := Filled(o)]), ps, closed));
  }

  lemma FilledBy(o: Order)
    requires o.status == ZeroMatched && o.matched == 0 && o.invalid == 0 && o.shares > 0 && o.pending == o.shares
    ensures Step(o, Feed(FullFill(o))) == Filled(o) && Sized(o, Feed(FullFill(o)))
  {
  }

  function MinedReport(o: Order, t: TradeId): TradeEvent {
    TradeEvent(0, o.market.id, o.token.id, o.id, t, Mined, o.shares, o.side, Taker, o.price)
  }

  function MinedTrade(o: Order, t: TradeId): Trade {
    Trade(t, o.token.id, o.id, TradeSuccess, o.shares, o.side, Taker, o.price, 0, o.shares, 0)
  }

  function MinedPosting(o: Order, t: TradeId): Posting {
    Fill(t, o.token.id, o.side, CashAmount(o.market, o.side, Taker, o.shares, o.price), o.shares)
  }

  /** The manager once the whole of the order at `i` is reported mined. */
  function MinedState(s: State, i: nat, t: TradeId): State
    requires i < |s.orders|
  {
    var o := s.orders[i];
    ApplyPosting(State(s.orders[i := o.(tradeIds := [t])], s.trades[t := MinedTrade(o, t)], s.positions), MinedPosting(o, t))
  }

  /** The trade of the order at `i` is reported mined, before or after the order's own event. */
  lemma ReportsMined(r: Run, m: Market, s: State, ps: seq<Posting>, closed: bool, i: nat, t: TradeId) returns (r': Run)
    requires r.Reaches(AtRest(m, s, ps, closed)) && UniqueIds(s.orders) && i < |s.orders|
    requires s.orders[i].tradeIds == [] && t !in s.trades
    ensures r'.Reaches(AtRest(m, MinedState(s, i, t), ps + [MinedPosting(s.orders[i], t)], closed)) && r.LeadsTo(r')
    ensures r'.acts == r.acts + [TradeArrives(MinedReport(s.orders[i], t))]
  {
    hide Orderly, ApplyPosting, SettleMarket, DecideOn, CashAmount;
    var d, o := AtRest(m, s, ps, closed), s.orders[i];
    MinedHandled(s, i, t);
    r' := Goes(r, d, TradeArrives(MinedReport(o, t)), AtRest(m, MinedState(s, i, t), ps + [MinedPosting(o, t)], closed));
  }

  lemma MinedHandled(s: State, i: nat, t: TradeId)
    requires UniqueIds(s.orders) && i < |s.orders| && s.orders[i].tradeIds == [] && t !in s.trades
    ensures var o := s.orders[i]; var e := MinedReport(o, t);
            && Accepts(s, e) && Confirms(s, e) && PostingFor(s, e) == MinedPosting(o, t)
            && HandleTradeEvent(s, e) == MinedState(s, i, t) && StableTrade(s, e)
  {
    hide ApplyTrade, CashAmount;
    FindUnique(s.orders, i);
    assert AddTradeId([], t) == [t];
  }
}
