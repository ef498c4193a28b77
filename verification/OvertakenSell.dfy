/**
 A run in which settlement spares less than the settling sells take. Thirteen shares are
 bought; a sell of five is filled and not yet mined; a sell of three is mined before its order
 event arrives. Settlement counts the three against the five, pays eight of the ten shares
 held, and the five are sold nevertheless.
 */
module OvertakenSell {
  import opened Desk
  import opened DeskScenes
  import opened Domain
  import opened Engine
  import opened Ledger
  import opened Manager
  import opened OneActive
  import opened Orders
  import opened PositionRuns
  import opened Positions
  import opened Rounding
  import opened Seqs
  import opened Settlement

  const THREE: Micro := 3_000_000
  const FIVE: Micro := 5_000_000
  const EIGHT: Micro := 8_000_000
  const TEN: Micro := 10_000_000
  const THIRTEEN: Micro := 13_000_000

  /** The buy, filled and mined; the first sell, filled. */
  function Bought(m: Market, x: OrderId, tx: TradeId): Order {
    Filled(LiveOf(m, x, Buy, THIRTEEN)).(tradeIds := [tx])
  }

  function Sold(m: Market, b: OrderId): Order { Filled(LiveOf(m, b, Sell, FIVE)) }

  /** The second sell, mined and still open as far as the manager knows. */
  function Overtaken(m: Market, a: OrderId, ta: TradeId): Order {
    LiveOf(m, a, Sell, THREE).(tradeIds := [ta])
  }

  /** The trade counts as settled in full. */
  predicate Counts(s: State, t: TradeId, shares: Micro) {
    t in s.trades && SettledIn(s.trades)(t) == shares && FailedIn(s.trades)(t) == 0
  }

  /** Mining an order counts its trade and moves the holding. */
  lemma MinedCounts(s: State, i: nat, t: TradeId)
    requires i < |s.orders| && s.orders[i].shares > DUST
    ensures var o, after, held := s.orders[i], MinedState(s, i, t), PositionOf(s, s.orders[i].token.id).shares;
            var left := if o.side == Buy then held + o.shares else held - o.shares;
            && after.orders == s.orders[i := o.(tradeIds := [t])] && Counts(after, t, o.shares)
            && (forall u :: u in after.trades <==> u in s.trades || u == t)
            && (forall u, shares :: u != t && Counts(s, u, shares) ==> Counts(after, u, shares))
            && PositionOf(after, o.token.id).shares == (if left <= DUST then 0 else left)
  {
  }

  lemma SettlingOfOne(o: Order, trades: map<TradeId, Trade>)
    ensures o.tradeIds == [] ==> Settling(o, trades) == o.matched
    ensures |o.tradeIds| == 1 ==>
              OnChainSettled(o, trades) == SettledIn(trades)(o.tradeIds[0])
              && Settling(o, trades) == o.matched - SettledIn(trades)(o.tradeIds[0]) - FailedIn(trades)(o.tradeIds[0])
  {
    if |o.tradeIds| == 1 {
      assert o.tradeIds == [o.tradeIds[0]];
      SumOne(o.tradeIds[0], SettledIn(trades));
      SumOne(o.tradeIds[0], FailedIn(trades));
    }
  }

  /** The snapshot of up to three orders of one token. */
  lemma SnapshotOf(m: Market, s: State)
    requires 1 <= |s.orders| <= 3
    ensures var p, token, trades := BuildPosition(s, m.yesToken.id), m.yesToken.id, s.trades;
            && p.opening == OfThree(s.orders, PendingOf(token, Buy))
            && p.closing == OfThree(s.orders, PendingOf(token, Sell))
            && p.openSettling == OfThree(s.orders, SettlingOf(token, Buy, trades))
            && p.closeSettling == OfThree(s.orders, SettlingOf(token, Sell, trades))
  {
    SumUpToThree(s.orders, PendingOf(m.yesToken.id, Buy));
    SumUpToThree(s.orders, PendingOf(m.yesToken.id, Sell));
    SumUpToThree(s.orders, SettlingOf(m.yesToken.id, Buy, s.trades));
    SumUpToThree(s.orders, SettlingOf(m.yesToken.id, Sell, s.trades));
  }

  function OfThree(xs: seq<Order>, f: Order -> int): int
    requires 1 <= |xs| <= 3
  {
    f(xs[0]) + (if |xs| > 1 then f(xs[1]) else 0) + (if |xs| > 2 then f(xs[2]) else 0)
  }

  // --------------------------------------------------------------------- the stages

  /** The run has reached a state with these orders and this holding, knowing these trades. */
  ghost predicate Reached(r: Run, m: Market, s: State, ps: seq<Posting>, orders: seq<Order>, ts: set<TradeId>, held: Micro) {
    && r.Reaches(AtRest(m, s, ps, false)) && s.orders == orders && s.trades.Keys == ts
    && PositionOf(s, m.yesToken.id).shares == held
  }

  lemma Starts(m: Market) returns (r: Run)
    requires m.WellFormed()
    ensures Reached(r, m, EMPTY, [], [], {}, 0)
  {
    r := Run([AtRest(m, EMPTY, [], false)], []);
  }

  /** Thirteen shares are bought and held. */
  lemma Buys(m: Market, x: OrderId, tx: TradeId) returns (r: Run, s: State, ps: seq<Posting>)
    requires m.WellFormed()
    ensures Reached(r, m, s, ps, [Bought(m, x, tx)], {tx}, THIRTEEN) && Counts(s, tx, THIRTEEN)
  {
    hide Run.Reaches, DecideOn, MinedState;
    r := Starts(m);
    Decides(EMPTY, m, THIRTEEN, Buy, THIRTEEN);
    r := Offers(r, m, EMPTY, [], THIRTEEN, Buy, THIRTEEN, x);
    var live := With(EMPTY, LiveOf(m, x, Buy, THIRTEEN));
    assert live.orders == [LiveOf(m, x, Buy, THIRTEEN)];
    r := ReportsFill(r, m, live, [], false, 0);
    var filled := live.(orders := live.orders[0 := Filled(live.orders[0])]);
    r := ReportsMined(r, m, filled, [], false, 0, tx);
    MinedCounts(filled, 0, tx);
    s, ps := MinedState(filled, 0, tx), [] + [MinedPosting(filled.orders[0], tx)];
  }

  /** Of these five are to be sold. */
  lemma FiveForSale(m: Market, s: State, x: OrderId, tx: TradeId)
    requires s.orders == [Bought(m, x, tx)] && Counts(s, tx, THIRTEEN) && PositionOf(s, m.yesToken.id).shares == THIRTEEN
    ensures DecideOn(s, Wish(m, EIGHT), false) == Place(Sell, Taker, Price(Sell), FIVE)
  {
    SettlingOfOne(s.orders[0], s.trades);
    SnapshotOf(m, s);
    Decides(s, m, EIGHT, Sell, FIVE);
  }

  /** They are filled; their trade is still to be mined. */
  lemma SellsFive(m: Market, x: OrderId, tx: TradeId, b: OrderId) returns (r: Run, s: State, ps: seq<Posting>)
    requires m.WellFormed() && x != b
    ensures Reached(r, m, s, ps, [Bought(m, x, tx), Sold(m, b)], {tx}, THIRTEEN) && Counts(s, tx, THIRTEEN)
  {
    hide Run.Reaches, DecideOn;
    r, s, ps := Buys(m, x, tx);
    FiveForSale(m, s, x, tx);
    r := Offers(r, m, s, ps, EIGHT, Sell, FIVE, b);
    s := With(s, LiveOf(m, b, Sell, FIVE));
    assert s.orders == [Bought(m, x, tx), LiveOf(m, b, Sell, FIVE)];
    r := ReportsFill(r, m, s, ps, false, 1);
    s := s.(orders := s.orders[1 := Filled(s.orders[1])]);
  }

  /** Eight are still free, and three of them are to be sold. */
  lemma ThreeForSale(m: Market, s: State, x: OrderId, tx: TradeId, b: OrderId)
    requires s.orders == [Bought(m, x, tx), Sold(m, b)] && Counts(s, tx, THIRTEEN)
    requires PositionOf(s, m.yesToken.id).shares == THIRTEEN
    ensures DecideOn(s, Wish(m, FIVE), false) == Place(Sell, Taker, Price(Sell), THREE)
  {
    SettlingOfOne(s.orders[0], s.trades);
    SettlingOfOne(s.orders[1], s.trades);
    SnapshotOf(m, s);
    Decides(s, m, FIVE, Sell, THREE);
  }

  /** Their trade is mined before their order event arrives. */
  lemma Overtakes(m: Market, x: OrderId, tx: TradeId, b: OrderId, a: OrderId, ta: TradeId)
    returns (r: Run, s: State, ps: seq<Posting>)
    requires m.WellFormed() && x != b && a != x && a != b && ta != tx
    ensures Reached(r, m, s, ps, [Bought(m, x, tx), Sold(m, b), Overtaken(m, a, ta)], {tx, ta}, TEN)
    ensures Counts(s, tx, THIRTEEN) && Counts(s, ta, THREE)
  {
    hide Run.Reaches, DecideOn, MinedState;
    r, s, ps := SellsFive(m, x, tx, b);
    ThreeForSale(m, s, x, tx, b);
    r := Offers(r, m, s, ps, FIVE, Sell, THREE, a);
    s := With(s, LiveOf(m, a, Sell, THREE));
    assert s.orders == [Bought(m, x, tx), Sold(m, b), LiveOf(m, a, Sell, THREE)];
    r := ReportsMined(r, m, s, ps, false, 2, ta);
    MinedCounts(s, 2, ta);
    ps := ps + [MinedPosting(s.orders[2], ta)];
    s := MinedState(s, 2, ta);
  }

  // ----------------------------------------------------------------- the settlement

  /** What settlement finds: ten held, five to be sold, three sold ahead of their order event. */
  lemma FindsThreeAhead(m: Market, s: State, x: OrderId, tx: TradeId, b: OrderId, a: OrderId, ta: TradeId)
    requires s.orders == [Bought(m, x, tx), Sold(m, b), Overtaken(m, a, ta)] && Counts(s, ta, THREE)
    ensures ToSell(s, m.yesToken.id) == FIVE && SoldAhead(s, m.yesToken.id) == THREE
  {
    SettlingOfOne(s.orders[1], s.trades);
    SettlingOfOne(s.orders[2], s.trades);
    SumUpToThree(s.orders, SellSettling(m.yesToken.id, s.trades));
    SumUpToThree(s.orders, SellAhead(m.yesToken.id, s.trades));
  }

  lemma NotOnce(s: State, token: TokenId)
    requires PositionOf(s, token).shares == TEN && ToSell(s, token) == FIVE && SoldAhead(s, token) == THREE
    ensures !OnceEach(s, token) && Spared(PositionOf(s, token), SettlingShares(s, token, Sell)) == FIVE - THREE
  {
    SettlingSplits(s, token);
  }

  /** The market settles in favour of the first token. */
  lemma Settles(r: Run, m: Market, s: State, ps: seq<Posting>) returns (r': Run, s': State, ps': seq<Posting>)
    requires r.Reaches(AtRest(m, s, ps, false)) && m.WellFormed()
    ensures r'.Reaches(AtRest(m, s', ps', true)) && r.LeadsTo(r') && r'.acts == r.acts + [Action.Settles(m.yesToken.outcome)]
    ensures SettlesNow(AtRest(m, s, ps, false), Action.Settles(m.yesToken.outcome))
    ensures s'.orders == s.orders && s'.trades == s.trades
  {
    hide Orderly, SettlementPostings, SettleToken;
    var d, a := AtRest(m, s, ps, false), Action.Settles(m.yesToken.outcome);
    SettlementKeepsOrders(s, m, a.outcome);
    s', ps' := NextManager(d, a), NextPostings(d, a);
    r' := Goes(r, d, a, AtRest(m, s', ps', true));
  }

  /** Then the order event of the three arrives. */
  lemma ReportsThree(r: Run, m: Market, s: State, ps: seq<Posting>, x: OrderId, tx: TradeId, b: OrderId, a: OrderId, ta: TradeId)
    returns (r': Run, s': State)
    requires r.Reaches(AtRest(m, s, ps, true)) && x != b && a != x && a != b
    requires s.orders == [Bought(m, x, tx), Sold(m, b), Overtaken(m, a, ta)] && Counts(s, ta, THREE)
    ensures r'.Reaches(AtRest(m, s', ps, true)) && r.LeadsTo(r') && |r'.acts| == |r.acts| + 1 && !r'.acts[|r.acts|].Settles?
    ensures s'.orders == [Bought(m, x, tx), Sold(m, b), Filled(Overtaken(m, a, ta))]
    ensures s'.trades == s.trades && Counts(s', ta, THREE)
  {
    hide Run.Reaches, Counts;
    r' := ReportsFill(r, m, s, ps, true, 2);
    s' := s.(orders := s.orders[2 := Filled(s.orders[2])]);
    assert s'.orders == [Bought(m, x, tx), Sold(m, b), Filled(Overtaken(m, a, ta))];
    SameCounts(s, s', ta, THREE);
  }

  lemma SameCounts(s: State, t: State, u: TradeId, shares: Micro)
    requires Counts(s, u, shares) && t.trades == s.trades
    ensures Counts(t, u, shares)
  {
  }

  /** And the five are mined. */
  lemma MinesFive(r: Run, m: Market, s: State, ps: seq<Posting>,
                  x: OrderId, tx: TradeId, b: OrderId, tb: TradeId, a: OrderId, ta: TradeId)
    returns (r': Run, s': State, ps': seq<Posting>)
    requires r.Reaches(AtRest(m, s, ps, true)) && x != b && a != x && a != b && tb != ta && tb !in s.trades
    requires s.orders == [Bought(m, x, tx), Sold(m, b), Filled(Overtaken(m, a, ta))] && Counts(s, ta, THREE)
    ensures r'.Reaches(AtRest(m, s', ps', true)) && r.LeadsTo(r') && |r'.acts| == |r.acts| + 1 && !r'.acts[|r.acts|].Settles?
    ensures s'.orders == [Bought(m, x, tx), Sold(m, b).(tradeIds := [tb]), Filled(Overtaken(m, a, ta))]
    ensures Counts(s', ta, THREE) && Counts(s', tb, FIVE)
  {
    hide Run.Reaches, MinedState, Counts;
    r' := ReportsMined(r, m, s, ps, true, 1, tb);
    MinedCounts(s, 1, tb);
    s', ps' := MinedState(s, 1, tb), ps + [MinedPosting(s.orders[1], tb)];
  }

  lemma Confirms(r: Run, m: Market, s: State, ps: seq<Posting>,
                 x: OrderId, tx: TradeId, b: OrderId, tb: TradeId, a: OrderId, ta: TradeId)
    returns (r': Run, s': State, ps': seq<Posting>)
    requires r.Reaches(AtRest(m, s, ps, true)) && x != b && a != x && a != b && tb != ta && tb !in s.trades
    requires s.orders == [Bought(m, x, tx), Sold(m, b), Overtaken(m, a, ta)] && Counts(s, ta, THREE)
    ensures r'.Reaches(AtRest(m, s', ps', true))
    ensures r.LeadsTo(r') && |r'.acts| == |r.acts| + 2 && !r'.acts[|r.acts|].Settles? && !r'.acts[|r.acts| + 1].Settles?
    ensures s'.orders == [Bought(m, x, tx), Sold(m, b).(tradeIds := [tb]), Filled(Overtaken(m, a, ta))]
    ensures Counts(s', ta, THREE) && Counts(s', tb, FIVE)
  {
    hide Run.Reaches, Counts, Bought, Sold, Overtaken, Filled;
    var r1, s1 := ReportsThree(r, m, s, ps, x, tx, b, a, ta);
    r', s', ps' := MinesFive(r1, m, s1, ps, x, tx, b, tb, a, ta);
    LeadsOn(r, r1, r');
  }

  lemma AllConfirmed(m: Market, s: State, t: State, x: OrderId, tx: TradeId, b: OrderId, tb: TradeId, a: OrderId, ta: TradeId)
    requires s.orders == [Bought(m, x, tx), Sold(m, b), Overtaken(m, a, ta)] && Counts(s, ta, THREE)
    requires t.orders == [Bought(m, x, tx), Sold(m, b).(tradeIds := [tb]), Filled(Overtaken(m, a, ta))]
    requires Counts(t, ta, THREE) && Counts(t, tb, FIVE)
    ensures SellsConfirmed(s, t, m.yesToken.id)
  {
    SettlingOfOne(s.orders[1], s.trades);
    SettlingOfOne(s.orders[2], s.trades);
    SettlingOfOne(t.orders[1], t.trades);
    SettlingOfOne(t.orders[2], t.trades);
    assert OnChainSettled(s.orders[1], s.trades) == 0;
  }

  /** The three parts make one run with one settlement. */
  lemma OneSettlement(r0: Run, r1: Run, r2: Run, d: Desk, settles: Action, last: Desk)
    requires r0.Reaches(d) && r0.LeadsTo(r1) && r1.LeadsTo(r2) && r2.Reaches(last)
    requires r1.acts == r0.acts + [settles] && SettlesNow(d, settles)
    requires |r2.acts| == |r1.acts| + 2 && !r2.acts[|r1.acts|].Settles? && !r2.acts[|r1.acts| + 1].Settles?
    ensures var j, k := |r0.acts|, |r2.acts|;
            SettledOnce(r2.ds, r2.acts, j, k) && r2.ds[j] == d && r2.acts[j] == settles && r2.ds[k] == last
  {
    hide Enabled, Act, Assumed, Initial;
    var j := |r0.acts|;
    assert r2.ds[j] == r1.ds[j] == r0.ds[j];
    assert r2.acts[j] == r1.acts[j];
  }

  lemma PaidEight(ds: seq<Desk>, acts: seq<Action>, j: nat, k: nat, token: TokenId)
    requires SettledOnce(ds, acts, j, k) && OfMarket(ds[j].market, token)
    requires PositionOf(ds[j].mgr, token).shares == TEN
    requires Spared(PositionOf(ds[j].mgr, token), SettlingShares(ds[j].mgr, token, Sell)) == FIVE - THREE
    ensures PaidMeanwhile(ds[j], ds[k], token) == EIGHT
  {
    hide PaidMeanwhile, SoldMeanwhile, InRecords, Spared, SettlingShares, SettlesNow, Initial, Act;
    PaidOnlyThen(ds, acts, j, k, token);
    RecordedReached(ds, acts, j);
    SettlementPays(ds[j], acts[j], token);
  }

  /**
   The run: answers and events are in order, sizes right and trades stable; ten shares are
   held at the settlement at `j`, and by the end eight of them have been paid out and five sold.
   */
  lemma ThirteenOfTen(m: Market, x: OrderId, tx: TradeId, b: OrderId, tb: TradeId, a: OrderId, ta: TradeId)
    returns (ds: seq<Desk>, acts: seq<Action>, j: nat, k: nat)
    requires m.WellFormed() && x != b && a != x && a != b && ta != tx && tb != tx && tb != ta
    ensures Orderly(ds, acts) && SettledOnce(ds, acts, j, k) && SellsConfirmed(ds[j].mgr, ds[k].mgr, m.yesToken.id)
    ensures ds[j].market == m && PositionOf(ds[j].mgr, m.yesToken.id).shares == TEN && !OnceEach(ds[j].mgr, m.yesToken.id)
    ensures PaidMeanwhile(ds[j], ds[k], m.yesToken.id) == EIGHT && SoldMeanwhile(ds[j], ds[k], m.yesToken.id) == FIVE
  {
    hide Trace, SettlesNow, OnceEach, SellsConfirmed, ToSell, SoldAhead, Spared, PaidMeanwhile, SoldMeanwhile;
    hide Enabled, Act, Assumed, SettlingShares;
    var token := m.yesToken.id;
    var r0, s, ps := Overtakes(m, x, tx, b, a, ta);
    var r1, s1, ps1 := Settles(r0, m, s, ps);
    var r2, s2, ps2 := Confirms(r1, m, s1, ps1, x, tx, b, tb, a, ta);
    ds, acts, j, k := r2.ds, r2.acts, |r0.acts|, |r2.acts|;
    OneSettlement(r0, r1, r2, AtRest(m, s, ps, false), Action.Settles(m.yesToken.outcome), AtRest(m, s2, ps2, true));
    FindsThreeAhead(m, s, x, tx, b, a, ta);
    NotOnce(s, token);
    AllConfirmed(m, s, s2, x, tx, b, tb, a, ta);
    PaidEight(ds, acts, j, k, token);
    OrderlyTrades(ds, acts);
    ConfirmedIsSold(ds, acts, j, k, token);
  }

  lemma OrderlyTrades(ds: seq<Desk>, acts: seq<Action>)
    requires Orderly(ds, acts)
    ensures Trace(ds, acts)
    ensures forall n :: 0 <= n < |acts| && acts[n].TradeArrives? ==> StableTrade(ds[n].mgr, acts[n].trade)
  {
  }
}
