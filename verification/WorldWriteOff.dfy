/**
 Two runs of the closed system in which an order is stored and the target is missed by what
 was written off meanwhile: dust before settlement, and ten shares after it.

 In both a sell is filled but not mined when the engine decides to buy, and it is mined
 before the buy is stored.
 */
module WorldWriteOff {
  import opened Desk
  import opened Domain
  import opened Engine
  import opened Fees
  import opened Manager
  import opened MockStore
  import opened Positions
  import opened Rounding
  import opened Seqs
  import opened World
  import opened WorldKeepsLinks
  import opened WorldLinks
  import opened WorldSafety
  import opened WorldScenes
  import opened WorldStream
  import opened WorldTarget
  import opened WorldTrades

  /** When the exchange creates the sell. */
  const SECOND: int := 2_000

  /** Ten shares were bought; a sell of `sold` is filled and its trade known. */
  ghost predicate SellDue(m: Market, h: Stage, a: OrderId, ta: TradeId, b: OrderId, tb: TradeId, sold: Micro) {
    && h.Reached(m, [a, b], [ta, tb]) && a != b && ta != tb
    && h.S().orders == [DoneOf(m, a, Buy, TEN, ta), DoneOf(m, b, Sell, sold, tb)]
    && SettledFor(h.S(), h.St(), ta, TEN) && Pending(m, h.S(), h.St(), b, Sell, sold, tb, SECOND) && Clock(h.ms) == FilledAt(SECOND)
  }

  /** From there the engine buys up to five, counting the sell as gone. */
  lemma BuysUpToFive(m: Market, h: Stage, a: OrderId, ta: TradeId, b: OrderId, tb: TradeId, sold: Micro)
    requires SellDue(m, h, a, ta, b, tb, sold) && FIVE - (h.Holding(m) - sold) >= SHARES_GAP
    ensures DecideOn(h.S(), Wish(m, FIVE), false) == Place(Buy, Taker, Price(Buy), FIVE - (h.Holding(m) - sold))
  {
    hide Streamed, Knows, DecideOn, BuildPosition, Clock;
    SnapshotOf(m, h.S());
    Decides(h.S(), m, FIVE, Buy, FIVE - (h.Holding(m) - sold));
  }

  /** The worlds between two moves of the core keep its stage. */
  lemma {:induction false} EngineUndisturbed(ws: seq<World>, ms: seq<Move>, j: nat, k: nat)
    requires History(ws, ms) && j <= k < |ws|
    requires forall i :: j <= i < k ==> !ms[i].Internal?
    ensures ws[k].desk.engine == ws[j].desk.engine
    decreases k
  {
    hide Begins;
    if j < k {
      EngineUndisturbed(ws, ms, j, k - 1);
      ExternalKeepsEngine(ws[k - 1], ms[k - 1]);
    }
  }

  lemma ExternalKeepsEngine(w: World, m: Move)
    requires Possible(w, m) && !m.Internal?
    ensures Advance(w, m).desk.engine == w.desk.engine
  {
  }

  /** Mining the sell writes off what it leaves of the holding, when that is dust or less than nothing. */
  lemma MiningWritesOff(ws: seq<World>, ms: seq<Move>, j: nat, c: Mining, token: TokenId)
    requires History(ws, ms) && j < |ws| && ws[j] == c.base && c.Ready() && token == c.M().yesToken.id
    requires c.S().trades[c.t].side == Sell && c.base.store.trades[c.t].side == Sell
    requires PositionOf(c.S(), token).shares - c.base.store.trades[c.t].shares <= DUST
    ensures WrittenOff(c.base, c.After(), token) == PositionOf(c.S(), token).shares - c.base.store.trades[c.t].shares
  {
    hide Possible, Advance, Coherent, Begins, Post, CashAmount, ApplyTrade;
    CoherentReached(ws, ms, j);
    HoldingReplayed(c.base, token);
    ReplayAppend(c.base.desk.postings, c.Posted(), token);
    FillMoves(Replay(c.base.desk.postings, token), c.Posted());
  }

  lemma HoldingReplayed(w: World, token: TokenId)
    requires Coherent(w)
    ensures PositionOf(w.desk.mgr, token) == Replay(w.desk.postings, token).pos
  {
    hide Protocol, EngineOk, Links, LogOk, Deliveries;
    ClaimByStake(w.desk, token);
  }

  lemma CanStore(w: World, id: OrderId)
    requires w.desk.engine.Creating? && !Tracks(w.desk.mgr, id)
    ensures Possible(w, Internal(CreateReturns(id)))
  {
  }

  /** The sell, about to be mined while the engine creates another order. */
  function MiningOf(h: Stage, tb: TradeId, engine: EngineStage): Mining {
    Mining(h.w.(desk := h.w.desk.(engine := engine)), 1, tb, MinedAt(SECOND))
  }

  lemma SellReady(m: Market, h: Stage, a: OrderId, ta: TradeId, b: OrderId, tb: TradeId, sold: Micro, engine: EngineStage)
    requires SellDue(m, h, a, ta, b, tb, sold)
    ensures var c := MiningOf(h, tb, engine);
            && c.Ready() && c.M() == m && c.S() == h.S()
            && c.S().trades[tb].side == Sell && c.base.store.trades[tb].side == Sell
            && c.base.store.trades[tb].shares == sold
            && (forall d :: Tracks(c.After().desk.mgr, d) ==> d == a || d == b)
  {
    hide CashAmount, ApplyTrade, RecordTrade, Clamp, Streamed, Clock;
    var st := h.St();
    assert st.tradeIds == [ta, tb] && PromoteOne(st, ta, MinedAt(SECOND)) == st;
    assert h.S().orders[1] == DoneOf(m, b, Sell, sold, tb);
  }

  /** The engine decides to buy. */
  lemma DecidesToBuy(m: Market, h: Stage, a: OrderId, ta: TradeId, b: OrderId, tb: TradeId, sold: Micro)
    returns (ws: seq<World>, ms: seq<Move>, engine: EngineStage)
    requires SellDue(m, h, a, ta, b, tb, sold) && FIVE - (h.Holding(m) - sold) >= SHARES_GAP
    ensures Streamed(ws, ms) && h.ws <= ws && ms == h.ms + [Internal(Observe(Wish(m, FIVE), false))]
    ensures ws[|ms|] == MiningOf(h, tb, engine).base && BetweenPolls(ms) && Clock(ms) == FilledAt(SECOND)
    ensures engine.Creating? && engine.token == m.yesToken && engine.side == Buy
  {
    hide DecideOn, Streamed, Clock, Pending, SettledFor, Possible, Advance, Knows;
    StreamedLength(h.ws, h.ms);
    BuysUpToFive(m, h, a, ta, b, tb, sold);
    Decided(h.w, FIVE, Buy, FIVE - (h.Holding(m) - sold));
    var look := Internal(Observe(Wish(m, FIVE), false));
    engine := NextEngine(h.w.desk, look.action);
    ws, ms := Goes(h.ws, h.ms, h.w, look, h.w.(desk := h.w.desk.(engine := engine)));
  }

  /** The sell is mined and the buy stored. */
  lemma MinedThenStored(ws1: seq<World>, ms1: seq<Move>, c: Mining, d: OrderId) returns (ws: seq<World>, ms: seq<Move>)
    requires Streamed(ws1, ms1) && ws1[|ms1|] == c.base && BetweenPolls(ms1) && Clock(ms1) <= c.now && c.Ready()
    requires c.base.desk.engine.Creating? && !Tracks(c.After().desk.mgr, d)
    ensures Streamed(ws, ms) && |ws| == |ms| + 1 && ws1 <= ws && ms1 <= ms && |ms| > |ms1|
    ensures ms[|ms| - 1] == Internal(CreateReturns(d)) && ws[|ms| - 1] == c.After()
    ensures forall n :: |ms1| <= n < |ms| ==> ws[n].desk.engine == c.base.desk.engine
  {
    hide Streamed, Clock, Possible, Advance, Mining.Ready, CashAmount, ApplyPosting, RecordTrade, History;
    ReadyKnows(c);
    var ws2, ms2 := MineScene(ws1, ms1, c);
    CanStore(c.After(), d);
    ws, ms := Goes(ws2, ms2, c.After(), Internal(CreateReturns(d)), Advance(c.After(), Internal(CreateReturns(d))));
    StreamedHistory(ws, ms);
    forall n | |ms1| <= n < |ms|
      ensures ws[n].desk.engine == c.base.desk.engine
    {
      EngineUndisturbed(ws, ms, |ms1|, n);
    }
  }

  lemma StreamedHistory(ws: seq<World>, ms: seq<Move>)
    requires Streamed(ws, ms)
    ensures History(ws, ms)
  {
  }

  /** The engine decides to buy, the sell is mined, the buy is stored. */
  lemma SellMinedMeanwhile(m: Market, h: Stage, a: OrderId, ta: TradeId, b: OrderId, tb: TradeId, sold: Micro, d: OrderId)
    returns (ws: seq<World>, ms: seq<Move>, j: nat, k: nat)
    requires SellDue(m, h, a, ta, b, tb, sold) && d != a && d != b
    requires h.Holding(m) - sold <= DUST && FIVE - (h.Holding(m) - sold) >= SHARES_GAP
    ensures MissedFive(m, ws, ms, j, k, h.Holding(m) - sold) && ws[k].desk.closed == h.w.desk.closed
  {
    hide Streamed, History, Clock, Pending, SettledFor, Effective, Mining.Ready, Knows, ApplyPosting, CashAmount, WrittenOff;
    var token := m.yesToken.id;
    StreamedLength(h.ws, h.ms);
    var ws1, ms1, engine := DecidesToBuy(m, h, a, ta, b, tb, sold);
    var c := MiningOf(h, tb, engine);
    SellReady(m, h, a, ta, b, tb, sold, engine);
    ReadyKnows(c);
    StreamedHistory(ws1, ms1);
    MiningWritesOff(ws1, ms1, |ms1|, c, token);
    ws, ms := MinedThenStored(ws1, ms1, c, d);
    j, k := |h.ms|, |ms| - 1;
    StreamedHistory(ws, ms);
    RoundWhole(FIVE);
    assert ws[j] == ws1[j] == h.w && ms[j] == ms1[j];
    SameDropped(h.w, c.base, c.After(), token);
    TargetHit(ws, ms, j, k, token);
  }

  lemma SameDropped(w: World, aiming: World, w': World, token: TokenId)
    requires aiming.desk.postings == w.desk.postings
    ensures WrittenOff(w, w', token) == WrittenOff(aiming, w', token)
  {
  }

  /** A buy for a target of five, decided on at `j` and stored last, misses it by what was written off. */
  ghost predicate MissedFive(m: Market, ws: seq<World>, ms: seq<Move>, j: nat, k: nat, written: Micro) {
    && Streamed(ws, ms) && PlacedAndStored(ws, ms, j, k, m.yesToken.id) && |ms| == k + 1 && |ws| == k + 2
    && ms[j].action.desired.Target() == FIVE && ws[k].desk.engine.side == Buy
    && WrittenOff(ws[j], ws[k], m.yesToken.id) == written
    && Effective(ws[k + 1].desk.mgr, m.yesToken.id) == FIVE - written
  }

  const CRUMB: Micro := 5_000

  /** Before settlement: of ten shares all but half a hundredth are sold, and that half is written off. */
  lemma DustDropped(m: Market, a: OrderId, ta: TradeId, b: OrderId, tb: TradeId, d: OrderId)
    returns (ws: seq<World>, ms: seq<Move>, j: nat, k: nat)
    requires m.WellFormed() && a != b && d != a && d != b && ta != tb
    ensures MissedFive(m, ws, ms, j, k, CRUMB) && !ws[k].desk.closed
  {
    hide Stage.Reached, DecideOn, SameTrade, MissedFive, Clock;
    var g := Holds(m, a, ta, TEN);
    SnapshotOf(m, g.S());
    Decides(g.S(), m, CRUMB, Sell, TEN - CRUMB);
    var h := BuysOrSells(m, g, [a], [ta], CRUMB, b, Sell, TEN - CRUMB, tb, SECOND);
    assert [a] + [b] == [a, b] && [ta] + [tb] == [ta, tb] && ta in [ta];
    SettledStays(g, h, ta, TEN);
    ws, ms, j, k := SellMinedMeanwhile(m, h, a, ta, b, tb, TEN - CRUMB, d);
  }

  // --------------------------------------------------------------- after settlement

  /** Settlement pays out the whole holding, as the sell has matched nothing. */
  lemma PaysOut(c: Scene, a: OrderId, ta: TradeId) returns (next: Scene)
    requires Calm(c.base) && Knows(c.S(), c.base.store, [a], [ta]) && c.id != a && c.t != ta && c.M().WellFormed()
    requires c.side == Sell && c.shares == TEN && !c.late
    requires c.S().orders == [DoneOf(c.M(), a, Buy, TEN, ta)] && PositionOf(c.S(), c.M().yesToken.id).shares == TEN
    ensures var pay := Internal(Settles(c.M().yesToken.outcome));
            Possible(c.Stored(), pay) && Advance(c.Stored(), pay) == next.Stored()
    ensures Calm(next.base) && Knows(next.S(), next.base.store, [a], [ta]) && next.base.desk.closed
    ensures next == c.(base := next.base) && next.M() == c.M()
    ensures next.S().orders == c.S().orders && next.S().trades == c.S().trades && next.base.store == c.base.store
    ensures PositionOf(next.S(), c.M().yesToken.id).shares == 0
  {
    hide SettleMarket, DecideOn, HandleTradeEvent, SettleToken;
    var m, s, outcome := c.M(), c.With(c.Placed()), c.M().yesToken.outcome;
    YesPaid(c, a, ta);
    var after := SettleMarket(s, m, outcome).state;
    SettlementKeepsOrders(s, m, outcome);
    next := c.(base := c.base.(desk := c.base.desk.(
      mgr := c.S().(positions := after.positions), closed := true,
      postings := c.base.desk.postings + SettlementPostings(s, m, outcome))));
  }

  lemma YesPaid(c: Scene, a: OrderId, ta: TradeId)
    requires c.M().WellFormed() && c.side == Sell
    requires c.S().orders == [DoneOf(c.M(), a, Buy, TEN, ta)] && PositionOf(c.S(), c.M().yesToken.id).shares == TEN
    ensures var r := SettleMarket(c.With(c.Placed()), c.M(), c.M().yesToken.outcome);
            r.Settled? && PositionOf(r.state, c.M().yesToken.id).shares == 0
  {
    var m, s := c.M(), c.With(c.Placed());
    var token := m.yesToken.id;
    assert s.orders == [c.S().orders[0], c.Placed()];
    SumTwo(s.orders[0], s.orders[1], SettlingOf(token, Sell, s.trades));
    assert SettlingShares(s, token, Sell) == 0;
    var paid := SettleToken(s, token, true);
    SettleTokenKeeps(paid, m.noToken.id, false);
  }

  /** Ten shares are held and a sell of all of them is stored. */
  lemma TenOffered(m: Market, a: OrderId, ta: TradeId, b: OrderId, tb: TradeId)
    returns (ws: seq<World>, ms: seq<Move>, c: Scene)
    requires m.WellFormed() && a != b && ta != tb
    ensures c == Scene(c.base, b, Sell, TEN, tb, SECOND, false) && c.M() == m
    ensures Calm(c.base) && Knows(c.S(), c.base.store, [a], [ta])
    ensures c.S().orders == [DoneOf(m, a, Buy, TEN, ta)] && SettledFor(c.S(), c.base.store, ta, TEN)
    ensures PositionOf(c.S(), m.yesToken.id).shares == TEN
    ensures Streamed(ws, ms) && ws[|ms|] == c.Stored() && BetweenPolls(ms) && Clock(ms) <= SECOND && AllMined(c.base.store)
  {
    hide DecideOn, Streamed, Clock, Scene.Stored, BetweenPolls, SettledFor, AllMined;
    var g := Holds(m, a, ta, TEN);
    TenForSale(m, g, a, ta);
    c := Scene(g.w, b, Sell, TEN, tb, SECOND, false);
    KnowsNews(c, [a], [ta]);
    ws, ms := PlaceScene(g.ws, g.ms, c, 0);
  }

  lemma TenForSale(m: Market, g: Stage, a: OrderId, ta: TradeId)
    requires g.S().orders == [DoneOf(m, a, Buy, TEN, ta)] && SettledFor(g.S(), g.St(), ta, TEN) && g.Holding(m) == TEN
    ensures DecideOn(g.S(), Wish(m, 0), false) == Place(Sell, Taker, Price(Sell), TEN)
  {
    SnapshotOf(m, g.S());
    Decides(g.S(), m, 0, Sell, TEN);
  }

  /** And the market settles. */
  lemma PaidOutFirst(m: Market, a: OrderId, ta: TradeId, b: OrderId, tb: TradeId)
    returns (ws: seq<World>, ms: seq<Move>, c: Scene)
    requires m.WellFormed() && a != b && ta != tb
    ensures c == Scene(c.base, b, Sell, TEN, tb, SECOND, false) && c.M() == m
    ensures Calm(c.base) && Knows(c.S(), c.base.store, [a], [ta]) && c.base.desk.closed
    ensures c.S().orders == [DoneOf(m, a, Buy, TEN, ta)] && SettledFor(c.S(), c.base.store, ta, TEN)
    ensures PositionOf(c.S(), m.yesToken.id).shares == 0
    ensures Streamed(ws, ms) && ws[|ms|] == c.Stored() && BetweenPolls(ms) && Clock(ms) <= SECOND && AllMined(c.base.store)
  {
    hide Possible, Advance, DecideOn, Streamed, Clock, Scene.Stored, Knows, Calm, AllMined;
    var offered: Scene;
    ws, ms, offered := TenOffered(m, a, ta, b, tb);
    c := PaysOut(offered, a, ta);
    ws, ms := Goes(ws, ms, offered.Stored(), Internal(Settles(m.yesToken.outcome)), c.Stored());
  }

  /** What the sell finds when it is filled only then. */
  lemma FilledAfterPayout(m: Market, c: Scene, a: OrderId, ta: TradeId, ws: seq<World>, ms: seq<Move>) returns (h: Stage)
    requires m.WellFormed() && c == Scene(c.base, c.id, Sell, TEN, c.t, SECOND, false) && c.M() == m && c.id != a && c.t != ta
    requires Calm(c.base) && Knows(c.S(), c.base.store, [a], [ta]) && c.base.desk.closed
    requires c.S().orders == [DoneOf(m, a, Buy, TEN, ta)] && SettledFor(c.S(), c.base.store, ta, TEN)
    requires PositionOf(c.S(), m.yesToken.id).shares == 0
    requires Streamed(ws, ms) && ws[|ms|] == c.Stored() && BetweenPolls(ms) && Clock(ms) <= SECOND && AllMined(c.base.store)
    ensures SellDue(m, h, a, ta, c.id, c.t, TEN) && h.Holding(m) == 0 && h.w.desk.closed
  {
    hide Streamed, SellDue, Scene.Stored, Clock;
    KnowsNews(c, [a], [ta]);
    KnowsAlone(c, [a], [ta]);
    var ws', ms' := FillScene(ws, ms, c);
    h := Stage(ws', ms', c.After());
    SellDueAfter(m, c, a, ta, h);
  }

  lemma SellDueAfter(m: Market, c: Scene, a: OrderId, ta: TradeId, h: Stage)
    requires m.WellFormed() && c == Scene(c.base, c.id, Sell, TEN, c.t, SECOND, false) && c.M() == m && c.id != a && c.t != ta
    requires Calm(c.base) && Knows(c.S(), c.base.store, [a], [ta])
    requires c.S().orders == [DoneOf(m, a, Buy, TEN, ta)] && SettledFor(c.S(), c.base.store, ta, TEN)
    requires h.w == c.After() && Streamed(h.ws, h.ms) && h.ws[|h.ms|] == h.w
    requires BetweenPolls(h.ms) && Clock(h.ms) == FilledAt(SECOND)
    ensures SellDue(m, h, a, ta, c.id, c.t, TEN)
  {
    hide Streamed, Clock, Knows, SettledFor, Pending, Stage.Reached, Scene.FilledStore;
    ReachedAfter(c, [a], [ta], h);
    TradesAfter(c, ta, TEN);
    assert [a] + [c.id] == [a, c.id] && [ta] + [c.t] == [ta, c.t];
  }

  /** After settlement: the shares the sell takes have been paid out already. The effective position ends at fifteen. */
  lemma SoldAfterPayout(m: Market, a: OrderId, ta: TradeId, b: OrderId, tb: TradeId, d: OrderId)
    returns (ws: seq<World>, ms: seq<Move>, j: nat, k: nat)
    requires m.WellFormed() && a != b && d != a && d != b && ta != tb
    ensures MissedFive(m, ws, ms, j, k, -TEN) && ws[k].desk.closed
  {
    hide SellDue, MissedFive, Knows, Calm, SettledFor, Streamed, Clock, BetweenPolls, AllMined, Scene.Stored;
    var c: Scene;
    ws, ms, c := PaidOutFirst(m, a, ta, b, tb);
    var h := FilledAfterPayout(m, c, a, ta, ws, ms);
    ws, ms, j, k := SellMinedMeanwhile(m, h, a, ta, b, tb, TEN, d);
  }
}
