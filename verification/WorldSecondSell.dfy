/**
 A run of the closed system in which a constant target takes two sells: five shares are
 held and ten bought but not yet mined when the target becomes 0. The engine can offer
 five; the ten are mined before these are filled, and then it offers them as well.
 */
module WorldSecondSell {
  import opened Desk
  import opened Domain
  import opened Engine
  import opened Fees
  import opened Manager
  import opened MockStore
  import opened Positions
  import opened Rounding
  import opened World
  import opened WorldScenes
  import opened WorldStream
  import opened WorldTarget

  // The clock of the run: when the exchange creates the second and the third order.
  const SECOND: int := 2_000
  const THIRD: int := 3_100

  /** Ten more are bought; their trade is known but not mined. */
  lemma AwaitsTen(m: Market, a: OrderId, ta: TradeId, b: OrderId, tb: TradeId) returns (g: Stage)
    requires m.WellFormed() && a != b && ta != tb
    ensures g.Reached(m, [a, b], [ta, tb]) && !g.w.desk.closed && Clock(g.ms) == FilledAt(SECOND)
    ensures g.S().orders == [DoneOf(m, a, Buy, FIVE, ta), DoneOf(m, b, Buy, TEN, tb)]
    ensures SettledFor(g.S(), g.St(), ta, FIVE) && Pending(m, g.S(), g.St(), b, Buy, TEN, tb, SECOND) && g.Holding(m) == FIVE
  {
    hide Stage.Reached, DecideOn, SameTrade, Clock;
    var held := Holds(m, a, ta, FIVE);
    SnapshotOf(m, held.S());
    Decides(held.S(), m, FIVE + TEN, Buy, TEN);
    g := BuysOrSells(m, held, [a], [ta], FIVE + TEN, b, Buy, TEN, tb, SECOND);
    assert [a] + [b] == [a, b] && [ta] + [tb] == [ta, tb] && ta in [ta];
    SettledStays(held, g, ta, FIVE);
  }

  /** With the ten settling in, five can be sold. */
  lemma FiveForSale(m: Market, g: Stage, a: OrderId, ta: TradeId, b: OrderId, tb: TradeId)
    requires g.S().orders == [DoneOf(m, a, Buy, FIVE, ta), DoneOf(m, b, Buy, TEN, tb)]
    requires SettledFor(g.S(), g.St(), ta, FIVE) && Pending(m, g.S(), g.St(), b, Buy, TEN, tb, SECOND) && g.Holding(m) == FIVE
    ensures OpenSettling(g.S(), m.yesToken.id) == TEN
    ensures DecideOn(g.S(), Wish(m, 0), false) == Place(Sell, Taker, Price(Sell), FIVE)
  {
    SnapshotOf(m, g.S());
    Decides(g.S(), m, 0, Sell, FIVE);
  }

  /** Once they are mined and the five are sold, the ten can be. */
  lemma TenForSale(m: Market, h: Stage, a: OrderId, ta: TradeId, b: OrderId, tb: TradeId, c: OrderId, tc: TradeId)
    requires h.S().orders == [DoneOf(m, a, Buy, FIVE, ta), DoneOf(m, b, Buy, TEN, tb), DoneOf(m, c, Sell, FIVE, tc)]
    requires SettledFor(h.S(), h.St(), ta, FIVE) && SettledFor(h.S(), h.St(), tb, TEN)
    requires Pending(m, h.S(), h.St(), c, Sell, FIVE, tc, THIRD) && h.Holding(m) == FIVE + TEN
    ensures DecideOn(h.S(), Wish(m, 0), false) == Place(Sell, Taker, Price(Sell), TEN)
  {
    SnapshotOf(m, h.S());
    Decides(h.S(), m, 0, Sell, TEN);
  }

  /** The stage after mining the ten, were the third order not there. */
  lemma TenMined(m: Market, g: Stage, a: OrderId, ta: TradeId, b: OrderId, tb: TradeId, k: Mining)
    requires g.Reached(m, [a, b], [ta, tb]) && a != b && ta != tb && k == Mining(g.w, 1, tb, MinedAt(SECOND))
    requires g.S().orders == [DoneOf(m, a, Buy, FIVE, ta), DoneOf(m, b, Buy, TEN, tb)]
    requires SettledFor(g.S(), g.St(), ta, FIVE) && Pending(m, g.S(), g.St(), b, Buy, TEN, tb, SECOND) && g.Holding(m) == FIVE
    ensures k.Ready() && Calm(k.After()) && k.After().desk.market == m && k.After().desk.closed == g.w.desk.closed
    ensures var s, st := k.After().desk.mgr, k.After().store;
            && Knows(s, st, [a, b], [ta, tb]) && s.orders == g.S().orders && AllMined(st)
            && SettledFor(s, st, ta, FIVE) && SettledFor(s, st, tb, TEN) && PositionOf(s, m.yesToken.id).shares == FIVE + TEN
  {
    hide ApplyTrade, CashAmount, Streamed, Clock, Mining.Ready, AllMined, RecordTrade, Clamp, ApplyPosting;
    FirstIsMined(g, m, a, ta, b, tb);
    PendingReady(k, [a, b], [ta, tb], Buy, TEN, SECOND);
    AfterMine(k, [a, b], [ta, tb], TEN);
    assert ta in [ta, tb];
    BothMined(k.After().desk.mgr, k.After().store, a, ta, b, tb);
  }

  lemma FirstIsMined(g: Stage, m: Market, a: OrderId, ta: TradeId, b: OrderId, tb: TradeId)
    requires g.Reached(m, [a, b], [ta, tb]) && SettledFor(g.S(), g.St(), ta, FIVE)
    ensures OthersMined(g.St(), [ta, tb], tb)
  {
  }

  lemma BothMined(s: State, st: Store, a: OrderId, ta: TradeId, b: OrderId, tb: TradeId)
    requires Knows(s, st, [a, b], [ta, tb]) && SettledFor(s, st, ta, FIVE) && SettledFor(s, st, tb, TEN)
    ensures AllMined(st)
  {
  }

  /** Mining the ten while the third order is open leaves that order open on top of it. */
  lemma MinedWhileOpen(k: Mining, c: Scene, open: Mining)
    requires k.Ready() && c.base == k.base && c.News() && !c.late
    requires open == Mining(c.Open(), k.i, k.t, k.now) && k.now < FilledAt(c.at)
    ensures open.Ready() && open.After() == c.(base := k.After()).Open()
  {
    hide CashAmount, ApplyTrade, RecordTrade;
    assert open.Posted() == k.Posted();
    OpenKeepsUnique(c);
    var st := k.base.store;
    forall u | u in st.tradeIds && u != k.t
      ensures PromoteOne(open.base.store, u, k.now) == open.base.store
    {
      assert PromoteOne(st, u, k.now) == st;
    }
  }

  lemma OpenKeepsUnique(c: Scene)
    requires c.News() && UniqueIds(c.S().orders)
    ensures UniqueIds(c.Open().desk.mgr.orders)
  {
  }

  /** From the stored sell: it is sent, the ten are mined while it is open, and it is filled. */
  lemma MinedThenFilled(ws1: seq<World>, ms1: seq<Move>, x: Scene, k: Mining) returns (ws: seq<World>, ms: seq<Move>)
    requires x.News() && !x.late && k.Ready() && x.base == k.base && Streamed(ws1, ms1) && ws1[|ms1|] == x.Stored()
    requires BetweenPolls(ms1) && Clock(ms1) <= x.at <= k.now < FilledAt(x.at)
    requires x.(base := k.After()).News() && x.(base := k.After()).Alone()
    ensures Streamed(ws, ms) && BetweenPolls(ms) && Continues(ws1, ms1, ws, ms) && |ms| > |ms1|
    ensures ws[|ms|] == x.(base := k.After()).After()
  {
    hide Streamed, Clock, BetweenPolls, Mining.Ready, Scene.News, Scene.Alone, Mining.After, Continues;
    hide Scene.Stored, Scene.Open, Scene.After;
    ReadyKnows(k);
    var open, y := Mining(x.Open(), k.i, k.t, k.now), x.(base := k.After());
    MinedWhileOpen(k, x, open);
    var ws2, ms2 := OpenScene(ws1, ms1, x);
    var ws3, ms3 := MineScene(ws2, ms2, open);
    ws, ms := CrossScene(ws3, ms3, y);
    Chained(ws1, ms1, ws2, ms2, ws3, ms3);
    Chained(ws1, ms1, ws3, ms3, ws, ms);
    ContinuesLonger(ws1, ms1, ws3, ms3);
  }

  lemma ContinuesLonger(ws: seq<World>, ms: seq<Move>, ws': seq<World>, ms': seq<Move>)
    requires Continues(ws, ms, ws', ms')
    ensures |ms| <= |ms'|
  {
  }

  /** The target drops to 0: a sell of five is stored, the ten are mined, and the five are filled. */
  lemma SellsFive(m: Market, g: Stage, a: OrderId, ta: TradeId, b: OrderId, tb: TradeId, c: OrderId, tc: TradeId)
    returns (h: Stage)
    requires g.Reached(m, [a, b], [ta, tb]) && a != b && a != c && b != c && ta != tb && ta != tc && tb != tc
    requires Clock(g.ms) == FilledAt(SECOND) && !g.w.desk.closed
    requires g.S().orders == [DoneOf(m, a, Buy, FIVE, ta), DoneOf(m, b, Buy, TEN, tb)]
    requires SettledFor(g.S(), g.St(), ta, FIVE) && Pending(m, g.S(), g.St(), b, Buy, TEN, tb, SECOND) && g.Holding(m) == FIVE
    ensures OneOrder(g, h, 0, Sell, FIVE, c) && h.Reached(m, [a, b, c], [ta, tb, tc])
    ensures h.S().orders == [DoneOf(m, a, Buy, FIVE, ta), DoneOf(m, b, Buy, TEN, tb), DoneOf(m, c, Sell, FIVE, tc)]
    ensures SettledFor(h.S(), h.St(), ta, FIVE) && SettledFor(h.S(), h.St(), tb, TEN)
    ensures Pending(m, h.S(), h.St(), c, Sell, FIVE, tc, THIRD) && h.Holding(m) == FIVE + TEN
  {
    hide Streamed, DecideOn, Clock, BetweenPolls, Knows, SettledFor, Pending, AllMined, OneOrder, Continues;
    hide Mining.Ready, Mining.After, Scene.News, Scene.Alone, Scene.Stored, Scene.After;
    hide Scene.Stored, OneOrder, Continues;
    FiveForSale(m, g, a, ta, b, tb);
    var x, k := Scene(g.w, c, Sell, FIVE, tc, THIRD, false), Mining(g.w, 1, tb, MinedAt(SECOND));
    KnowsNews(x, [a, b], [ta, tb]);
    TenMined(m, g, a, ta, b, tb, k);
    ReadyKnows(k);
    var y := x.(base := k.After());
    FiveIsAlone(y, [a, b], [ta, tb]);
    StreamedLength(g.ws, g.ms);
    var ws1, ms1 := PlaceScene(g.ws, g.ms, x, 0);
    var ws, ms := MinedThenFilled(ws1, ms1, x, k);
    h := Stage(ws, ms, y.After());
    FiveSold(m, y, a, ta, b, tb, h);
    Sequel(g, ws1, ms1, h, c);
  }

  lemma FiveIsAlone(y: Scene, ids: seq<OrderId>, ts: seq<TradeId>)
    requires Calm(y.base) && Knows(y.S(), y.base.store, ids, ts) && AllMined(y.base.store)
    requires y.id !in ids && y.t !in ts && y.M().WellFormed() && y.shares > 0
    ensures y.News() && y.Alone()
  {
    KnowsNews(y, ids, ts);
  }

  lemma FiveSold(m: Market, y: Scene, a: OrderId, ta: TradeId, b: OrderId, tb: TradeId, h: Stage)
    requires Calm(y.base) && Knows(y.S(), y.base.store, [a, b], [ta, tb]) && y.M() == m && m.WellFormed()
    requires y == Scene(y.base, y.id, Sell, FIVE, y.t, THIRD, false) && y.id !in [a, b] && y.t != ta && y.t != tb
    requires y.S().orders == [DoneOf(m, a, Buy, FIVE, ta), DoneOf(m, b, Buy, TEN, tb)]
    requires SettledFor(y.S(), y.base.store, ta, FIVE) && SettledFor(y.S(), y.base.store, tb, TEN)
    requires h.w == y.After() && Streamed(h.ws, h.ms) && h.ws[|h.ms|] == h.w && BetweenPolls(h.ms)
    ensures h.Reached(m, [a, b, y.id], [ta, tb, y.t]) && h.Holding(m) == PositionOf(y.S(), m.yesToken.id).shares
    ensures h.w.desk.closed == y.base.desk.closed
    ensures h.S().orders == [DoneOf(m, a, Buy, FIVE, ta), DoneOf(m, b, Buy, TEN, tb), DoneOf(m, y.id, Sell, FIVE, y.t)]
    ensures SettledFor(h.S(), h.St(), ta, FIVE) && SettledFor(h.S(), h.St(), tb, TEN)
    ensures Pending(m, h.S(), h.St(), y.id, Sell, FIVE, y.t, THIRD)
  {
    hide Streamed, Knows, SettledFor, Pending, Stage.Reached, Scene.FilledStore, BetweenPolls;
    ReachedAfter(y, [a, b], [ta, tb], h);
    TradesAfter(y, ta, FIVE);
    TradesAfter(y, tb, TEN);
    assert [a, b] + [y.id] == [a, b, y.id] && [ta, tb] + [y.t] == [ta, tb, y.t];
  }

  /** What follows the stored order is the exchange's doing. */
  lemma Sequel(g: Stage, ws1: seq<World>, ms1: seq<Move>, h: Stage, c: OrderId)
    requires |g.ws| == |g.ms| + 1 && g.ws <= ws1 && Continues(ws1, ms1, h.ws, h.ms) && |h.ms| > |ms1|
    requires ms1 == g.ms + [Internal(Observe(Wish(g.w.desk.market, 0), false)), Internal(CreateReturns(c))]
    requires Buying(ws1[|g.ms| + 1].desk, Sell, FIVE) && ws1[|g.ms| + 1].desk.market == g.w.desk.market
    requires ws1[|g.ms| + 1].desk.closed == g.w.desk.closed == h.w.desk.closed
    ensures OneOrder(g, h, 0, Sell, FIVE, c)
  {
    assert h.ms[..|g.ms| + 2] == ms1;
    assert h.ws[|g.ms| + 1] == ws1[|g.ms| + 1];
  }

  /**
   The run: at `j` the engine decides on a sell for target 0 with ten shares settling in, at
   `k` it is stored, the target stays 0, and the last state is about to store a second sell.
   */
  lemma SecondSell(m: Market, a: OrderId, ta: TradeId, b: OrderId, tb: TradeId, c: OrderId, tc: TradeId)
    returns (ws: seq<World>, ms: seq<Move>, j: nat, k: nat)
    requires m.WellFormed() && a != b && a != c && b != c && ta != tb && ta != tc && tb != tc
    ensures Streamed(ws, ms)
    ensures |ws| == |ms| + 1 && ConstantTarget(ws, ms, j, k, |ms|, m.yesToken.id, 0)
    ensures OpenSettling(ws[j].desk.mgr, m.yesToken.id) == TEN && ws[k].desk.engine.side == Sell
    ensures var e := ws[|ms|].desk.engine; e.Creating? && e.token == m.yesToken && e.side == Sell && e.shares == TEN
  {
    hide DecideOn, OpenSettling, Streamed, BuildPosition, Clock, OneOrder, SettledFor, Pending;
    var g := AwaitsTen(m, a, ta, b, tb);
    FiveForSale(m, g, a, ta, b, tb);
    var h := SellsFive(m, g, a, ta, b, tb, c, tc);
    TenForSale(m, h, a, ta, b, tb, c, tc);
    ws, ms := DecidesAgain(m, h);
    j, k := |g.ms|, |g.ms| + 1;
    TargetKept(m, g, h, ws, ms, c);
  }

  lemma DecidesAgain(m: Market, h: Stage) returns (ws: seq<World>, ms: seq<Move>)
    requires Streamed(h.ws, h.ms) && h.ws[|h.ms|] == h.w && h.w.desk.market == m && Calm(h.w) && BetweenPolls(h.ms)
    requires DecideOn(h.S(), Wish(m, 0), false) == Place(Sell, Taker, Price(Sell), TEN)
    ensures Streamed(ws, ms) && h.ws <= ws && ms == h.ms + [Internal(Observe(Wish(m, 0), false))]
    ensures |ws| == |ms| + 1 && Buying(ws[|ms|].desk, Sell, TEN) && ws[|ms|].desk.market == m
  {
    hide DecideOn, Streamed, Clock, Possible, Advance;
    StreamedLength(h.ws, h.ms);
    Decided(h.w, 0, Sell, TEN);
    var last := Internal(Observe(Wish(m, 0), false));
    ws, ms := Goes(h.ws, h.ms, h.w, last, h.w.(desk := h.w.desk.(engine := NextEngine(h.w.desk, last.action))));
  }

  lemma TargetKept(m: Market, g: Stage, h: Stage, ws: seq<World>, ms: seq<Move>, c: OrderId)
    requires OneOrder(g, h, 0, Sell, FIVE, c) && !g.w.desk.closed && g.w.desk.market == m
    requires Streamed(ws, ms) && h.ws <= ws && ms == h.ms + [Internal(Observe(Wish(m, 0), false))] && |ws| == |ms| + 1
    requires g.ws[|g.ms|] == g.w
    ensures ConstantTarget(ws, ms, |g.ms|, |g.ms| + 1, |ms|, m.yesToken.id, 0)
    ensures ws[|g.ms|] == g.w && ws[|g.ms| + 1].desk.engine.side == Sell
  {
    hide Possible, Advance, Begins, AsStreamed;
    RoundWhole(0);
    var j, k := |g.ms|, |g.ms| + 1;
    assert ms[j] == h.ms[..|g.ms| + 2][j] && ms[k] == h.ms[..|g.ms| + 2][k];
    assert ws[j] == g.ws[j] && ws[k] == h.ws[k];
  }
}
