/**
 A run of the closed system that ends with two active orders of one token: the first order
 is filled and reported before its submit answer is handled, the engine places another, and
 the late answer makes the first active again.
 */
module WorldEarlyFill {
  import opened Desk
  import opened Domain
  import opened Engine
  import opened Manager
  import opened OneActive
  import opened Orders
  import opened World
  import opened WorldScenes
  import opened WorldStream

  /** The first order is bought and filled, and nobody has handled its submit answer. */
  lemma FilledUnanswered(m: Market, a: OrderId, ta: TradeId) returns (ws: seq<World>, ms: seq<Move>, c: Scene)
    requires m.WellFormed()
    ensures c.M() == m && c.id == a && c.t == ta && c.side == Buy && c.shares == FIVE && c.late
    ensures Calm(c.base) && Knows(c.S(), c.base.store, [], []) && c.S() == EMPTY
    ensures Streamed(ws, ms) && ws[|ms|] == c.After() && BetweenPolls(ms)
  {
    hide Streamed, DecideOn, Clock;
    var g := Starts(m);
    c := Scene(g.w, a, Buy, FIVE, ta, 0, true);
    KnowsNews(c, [], []);
    KnowsAlone(c, [], []);
    Decides(EMPTY, m, FIVE, Buy, FIVE);
    ws, ms := PlaceScene(g.ws, g.ms, c, FIVE);
    ws, ms := FillScene(ws, ms, c);
  }

  /** The fill counts, so five more are wanted. */
  lemma FiveMore(c: Scene)
    requires Calm(c.base) && Knows(c.S(), c.base.store, [], []) && c.S() == EMPTY && c.M().WellFormed()
    requires c.side == Buy && c.shares == FIVE
    ensures DecideOn(c.DoneState(), Wish(c.M(), TEN), false) == Place(Buy, Taker, Price(Buy), FIVE)
  {
    hide DecideOn, Knows;
    AfterFill(c, [], []);
    SnapshotOf(c.M(), c.DoneState());
    Decides(c.DoneState(), c.M(), TEN, Buy, FIVE);
  }

  /** And the second order is news. */
  lemma SecondIsNews(c: Scene, next: Scene)
    requires Calm(c.base) && Knows(c.S(), c.base.store, [], []) && c.M().WellFormed() && c.shares > 0
    requires next == Scene(c.After(), next.id, Buy, FIVE, next.t, 0, true) && next.id != c.id && next.t != c.t
    ensures next.News()
  {
    hide Knows, Scene.News, Scene.FilledStore, Scene.DoneState;
    KnowsNews(c, [], []);
    KnowsNews(next, [] + [c.id], [] + [c.t]);
  }

  /** A late answer makes its order active, whatever it was. */
  lemma LateAnswerHandled(w: World, i: nat)
    requires UniqueIds(w.desk.mgr.orders) && i < |w.desk.mgr.orders|
    requires var id := w.desk.mgr.orders[i].id; At(w.desk, id, InFlight) && id in w.submitted && w.submitted[id]
    ensures var o := w.desk.mgr.orders[i];
            Possible(w, SubmitAnswered(o.id)) &&
            Advance(w, SubmitAnswered(o.id)).desk.mgr.orders == w.desk.mgr.orders[i := OnSubmitSuccess(o)]
  {
    FindUnique(w.desk.mgr.orders, i);
  }

  predicate TwoActive(orders: seq<Order>) {
    |orders| == 2 && orders[0].IsActive() && orders[1].IsActive() && orders[0].token == orders[1].token
  }

  lemma TwoActiveIsNotOne(d: Desk)
    requires TwoActive(d.mgr.orders)
    ensures !OneInDesk(d)
  {
    var orders := d.mgr.orders;
    assert 0 <= 0 < 1 < |orders| && orders[0].IsActive() && orders[1].IsActive();
  }

  /** The run: it breaks the property, and its last move is the answer. */
  lemma EarlyFillOverMock(m: Market, a: OrderId, ta: TradeId, b: OrderId, tb: TradeId)
    returns (ws: seq<World>, ms: seq<Move>)
    requires m.WellFormed() && a != b && ta != tb
    ensures Streamed(ws, ms) && |ws| == |ms| + 1 && |ms| > 0 && ms[|ms| - 1] == SubmitAnswered(a)
    ensures TwoActive(ws[|ms|].desk.mgr.orders) && !OneInDesk(ws[|ms|].desk)
  {
    hide Possible, Advance, DecideOn, Streamed, Clock, OneInDesk;
    var c: Scene;
    ws, ms, c := FilledUnanswered(m, a, ta);
    var next := Scene(c.After(), b, Buy, FIVE, tb, 0, true);
    FiveMore(c);
    SecondIsNews(c, next);
    ws, ms := PlaceScene(ws, ms, next, TEN);
    assert next.Stored().desk.mgr.orders == [c.DoneOrder(), next.Placed()];
    LateAnswerHandled(next.Stored(), 0);
    var last := Advance(next.Stored(), SubmitAnswered(a));
    ws, ms := Goes(ws, ms, next.Stored(), SubmitAnswered(a), last);
    assert last.desk.mgr.orders == [OnSubmitSuccess(c.DoneOrder()), next.Placed()];
    TwoActiveIsNotOne(last.desk);
  }
}
