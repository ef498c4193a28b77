/**
 Concrete runs of the closed system, move by move: an order is placed, sent, filled and
 reported, and its trade is mined. The runs of the modules that follow are built of these,
 and all of them are runs that the mock stream can produce.
 */
module WorldScenes {
  import opened Bus
  import opened Desk
  import opened Domain
  import opened Engine
  import opened Fees
  import opened Manager
  import opened MockStore
  import opened MockStream
  import opened Orders
  import opened Positions
  import opened Rounding
  import opened Seqs
  import opened World
  import opened WorldStream

  const FIVE: Micro := 5_000_000
  const TEN: Micro := 10_000_000

  /** A history that has reached `w` goes on with any possible move that the stream allows then. */
  lemma Goes(ws: seq<World>, ms: seq<Move>, w: World, m: Move, next: World) returns (ws': seq<World>, ms': seq<Move>)
    requires Streamed(ws, ms) && ws[|ms|] == w && Possible(w, m) && Advance(w, m) == next && AsStreamed(w, ms, m)
    ensures Streamed(ws', ms') && ws' == ws + [next] && ms' == ms + [m] && |ws'| == |ms'| + 1 && ws'[|ms'|] == next
    ensures Clock(ms') == ClockAfter(Clock(ms), m)
  {
    hide Possible, Advance, Begins, AsStreamed, Clock;
    ws', ms' := ws + [next], ms + [m];
    StreamedOn(ws, ms, m, next);
  }

  function Idle1000<T>(): Queue<T> { Queue(1000, Block, [], 0) }

  /** Nothing is on its way from the exchange to the core. */
  predicate Still(w: World) {
    w.orderQueue == Idle1000() && w.tradeQueue == Idle1000() && w.batch == [] && w.store.pending == []
  }

  /** Nor is the core doing anything. */
  predicate Calm(w: World) {
    Still(w) && w.desk.engine == Idle && w.desk.submits == map[] && w.submitted == map[]
  }

  /** The exchange's trade of a fill, and the manager's before it is mined. */
  function MadeOf(m: Market, id: OrderId, side: Side, shares: Micro, t: TradeId, at: int): MockTrade {
    MockTrade(t, id, m.id, m.yesToken.id, side, Taker, Price(side), shares, TradeMatched, FilledAt(at), MinedAt(at))
  }

  /** When a taker order created at `at` is filled, and when its trade may be mined. */
  function FilledAt(at: int): int { at + TAKER_FILL_DELAY }

  function MinedAt(at: int): int { FilledAt(at) + SETTLE_DELAY }

  function KnownOf(m: Market, id: OrderId, side: Side, shares: Micro, t: TradeId): Trade {
    Trade(t, m.yesToken.id, id, TradePending, shares, side, Taker, Price(side), shares, 0, 0)
  }

  /** A filled order with its trade. */
  function DoneOf(m: Market, id: OrderId, side: Side, shares: Micro, t: TradeId): Order {
    NewOrder(id, m, m.yesToken, side, Taker, Price(side), shares).(
      status := FullMatched, pending := 0, matched := shares, tradeIds := [t])
  }

  /**
   One order and its fill, from the world `base` in which the engine is about to store it:
   its side and size, its trade and the time at which the exchange creates it. When it is
   `late`, the submit answer is still to be handled after all of that.
   */
  datatype Scene = Scene(base: World, id: OrderId, side: Side, shares: Micro, t: TradeId, at: int, late: bool) {
    function M(): Market { base.desk.market }

    function S(): State { base.desk.mgr }

    /** Neither the order nor the trade has been heard of. */
    ghost predicate News() {
      && Still(base) && M().WellFormed() && shares > 0
      && !Tracks(S(), id) && id !in base.store.orders && id !in base.store.orderIds
      && id !in base.desk.submits && id !in base.submitted
      && t !in S().trades && t !in base.store.trades && t !in base.store.tradeIds
    }

    function Placed(): Order { NewOrder(id, M(), M().yesToken, side, Taker, Price(side), shares) }

    /** The order open at the exchange. */
    function OpenOrder(): Order { if late then Placed() else Placed().(status := ZeroMatched) }

    /** The order once it is filled. */
    function FullOrder(): Order { Placed().(status := FullMatched, pending := 0, matched := shares) }

    /** And once its trade is known. */
    function DoneOrder(): Order { DoneOf(M(), id, side, shares, t) }

    function Twin(): MockOrder { CreateOrder(id, M().yesToken, side, Taker, shares, Price(side), at) }

    function FilledTwin(): MockOrder { Twin().(matched := shares, status := Matched, tradeIds := [t]) }

    function MadeTrade(): MockTrade { MadeOf(M(), id, side, shares, t, at) }

    function KnownTrade(): Trade { KnownOf(M(), id, side, shares, t) }

    function SentStore(): Store {
      Store(base.store.orders[id := Twin()], base.store.orderIds + [id], base.store.trades, base.store.tradeIds, [])
    }

    function FilledStore(): Store {
      Store(base.store.orders[id := FilledTwin()], base.store.orderIds + [id],
            base.store.trades[t := MadeTrade()], base.store.tradeIds + [t], [])
    }

    function Reports(): seq<Event> {
      [OrderFeed(OrderEventOf(FilledTwin())), TradeFeed(TradeEventOf(MadeTrade()))]
    }

    function With(o: Order): State { S().(orders := S().orders + [o]) }

    function DoneState(): State {
      State(S().orders + [DoneOrder()], S().trades[t := KnownTrade()], S().positions)
    }

    /** The core with its submit worker running or done. */
    function Core(s: State, running: bool): Desk {
      base.desk.(mgr := s, submits := if running then base.desk.submits[id := InFlight] else base.desk.submits)
    }

    function Stored(): World { base.(desk := Core(With(Placed()), true)) }

    function Sent(): World {
      base.(desk := Core(With(Placed()), true), store := SentStore(), submitted := base.submitted[id := true])
    }

    /** When the order is due, nothing else is. */
    ghost predicate Alone() {
      && (forall u :: u in base.store.orders ==> base.store.orders[u].status == Matched)
      && NothingDue(base.store, FilledAt(at))
    }

    /** The order is sent, and its answer handled unless it is late. */
    function Open(): World {
      base.(desk := Core(With(OpenOrder()), late), store := SentStore(), submitted := Answers())
    }

    function Answers(): map<OrderId, bool> { if late then base.submitted[id := true] else base.submitted }

    function Crossed(): World { Open().(store := FilledStore().(pending := Reports())) }

    function Drained(): World { Open().(store := FilledStore(), batch := Reports()) }

    function HalfPublished(): World {
      Open().(store := FilledStore(), batch := Reports()[1..],
              orderQueue := Idle1000().(items := [OrderEventOf(FilledTwin())]))
    }

    function Published(): World {
      HalfPublished().(batch := [], tradeQueue := Idle1000().(items := [TradeEventOf(MadeTrade())]))
    }

    function Reported(): World {
      Published().(desk := Core(With(FullOrder()), late), orderQueue := Idle1000())
    }

    function After(): World {
      base.(desk := Core(DoneState(), late), store := FilledStore(), submitted := Answers(),
            delivered := base.delivered + [TradeEventOf(MadeTrade())])
    }
  }

  /** No trade can be mined yet. */
  ghost predicate NothingDue(st: Store, now: int) {
    forall u :: u in st.trades ==> st.trades[u].status != TradeMatched || st.trades[u].minedDue > now
  }

  // ------------------------------------------------------------ the single moves

  /** The engine takes a decision to place an order. */
  lemma Decided(w: World, want: Micro, side: Side, shares: Micro)
    requires Still(w) && w.desk.engine == Idle
    requires DecideOn(w.desk.mgr, Wish(w.desk.market, want), false) == Place(side, Taker, Price(side), shares)
    ensures var look := Internal(Observe(Wish(w.desk.market, want), false));
            var aiming := w.(desk := w.desk.(engine := NextEngine(w.desk, look.action)));
            && Possible(w, look) && Advance(w, look) == aiming && Buying(aiming.desk, side, shares)
  {
    hide DecideOn, BuildPosition;
  }

  predicate Buying(d: Desk, side: Side, shares: Micro) {
    && d.engine.Creating? && d.engine.token == d.market.yesToken && d.engine.side == side
    && d.engine.role == Taker && d.engine.price == Price(side) && d.engine.shares == shares
  }

  /** And stores the order. */
  lemma Places(c: Scene, engine: EngineStage)
    requires c.News() && c.base.desk.engine == Idle && Buying(c.base.desk.(engine := engine), c.side, c.shares)
    ensures var aiming := c.base.(desk := c.base.desk.(engine := engine));
            Possible(aiming, Internal(CreateReturns(c.id))) && Advance(aiming, Internal(CreateReturns(c.id))) == c.Stored()
  {
  }

  /** A block on the order stored last. */
  lemma LastStep(s: State, o: Order, st: OrderStep)
    ensures UpdateOrder(s.(orders := s.orders + [o]), o.id, st) == s.(orders := s.orders + [Step(o, st)])
    ensures Find(s.orders + [o], o.id) == |s.orders|
  {
    assert (s.orders + [o])[|s.orders| := Step(o, st)] == s.orders + [Step(o, st)];
  }

  lemma Sends(c: Scene)
    requires c.News()
    ensures Possible(c.Stored(), StoreSubmits(c.id, c.at)) && Advance(c.Stored(), StoreSubmits(c.id, c.at)) == c.Sent()
  {
  }

  lemma Answers(c: Scene)
    requires c.News() && !c.late
    ensures Possible(c.Sent(), SubmitAnswered(c.id)) && Advance(c.Sent(), SubmitAnswered(c.id)) == c.Open()
  {
    hide Act, Scene.SentStore, Scene.With, Scene.OpenOrder;
    AnswerActs(c);
    assert c.base.submitted[c.id := true] - {c.id} == c.base.submitted;
  }

  lemma AnswerActs(c: Scene)
    requires c.News() && !c.late
    ensures Enabled(c.Sent().desk, SubmitReturns(c.id, true))
    ensures Act(c.Sent().desk, SubmitReturns(c.id, true)) == c.Open().desk
  {
    hide HandleTradeEvent, SettleMarket, DecideOn, OnOrderEvent, CancelAnswerOf;
    LastStep(c.S(), c.Placed(), SubmitSuccess);
    assert c.base.desk.submits[c.id := InFlight] - {c.id} == c.base.desk.submits;
  }

  lemma Fills(c: Scene)
    requires c.News()
    ensures var m := Matches(c.id, c.t, Price(c.side), FilledAt(c.at), SETTLE_DELAY);
            Possible(c.Open(), m) && Advance(c.Open(), m) == c.Crossed()
    ensures c.id in c.Open().store.orders
    ensures var o := c.Open().store.orders[c.id]; Due(o, FilledAt(c.at)) && o.price == Price(c.side)
  {
    var now := FilledAt(c.at);
    assert FilledOrder(c.Twin(), c.t) == c.FilledTwin() by { assert [] + [c.t] == [c.t]; }
    assert TradeOf(c.Twin(), c.t, Price(c.side), now, SETTLE_DELAY) == c.MadeTrade();
    assert c.SentStore().orders[c.id := c.FilledTwin()] == c.FilledStore().orders;
    assert MarkMatched(c.SentStore(), c.id, c.t, Price(c.side), now, SETTLE_DELAY) == c.Crossed().store by {
      assert [] + c.Reports() == c.Reports();
    }
  }

  lemma {:induction false} PromotesNothing(st: Store, ids: seq<TradeId>, now: int)
    requires NothingDue(st, now)
    ensures PromoteAll(st, ids, now) == st
  {
    if ids != [] {
      PromotesNothing(st, ids[..|ids| - 1], now);
    }
  }

  /** The poll that fills the order mines nothing, its own trade included. */
  lemma Promotes(c: Scene)
    requires c.News() && c.Alone()
    ensures var m := Mines(FilledAt(c.at)); Possible(c.Crossed(), m) && Advance(c.Crossed(), m) == c.Crossed()
    ensures NoneDue(c.Crossed().store, FilledAt(c.at))
  {
    hide MarkMatched, MockStore.Cancel;
    var st := c.Crossed().store;
    assert NothingDue(st, FilledAt(c.at));
    PromotesNothing(st, st.tradeIds, FilledAt(c.at));
  }

  lemma Delivers(c: Scene)
    requires c.News()
    ensures Possible(c.Crossed(), Drains) && Advance(c.Crossed(), Drains) == c.Drained()
    ensures Possible(c.Drained(), Publishes) && Advance(c.Drained(), Publishes) == c.HalfPublished()
    ensures Possible(c.HalfPublished(), Publishes) && Advance(c.HalfPublished(), Publishes) == c.Published()
  {
    hide HandleTradeEvent, SettleMarket, DecideOn, OnOrderEvent, CancelAnswerOf, MockStore.Cancel, MarkMatched, PromoteMined;
    hide Scene.SentStore, Scene.Placed, Scene.FilledTwin, Scene.MadeTrade, Scene.OpenOrder;
    assert c.Reports()[1..] == [c.Reports()[1]] && c.Reports()[1..][1..] == [];
  }

  lemma TakesOrder(c: Scene)
    requires c.News()
    ensures Possible(c.Published(), OrderTaken) && Advance(c.Published(), OrderTaken) == c.Reported()
  {
    hide HandleTradeEvent, SettleMarket, DecideOn, CancelAnswerOf, MockStore.Cancel, MarkMatched, PromoteMined, Deliver;
    hide OnOrderEvent;
    var o := c.OpenOrder();
    LastStep(c.S(), o, Feed(OrderEventOf(c.FilledTwin())));
    ReportFills(c);
  }

  lemma ReportFills(c: Scene)
    requires c.News()
    ensures Step(c.OpenOrder(), Feed(OrderEventOf(c.FilledTwin()))) == c.FullOrder()
  {
  }

  lemma TakesTrade(c: Scene)
    requires c.News()
    ensures Possible(c.Reported(), TradeTaken) && Advance(c.Reported(), TradeTaken) == c.After()
  {
    hide HandleTradeEvent, SettleMarket, DecideOn, OnOrderEvent, CancelAnswerOf, MarkMatched, PromoteMined, Deliver;
    RecordsTrade(c);
  }

  lemma RecordsTrade(c: Scene)
    requires c.News()
    ensures var s, e := c.With(c.FullOrder()), TradeEventOf(c.MadeTrade());
            HandleTradeEvent(s, e) == c.DoneState() && !Confirms(s, e)
  {
    var o, e := c.FullOrder(), TradeEventOf(c.MadeTrade());
    assert (c.S().orders + [o])[|c.S().orders| := c.DoneOrder()] == c.S().orders + [c.DoneOrder()];
    assert AddTradeId([], c.t) == [c.t];
    assert RecordTrade(PriorTrade(c.With(o), e), e) == c.KnownTrade();
  }

  // ------------------------------------------------------------------ the scenes

  /** Everything in `ws` and `ms` is kept, and what is new does not come from the core itself. */
  ghost predicate Continues(ws: seq<World>, ms: seq<Move>, ws': seq<World>, ms': seq<Move>) {
    && |ws| == |ms| + 1 && |ws'| == |ms'| + 1 && ws <= ws' && ms <= ms'
    && forall i :: |ms| <= i < |ms'| ==> !ms'[i].Internal?
  }

  lemma ContinuesOn(ws: seq<World>, ms: seq<Move>, ws': seq<World>, ms': seq<Move>, m: Move, next: World)
    requires Continues(ws, ms, ws', ms') && !m.Internal?
    ensures Continues(ws, ms, ws' + [next], ms' + [m])
  {
  }

  /** From the stored order to the order open at the exchange. */
  lemma OpenScene(ws: seq<World>, ms: seq<Move>, c: Scene) returns (ws': seq<World>, ms': seq<Move>)
    requires c.News() && Streamed(ws, ms) && ws[|ms|] == c.Stored() && BetweenPolls(ms) && Clock(ms) <= c.at
    ensures Streamed(ws', ms') && Continues(ws, ms, ws', ms') && ws'[|ms'|] == c.Open()
    ensures BetweenPolls(ms') && Clock(ms') == c.at
  {
    hide Possible, Advance, Streamed, Clock;
    Sends(c);
    StreamedLength(ws, ms);
    ws', ms' := GoesOn(ws, ms, ws, ms, c.Stored(), StoreSubmits(c.id, c.at), c.Sent());
    if !c.late {
      Answers(c);
      ws', ms' := GoesOn(ws, ms, ws', ms', c.Sent(), SubmitAnswered(c.id), c.Open());
    }
  }

  lemma StreamedLength(ws: seq<World>, ms: seq<Move>)
    requires Streamed(ws, ms)
    ensures |ws| == |ms| + 1
  {
  }

  /** One poll fills it and its reports are handled. */
  lemma CrossScene(ws: seq<World>, ms: seq<Move>, c: Scene) returns (ws': seq<World>, ms': seq<Move>)
    requires c.News() && c.Alone() && Streamed(ws, ms) && ws[|ms|] == c.Open()
    requires BetweenPolls(ms) && Clock(ms) <= FilledAt(c.at)
    ensures Streamed(ws', ms') && Continues(ws, ms, ws', ms') && ws'[|ms'|] == c.After()
    ensures BetweenPolls(ms') && Clock(ms') == FilledAt(c.at) && |ms'| > |ms|
  {
    hide Possible, Advance, Streamed, Clock, NoneDue, Due, Scene.News, Scene.Alone, Scene.Open, Scene.Crossed;
    hide Scene.Drained, Scene.HalfPublished, Scene.Published, Scene.Reported, Scene.After;
    var now := FilledAt(c.at);
    StreamedLength(ws, ms);
    Fills(c);
    Promotes(c);
    Delivers(c);
    TakesOrder(c);
    TakesTrade(c);
    ws', ms' := GoesOn(ws, ms, ws, ms, c.Open(), Matches(c.id, c.t, Price(c.side), now, SETTLE_DELAY), c.Crossed());
    ws', ms' := GoesOn(ws, ms, ws', ms', c.Crossed(), Mines(now), c.Crossed());
    ws', ms' := GoesOn(ws, ms, ws', ms', c.Crossed(), Drains, c.Drained());
    ws', ms' := GoesOn(ws, ms, ws', ms', c.Drained(), Publishes, c.HalfPublished());
    ws', ms' := GoesOn(ws, ms, ws', ms', c.HalfPublished(), Publishes, c.Published());
    ws', ms' := GoesOn(ws, ms, ws', ms', c.Published(), OrderTaken, c.Reported());
    ws', ms' := GoesOn(ws, ms, ws', ms', c.Reported(), TradeTaken, c.After());
  }

  /** From the stored order to its fill and its known trade. */
  lemma FillScene(ws: seq<World>, ms: seq<Move>, c: Scene) returns (ws': seq<World>, ms': seq<Move>)
    requires c.News() && c.Alone() && Streamed(ws, ms) && ws[|ms|] == c.Stored() && BetweenPolls(ms) && Clock(ms) <= c.at
    ensures Streamed(ws', ms') && Continues(ws, ms, ws', ms') && ws'[|ms'|] == c.After()
    ensures BetweenPolls(ms') && Clock(ms') == FilledAt(c.at) && |ms'| > |ms|
  {
    hide Streamed, Clock, BetweenPolls, Scene.News, Scene.Alone, Scene.Stored, Scene.Open, Scene.After;
    var ws1, ms1 := OpenScene(ws, ms, c);
    ws', ms' := CrossScene(ws1, ms1, c);
    Chained(ws, ms, ws1, ms1, ws', ms');
  }

  lemma Chained(ws: seq<World>, ms: seq<Move>, ws1: seq<World>, ms1: seq<Move>, ws': seq<World>, ms': seq<Move>)
    requires Continues(ws, ms, ws1, ms1) && Continues(ws1, ms1, ws', ms')
    ensures Continues(ws, ms, ws', ms')
  {
    forall i | |ms| <= i < |ms'|
      ensures !ms'[i].Internal?
    {
      if i < |ms1| { assert ms'[i] == ms1[i]; }
    }
  }

  lemma GoesOn(ws: seq<World>, ms: seq<Move>, ws': seq<World>, ms': seq<Move>, w: World, m: Move, next: World)
    returns (ws'': seq<World>, ms'': seq<Move>)
    requires Streamed(ws', ms') && Continues(ws, ms, ws', ms') && ws'[|ms'|] == w && !m.Internal?
    requires Possible(w, m) && Advance(w, m) == next && AsStreamed(w, ms', m)
    ensures Streamed(ws'', ms'') && Continues(ws, ms, ws'', ms'') && ws''[|ms''|] == next
    ensures Clock(ms'') == ClockAfter(Clock(ms'), m) && |ms''| > |ms| && ms''[|ms''| - 1] == m
  {
    hide Possible, Advance, Streamed, AsStreamed, Clock;
    ws'', ms'' := Goes(ws', ms', w, m, next);
    ContinuesOn(ws, ms, ws', ms', m, next);
  }

  // ------------------------------------------------------------------- mining

  /** Of the trades in `ids` only `t` can be mined by now. */
  ghost predicate OnlyDue(st: Store, ids: seq<TradeId>, t: TradeId, now: int) {
    && t in st.trades && st.trades[t].status == TradeMatched && st.trades[t].minedDue <= now
    && (forall i, j :: 0 <= i < j < |ids| ==> ids[i] != ids[j])
    && (forall u :: u in ids && u != t ==> PromoteOne(st, u, now) == st)
  }

  lemma {:induction false} MinesOnly(st: Store, ids: seq<TradeId>, t: TradeId, now: int)
    requires OnlyDue(st, ids, t, now)
    ensures PromoteAll(st, ids, now) == if t in ids then PromoteOne(st, t, now) else st
  {
    if ids != [] {
      var n := |ids| - 1;
      assert ids[n] in ids && forall u :: u in ids <==> u in ids[..n] || u == ids[n];
      MinesOnly(st, ids[..n], t, now);
      if t in ids[..n] {
        assert ids[n] != t && PromoteOne(st, ids[n], now) == st;
        assert ids[n] in st.trades ==> PromoteOne(st, t, now).trades[ids[n]] == st.trades[ids[n]];
      }
    }
  }

  /** A known trade of the order at `i`, and its store, about to be mined at `now`. */
  datatype Mining = Mining(base: World, i: nat, t: TradeId, now: int) {
    function M(): Market { base.desk.market }

    function S(): State { base.desk.mgr }

    ghost predicate Ready() {
      var st, token := base.store, M().yesToken.id;
      && Still(base) && UniqueIds(S().orders) && i < |S().orders|
      && S().orders[i].market == M() && S().orders[i].token == M().yesToken
      && t in st.tradeIds && OnlyDue(st, st.tradeIds, t, now) && NoneDue(st, now)
      && st.trades[t].id == t && st.trades[t].orderId == S().orders[i].id
      && st.trades[t].marketId == M().id && st.trades[t].tokenId == token
      && t in S().trades && S().trades[t].status == TradePending && S().trades[t].tokenId == token
      && S().orders[i].tradeIds == [t]
    }

    function MinedTrade(): MockTrade
      requires t in base.store.trades
    {
      base.store.trades[t].(status := Mined, updatedTs := now)
    }

    function Event(): TradeEvent
      requires t in base.store.trades
    {
      TradeEventOf(MinedTrade())
    }

    function MinedStore(): Store
      requires t in base.store.trades
    {
      base.store.(trades := base.store.trades[t := MinedTrade()])
    }

    function Emitted(): World
      requires t in base.store.trades
    {
      base.(store := MinedStore().(pending := [TradeFeed(Event())]))
    }

    function Drained(): World
      requires t in base.store.trades
    {
      base.(store := MinedStore(), batch := [TradeFeed(Event())])
    }

    function Published(): World
      requires t in base.store.trades
    {
      base.(store := MinedStore(), tradeQueue := Idle1000().(items := [Event()]))
    }

    function Posted(): Posting
      requires t in base.store.trades && t in S().trades
    {
      var e := Event();
      Fill(t, M().yesToken.id, S().trades[t].side, CashAmount(M(), e.side, e.role, e.shares, e.price), e.shares)
    }

    /** The position is what the confirmed trade makes of it, and the trade is a success. */
    function After(): World
      requires t in base.store.trades && t in S().trades
    {
      var confirmed := S().(trades := S().trades[t := RecordTrade(S().trades[t], Event())]);
      base.(desk := base.desk.(mgr := ApplyPosting(confirmed, Posted()), postings := base.desk.postings + [Posted()]),
            store := MinedStore(), delivered := base.delivered + [Event()])
    }
  }

  lemma ReadyKnows(k: Mining)
    requires k.Ready()
    ensures k.t in k.base.store.trades && k.t in k.S().trades
  {
  }

  lemma Emits(c: Mining)
    requires c.Ready()
    ensures Possible(c.base, Mines(c.now)) && Advance(c.base, Mines(c.now)) == c.Emitted()
  {
    MinesOnly(c.base.store, c.base.store.tradeIds, c.t, c.now);
    assert [] + [TradeFeed(c.Event())] == [TradeFeed(c.Event())];
  }

  lemma Transports(c: Mining)
    requires c.Ready()
    ensures Possible(c.Emitted(), Drains) && Advance(c.Emitted(), Drains) == c.Drained()
    ensures Possible(c.Drained(), Publishes) && Advance(c.Drained(), Publishes) == c.Published()
  {
    assert [TradeFeed(c.Event())][1..] == [];
  }

  lemma Confirmed(c: Mining)
    requires c.Ready()
    ensures Possible(c.Published(), TradeTaken) && Advance(c.Published(), TradeTaken) == c.After()
  {
    hide HandleTradeEvent, Confirms, PostingFor, SettleMarket, DecideOn, OnOrderEvent, MarkMatched, PromoteMined, Deliver;
    ConfirmedState(c);
    assert [c.Event()][1..] == [];
  }

  lemma ConfirmedState(c: Mining)
    requires c.Ready()
    ensures var after := c.After().desk;
            && Accepts(c.S(), c.Event()) && Confirms(c.S(), c.Event())
            && HandleTradeEvent(c.S(), c.Event()) == after.mgr
            && c.base.desk.postings + [PostingFor(c.S(), c.Event())] == after.postings
  {
    hide ApplyTrade, CashAmount;
    FindUnique(c.S().orders, c.i);
    var o := c.S().orders[c.i];
    assert o.(tradeIds := AddTradeId([c.t], c.t)) == o && c.S().orders[c.i := o] == c.S().orders;
  }

  lemma MineScene(ws: seq<World>, ms: seq<Move>, c: Mining) returns (ws': seq<World>, ms': seq<Move>)
    requires c.Ready() && Streamed(ws, ms) && ws[|ms|] == c.base && BetweenPolls(ms) && Clock(ms) <= c.now
    ensures Streamed(ws', ms') && Continues(ws, ms, ws', ms') && ws'[|ms'|] == c.After()
    ensures BetweenPolls(ms') && Clock(ms') == c.now
  {
    hide Possible, Advance, Streamed, Clock, NoneDue;
    StreamedLength(ws, ms);
    Emits(c);
    Transports(c);
    Confirmed(c);
    ws', ms' := GoesOn(ws, ms, ws, ms, c.base, Mines(c.now), c.Emitted());
    ws', ms' := GoesOn(ws, ms, ws', ms', c.Emitted(), Drains, c.Drained());
    ws', ms' := GoesOn(ws, ms, ws', ms', c.Drained(), Publishes, c.Published());
    ws', ms' := GoesOn(ws, ms, ws', ms', c.Published(), TradeTaken, c.After());
  }

  // --------------------------------------------------------------- the snapshot

  /** What a done order still has settling. */
  function Unsettled(o: Order, trades: map<TradeId, Trade>): Micro
    requires o.tradeIds != []
  {
    o.matched - SettledIn(trades)(o.tradeIds[0]) - FailedIn(trades)(o.tradeIds[0])
  }

  lemma DoneSettles(m: Market, o: Order, trades: map<TradeId, Trade>)
    requires |o.tradeIds| == 1 && o.pending == 0 && o.token == m.yesToken
    ensures forall side :: PendingOf(m.yesToken.id, side)(o) == 0
    ensures forall side :: SettlingOf(m.yesToken.id, side, trades)(o) == if o.side == side then Unsettled(o, trades) else 0
  {
    assert o.tradeIds == [o.tradeIds[0]];
    SumOne(o.tradeIds[0], SettledIn(trades));
    SumOne(o.tradeIds[0], FailedIn(trades));
  }

  /** The three orders of the run, or the first of them, in the snapshot. */
  lemma SnapshotOf(m: Market, s: State)
    requires 1 <= |s.orders| <= 3
    requires forall o :: o in s.orders ==> |o.tradeIds| == 1 && o.pending == 0 && o.token == m.yesToken
    ensures var p, xs := BuildPosition(s, m.yesToken.id), s.orders;
            && p.opening == 0 && p.closing == 0 && p.holdingShares == PositionOf(s, m.yesToken.id).shares
            && p.openSettling == Part(xs, 0, Buy, s.trades) + Part(xs, 1, Buy, s.trades) + Part(xs, 2, Buy, s.trades)
            && p.closeSettling == Part(xs, 0, Sell, s.trades) + Part(xs, 1, Sell, s.trades) + Part(xs, 2, Sell, s.trades)
  {
    var xs, token := s.orders, m.yesToken.id;
    forall i | 0 <= i < |xs|
      ensures forall side :: PendingOf(token, side)(xs[i]) == 0
      ensures forall side :: SettlingOf(token, side, s.trades)(xs[i]) == Part(xs, i, side, s.trades)
    {
      assert xs[i] in xs;
      DoneSettles(m, xs[i], s.trades);
    }
    SumUpToThree(xs, PendingOf(token, Buy));
    SumUpToThree(xs, PendingOf(token, Sell));
    SumUpToThree(xs, SettlingOf(token, Buy, s.trades));
    SumUpToThree(xs, SettlingOf(token, Sell, s.trades));
  }

  function Part(xs: seq<Order>, i: nat, side: Side, trades: map<TradeId, Trade>): Micro
    requires forall o :: o in xs ==> |o.tradeIds| == 1
  {
    if i < |xs| && xs[i].side == side then Unsettled(xs[i], trades) else 0
  }

  // ------------------------------------------------------------------ the stages

  /** Manager and store know exactly these orders and trades. */
  ghost predicate Knows(s: State, st: Store, ids: seq<OrderId>, ts: seq<TradeId>) {
    && |s.orders| == |ids| && (forall i :: 0 <= i < |ids| ==> s.orders[i].id == ids[i])
    && st.orderIds == ids && (forall id :: id in st.orders <==> id in ids)
    && st.tradeIds == ts && (forall t :: t in st.trades <==> t in ts) && (forall t :: t in s.trades <==> t in ts)
    && st.pending == [] && (forall id :: id in ids ==> st.orders[id].status == Matched)
  }

  /** The trade is a success and counts in full, and the exchange has mined it. */
  ghost predicate SettledFor(s: State, st: Store, t: TradeId, shares: Micro) {
    && t in s.trades && t in st.trades && st.trades[t].status == Mined
    && SettledIn(s.trades)(t) == shares && FailedIn(s.trades)(t) == 0
  }

  lemma KnowsNews(c: Scene, ids: seq<OrderId>, ts: seq<TradeId>)
    requires Still(c.base) && c.id !in c.base.desk.submits && c.id !in c.base.submitted
    requires Knows(c.S(), c.base.store, ids, ts) && c.id !in ids && c.t !in ts
    requires c.M().WellFormed() && c.shares > 0
    ensures c.News() && Still(c.After())
    ensures Knows(c.DoneState(), c.FilledStore(), ids + [c.id], ts + [c.t])
  {
  }

  /** What a fill leaves behind: one more done order, its trade known and not settled. */
  lemma AfterFill(c: Scene, ids: seq<OrderId>, ts: seq<TradeId>)
    requires Still(c.base) && c.id !in c.base.desk.submits && c.id !in c.base.submitted
    requires Knows(c.S(), c.base.store, ids, ts) && c.id !in ids && c.t !in ts
    requires c.M().WellFormed() && c.shares > 0
    ensures var s, st := c.DoneState(), c.FilledStore();
            && Knows(s, st, ids + [c.id], ts + [c.t]) && s.orders == c.S().orders + [c.DoneOrder()]
            && s.positions == c.S().positions && s.trades[c.t] == c.KnownTrade() && st.trades[c.t] == c.MadeTrade()
            && SettledIn(s.trades)(c.t) == 0 && FailedIn(s.trades)(c.t) == 0
            && (forall u, shares :: u in ts && SettledFor(c.S(), c.base.store, u, shares) ==> SettledFor(s, st, u, shares))
            && (forall u :: u in ts ==> s.trades[u] == c.S().trades[u] && st.trades[u] == c.base.store.trades[u])
  {
    KnowsNews(c, ids, ts);
  }

  /** What mining leaves behind: the trade settled and the holding up by its shares. */
  lemma AfterMine(c: Mining, ids: seq<OrderId>, ts: seq<TradeId>, shares: Micro)
    requires c.Ready() && Knows(c.S(), c.base.store, ids, ts)
    requires c.base.store.trades[c.t].shares == shares > DUST && c.S().trades[c.t].side == Buy
    requires PositionOf(c.S(), c.M().yesToken.id).shares >= 0
    ensures var s, st := c.After().desk.mgr, c.After().store;
            && Knows(s, st, ids, ts) && s.orders == c.S().orders && SettledFor(s, st, c.t, shares)
            && PositionOf(s, c.M().yesToken.id).shares == PositionOf(c.S(), c.M().yesToken.id).shares + shares
            && (forall u :: u in ts && u != c.t ==> s.trades[u] == c.S().trades[u] && st.trades[u] == c.base.store.trades[u])
  {
    hide ApplyTrade, CashAmount, OnlyDue;
    var e := c.Event();
    Gains(PositionOf(c.S(), c.M().yesToken.id), CashAmount(c.M(), e.side, e.role, e.shares, e.price), shares);
  }

  lemma Gains(p: Position, amount: Micro, shares: Micro)
    requires p.shares >= 0 && shares > DUST
    ensures ApplyTrade(p, Buy, amount, shares).shares == p.shares + shares
  {
  }

  lemma PlaceScene(ws: seq<World>, ms: seq<Move>, c: Scene, want: Micro) returns (ws': seq<World>, ms': seq<Move>)
    requires c.News() && c.base.desk.engine == Idle && Streamed(ws, ms) && ws[|ms|] == c.base && BetweenPolls(ms)
    requires DecideOn(c.S(), Wish(c.M(), want), false) == Place(c.side, Taker, Price(c.side), c.shares)
    ensures Streamed(ws', ms') && ws <= ws' && ws'[|ms'|] == c.Stored() && BetweenPolls(ms') && Clock(ms') == Clock(ms)
    ensures ms' == ms + [Internal(Observe(Wish(c.M(), want), false)), Internal(CreateReturns(c.id))]
    ensures Buying(ws'[|ms| + 1].desk, c.side, c.shares)
    ensures ws'[|ms| + 1].desk.market == c.M() && ws'[|ms| + 1].desk.closed == c.base.desk.closed
  {
    hide Possible, Advance, DecideOn, NextEngine, Clock, Streamed;
    StreamedLength(ws, ms);
    Decided(c.base, want, c.side, c.shares);
    var look, store := Internal(Observe(Wish(c.M(), want), false)), Internal(CreateReturns(c.id));
    var engine := NextEngine(c.base.desk, look.action);
    Places(c, engine);
    ws', ms' := Goes(ws, ms, c.base, look, c.base.(desk := c.base.desk.(engine := engine)));
    ws', ms' := Goes(ws', ms', c.base.(desk := c.base.desk.(engine := engine)), store, c.Stored());
  }

  /** An order is placed, stored, filled and its trade known. */
  lemma OrderScene(ws: seq<World>, ms: seq<Move>, c: Scene, want: Micro) returns (ws': seq<World>, ms': seq<Move>)
    requires c.News() && c.Alone() && c.base.desk.engine == Idle
    requires Streamed(ws, ms) && ws[|ms|] == c.base && BetweenPolls(ms) && Clock(ms) <= c.at
    requires DecideOn(c.S(), Wish(c.M(), want), false) == Place(c.side, Taker, Price(c.side), c.shares)
    ensures Streamed(ws', ms') && ws <= ws' && |ms'| > |ms| + 2 && ws'[|ms'|] == c.After()
    ensures BetweenPolls(ms') && Clock(ms') == FilledAt(c.at)
    ensures ms'[..|ms| + 2] == ms + [Internal(Observe(Wish(c.M(), want), false)), Internal(CreateReturns(c.id))]
    ensures forall i :: |ms| + 2 <= i < |ms'| ==> !ms'[i].Internal?
    ensures Buying(ws'[|ms| + 1].desk, c.side, c.shares)
    ensures ws'[|ms| + 1].desk.market == c.M() && ws'[|ms| + 1].desk.closed == c.base.desk.closed
  {
    hide Streamed, DecideOn, Clock, BetweenPolls, Scene.News, Scene.Alone, Scene.After, Scene.Stored;
    StreamedLength(ws, ms);
    var ws1, ms1 := PlaceScene(ws, ms, c, want);
    ws', ms' := FillScene(ws1, ms1, c);
    assert ms1 <= ms';
  }

  /** The trade is known and due on both sides, and nothing of it has settled. */
  ghost predicate Pending(m: Market, s: State, st: Store, id: OrderId, side: Side, shares: Micro, t: TradeId, at: int) {
    && t in s.trades && s.trades[t] == KnownOf(m, id, side, shares, t)
    && t in st.trades && st.trades[t] == MadeOf(m, id, side, shares, t, at)
  }

  /** What every scene starts from and leads to. */
  datatype Stage = Stage(ws: seq<World>, ms: seq<Move>, w: World) {
    ghost predicate Reached(m: Market, ids: seq<OrderId>, ts: seq<TradeId>) {
      && Streamed(ws, ms) && ws[|ms|] == w && BetweenPolls(ms) && w.desk.market == m && m.WellFormed()
      && Calm(w) && Knows(w.desk.mgr, w.store, ids, ts)
    }

    function S(): State { w.desk.mgr }

    function St(): Store { w.store }

    function Holding(m: Market): Micro { PositionOf(S(), m.yesToken.id).shares }
  }

  ghost predicate SameTrade(g: Stage, h: Stage, u: TradeId) {
    && u in g.S().trades && u in h.S().trades && h.S().trades[u] == g.S().trades[u]
    && u in g.St().trades && u in h.St().trades && h.St().trades[u] == g.St().trades[u]
  }

  /** The run of `h` goes on from that of `g` by deciding on an order and storing it; nothing else is internal. */
  ghost predicate OneOrder(g: Stage, h: Stage, want: Micro, side: Side, shares: Micro, id: OrderId) {
    && |g.ws| == |g.ms| + 1 && |h.ws| == |h.ms| + 1 && |h.ms| > |g.ms| + 2 && g.ws <= h.ws
    && h.ms[..|g.ms| + 2] == g.ms + [Internal(Observe(Wish(g.w.desk.market, want), false)), Internal(CreateReturns(id))]
    && (forall i :: |g.ms| + 2 <= i < |h.ms| ==> !h.ms[i].Internal?)
    && Buying(h.ws[|g.ms| + 1].desk, side, shares) && h.ws[|g.ms| + 1].desk.market == g.w.desk.market
    && h.ws[|g.ms| + 1].desk.closed == g.w.desk.closed == h.w.desk.closed
  }

  /** A fill settles nothing: its own trade is pending, and the others are what they were. */
  lemma TradesAfter(c: Scene, u: TradeId, shares: Micro)
    requires u != c.t && SettledFor(c.S(), c.base.store, u, shares)
    ensures SettledFor(c.DoneState(), c.FilledStore(), u, shares)
    ensures Pending(c.M(), c.DoneState(), c.FilledStore(), c.id, c.side, c.shares, c.t, c.at)
  {
  }

  lemma ReachedAfter(c: Scene, ids: seq<OrderId>, ts: seq<TradeId>, h: Stage)
    requires Calm(c.base) && !c.late && Knows(c.S(), c.base.store, ids, ts) && c.id !in ids && c.t !in ts
    requires c.M().WellFormed() && c.shares > 0
    requires h.w == c.After() && Streamed(h.ws, h.ms) && h.ws[|h.ms|] == h.w && BetweenPolls(h.ms)
    ensures h.Reached(c.M(), ids + [c.id], ts + [c.t])
  {
    hide Knows, Streamed, BetweenPolls, Scene.News, Scene.DoneState, Scene.FilledStore;
    KnowsNews(c, ids, ts);
  }

  lemma KnowsAlone(c: Scene, ids: seq<OrderId>, ts: seq<TradeId>)
    requires Knows(c.S(), c.base.store, ids, ts) && NothingDue(c.base.store, FilledAt(c.at))
    ensures c.Alone()
  {
  }

  /** One more order with its fill. */
  lemma BuysOrSells(m: Market, g: Stage, ids: seq<OrderId>, ts: seq<TradeId>, want: Micro,
                    id: OrderId, side: Side, shares: Micro, t: TradeId, at: int) returns (h: Stage)
    requires g.Reached(m, ids, ts) && id !in ids && t !in ts && shares > 0
    requires Clock(g.ms) <= at && NothingDue(g.St(), FilledAt(at))
    requires DecideOn(g.S(), Wish(m, want), false) == Place(side, Taker, Price(side), shares)
    ensures h.Reached(m, ids + [id], ts + [t]) && h.S().orders == g.S().orders + [DoneOf(m, id, side, shares, t)]
    ensures h.Holding(m) == g.Holding(m) && Pending(m, h.S(), h.St(), id, side, shares, t, at)
    ensures forall u :: u in ts ==> SameTrade(g, h, u)
    ensures OneOrder(g, h, want, side, shares, id) && Clock(h.ms) == FilledAt(at)
  {
    hide Streamed, DecideOn, Clock, BetweenPolls, Scene.Alone;
    var c := Scene(g.w, id, side, shares, t, at, false);
    KnowsNews(c, ids, ts);
    KnowsAlone(c, ids, ts);
    AfterFill(c, ids, ts);
    StreamedLength(g.ws, g.ms);
    var ws, ms := OrderScene(g.ws, g.ms, c, want);
    StreamedLength(ws, ms);
    h := Stage(ws, ms, c.After());
    ReachedAfter(c, ids, ts, h);
  }

  ghost predicate AllMined(st: Store) {
    forall u :: u in st.trades ==> st.trades[u].status == Mined
  }

  /** Every trade but `t` is mined. */
  ghost predicate OthersMined(st: Store, ts: seq<TradeId>, t: TradeId) {
    forall u :: u in ts && u != t ==> u in st.trades && st.trades[u].status == Mined
  }

  /** The pending trade of the order at `i` is ready to be mined. */
  lemma PendingReady(k: Mining, ids: seq<OrderId>, ts: seq<TradeId>, side: Side, shares: Micro, at: int)
    requires Still(k.base) && Knows(k.S(), k.base.store, ids, ts) && k.i < |ids| && k.t in ts
    requires k.S().orders[k.i] == DoneOf(k.M(), ids[k.i], side, shares, k.t)
    requires Pending(k.M(), k.S(), k.base.store, ids[k.i], side, shares, k.t, at) && MinedAt(at) <= k.now
    requires forall j, n :: 0 <= j < n < |ids| ==> ids[j] != ids[n]
    requires forall j, n :: 0 <= j < n < |ts| ==> ts[j] != ts[n]
    requires OthersMined(k.base.store, ts, k.t)
    ensures k.Ready()
  {
  }

  /** The pending buy of the order at `i` is mined, the others being so. */
  lemma MinesBuy(m: Market, g: Stage, ids: seq<OrderId>, ts: seq<TradeId>, i: nat, shares: Micro, t: TradeId, at: int)
    returns (h: Stage)
    requires g.Reached(m, ids, ts) && i < |ids| && t in ts && shares > DUST && g.Holding(m) >= 0
    requires Clock(g.ms) <= MinedAt(at)
    requires g.S().orders[i] == DoneOf(m, ids[i], Buy, shares, t) && Pending(m, g.S(), g.St(), ids[i], Buy, shares, t, at)
    requires forall j, k :: 0 <= j < k < |ids| ==> ids[j] != ids[k]
    requires forall j, k :: 0 <= j < k < |ts| ==> ts[j] != ts[k]
    requires OthersMined(g.St(), ts, t)
    ensures h.Reached(m, ids, ts) && h.S().orders == g.S().orders && SettledFor(h.S(), h.St(), t, shares)
    ensures h.Holding(m) == g.Holding(m) + shares
    ensures forall u :: u in ts && u != t ==> SameTrade(g, h, u)
    ensures Continues(g.ws, g.ms, h.ws, h.ms) && h.w.desk.closed == g.w.desk.closed && Clock(h.ms) == MinedAt(at)
  {
    hide Streamed, ApplyTrade, CashAmount, Clock, BetweenPolls, ApplyPosting, Mining.Ready, OthersMined;
    var k := Mining(g.w, i, t, MinedAt(at));
    PendingReady(k, ids, ts, Buy, shares, at);
    AfterMine(k, ids, ts, shares);
    var ws, ms := MineScene(g.ws, g.ms, k);
    h := Stage(ws, ms, k.After());
  }

  lemma Starts(m: Market) returns (g: Stage)
    requires m.WellFormed()
    ensures g.Reached(m, [], []) && g.S() == EMPTY && g.Holding(m) == 0 && !g.w.desk.closed && Clock(g.ms) == 0
    ensures g.St() == EMPTY_STORE
  {
    var desk := Desk(m, EMPTY, map[], multiset{}, Idle, [], false);
    var w := World(desk, EMPTY_STORE, Idle1000(), Idle1000(), [], [], map[], map[], []);
    g := Stage([w], [], w);
  }

  /** Some shares are bought at once and held, a quarter of a second after their fill. */
  lemma Holds(m: Market, a: OrderId, ta: TradeId, shares: Micro) returns (g: Stage)
    requires m.WellFormed() && shares >= SHARES_GAP
    ensures g.Reached(m, [a], [ta]) && g.S().orders == [DoneOf(m, a, Buy, shares, ta)]
    ensures SettledFor(g.S(), g.St(), ta, shares) && g.Holding(m) == shares && !g.w.desk.closed
    ensures Clock(g.ms) == MinedAt(0) && AllMined(g.St())
  {
    hide Stage.Reached, DecideOn, Clock;
    g := Starts(m);
    Decides(EMPTY, m, shares, Buy, shares);
    g := BuysOrSells(m, g, [], [], shares, a, Buy, shares, ta, 0);
    assert [] + [a] == [a] && [] + [ta] == [ta] && [] + [DoneOf(m, a, Buy, shares, ta)] == [DoneOf(m, a, Buy, shares, ta)];
    g := MinesBuy(m, g, [a], [ta], 0, shares, ta, 0);
    SoleMined(g, m, a, ta, shares);
  }

  lemma SoleMined(g: Stage, m: Market, a: OrderId, ta: TradeId, shares: Micro)
    requires g.Reached(m, [a], [ta]) && SettledFor(g.S(), g.St(), ta, shares)
    ensures AllMined(g.St())
  {
  }

  lemma SettledStays(g: Stage, h: Stage, u: TradeId, shares: Micro)
    requires SameTrade(g, h, u) && SettledFor(g.S(), g.St(), u, shares)
    ensures SettledFor(h.S(), h.St(), u, shares)
  {
  }
}
