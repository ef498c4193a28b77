/**
 No oversell: until settlement, the shares claimed by sells and by a sell about
 to be stored never exceed the holding, whatever the interleaving.
 */
module WorldSafety {
  import opened Desk
  import opened Domain
  import opened Engine
  import opened Ledger
  import opened Manager
  import opened MockStore
  import opened Orders
  import opened Positions
  import opened Rounding
  import opened Seqs
  import opened Settlement
  import opened World
  import opened WorldKeepsLinks
  import opened WorldLinks
  import opened WorldTrades

  /** Shares that pending and settling sells will take. */
  function Claim(s: State, token: TokenId): Micro {
    BuildPosition(s, token).closing + BuildPosition(s, token).closeSettling
  }

  /** Shares the engine is about to offer. */
  function Reserve(engine: EngineStage, token: TokenId): Micro {
    if engine.Creating? && engine.side == Sell && engine.token.id == token then engine.shares else 0
  }

  ghost predicate AllCovered(d: Desk) {
    forall token :: Claim(d.mgr, token) + Reserve(d.engine, token) <= PositionOf(d.mgr, token).shares
  }

  ghost predicate NoOversell(d: Desk) {
    !d.closed ==> AllCovered(d)
  }

  function ClaimOf(token: TokenId, trades: map<TradeId, Trade>): Order -> Micro {
    (o: Order) => if o.token.id == token && o.side == Sell then o.pending + Settling(o, trades) else 0
  }

  /** An order's claim is all of its shares or nothing. */
  lemma ClaimWhole(w: World, i: nat)
    requires Coherent(w) && i < |w.desk.mgr.orders|
    ensures var o, trades := w.desk.mgr.orders[i], w.desk.mgr.trades;
            && OnChainFailed(o, trades) == 0
            && (o.pending + Settling(o, trades) == 0 || o.pending + Settling(o, trades) == o.shares)
            && o.shares >= SHARES_GAP
  {
    hide Protocol, EngineOk, LogOk, EventsOk, FeedOk, StoreTracked, AnswersOk, TradeLog, Replayed, Balanced;
    var o, trades := w.desk.mgr.orders[i], w.desk.mgr.trades;
    assert Linked(w.desk.market, w.store, o);
    if o.tradeIds != [] {
      var t := o.tradeIds[0];
      assert OrderOk(w.store, o.id, w.store.orders[o.id]);
      assert o.tradeIds == [t];
      assert TradeOk(w.store, t, w.store.trades[t]);
      assert OwnsTrades(o, trades) && t in o.tradeIds;
      assert TradeKnown(trades, w.store.trades, t);
      assert [] + [t] == [t];
      SumAppend([], t, SettledIn(trades));
      SumAppend([], t, FailedIn(trades));
    }
  }

  lemma ClaimIsSum(s: State, token: TokenId)
    ensures Claim(s, token) == Sum(s.orders, ClaimOf(token, s.trades))
  {
    SumPlus(s.orders, PendingOf(token, Sell), SettlingOf(token, Sell, s.trades), ClaimOf(token, s.trades));
  }

  /** Claims are never negative, and below the gap they vanish. */
  lemma ClaimGap(w: World, token: TokenId)
    requires Coherent(w)
    ensures Claim(w.desk.mgr, token) >= 0
    ensures Claim(w.desk.mgr, token) < SHARES_GAP ==> Claim(w.desk.mgr, token) == 0
  {
    var s := w.desk.mgr;
    var f := ClaimOf(token, s.trades);
    forall o | o in s.orders
      ensures f(o) == 0 || f(o) >= SHARES_GAP
    {
      var i :| 0 <= i < |s.orders| && s.orders[i] == o;
      ClaimWhole(w, i);
    }
    ClaimIsSum(s, token);
    SumNonNegative(s.orders, f);
    if Claim(s, token) < SHARES_GAP { SumBelowGap(s.orders, f, SHARES_GAP); }
  }

  /** In balanced books a claim is the stake of the sells less what they have sold. */
  lemma ClaimByStake(d: Desk, token: TokenId)
    requires InBooks(d)
    ensures Claim(d.mgr, token) == Stake(d.mgr, token, Sell) - Replay(d.postings, token).books.sold
    ensures PositionOf(d.mgr, token) == Replay(d.postings, token).pos
  {
    StakeSplits(d.mgr, token, Sell);
  }

  // ---------------------------------------------------------------- the moves

  /** Steps on orders never raise what one commits, and keep it once nothing is pending. */
  lemma StepCommits(w: World, m: Move, after: seq<Order>, i: nat)
    requires Possible(w, m) && Links(w) && DeskAction(w, m).Some?
    requires OrdersFollow(w.desk, DeskAction(w, m).value, after) && i < |w.desk.mgr.orders|
    ensures Committed(after[i]) <= Committed(w.desk.mgr.orders[i])
    ensures w.desk.mgr.orders[i].pending == 0 ==>
              Committed(after[i]) == Committed(w.desk.mgr.orders[i]) && after[i].pending == 0
    ensures after[i].token == w.desk.mgr.orders[i].token && after[i].side == w.desk.mgr.orders[i].side
  {
    var o, step := w.desk.mgr.orders[i], StepOf(w.desk, DeskAction(w, m).value);
    assert Linked(w.desk.market, w.store, o);
    if step.Some? && Find(w.desk.mgr.orders, step.value.0) == i {
      ActionTruthful(w, m, o);
      StepKeepsCommitted(w.desk.market, w.store, o, step.value.1);
    } else {
      assert SameButTrades(o, after[i]);
    }
  }

  ghost predicate OrderStepMove(w: World, m: Move)
    requires Possible(w, m)
  {
    DeskAction(w, m).Some? && m != TradeTaken && !DeskAction(w, m).value.CreateReturns? && !DeskAction(w, m).value.Settles?
  }

  /** What an order-level move leaves alone. */
  lemma OrderMoveKeepsRest(w: World, m: Move)
    requires Possible(w, m) && OrderStepMove(w, m)
    ensures var a := DeskAction(w, m).value;
            && NextManager(w.desk, a).trades == w.desk.mgr.trades
            && NextManager(w.desk, a).positions == w.desk.mgr.positions
            && NextPostings(w.desk, a) == w.desk.postings
  {
    hide HandleTradeEvent, DecideOn, OnOrderEvent, SettleMarket, CancelAnswerOf;
  }

  ghost predicate NothingPending(orders: seq<Order>, token: TokenId) {
    forall i :: 0 <= i < |orders| && orders[i].token.id == token ==> orders[i].pending == 0
  }

  lemma StakesFollow(w: World, m: Move, t: State, token: TokenId, side: Side)
    requires Possible(w, m) && Links(w) && DeskAction(w, m).Some?
    requires OrdersFollow(w.desk, DeskAction(w, m).value, t.orders) && |t.orders| == |w.desk.mgr.orders|
    requires t.trades == w.desk.mgr.trades
    requires forall i :: 0 <= i < |t.orders| ==> t.orders[i].tradeIds == w.desk.mgr.orders[i].tradeIds
    ensures Stake(t, token, side) <= Stake(w.desk.mgr, token, side)
    ensures NothingPending(w.desk.mgr.orders, token) ==>
              Stake(t, token, side) == Stake(w.desk.mgr, token, side) && NothingPending(t.orders, token)
  {
    var s := w.desk.mgr;
    var f := StakeOf(token, side, s.trades);
    forall j | 0 <= j < |s.orders|
      ensures f(t.orders[j]) <= f(s.orders[j])
      ensures s.orders[j].pending == 0 ==> f(t.orders[j]) == f(s.orders[j]) && t.orders[j].pending == 0
      ensures s.orders[j].token.id != token ==> f(t.orders[j]) == f(s.orders[j])
      ensures t.orders[j].token == s.orders[j].token
    {
      StepCommits(w, m, t.orders, j);
      assert OnChainFailed(s.orders[j], s.trades) == OnChainFailed(t.orders[j], t.trades);
    }
    SumMonotone(s.orders, t.orders, f, f);
    if NothingPending(s.orders, token) { SumSame(s.orders, t.orders, f, f); }
  }

  lemma OrderMoveStakes(w: World, m: Move, token: TokenId, side: Side)
    requires Possible(w, m) && Links(w) && OrderStepMove(w, m)
    ensures var t := NextManager(w.desk, DeskAction(w, m).value);
            && Stake(t, token, side) <= Stake(w.desk.mgr, token, side)
            && (NothingPending(w.desk.mgr.orders, token) ==>
                  Stake(t, token, side) == Stake(w.desk.mgr, token, side) && NothingPending(t.orders, token))
  {
    var a := DeskAction(w, m).value;
    OrdersAfter(w.desk, a);
    TradeIdsKept(w.desk, a);
    OrderMoveKeepsRest(w, m);
    StakesFollow(w, m, NextManager(w.desk, a), token, side);
  }

  /** The engine reserves no more than it saw unclaimed. */
  lemma ObserveReserves(w: World, m: Move, token: TokenId)
    requires Possible(w, m) && Coherent(w) && OrderStepMove(w, m) && AllCovered(w.desk)
    ensures Claim(w.desk.mgr, token) + Reserve(NextEngine(w.desk, DeskAction(w, m).value), token)
         <= PositionOf(w.desk.mgr, token).shares
  {
    hide Protocol, Links, LogOk, Deliveries, InBooks, ActiveOrder, PendingShares, SettlingShares;
    var a := DeskAction(w, m).value;
    if a.Observe? && DecideOn(w.desk.mgr, a.desired, a.aged).Place? {
      PlacesTowardsTarget(w.desk.mgr, a.desired, a.aged);
    }
  }

  lemma OrderMoveSafe(w: World, m: Move)
    requires Possible(w, m) && Coherent(w) && Coherent(Advance(w, m)) && OrderStepMove(w, m) && AllCovered(w.desk)
    ensures AllCovered(Advance(w, m).desk)
  {
    var d, d' := w.desk, NextDesk(w, m);
    OrderMoveKeepsRest(w, m);
    forall token
      ensures Claim(d'.mgr, token) + Reserve(d'.engine, token) <= PositionOf(d'.mgr, token).shares
    {
      ObserveReserves(w, m, token);
      OrderMoveStakes(w, m, token, Sell);
      ClaimByStake(d, token);
      ClaimByStake(d', token);
    }
  }

  lemma CreateStakes(d: Desk, a: Action, token: TokenId, side: Side)
    requires Enabled(d, a) && a.CreateReturns?
    ensures Stake(NextManager(d, a), token, side) == Stake(d.mgr, token, side)
          + (if d.engine.token.id == token && d.engine.side == side then d.engine.shares else 0)
    ensures NextManager(d, a).trades == d.mgr.trades && NextManager(d, a).positions == d.mgr.positions
  {
    var c := d.engine;
    var o := NewOrder(a.id, d.market, c.token, c.side, c.role, c.price, c.shares);
    SumAppend(d.mgr.orders, o, StakeOf(token, side, d.mgr.trades));
  }

  lemma CreateSafe(w: World, m: Move)
    requires Possible(w, m) && Coherent(w) && Coherent(Advance(w, m)) && AllCovered(w.desk)
    requires m.Internal? && m.action.CreateReturns?
    ensures AllCovered(Advance(w, m).desk)
  {
    hide Protocol, EngineOk, Links, LogOk, Deliveries, InBooks, Claim, Stake, Replay;
    var d, d' := w.desk, NextDesk(w, m);
    forall token
      ensures Claim(d'.mgr, token) + Reserve(d'.engine, token) <= PositionOf(d'.mgr, token).shares
    {
      CreateStakes(d, m.action, token, Sell);
      ClaimByStake(d, token);
      ClaimByStake(d', token);
      assert PositionOf(d'.mgr, token) == PositionOf(d.mgr, token);
      assert Claim(d.mgr, token) + Reserve(d.engine, token) <= PositionOf(d.mgr, token).shares;
    }
  }

  /** What handling the next trade event does to one token's books. */
  lemma TradeTakenBooks(w: World, token: TokenId)
    requires Coherent(w) && w.tradeQueue.items != []
    ensures var e := w.tradeQueue.items[0];
            var before, after := Replay(w.desk.postings, token), Replay(TradePostings(w.desk.mgr, w.desk.postings, e), token);
            && Accepts(w.desk.mgr, e)
            && (forall side :: Stake(HandleTradeEvent(w.desk.mgr, e), token, side) == Stake(w.desk.mgr, token, side))
            && e.shares >= SHARES_GAP
            && (if e.status == Mined && e.tokenId == token
                then after == Post(before, PostingFor(w.desk.mgr, e))
                     && PostingFor(w.desk.mgr, e).side == e.side && PostingFor(w.desk.mgr, e).shares == e.shares
                else after == before)
  {
    hide Protocol, Links, LogOk, Stake, Post, Replay, Replayed, TradesConsistent, Balanced;
    var e, s := w.tradeQueue.items[0], w.desk.mgr;
    NextEvent(w);
    MockTradesStable(w);
    TradeFindsOrder(w, e);
    if e.tradeId in s.trades { assert TradeKnown(s.trades, w.store.trades, e.tradeId); }
    forall side
      ensures Stake(HandleTradeEvent(s, e), token, side) == Stake(s, token, side)
    {
      StakeMoves(s, e, token, side);
    }
    if Confirms(s, e) { ReplayAppend(w.desk.postings, PostingFor(s, e), token); }
  }

  /** How one posting moves the holding and the write-offs. */
  lemma FillMoves(a: Account, p: Posting)
    requires p.Fill?
    ensures var b := Post(a, p);
            var raw := if p.side == Buy then a.pos.shares + p.shares else a.pos.shares - p.shares;
            && b.pos.shares == (if raw <= DUST then 0 else raw)
            && b.books.dropped == a.books.dropped + (if raw <= DUST then raw else 0)
            && b.books.sold == a.books.sold + (if p.side == Sell then p.shares else 0)
            && b.books.paid == a.books.paid
  {
  }

  /**
   A confirmed fill keeps claim and reserve within the holding: what a sell takes it had
   claimed, and the dust clamp strikes only when nothing is claimed any more.
   */
  lemma FillCovers(a: Account, p: Posting, claim: Micro, reserve: Micro)
    requires p.Fill? && p.shares >= SHARES_GAP
    requires claim + reserve <= a.pos.shares && (reserve == 0 || reserve >= SHARES_GAP)
    requires var left := if p.side == Sell then claim - p.shares else claim;
             claim >= 0 && left >= 0 && (left < SHARES_GAP ==> left == 0)
    ensures var b := Post(a, p);
            var left := claim - (b.books.sold - a.books.sold);
            var written := b.books.dropped - a.books.dropped;
            && left + reserve <= b.pos.shares
            && 0 <= written <= DUST
            && (written > 0 ==> left == 0 && claim > 0 && reserve == 0)
  {
    FillMoves(a, p);
  }

  lemma TradeTakenCovers(w: World, token: TokenId)
    requires Possible(w, TradeTaken) && Coherent(w) && Coherent(Advance(w, TradeTaken))
    requires Claim(w.desk.mgr, token) + Reserve(w.desk.engine, token) <= PositionOf(w.desk.mgr, token).shares
    ensures var d, d' := w.desk, NextDesk(w, TradeTaken);
            var written := Dropped(d'.postings, token) - Dropped(d.postings, token);
            && Claim(d'.mgr, token) + Reserve(d.engine, token) <= PositionOf(d'.mgr, token).shares
            && 0 <= written <= DUST
            && (written > 0 ==> Claim(d'.mgr, token) == 0 && Claim(d.mgr, token) > 0 && Reserve(d.engine, token) == 0)
            && (Claim(d.mgr, token) == 0 ==> Claim(d'.mgr, token) == 0)
  {
    hide Protocol, InBooks, Links, LogOk, Deliveries, Claim, Stake, Post, Replay, PositionOf;
    var d, d', e := w.desk, NextDesk(w, TradeTaken), w.tradeQueue.items[0];
    ClaimByStake(d, token);
    ClaimByStake(d', token);
    TradeTakenBooks(w, token);
    ClaimGap(w, token);
    ClaimGap(Advance(w, TradeTaken), token);
    if e.status == Mined && e.tokenId == token {
      var p := PostingFor(d.mgr, e);
      FillMoves(Replay(d.postings, token), p);
      FillCovers(Replay(d.postings, token), p, Claim(d.mgr, token), Reserve(d.engine, token));
    }
  }

  lemma TradeTakenSafe(w: World)
    requires Possible(w, TradeTaken) && Coherent(w) && Coherent(Advance(w, TradeTaken)) && AllCovered(w.desk)
    ensures AllCovered(NextDesk(w, TradeTaken))
  {
    hide Coherent, Claim, Reserve;
    forall token
      ensures Claim(NextDesk(w, TradeTaken).mgr, token) + Reserve(w.desk.engine, token)
           <= PositionOf(NextDesk(w, TradeTaken).mgr, token).shares
    {
      TradeTakenCovers(w, token);
    }
  }

  /** The move is a settlement that is carried out. */
  ghost predicate SettlementDone(w: World, m: Move) {
    m.Internal? && SettlesNow(w.desk, m.action)
  }

  lemma MoveKeepsCovered(w: World, m: Move)
    requires Possible(w, m) && Coherent(w) && AllCovered(w.desk) && !SettlementDone(w, m)
    ensures AllCovered(Advance(w, m).desk)
  {
    hide Coherent, AllCovered;
    MoveKeepsCoherent(w, m);
    if m == TradeTaken {
      TradeTakenSafe(w);
    } else if DeskAction(w, m).Some? {
      var a := DeskAction(w, m).value;
      if a.CreateReturns? {
        CreateSafe(w, m);
      } else if !a.Settles? {
        OrderMoveSafe(w, m);
      } else {
        assert NextDesk(w, m) == w.desk;
      }
    }
  }

  // ------------------------------------------------------------------ settlement

  /**
   Nothing is paid out of the token; or no sell is pending, when more than dust is spared;
   or no sell claims anything.
   */
  predicate SparesClaims(s: State, token: TokenId) {
    var p := BuildPosition(s, token);
    !Pays(PositionOf(s, token), p.closeSettling) || (if p.closeSettling > DUST then p.closing <= 0 else Claim(s, token) == 0)
  }

  ghost predicate SparesAllClaims(w: World) {
    forall token :: OfMarket(w.desk.market, token) ==> SparesClaims(w.desk.mgr, token)
  }

  lemma PayoutCoversIff(s: State, m: Market, outcome: string, token: TokenId)
    requires m.WellFormed() && OfMarket(m, token) && SettleMarket(s, m, outcome).Settled?
    requires 0 <= Claim(s, token) <= PositionOf(s, token).shares
    ensures Claim(s, token) <= PositionOf(SettleMarket(s, m, outcome).state, token).shares <==> SparesClaims(s, token)
  {
    hide SettleMarket, SettlingShares, PendingShares;
    MarketSettlesToken(s, m, outcome, token);
  }

  lemma OtherTokensUnpaid(s: State, m: Market, outcome: string, token: TokenId)
    requires !OfMarket(m, token) && SettleMarket(s, m, outcome).Settled?
    ensures PositionOf(SettleMarket(s, m, outcome).state, token) == PositionOf(s, token)
  {
  }

  lemma ClaimByOrders(s: State, t: State, token: TokenId)
    requires s.orders == t.orders && s.trades == t.trades
    ensures Claim(s, token) == Claim(t, token)
  {
  }

  /** Settlement keeps every claim covered if and only if it spares the claims of both tokens. */
  lemma SettlementCoversIff(w: World, m: Move)
    requires Possible(w, m) && Coherent(w) && AllCovered(w.desk) && SettlementDone(w, m)
    ensures AllCovered(Advance(w, m).desk) <==> SparesAllClaims(w)
  {
    hide SettleMarket, Claim, SparesClaims, Protocol, InBooks, Links, LogOk, Deliveries;
    var d, outcome := w.desk, m.action.outcome;
    var after := SettleMarket(d.mgr, d.market, outcome).state;
    SettlementKeepsOrders(d.mgr, d.market, outcome);
    forall token
      ensures Claim(after, token) <= PositionOf(after, token).shares <==> !OfMarket(d.market, token) || SparesClaims(d.mgr, token)
    {
      ClaimByOrders(d.mgr, after, token);
      ClaimGap(w, token);
      assert Claim(d.mgr, token) + Reserve(d.engine, token) <= PositionOf(d.mgr, token).shares;
      if OfMarket(d.market, token) {
        PayoutCoversIff(d.mgr, d.market, outcome, token);
      } else {
        OtherTokensUnpaid(d.mgr, d.market, outcome, token);
      }
    }
    CoveredWhenIdle(NextDesk(w, m));
  }

  lemma CoveredWhenIdle(d: Desk)
    requires d.engine == Idle
    ensures AllCovered(d) <==> forall token :: Claim(d.mgr, token) <= PositionOf(d.mgr, token).shares
  {
    hide Claim;
    if AllCovered(d) {
      forall token
        ensures Claim(d.mgr, token) <= PositionOf(d.mgr, token).shares
      {
        assert Claim(d.mgr, token) + Reserve(d.engine, token) <= PositionOf(d.mgr, token).shares;
      }
    }
  }

  // -------------------------------------------------------------------- histories

  ghost predicate SettlesCovered(w: World, m: Move) {
    SettlementDone(w, m) ==> SparesAllClaims(w)
  }

  lemma MoveCoversIff(ws: seq<World>, ms: seq<Move>, n: nat)
    requires History(ws, ms) && n < |ms| && AllCovered(ws[n].desk)
    ensures AllCovered(ws[n + 1].desk) <==> SettlesCovered(ws[n], ms[n])
  {
    hide Coherent, AllCovered, SparesAllClaims, SettlementDone;
    CoherentReached(ws, ms, n);
    assert Possible(ws[n], ms[n]) && ws[n + 1] == Advance(ws[n], ms[n]);
    if SettlementDone(ws[n], ms[n]) { SettlementCoversIff(ws[n], ms[n]); } else { MoveKeepsCovered(ws[n], ms[n]); }
  }

  lemma {:induction false} CoveredReached(ws: seq<World>, ms: seq<Move>, k: nat)
    requires History(ws, ms) && k < |ws|
    requires forall n :: 0 <= n < k ==> SettlesCovered(ws[n], ms[n])
    ensures AllCovered(ws[k].desk)
  {
    hide AllCovered, SettlesCovered, Possible, Advance;
    if k > 0 {
      CoveredReached(ws, ms, k - 1);
      MoveCoversIff(ws, ms, k - 1);
    } else {
      BeginsCovered(ws[0]);
    }
  }

  lemma BeginsCovered(w: World)
    requires Begins(w)
    ensures AllCovered(w.desk)
  {
  }

  /**
   In every history, in every state, pending and settling sells, together with a sell the
   engine has decided on, claim no more than the holding, if and only if every settlement
   that is carried out spares the claims.
   */
  lemma NeverOversoldIff(ws: seq<World>, ms: seq<Move>)
    requires History(ws, ms)
    ensures (forall k :: 0 <= k < |ws| ==> AllCovered(ws[k].desk))
       <==> (forall n :: 0 <= n < |ms| ==> SettlesCovered(ws[n], ms[n]))
  {
    hide AllCovered, SettlesCovered, Possible, Advance;
    if forall k :: 0 <= k < |ws| ==> AllCovered(ws[k].desk) {
      forall n | 0 <= n < |ms|
        ensures SettlesCovered(ws[n], ms[n])
      {
        MoveCoversIff(ws, ms, n);
        assert AllCovered(ws[n].desk) && AllCovered(ws[n + 1].desk);
      }
    }
    if forall n :: 0 <= n < |ms| ==> SettlesCovered(ws[n], ms[n]) {
      forall k | 0 <= k < |ws|
        ensures AllCovered(ws[k].desk)
      {
        CoveredReached(ws, ms, k);
      }
    }
  }

  /** Settlement is final: a state before an unsettled one is unsettled. */
  lemma {:induction false} StillOpen(ws: seq<World>, ms: seq<Move>, j: nat, k: nat)
    requires History(ws, ms) && j <= k < |ws| && !ws[k].desk.closed
    ensures !ws[j].desk.closed
    decreases k
  {
    if j < k {
      assert Possible(ws[k - 1], ms[k - 1]) && ws[k] == Advance(ws[k - 1], ms[k - 1]);
      StillOpen(ws, ms, j, k - 1);
    }
  }

  lemma SettlingCloses(ws: seq<World>, ms: seq<Move>, n: nat)
    requires History(ws, ms) && n < |ms| && !ws[n + 1].desk.closed
    ensures SettlesCovered(ws[n], ms[n])
  {
    assert Possible(ws[n], ms[n]) && ws[n + 1] == Advance(ws[n], ms[n]);
  }

  /** So before settlement they never claim more; in particular nothing is claimed when nothing is held. */
  lemma NeverOversold(ws: seq<World>, ms: seq<Move>, k: nat)
    requires History(ws, ms) && k < |ws|
    ensures NoOversell(ws[k].desk)
  {
    hide AllCovered, SettlesCovered, Possible, Advance;
    if !ws[k].desk.closed {
      forall n | 0 <= n < k
        ensures SettlesCovered(ws[n], ms[n])
      {
        StillOpen(ws, ms, n + 1, k);
        SettlingCloses(ws, ms, n);
      }
      CoveredReached(ws, ms, k);
    }
  }
}
